/** Version ranges: a disjunction of condition sets, each a conjunction of
    (operator, version) conditions, parsed from expressions such as
    `>=1.2 <2.0-`, `~1.2`, `^0.3 || 1.0, include_prerelease`. */
module VersionRanges {
  import opened Wrappers
  import opened Strings
  import opened Versions

  datatype Op = Lt | Le | Eq | Gt | Ge

  /** One comparison the candidate version must pass. */
  datatype Condition = Condition(op: Op, version: Version)

  /** One `||` alternative: all conditions must hold; `prerelease` says whether
      the alternative admits pre-release versions. */
  datatype ConditionSet = ConditionSet(conditions: seq<Condition>, prerelease: bool)

  /** A parsed range keeps the text it was built from. */
  datatype VersionRange = VersionRange(expression: string, conditionSets: seq<ConditionSet>)

  datatype RangeError =
    | EmptyVersion(expression: string)               // an operator with no version after it
    | MissingVersionAfterOperator(expression: string) // a lone `>` or `<`: the look-ahead runs off the end

  /** The version `0.0.0`, the lower bound of `*` and of the empty sub-expression. */
  const ZeroVersion := Version([0, 0, 0], [])

  /** Index of the first non-zero component, or the length when all are zero. */
  function FirstNonZero(main: seq<nat>): (i: nat)
    ensures i <= |main|
    ensures forall j :: 0 <= j < i ==> main[j] == 0
    ensures i < |main| ==> main[i] != 0
  {
    if main == [] then 0
    else if main[0] != 0 then 0
    else 1 + FirstNonZero(main[1..])
  }

  predicate IsOperatorChar(c: char) {
    c == '>' || c == '<' || c == '^' || c == '~' || c == '='
  }

  /** The comparison a plain (non tilde, non caret) sub-expression compiles to. */
  function ComparisonOp(first: char, orEqual: bool): Op {
    if first == '>' then (if orEqual then Ge else Gt)
    else if first == '<' then (if orEqual then Le else Lt)
    else Eq
  }

  /** `_ConditionSet._parse_expression`: one sub-expression (without its trailing
      `-`) to its conditions. */
  function ParseExpression(expression: string, parse: string -> Version): (r: Result<seq<Condition>, RangeError>)
    ensures r.Ok? ==> 1 <= |r.value| <= 2
  {
    if expression == "" || expression == "*" then Ok([Condition(Ge, ZeroVersion)])
    else
      var first := expression[0];
      var start := if IsOperatorChar(first) then 1 else 0;
      if (first == '>' || first == '<') && |expression| < 2 then
        Err(MissingVersionAfterOperator(expression))
      else
        var orEqual := (first == '>' || first == '<') && expression[1] == '=';
        var body := expression[if orEqual then 2 else start..];
        if body == "" then Err(EmptyVersion(expression))
        else if first == '~' then
          var v := parse(body);
          Ok([Condition(Ge, v), Condition(Lt, UpperBound(v, if |v.main| > 1 then 1 else 0))])
        else if first == '^' then
          var v := parse(body);
          Ok([Condition(Ge, v), Condition(Lt, UpperBound(v, FirstNonZero(v.main)))])
        else
          Ok([Condition(ComparisonOp(first, orEqual), parse(body))])
  }

  /** Parsing fails exactly on an operator with nothing after it; a lone `>` or `<`
      fails by running off the end of the text. */
  lemma ParseErrors(expression: string, parse: string -> Version)
    ensures ParseExpression(expression, parse).Err? <==> expression in [">", "<", "^", "~", "=", ">=", "<="]
    ensures ParseExpression(expression, parse).Err? ==>
      (ParseExpression(expression, parse).error.MissingVersionAfterOperator? <==> expression in [">", "<"])
  {
    if |expression| == 1 {
      assert expression == [expression[0]];
    } else if |expression| == 2 {
      assert expression == [expression[0], expression[1]];
    }
  }

  /** A sub-expression with its trailing `-` (pre-release opt-in) removed, and whether it had one. */
  function StripPrerelease(e: string): (r: (string, bool))
    ensures r.1 <==> (e != [] && e[|e| - 1] == '-')
    ensures r.0 == if r.1 then e[..|e| - 1] else e
  {
    if e != [] && e[|e| - 1] == '-' then (e[..|e| - 1], true) else (e, false)
  }

  /** The condition set that `_ConditionSet.__init__` builds from the words of
      one alternative, processed left to right; the first failing word's error. */
  function ParseConditionSet(words: seq<string>, prerelease: bool, parse: string -> Version): (r: Result<ConditionSet, RangeError>)
    ensures r.Ok? && prerelease ==> r.value.prerelease
    decreases |words|
  {
    if words == [] then Ok(ConditionSet([], prerelease))
    else
      match ParseConditionSet(words[..|words| - 1], prerelease, parse)
      case Err(e) => Err(e)
      case Ok(cs) =>
        var (e, dash) := StripPrerelease(words[|words| - 1]);
        match ParseExpression(e, parse)
        case Err(err) => Err(err)
        case Ok(more) => Ok(ConditionSet(cs.conditions + more, cs.prerelease || dash))
  }

  /** Once a prefix of the words fails, the whole alternative fails with that error. */
  lemma {:induction false} ConditionSetErrorStays(words: seq<string>, k: nat, prerelease: bool, parse: string -> Version)
    requires k <= |words| && ParseConditionSet(words[..k], prerelease, parse).Err?
    ensures ParseConditionSet(words, prerelease, parse) == ParseConditionSet(words[..k], prerelease, parse)
    decreases |words| - k
  {
    if k < |words| {
      assert words[..|words| - 1][..k] == words[..k];
      ConditionSetErrorStays(words[..|words| - 1], k, prerelease, parse);
    } else {
      assert words[..k] == words;
    }
  }

  /** `_ConditionSet.__init__`: split the alternative on whitespace and collect
      the conditions of every sub-expression. */
  method NewConditionSet(expression: string, prerelease: bool, parse: string -> Version)
    returns (r: Result<ConditionSet, RangeError>)
    ensures r == ParseConditionSet(Words(expression), prerelease, parse)
  {
    var expressions := Words(expression);
    var flag := prerelease;
    var conditions: seq<Condition> := [];
    for i := 0 to |expressions|
      invariant ParseConditionSet(expressions[..i], prerelease, parse) == Ok(ConditionSet(conditions, flag))
    {
      assert expressions[..i + 1][..i] == expressions[..i];
      var e := expressions[i];
      if e[|e| - 1] == '-' {
        e := e[..|e| - 1];
        flag := true;
      }
      var parsed := ParseExpression(e, parse);
      if parsed.Err? {
        ConditionSetErrorStays(expressions, i + 1, prerelease, parse);
        return Err(parsed.error);
      }
      conditions := conditions + parsed.value;
    }
    assert expressions[..|expressions|] == expressions;
    return Ok(ConditionSet(conditions, flag));
  }

  /** An alternative admits pre-release versions when one of its words ends in `-`
      or the range asked for them. */
  lemma {:induction false} ConditionSetPrereleaseFlag(words: seq<string>, prerelease: bool, parse: string -> Version)
    requires ParseConditionSet(words, prerelease, parse).Ok?
    ensures ParseConditionSet(words, prerelease, parse).value.prerelease <==>
      prerelease || exists i :: 0 <= i < |words| && StripPrerelease(words[i]).1
    decreases |words|
  {
    if words != [] {
      var init := words[..|words| - 1];
      ConditionSetPrereleaseFlag(init, prerelease, parse);
      forall i | 0 <= i < |init| ensures init[i] == words[i] {}
    }
  }

  /** An alternative of one word is that word's conditions, flagged by its trailing `-`. */
  lemma ParseSingleWord(w: string, prerelease: bool, parse: string -> Version)
    ensures ParseConditionSet([w], prerelease, parse) ==
      match ParseExpression(StripPrerelease(w).0, parse)
      case Err(e) => Err(e)
      case Ok(c) => Ok(ConditionSet(c, prerelease || StripPrerelease(w).1))
  {
    assert [w][..0] == [];
    var (e, dash) := StripPrerelease(w);
    if ParseExpression(e, parse).Ok? {
      assert [] + ParseExpression(e, parse).value == ParseExpression(e, parse).value;
    }
  }

  /** Sub-expression `""` or `"*"` compiles to the single condition `>= 0.0.0`. */
  lemma ParseAnyVersion(parse: string -> Version)
    ensures ParseExpression("", parse) == Ok([Condition(Ge, ZeroVersion)])
    ensures ParseExpression("*", parse) == Ok([Condition(Ge, ZeroVersion)])
  {
  }

  /** `~v` compiles to `>= v` and `< v.upper_bound(1)` (or `upper_bound(0)` for a one-component version). */
  lemma ParseTilde(body: string, parse: string -> Version)
    requires body != ""
    ensures var v := parse(body);
      ParseExpression("~" + body, parse) ==
        Ok([Condition(Ge, v), Condition(Lt, UpperBound(v, if |v.main| > 1 then 1 else 0))])
  {
    assert ("~" + body)[1..] == body;
  }

  /** `^v` compiles to `>= v` and `< v.upper_bound(i)`, `i` the first non-zero component. */
  lemma ParseCaret(body: string, parse: string -> Version)
    requires body != ""
    ensures var v := parse(body);
      ParseExpression("^" + body, parse) ==
        Ok([Condition(Ge, v), Condition(Lt, UpperBound(v, FirstNonZero(v.main)))])
  {
    assert ("^" + body)[1..] == body;
  }

  /** `>=v`, `<=v`, `>v`, `<v`, `=v` compile to their one condition; a version with no operator means `=`. */
  lemma ParseComparison(expression: string, parse: string -> Version)
    requires |expression| >= 1 && expression != "*"
    requires expression[0] != '^' && expression[0] != '~'
    requires expression !in [">", "<", "=", ">=", "<="]
    ensures var first := expression[0];
      var orEqual := (first == '>' || first == '<') && |expression| >= 2 && expression[1] == '=';
      var body := if !IsOperatorChar(first) then expression else expression[if orEqual then 2 else 1..];
      ParseExpression(expression, parse) == Ok([Condition(ComparisonOp(first, orEqual), parse(body))])
  {
    if |expression| == 1 {
      assert expression == [expression[0]];
    } else if |expression| == 2 {
      assert expression == [expression[0], expression[1]];
    }
  }

  /** `Condition` semantics read directly: the candidate against the bound. */
  predicate Holds(c: Condition, v: Version) {
    match c.op
    case Lt => Less(v, c.version)
    case Le => LessEq(v, c.version)
    case Eq => Same(v, c.version)
    case Gt => Less(c.version, v)
    case Ge => LessEq(c.version, v)
  }

  /** The failure test of `_valid`, operator by operator as the source writes it. */
  predicate Violates(c: Condition, v: Version) {
    (c.op == Lt && !(Compare(v, c.version) < 0))
    || (c.op != Lt && c.op == Le && !(Compare(v, c.version) <= 0))
    || (c.op != Lt && c.op != Le && c.op == Eq && Compare(v, c.version) != 0)
    || (c.op != Lt && c.op != Le && c.op != Eq && c.op == Gt && !(Compare(v, c.version) > 0))
    || (c.op != Lt && c.op != Le && c.op != Eq && c.op != Gt && c.op == Ge && !(Compare(v, c.version) >= 0))
  }

  /** The pre-release gate: a pre-release passes when resolution is asked for
      (`Some(true)`), or left open (`None`) and the alternative opted in. */
  predicate PassesGate(cs: ConditionSet, v: Version, resolvePrerelease: Option<bool>) {
    !(v.pre != [] && ((resolvePrerelease.None? && !cs.prerelease)
                      || (resolvePrerelease.Some? && !resolvePrerelease.value)))
  }

  /** `_ConditionSet._valid` */
  predicate IsValid(cs: ConditionSet, v: Version, resolvePrerelease: Option<bool>) {
    PassesGate(cs, v, resolvePrerelease)
    && !(exists i :: 0 <= i < |cs.conditions| && Violates(cs.conditions[i], v))
  }

  /** Past the gate, an alternative accepts exactly when every condition holds. */
  lemma ValidIffAllHold(cs: ConditionSet, v: Version, resolvePrerelease: Option<bool>)
    ensures IsValid(cs, v, resolvePrerelease) <==>
      PassesGate(cs, v, resolvePrerelease) && forall i :: 0 <= i < |cs.conditions| ==> Holds(cs.conditions[i], v)
  {
    forall i | 0 <= i < |cs.conditions| ensures Violates(cs.conditions[i], v) <==> !Holds(cs.conditions[i], v) {
      CompareAntisymmetric(v, cs.conditions[i].version);
    }
  }

  /** The three-valued gate: `Some(false)` always rejects a pre-release, `None`
      defers to the alternative's flag, `Some(true)` goes on to the conditions;
      a release version is never stopped by it. */
  lemma PrereleaseGate(cs: ConditionSet, v: Version)
    ensures v.pre != [] ==> !IsValid(cs, v, Some(false))
    ensures v.pre != [] ==> (IsValid(cs, v, None) <==> cs.prerelease && IsValid(cs, v, Some(true)))
    ensures v.pre == [] ==> IsValid(cs, v, Some(true)) == IsValid(cs, v, Some(false)) == IsValid(cs, v, None)
    ensures forall r: Option<bool> :: IsValid(cs, v, r) ==> IsValid(cs, v, Some(true))
  {
  }

  /** An alternative with no conditions (an empty alternative) accepts everything the gate lets through. */
  lemma EmptyAlternativeAccepts(prerelease: bool, v: Version, resolvePrerelease: Option<bool>, parse: string -> Version)
    ensures ParseConditionSet(Words(""), prerelease, parse) == Ok(ConditionSet([], prerelease))
    ensures IsValid(ConditionSet([], prerelease), v, resolvePrerelease) == PassesGate(ConditionSet([], prerelease), v, resolvePrerelease)
  {
  }

  /** The condition sets of the `||` alternatives, left to right; the first failing one's error. */
  function ParseAlternatives(alternatives: seq<string>, prerelease: bool, parse: string -> Version)
    : (r: Result<seq<ConditionSet>, RangeError>)
    ensures r.Ok? ==> |r.value| == |alternatives|
    ensures r.Ok? && prerelease ==> forall i :: 0 <= i < |r.value| ==> r.value[i].prerelease
    decreases |alternatives|
  {
    if alternatives == [] then Ok([])
    else
      match ParseAlternatives(alternatives[..|alternatives| - 1], prerelease, parse)
      case Err(e) => Err(e)
      case Ok(sets) =>
        match ParseConditionSet(Words(alternatives[|alternatives| - 1]), prerelease, parse)
        case Err(e) => Err(e)
        case Ok(cs) => Ok(sets + [cs])
  }

  /** Once a prefix of the alternatives fails, the whole range fails with that error. */
  lemma {:induction false} AlternativesErrorStays(alternatives: seq<string>, k: nat, prerelease: bool, parse: string -> Version)
    requires k <= |alternatives| && ParseAlternatives(alternatives[..k], prerelease, parse).Err?
    ensures ParseAlternatives(alternatives, prerelease, parse) == ParseAlternatives(alternatives[..k], prerelease, parse)
    decreases |alternatives| - k
  {
    if k < |alternatives| {
      assert alternatives[..|alternatives| - 1][..k] == alternatives[..k];
      AlternativesErrorStays(alternatives[..|alternatives| - 1], k, prerelease, parse);
    } else {
      assert alternatives[..k] == alternatives;
    }
  }

  /** Parsing one more alternative extends the parsed prefix. */
  lemma ParseAlternativesSnoc(alternatives: seq<string>, a: string, prerelease: bool, parse: string -> Version)
    ensures ParseAlternatives(alternatives + [a], prerelease, parse) ==
      match ParseAlternatives(alternatives, prerelease, parse)
      case Err(e) => Err(e)
      case Ok(sets) =>
        match ParseConditionSet(Words(a), prerelease, parse)
        case Err(e) => Err(e)
        case Ok(cs) => Ok(sets + [cs])
  {
    assert (alternatives + [a])[..|alternatives|] == alternatives;
  }

  /** Whether any comma-separated option after the first comma mentions `include_prerelease`. */
  predicate IncludesPrerelease(tokens: seq<string>) {
    exists i :: 1 <= i < |tokens| && Contains(tokens[i], "include_prerelease")
  }

  /** `VersionRange.__init__` as a value: the version expression is the text
      before the first comma, its alternatives are split on `||`. */
  function ParseRange(expression: string, parse: string -> Version): (r: Result<VersionRange, RangeError>)
    ensures r.Ok? ==> r.value.expression == expression
    ensures r.Ok? ==> |r.value.conditionSets| == |SplitOn(SplitOn(expression, ",")[0], "||")|
    ensures r.Ok? && IncludesPrerelease(SplitOn(expression, ",")) ==>
      forall i :: 0 <= i < |r.value.conditionSets| ==> r.value.conditionSets[i].prerelease
  {
    var tokens := SplitOn(expression, ",");
    match ParseAlternatives(SplitOn(tokens[0], "||"), IncludesPrerelease(tokens), parse)
    case Err(e) => Err(e)
    case Ok(sets) => Ok(VersionRange(expression, sets))
  }

  /** `VersionRange.__init__`: one condition set per alternative, collected in order. */
  method NewVersionRange(expression: string, parse: string -> Version) returns (r: Result<VersionRange, RangeError>)
    ensures r == ParseRange(expression, parse)
  {
    var tokens := SplitOn(expression, ",");
    var prereleases := IncludesPrerelease(tokens);
    var alternatives := SplitOn(tokens[0], "||");
    var sets: seq<ConditionSet> := [];
    for i := 0 to |alternatives|
      invariant ParseAlternatives(alternatives[..i], prereleases, parse) == Ok(sets)
    {
      assert alternatives[..i + 1][..i] == alternatives[..i];
      var cs := NewConditionSet(alternatives[i], prereleases, parse);
      if cs.Err? {
        AlternativesErrorStays(alternatives, i + 1, prereleases, parse);
        return Err(cs.error);
      }
      sets := sets + [cs.value];
    }
    assert alternatives[..|alternatives|] == alternatives;
    return Ok(VersionRange(expression, sets));
  }

  /** `str(range)` is the text the range was parsed from. */
  function RangeToString(range: VersionRange): string {
    range.expression
  }

  /** `VersionRange.contains`: some alternative accepts the version. */
  predicate RangeContains(range: VersionRange, v: Version, resolvePrerelease: Option<bool>) {
    exists i :: 0 <= i < |range.conditionSets| && IsValid(range.conditionSets[i], v, resolvePrerelease)
  }

  /** Display gives back the parsed text, and only text before the first comma
      shapes the alternatives. */
  lemma RangeKeepsText(expression: string, parse: string -> Version)
    requires ParseRange(expression, parse).Ok?
    ensures RangeToString(ParseRange(expression, parse).value) == expression
    ensures StartsWith(expression, SplitOn(expression, ",")[0])
    ensures !Contains(SplitOn(expression, ",")[0], ",")
  {
    SplitOnFirst(expression, ",");
  }

  /** Tilde and caret bounds on sample versions:
      `~1.2.3` is `<1.3`, `~1` is `<2`, `^1.2.3` is `<2`, `^0.2.3` is `<0.3`, `^0.0.3` is `<0.0.4`. */
  lemma TildeCaretBounds()
    ensures UpperBound(Version([1, 2, 3], []), 1) == Version([1, 3], [])
    ensures UpperBound(Version([1], []), 0) == Version([2], [])
    ensures FirstNonZero([1, 2, 3]) == 0 && UpperBound(Version([1, 2, 3], []), 0) == Version([2], [])
    ensures FirstNonZero([0, 2, 3]) == 1 && UpperBound(Version([0, 2, 3], []), 1) == Version([0, 3], [])
    ensures FirstNonZero([0, 0, 3]) == 2 && UpperBound(Version([0, 0, 3], []), 2) == Version([0, 0, 4], [])
  {
    assert [0, 2, 3][1..] == [2, 3];
    assert [0, 0, 3][1..] == [0, 3] && [0, 3][1..] == [3];
  }

  /** A tilde or caret range admits its own base version when it is a release. */
  lemma TildeCaretAdmitBase(body: string, parse: string -> Version, caret: bool)
    requires body != "" && parse(body).pre == []
    ensures var cs := ConditionSet(ParseExpression((if caret then "^" else "~") + body, parse).value, false);
      IsValid(cs, parse(body), None)
  {
    var v := parse(body);
    var conds := ParseExpression((if caret then "^" else "~") + body, parse).value;
    if caret { ParseCaret(body, parse); } else { ParseTilde(body, parse); }
    CompareMainReflexive(v.main);
    UpperBoundAbove(v, if caret then FirstNonZero(v.main) else if |v.main| > 1 then 1 else 0);
    ValidIffAllHold(ConditionSet(conds, false), v, None);
  }
}

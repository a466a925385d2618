/** Worked instances of the range semantics, for any version parser that reads
    the version texts involved as expected. */
module VersionRangeExamples {
  import opened Wrappers
  import opened Strings
  import opened Versions
  import opened VersionRanges

  const V10 := Version([1, 0], [])
  const V20 := Version([2, 0], [])
  const V100 := Version([1, 0, 0], [])

  lemma AlternativesNoComma()
    ensures SplitOn("1.0 || 2.0", ",") == ["1.0 || 2.0"]
  {
    SplitOnNoSeparator("1.0 || 2.0", ",");
  }

  lemma AlternativesSplit()
    ensures SplitOn("1.0 || 2.0", "||") == ["1.0 ", " 2.0"]
  {
    assert "1.0 || 2.0" == "1.0 " + "||" + " 2.0";
    SplitOnFirstPiece("1.0 ", "||", " 2.0");
    SplitOnNoSeparator(" 2.0", "||");
  }

  lemma AlternativesWords()
    ensures Words("1.0 ") == ["1.0"] && Words(" 2.0") == ["2.0"]
  {
    assert "1.0 " == "" + "1.0" + " ";
    WordsSingle("", "1.0", " ");
    assert " 2.0" == " " + "2.0" + "";
    WordsSingle(" ", "2.0", "");
  }

  lemma ExactMatchWord(text: string, v: Version, parse: string -> Version)
    requires text == "1.0" || text == "2.0"
    requires parse(text) == v
    ensures ParseConditionSet([text], false, parse) == Ok(ConditionSet([Condition(Eq, v)], false))
  {
    assert StripPrerelease(text) == (text, false);
    assert ParseExpression(text, parse) == Ok([Condition(Eq, v)]);
    ParseSingleWord(text, false, parse);
  }

  lemma FirstAlternative(parse: string -> Version)
    requires parse("1.0") == V10
    ensures ParseAlternatives(["1.0 "], false, parse) == Ok([ConditionSet([Condition(Eq, V10)], false)])
  {
    AlternativesWords();
    ExactMatchWord("1.0", V10, parse);
    var cs1 := ConditionSet([Condition(Eq, V10)], false);
    var none: seq<string> := [];
    var empty: seq<ConditionSet> := [];
    ParseAlternativesSnoc(none, "1.0 ", false, parse);
    assert none + ["1.0 "] == ["1.0 "];
    assert ParseAlternatives(none, false, parse) == Ok(empty);
    assert empty + [cs1] == [cs1];
  }

  lemma AlternativeSets(parse: string -> Version)
    requires parse("1.0") == V10 && parse("2.0") == V20
    ensures ParseAlternatives(["1.0 ", " 2.0"], false, parse) ==
      Ok([ConditionSet([Condition(Eq, V10)], false), ConditionSet([Condition(Eq, V20)], false)])
  {
    FirstAlternative(parse);
    AlternativesWords();
    ExactMatchWord("2.0", V20, parse);
    var cs1 := ConditionSet([Condition(Eq, V10)], false);
    var cs2 := ConditionSet([Condition(Eq, V20)], false);
    ParseAlternativesSnoc(["1.0 "], " 2.0", false, parse);
    assert ["1.0 "] + [" 2.0"] == ["1.0 ", " 2.0"];
    assert [cs1] + [cs2] == [cs1, cs2];
  }

  /** `1.0 || 2.0` parses into two exact-match alternatives. */
  lemma AlternativesParse(parse: string -> Version)
    requires parse("1.0") == V10 && parse("2.0") == V20
    ensures ParseRange("1.0 || 2.0", parse) ==
      Ok(VersionRange("1.0 || 2.0", [ConditionSet([Condition(Eq, V10)], false), ConditionSet([Condition(Eq, V20)], false)]))
  {
    AlternativesNoComma();
    AlternativesSplit();
    AlternativeSets(parse);
    assert !IncludesPrerelease(["1.0 || 2.0"]);
  }

  /** Two exact-match alternatives for 1.0 and 2.0 reject 1.5 and accept 2.0. */
  lemma ExactPairMembership(range: VersionRange)
    requires range.conditionSets == [ConditionSet([Condition(Eq, V10)], false), ConditionSet([Condition(Eq, V20)], false)]
    ensures !RangeContains(range, Version([1, 5], []), None)
    ensures RangeContains(range, V20, None)
  {
    var v15 := Version([1, 5], []);
    assert Compare(v15, V10) != 0 && Compare(v15, V20) != 0;
    assert Violates(range.conditionSets[0].conditions[0], v15);
    assert Violates(range.conditionSets[1].conditions[0], v15);
    assert !Violates(range.conditionSets[1].conditions[0], V20);
    assert IsValid(range.conditionSets[1], V20, None);
  }

  /** `1.0 || 2.0` does not contain 1.5 and contains 2.0: OR across alternatives,
      exact match for a bare version. */
  lemma AlternativesContain(parse: string -> Version)
    requires parse("1.0") == V10 && parse("2.0") == V20
    ensures ParseRange("1.0 || 2.0", parse).Ok?
    ensures !RangeContains(ParseRange("1.0 || 2.0", parse).value, Version([1, 5], []), None)
    ensures RangeContains(ParseRange("1.0 || 2.0", parse).value, V20, None)
  {
    AlternativesParse(parse);
    ExactPairMembership(ParseRange("1.0 || 2.0", parse).value);
  }

  /** A range of one word with no comma and no `||` is that word's alternative. */
  lemma SingleWordRange(e: string, cs: ConditionSet, parse: string -> Version)
    requires SplitOn(e, ",") == [e] && SplitOn(e, "||") == [e] && Words(e) == [e]
    requires ParseConditionSet([e], false, parse) == Ok(cs)
    ensures ParseRange(e, parse) == Ok(VersionRange(e, [cs]))
  {
    var none: seq<string> := [];
    var empty: seq<ConditionSet> := [];
    ParseAlternativesSnoc(none, e, false, parse);
    assert none + [e] == [e];
    assert ParseAlternatives(none, false, parse) == Ok(empty);
    assert empty + [cs] == [cs];
    assert !IncludesPrerelease([e]);
  }

  /** A word with no comma, no bar and no whitespace is a range of one alternative of one word. */
  lemma PlainWord(e: string)
    requires e != []
    requires forall i :: 0 <= i < |e| ==> e[i] != ',' && e[i] != '|' && !IsSpace(e[i])
    ensures SplitOn(e, ",") == [e] && SplitOn(e, "||") == [e] && Words(e) == [e]
  {
    SplitOnNoSeparator(e, ",");
    SplitOnNoSeparator(e, "||");
    assert e == [] + e + [];
    WordsSingle([], e, []);
  }

  lemma GateWords(parse: string -> Version)
    requires parse("1.0.0") == V100
    ensures ParseConditionSet([">=1.0.0"], false, parse) == Ok(ConditionSet([Condition(Ge, V100)], false))
    ensures ParseConditionSet([">=1.0.0-"], false, parse) == Ok(ConditionSet([Condition(Ge, V100)], true))
  {
    assert ">=1.0.0"[2..] == "1.0.0";
    assert ParseExpression(">=1.0.0", parse) == Ok([Condition(Ge, V100)]);
    assert ">=1.0.0-"[..|">=1.0.0-"| - 1] == ">=1.0.0";
    assert StripPrerelease(">=1.0.0-") == (">=1.0.0", true);
    assert StripPrerelease(">=1.0.0") == (">=1.0.0", false);
    ParseSingleWord(">=1.0.0", false, parse);
    ParseSingleWord(">=1.0.0-", false, parse);
  }

  lemma GateRangePlain(parse: string -> Version)
    requires parse("1.0.0") == V100
    ensures ParseRange(">=1.0.0", parse) == Ok(VersionRange(">=1.0.0", [ConditionSet([Condition(Ge, V100)], false)]))
  {
    PlainWord(">=1.0.0");
    GateWords(parse);
    SingleWordRange(">=1.0.0", ConditionSet([Condition(Ge, V100)], false), parse);
  }

  lemma GateRangeOptIn(parse: string -> Version)
    requires parse("1.0.0") == V100
    ensures ParseRange(">=1.0.0-", parse) == Ok(VersionRange(">=1.0.0-", [ConditionSet([Condition(Ge, V100)], true)]))
  {
    PlainWord(">=1.0.0-");
    GateWords(parse);
    SingleWordRange(">=1.0.0-", ConditionSet([Condition(Ge, V100)], true), parse);
  }

  /** Pre-release gating: `>=1.0.0` rejects `1.1.0-rc1` unless resolution is
      forced; `>=1.0.0-` opts in; an explicit `false` overrides the opt-in.
      A pre-release of the bound itself, `1.0.0-rc1`, sorts below `1.0.0` and
      stays outside both ranges whatever the gate says. */
  lemma PrereleaseExamples(parse: string -> Version)
    requires parse("1.0.0") == V100
    ensures ParseRange(">=1.0.0", parse).Ok? && ParseRange(">=1.0.0-", parse).Ok?
    ensures !RangeContains(ParseRange(">=1.0.0", parse).value, Version([1, 1, 0], "rc1"), None)
    ensures RangeContains(ParseRange(">=1.0.0-", parse).value, Version([1, 1, 0], "rc1"), None)
    ensures RangeContains(ParseRange(">=1.0.0", parse).value, Version([1, 1, 0], "rc1"), Some(true))
    ensures !RangeContains(ParseRange(">=1.0.0-", parse).value, Version([1, 1, 0], "rc1"), Some(false))
    ensures !RangeContains(ParseRange(">=1.0.0-", parse).value, Version([1, 0, 0], "rc1"), Some(true))
  {
    GateRangePlain(parse);
    GateRangeOptIn(parse);
    var plain := ParseRange(">=1.0.0", parse).value;
    var opted := ParseRange(">=1.0.0-", parse).value;
    var rc := Version([1, 1, 0], "rc1");
    assert Compare(rc, V100) == 1;
    assert !Violates(Condition(Ge, V100), rc);
    assert IsValid(opted.conditionSets[0], rc, None);
    assert IsValid(plain.conditionSets[0], rc, Some(true));
    var early := Version([1, 0, 0], "rc1");
    assert CompareMain(early.main, V100.main) == 0;
    assert Compare(early, V100) == -1;
    assert Violates(opted.conditionSets[0].conditions[0], early);
  }
}

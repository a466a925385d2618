/** The `Version` value that version ranges compare against.

    The class itself lives outside the modelled files; this is a small concrete
    model of it: numeric `main` components and an optional pre-release tag
    (the empty string means "no pre-release"). Versions are ordered by their
    zero-padded `main` components, then a pre-release sorts before the
    release with the same components, then pre-release tags compare
    lexically. */
module Versions {

  datatype Version = Version(main: seq<nat>, pre: string)

  /** `main[i]`, or 0 past the end: shorter versions compare as if padded with zeros. */
  function At(s: seq<nat>, i: nat): nat {
    if i < |s| then s[i] else 0
  }

  function Tail(s: seq<nat>): seq<nat> {
    if s == [] then [] else s[1..]
  }

  /** -1, 0 or 1 as `a` sorts before, level with or after `b`, component by component. */
  function CompareMain(a: seq<nat>, b: seq<nat>): (c: int)
    ensures -1 <= c <= 1
    decreases |a| + |b|
  {
    if a == [] && b == [] then 0
    else if At(a, 0) < At(b, 0) then -1
    else if At(a, 0) > At(b, 0) then 1
    else CompareMain(Tail(a), Tail(b))
  }

  /** Lexical comparison of pre-release tags, by character code. */
  function CompareText(a: string, b: string): (c: int)
    ensures -1 <= c <= 1
  {
    if a == [] && b == [] then 0
    else if a == [] then -1
    else if b == [] then 1
    else if a[0] < b[0] then -1
    else if a[0] > b[0] then 1
    else CompareText(a[1..], b[1..])
  }

  /** Three-way comparison of two versions. */
  function Compare(a: Version, b: Version): (c: int)
    ensures -1 <= c <= 1
  {
    var m := CompareMain(a.main, b.main);
    if m != 0 then m
    else if a.pre == [] && b.pre == [] then 0
    else if a.pre == [] then 1
    else if b.pre == [] then -1
    else CompareText(a.pre, b.pre)
  }

  predicate Less(a: Version, b: Version) { Compare(a, b) < 0 }
  predicate LessEq(a: Version, b: Version) { Compare(a, b) <= 0 }
  predicate Same(a: Version, b: Version) { Compare(a, b) == 0 }

  /** `Version.upper_bound(index)`: the components before `index` kept (padded
      with zeros), the one at `index` bumped, nothing after it, no pre-release. */
  function UpperBound(v: Version, index: nat): (u: Version)
    ensures |u.main| == index + 1 && u.pre == []
    ensures forall j :: 0 <= j < index ==> u.main[j] == At(v.main, j)
    ensures u.main[index] == At(v.main, index) + 1
  {
    Version(seq(index, j requires 0 <= j < index => At(v.main, j)) + [At(v.main, index) + 1], [])
  }

  lemma {:induction false} CompareMainAntisymmetric(a: seq<nat>, b: seq<nat>)
    ensures CompareMain(a, b) == -CompareMain(b, a)
    decreases |a| + |b|
  {
    if !(a == [] && b == []) && At(a, 0) == At(b, 0) {
      CompareMainAntisymmetric(Tail(a), Tail(b));
    }
  }

  lemma {:induction false} CompareMainTransitive(a: seq<nat>, b: seq<nat>, c: seq<nat>)
    requires CompareMain(a, b) <= 0 && CompareMain(b, c) <= 0
    ensures CompareMain(a, c) <= 0
    ensures CompareMain(a, b) == 0 && CompareMain(b, c) == 0 ==> CompareMain(a, c) == 0
    decreases |a| + |b| + |c|
  {
    if a == [] && c == [] {
    } else if At(a, 0) == At(b, 0) && At(b, 0) == At(c, 0) {
      if b == [] {
        assert CompareMain(a, b) == CompareMain(Tail(a), Tail(b));
        assert CompareMain(b, c) == CompareMain(Tail(b), Tail(c));
      }
      CompareMainTransitive(Tail(a), Tail(b), Tail(c));
    }
  }

  /** Components that agree before position `k` and are smaller at `k` decide the order. */
  lemma {:induction false} CompareMainFirstDifference(a: seq<nat>, b: seq<nat>, k: nat)
    requires forall j :: 0 <= j < k ==> At(a, j) == At(b, j)
    requires At(a, k) < At(b, k)
    ensures CompareMain(a, b) == -1
    decreases k
  {
    if k > 0 {
      assert At(a, 0) == At(b, 0);
      forall j | 0 <= j < k - 1 ensures At(Tail(a), j) == At(Tail(b), j) {
        assert At(Tail(a), j) == At(a, j + 1) && At(Tail(b), j) == At(b, j + 1);
      }
      assert At(Tail(a), k - 1) == At(a, k) && At(Tail(b), k - 1) == At(b, k);
      CompareMainFirstDifference(Tail(a), Tail(b), k - 1);
    }
  }

  lemma {:induction false} CompareMainReflexive(a: seq<nat>)
    ensures CompareMain(a, a) == 0
    decreases |a|
  {
    if a != [] { CompareMainReflexive(Tail(a)); }
  }

  lemma {:induction false} CompareTextAntisymmetric(a: string, b: string)
    ensures CompareText(a, b) == -CompareText(b, a)
  {
    if a != [] && b != [] && a[0] == b[0] { CompareTextAntisymmetric(a[1..], b[1..]); }
  }

  lemma {:induction false} CompareTextTransitive(a: string, b: string, c: string)
    requires CompareText(a, b) <= 0 && CompareText(b, c) <= 0
    ensures CompareText(a, c) <= 0
    ensures CompareText(a, b) == 0 && CompareText(b, c) == 0 ==> CompareText(a, c) == 0
  {
    if a != [] && b != [] && c != [] && a[0] == b[0] && b[0] == c[0] {
      CompareTextTransitive(a[1..], b[1..], c[1..]);
    }
  }

  /** The version order is total: swapping the operands flips the comparison. */
  lemma CompareAntisymmetric(a: Version, b: Version)
    ensures Compare(a, b) == -Compare(b, a)
  {
    CompareMainAntisymmetric(a.main, b.main);
    CompareTextAntisymmetric(a.pre, b.pre);
  }

  /** The version order is transitive, and so is being level. */
  lemma CompareTransitive(a: Version, b: Version, c: Version)
    requires LessEq(a, b) && LessEq(b, c)
    ensures LessEq(a, c)
    ensures Same(a, b) && Same(b, c) ==> Same(a, c)
  {
    CompareMainAntisymmetric(a.main, b.main);
    CompareMainAntisymmetric(b.main, c.main);
    CompareMainAntisymmetric(a.main, c.main);
    CompareMainTransitive(a.main, b.main, c.main);
    if CompareMain(a.main, c.main) == 0 {
      // a level with c: neither step a..b nor b..c can be strict
      if CompareMain(a.main, b.main) < 0 {
        CompareMainTransitive(b.main, c.main, a.main);
      } else if CompareMain(b.main, c.main) < 0 {
        CompareMainTransitive(c.main, a.main, b.main);
      }
    }
    if CompareMain(a.main, b.main) == 0 && CompareMain(b.main, c.main) == 0 {
      if a.pre != [] && b.pre != [] && c.pre != [] {
        CompareTextTransitive(a.pre, b.pre, c.pre);
      }
    }
  }

  /** A pre-release sorts strictly before the release with the same components. */
  lemma PreReleaseSortsFirst(main: seq<nat>, pre: string)
    requires pre != []
    ensures Less(Version(main, pre), Version(main, []))
  {
    CompareMainReflexive(main);
  }

  /** Components compare as numbers, not as text: 9 sorts before 10. */
  lemma NumericOrder()
    ensures Less(Version([9], []), Version([10], []))
    ensures !Less(Version([10], []), Version([9], []))
  {
  }

  /** Trailing zero components do not change a version's place in the order. */
  lemma {:induction false} TrailingZeroIsLevel(main: seq<nat>, pre: string)
    ensures Same(Version(main + [0], pre), Version(main, pre))
    decreases |main|
  {
    if main == [] {
      assert CompareMain([0], []) == CompareMain([], []);
    } else {
      assert Tail(main + [0]) == Tail(main) + [0];
      TrailingZeroIsLevel(Tail(main), pre);
    }
    CompareTextAntisymmetric(pre, pre);
  }

  /** Every version sorts strictly below each of its upper bounds. */
  lemma UpperBoundAbove(v: Version, index: nat)
    ensures Less(v, UpperBound(v, index))
  {
    var u := UpperBound(v, index);
    forall j | 0 <= j < index ensures At(v.main, j) == At(u.main, j) {}
    CompareMainFirstDifference(v.main, u.main, index);
  }
}

/** Ordering version strings: by semantic version where both sides parse, as plain text
    otherwise. */
module Versions {
  import opened Wrappers

  // ---- three-way comparisons ----------------------------------------------------------------

  /** A three-way comparison that is a total preorder. */
  ghost predicate IsPreorder<T(!new)>(cmp: (T, T) -> int) {
    && (forall x, y :: cmp(x, y) == -cmp(y, x))
    && (forall x, y, z :: cmp(x, y) <= 0 && cmp(y, z) <= 0 ==> cmp(x, z) <= 0)
  }

  /** Comparing sequences item by item; a proper prefix comes first. */
  function LexBy<T>(cmp: (T, T) -> int, a: seq<T>, b: seq<T>): int {
    if a == [] then if b == [] then 0 else -1
    else if b == [] then 1
    else if cmp(a[0], b[0]) != 0 then cmp(a[0], b[0])
    else LexBy(cmp, a[1..], b[1..])
  }

  lemma {:induction false} LexSwap<T(!new)>(cmp: (T, T) -> int, a: seq<T>, b: seq<T>)
    requires IsPreorder(cmp)
    ensures LexBy(cmp, a, b) == -LexBy(cmp, b, a)
  {
    if a != [] && b != [] {
      assert cmp(a[0], b[0]) == -cmp(b[0], a[0]);
      LexSwap(cmp, a[1..], b[1..]);
    }
  }

  lemma {:induction false} LexTransitive<T(!new)>(cmp: (T, T) -> int, a: seq<T>, b: seq<T>, c: seq<T>)
    requires IsPreorder(cmp) && LexBy(cmp, a, b) <= 0 && LexBy(cmp, b, c) <= 0
    ensures LexBy(cmp, a, c) <= 0
  {
    if a != [] && b != [] && c != [] {
      var x, y, z := a[0], b[0], c[0];
      assert cmp(x, z) <= 0;
      if cmp(x, z) == 0 {
        assert cmp(z, x) == 0 && cmp(z, y) <= 0 && cmp(y, x) <= 0;
        assert cmp(y, z) == -cmp(z, y) && cmp(x, y) == -cmp(y, x);
        LexTransitive(cmp, a[1..], b[1..], c[1..]);
      }
    }
  }

  lemma LexIsPreorder<T(!new)>(cmp: (T, T) -> int)
    requires IsPreorder(cmp)
    ensures IsPreorder((a: seq<T>, b: seq<T>) => LexBy(cmp, a, b))
  {
    forall a: seq<T>, b: seq<T>
      ensures LexBy(cmp, a, b) == -LexBy(cmp, b, a)
    {
      LexSwap(cmp, a, b);
    }
    forall a: seq<T>, b: seq<T>, c: seq<T> | LexBy(cmp, a, b) <= 0 && LexBy(cmp, b, c) <= 0
      ensures LexBy(cmp, a, c) <= 0
    {
      LexTransitive(cmp, a, b, c);
    }
  }

  function CompareInts(a: int, b: int): int {
    if a < b then -1 else if a > b then 1 else 0
  }

  function CompareChars(a: char, b: char): int {
    CompareInts(a as int, b as int)
  }

  /** Plain string order. */
  function CompareText(a: string, b: string): int {
    LexBy(CompareChars, a, b)
  }

  // ---- semantic versions ----------------------------------------------------------------------

  /** One dot-separated identifier of a pre-release. */
  datatype Ident = Number(n: nat) | Word(s: string)

  /** A parsed version; build metadata plays no part in precedence. */
  datatype Version = Version(major: nat, minor: nat, patch: nat, pre: seq<Ident>)

  /** Numbers compare as numbers, text as text, and a number comes before text. */
  function CompareIdents(a: Ident, b: Ident): int {
    match (a, b)
    case (Number(x), Number(y)) => CompareInts(x, y)
    case (Number(_), Word(_)) => -1
    case (Word(_), Number(_)) => 1
    case (Word(x), Word(y)) => CompareText(x, y)
  }

  /** Precedence as in section 11 of Semantic Versioning 2.0.0: a pre-release comes before
      its release. */
  function CompareVersions(a: Version, b: Version): int {
    if a.major != b.major then CompareInts(a.major, b.major)
    else if a.minor != b.minor then CompareInts(a.minor, b.minor)
    else if a.patch != b.patch then CompareInts(a.patch, b.patch)
    else if a.pre == [] then if b.pre == [] then 0 else 1
    else if b.pre == [] then -1
    else LexBy(CompareIdents, a.pre, b.pre)
  }

  // ---- precedence, as the standard words it -------------------------------------------------------

  /** The first place at which two sequences differ, or the length of the shorter one. */
  ghost predicate FirstDifference<T(!new)>(a: seq<T>, b: seq<T>, k: nat) {
    k <= |a| && k <= |b| && a[..k] == b[..k] && (k < |a| && k < |b| ==> a[k] != b[k])
  }

  /** The first difference decides; without one the shorter sequence comes first. */
  lemma {:induction false} FirstDifferenceDecides<T(!new)>(cmp: (T, T) -> int, a: seq<T>, b: seq<T>, k: nat)
    requires FirstDifference(a, b, k) && forall x, y :: cmp(x, y) == 0 <==> x == y
    ensures k < |a| && k < |b| ==> LexBy(cmp, a, b) == cmp(a[k], b[k])
    ensures k == |a| < |b| ==> LexBy(cmp, a, b) == -1
    ensures k == |b| < |a| ==> LexBy(cmp, a, b) == 1
    ensures k == |a| == |b| ==> LexBy(cmp, a, b) == 0
  {
    if a != [] && b != [] && k > 0 {
      assert a[..k][0] == b[..k][0];
      assert a[1..][..k - 1] == a[..k][1..] && b[1..][..k - 1] == b[..k][1..];
      FirstDifferenceDecides(cmp, a[1..], b[1..], k - 1);
    }
  }

  lemma IdentsDiffer()
    ensures forall x, y :: CompareIdents(x, y) == 0 <==> x == y
  {
    forall x, y
      ensures CompareIdents(x, y) == 0 <==> x == y
    {
      if x.Word? && y.Word? {
        if CompareText(x.s, y.s) == 0 { TextEqual(x.s, y.s); }
        TextSame(x.s);
      }
    }
  }

  lemma {:induction false} TextSame(a: string)
    ensures CompareText(a, a) == 0
  {
    if a != "" { TextSame(a[1..]); }
  }

  /** Section 11 of Semantic Versioning 2.0.0: major, minor and patch are compared as numbers, in
      this order; a pre-release comes before its release; between two pre-releases the first
      differing identifier decides, numbers as numbers and before text, and a longer list of
      identifiers comes after one it begins with. */
  lemma Precedence(a: Version, b: Version)
    ensures a.major < b.major ==> CompareVersions(a, b) < 0
    ensures a.major == b.major && a.minor < b.minor ==> CompareVersions(a, b) < 0
    ensures a.major == b.major && a.minor == b.minor && a.patch < b.patch ==> CompareVersions(a, b) < 0
    ensures a.major == b.major && a.minor == b.minor && a.patch == b.patch && a.pre != [] && b.pre == [] ==> CompareVersions(a, b) < 0
    ensures a == b ==> CompareVersions(a, b) == 0
    ensures a.major == b.major && a.minor == b.minor && a.patch == b.patch && a.pre != [] && b.pre != [] ==>
      forall k: nat :: FirstDifference(a.pre, b.pre, k) ==>
        && (k < |a.pre| && k < |b.pre| && a.pre[k].Number? && b.pre[k].Number? && a.pre[k].n < b.pre[k].n ==> CompareVersions(a, b) < 0)
        && (k < |a.pre| && k < |b.pre| && a.pre[k].Number? && b.pre[k].Word? ==> CompareVersions(a, b) < 0)
        && (k < |a.pre| && k < |b.pre| && a.pre[k].Word? && b.pre[k].Word? ==> CompareVersions(a, b) == CompareText(a.pre[k].s, b.pre[k].s))
        && (k == |a.pre| < |b.pre| ==> CompareVersions(a, b) < 0)
  {
    IdentsDiffer();
    forall k: nat | FirstDifference(a.pre, b.pre, k)
      ensures k < |a.pre| && k < |b.pre| ==> LexBy(CompareIdents, a.pre, b.pre) == CompareIdents(a.pre[k], b.pre[k])
      ensures k == |a.pre| < |b.pre| ==> LexBy(CompareIdents, a.pre, b.pre) == -1
      ensures k == |a.pre| == |b.pre| ==> LexBy(CompareIdents, a.pre, b.pre) == 0
    {
      FirstDifferenceDecides(CompareIdents, a.pre, b.pre, k);
    }
    assert a == b ==> FirstDifference(a.pre, b.pre, |a.pre|);
  }

  /** Text is ordered by the first differing character. */
  lemma TextOrder(a: string, b: string, k: nat)
    requires FirstDifference(a, b, k)
    ensures k < |a| && k < |b| ==> (CompareText(a, b) < 0 <==> a[k] < b[k])
    ensures k == |a| < |b| ==> CompareText(a, b) < 0
  {
    FirstDifferenceDecides(CompareChars, a, b, k);
  }

  lemma TextIsPreorder()
    ensures IsPreorder(CompareText)
  {
    assert IsPreorder(CompareChars);
    LexIsPreorder(CompareChars);
    var lex := (a: seq<char>, b: seq<char>) => LexBy(CompareChars, a, b);
    assert IsPreorder(lex);
    assert forall a, b :: CompareText(a, b) == lex(a, b);
  }

  lemma IdentsArePreordered()
    ensures IsPreorder(CompareIdents)
  {
    TextIsPreorder();
    forall x, y
      ensures CompareIdents(x, y) == -CompareIdents(y, x)
    {
      if x.Word? && y.Word? { assert CompareText(x.s, y.s) == -CompareText(y.s, x.s); }
    }
    forall x, y, z | CompareIdents(x, y) <= 0 && CompareIdents(y, z) <= 0
      ensures CompareIdents(x, z) <= 0
    {
      if x.Word? && y.Word? && z.Word? {
        assert CompareText(x.s, y.s) <= 0 && CompareText(y.s, z.s) <= 0;
      }
    }
  }

  lemma VersionsArePreordered()
    ensures IsPreorder(CompareVersions)
  {
    IdentsArePreordered();
    forall x, y
      ensures CompareVersions(x, y) == -CompareVersions(y, x)
    {
      LexSwap(CompareIdents, x.pre, y.pre);
    }
    forall x, y, z | CompareVersions(x, y) <= 0 && CompareVersions(y, z) <= 0
      ensures CompareVersions(x, z) <= 0
    {
      if LexBy(CompareIdents, x.pre, y.pre) <= 0 && LexBy(CompareIdents, y.pre, z.pre) <= 0 {
        LexTransitive(CompareIdents, x.pre, y.pre, z.pre);
      }
    }
  }

  // ---- version strings -------------------------------------------------------------------------

  /** Reads a version string; what a version string looks like is left to the library. */
  type Parser = string -> Option<Version>

  function CompareVersionNumbers(parse: Parser, a: string, b: string): int {
    match (parse(a), parse(b))
    case (Some(x), Some(y)) => CompareVersions(x, y)
    case _ => CompareText(a, b)
  }

  /** Swapping the sides always reverses the verdict. */
  lemma ComparisonSwaps(parse: Parser, a: string, b: string)
    ensures CompareVersionNumbers(parse, a, b) == -CompareVersionNumbers(parse, b, a)
  {
    TextIsPreorder();
    VersionsArePreordered();
    assert CompareText(a, b) == -CompareText(b, a);
    if parse(a).Some? && parse(b).Some? {
      var x, y := parse(a).value, parse(b).value;
      assert CompareVersions(x, y) == -CompareVersions(y, x);
    }
  }

  /** The verdicts chain when all three strings parse, and when none does. */
  lemma ComparisonChains(parse: Parser, a: string, b: string, c: string)
    requires parse(a).Some? == parse(b).Some? == parse(c).Some?
    requires CompareVersionNumbers(parse, a, b) <= 0 && CompareVersionNumbers(parse, b, c) <= 0
    ensures CompareVersionNumbers(parse, a, c) <= 0
  {
    TextIsPreorder();
    VersionsArePreordered();
    if parse(a).Some? {
      var x, y, z := parse(a).value, parse(b).value, parse(c).value;
      assert CompareVersions(x, y) <= 0 && CompareVersions(y, z) <= 0;
    }
  }

  /** The comparison is transitive on a set of strings. */
  ghost predicate Chains(parse: Parser, s: set<string>) {
    forall a, b, c :: a in s && b in s && c in s
      && CompareVersionNumbers(parse, a, b) <= 0 && CompareVersionNumbers(parse, b, c) <= 0
      ==> CompareVersionNumbers(parse, a, c) <= 0
  }

  /** An unparseable string never lies, as text, between two versions in the wrong order. */
  ghost predicate NoStraddle(parse: Parser, s: set<string>) {
    forall p, u, q :: p in s && u in s && q in s && parse(p).Some? && parse(u).None? && parse(q).Some?
      && CompareText(p, u) < 0 && CompareText(u, q) < 0
      ==> CompareVersions(parse(p).value, parse(q).value) < 0
  }

  /** Exactly when the comparison orders a set of strings that mixes both kinds. */
  lemma ChainsIff(parse: Parser, s: set<string>)
    ensures Chains(parse, s) <==> NoStraddle(parse, s)
  {
    if Chains(parse, s) {
      forall p, u, q | p in s && u in s && q in s && parse(p).Some? && parse(u).None? && parse(q).Some?
        && CompareText(p, u) < 0 && CompareText(u, q) < 0
        ensures CompareVersions(parse(p).value, parse(q).value) < 0
      {
        if CompareVersions(parse(p).value, parse(q).value) >= 0 {
          ComparisonSwaps(parse, p, q);
          ComparisonSwaps(parse, u, p);
          assert false;
        }
      }
    }
    if NoStraddle(parse, s) {
      forall a, b, c | a in s && b in s && c in s
        && CompareVersionNumbers(parse, a, b) <= 0 && CompareVersionNumbers(parse, b, c) <= 0
        ensures CompareVersionNumbers(parse, a, c) <= 0
      {
        StraddleFreeChains(parse, s, a, b, c);
      }
    }
  }

  lemma {:induction false} TextEqual(a: string, b: string)
    requires CompareText(a, b) == 0
    ensures a == b
  {
    if a != "" && b != "" {
      TextEqual(a[1..], b[1..]);
      assert a == [a[0]] + a[1..] && b == [b[0]] + b[1..];
    }
  }

  lemma StraddleFreeChains(parse: Parser, s: set<string>, a: string, b: string, c: string)
    requires NoStraddle(parse, s) && a in s && b in s && c in s
    requires CompareVersionNumbers(parse, a, b) <= 0 && CompareVersionNumbers(parse, b, c) <= 0
    ensures CompareVersionNumbers(parse, a, c) <= 0
  {
    if parse(a).Some? == parse(b).Some? == parse(c).Some? {
      ComparisonChains(parse, a, b, c);
    } else if parse(a).Some? && parse(b).Some? {
      // b <= c as text; were c < a as text, b, c, a would straddle
      PairOrder(parse, a, b);
      TextTotal(b, c);
      TextTotal(a, c);
    } else if parse(b).Some? && parse(c).Some? {
      PairOrder(parse, b, c);
      TextTotal(a, b);
      TextTotal(a, c);
    } else if parse(a).Some? && parse(c).Some? {
      TextTotal(a, b);
      TextTotal(b, c);
    } else {
      TextIsPreorder();
      assert CompareText(a, b) <= 0 && CompareText(b, c) <= 0;
    }
  }

  lemma TextTotal(a: string, b: string)
    ensures CompareText(a, b) == -CompareText(b, a) && (CompareText(a, b) == 0 ==> a == b)
  {
    TextIsPreorder();
    assert CompareText(a, b) == -CompareText(b, a);
    if CompareText(a, b) == 0 { TextEqual(a, b); }
  }

  lemma PairOrder(parse: Parser, a: string, b: string)
    requires parse(a).Some? && parse(b).Some?
    ensures CompareVersions(parse(a).value, parse(b).value) == -CompareVersions(parse(b).value, parse(a).value)
  {
    VersionsArePreordered();
    var x, y := parse(a).value, parse(b).value;
    assert CompareVersions(x, y) == -CompareVersions(y, x);
  }

  /** For instance: text puts "10" before "5x" before "9", versions put 9 before 10. */
  lemma MixedDoesNotChain(parse: Parser)
    requires parse("9") == Some(Version(9, 0, 0, [])) && parse("10") == Some(Version(10, 0, 0, [])) && parse("5x").None?
    ensures !Chains(parse, {"9", "10", "5x"})
  {
    assert CompareVersionNumbers(parse, "10", "5x") == -1;
    assert CompareVersionNumbers(parse, "5x", "9") == -1;
    assert CompareVersionNumbers(parse, "10", "9") == 1;
  }
}

/** Kubernetes minors as they are printed into and parsed out of version strings. */
module Minors {
  import opened Wrappers

  const MAX_INT := 0x7fff_ffff_ffff_ffff
  const MIN_INT := -0x8000_0000_0000_0000

  predicate IsDigit(c: char) {
    '0' <= c <= '9'
  }

  predicate AllDigits(s: string) {
    forall i :: 0 <= i < |s| ==> IsDigit(s[i])
  }

  function Digits(n: nat): (s: string)
    ensures s != "" && AllDigits(s)
  {
    if n < 10 then [('0' as int + n) as char]
    else Digits(n / 10) + [('0' as int + n % 10) as char]
  }

  function Value(s: string): nat
    requires AllDigits(s)
  {
    if s == "" then 0 else Value(s[..|s| - 1]) * 10 + (s[|s| - 1] as int - '0' as int)
  }

  lemma {:induction false} ValueOfDigits(n: nat)
    ensures Value(Digits(n)) == n
  {
    if n >= 10 {
      var s := Digits(n);
      assert s[..|s| - 1] == Digits(n / 10);
      ValueOfDigits(n / 10);
    } else {
      assert Digits(n)[..0] == "";
    }
  }

  /** Decimal printing. */
  function Itoa(n: int): (s: string)
    ensures s != ""
  {
    if n < 0 then "-" + Digits(-n) else Digits(n)
  }

  /** Decimal parsing with an optional sign, within 64 bits. */
  function Atoi(s: string): Option<int> {
    var neg := s != "" && s[0] == '-';
    var body := if s != "" && (s[0] == '-' || s[0] == '+') then s[1..] else s;
    if body == "" || !AllDigits(body) then None
    else
      var size: int := Value(body);
      var v := if neg then -size else size;
      if MIN_INT <= v <= MAX_INT then Some(v) else None
  }

  lemma AtoiOfItoa(n: int)
    requires MIN_INT <= n <= MAX_INT
    ensures Atoi(Itoa(n)) == Some(n)
  {
    ValueOfDigits(if n < 0 then -n else n);
    if n < 0 {
      assert Itoa(n)[1..] == Digits(-n);
    } else {
      assert IsDigit(Digits(n)[0]);
    }
  }

  /** Decimal digits are read with an optional sign, and nothing outside 64 bits. */
  lemma AtoiReads(digits: string)
    requires digits != "" && AllDigits(digits)
    ensures Atoi(digits) == Atoi("+" + digits) == if Value(digits) <= 0x7fff_ffff_ffff_ffff then Some(Value(digits)) else None
    ensures Atoi("-" + digits) == if Value(digits) <= 0x8000_0000_0000_0000 then var v: int := Value(digits); Some(-v) else None
  {
    hide Value;
    assert ("+" + digits)[1..] == digits && ("-" + digits)[1..] == digits;
    assert IsDigit(digits[0]);
  }

  /** What is no decimal number is not read at all. */
  lemma AtoiRefuses(s: string, k: nat)
    requires k < |s| && !('0' <= s[k] <= '9') && (k > 0 || (s[0] != '+' && s[0] != '-'))
    ensures Atoi(s).None? && Atoi("").None? && Atoi("+").None? && Atoi("-").None?
  {
    var body := if s[0] == '-' || s[0] == '+' then s[1..] else s;
    assert body[if s[0] == '-' || s[0] == '+' then k - 1 else k] == s[k];
  }

  // ---- version strings ---------------------------------------------------------------------

  function TrimV(s: string): string {
    if s != "" && s[0] == 'v' then s[1..] else s
  }

  /** The text before the first dot. */
  function BeforeDot(s: string): (r: string)
    ensures r <= s && '.' !in r
    ensures |r| < |s| ==> s[|r|] == '.'
  {
    if s == "" || s[0] == '.' then "" else [s[0]] + BeforeDot(s[1..])
  }

  /** The second dot-separated part, if there is one. */
  function SecondPart(s: string): Option<string> {
    var first := BeforeDot(s);
    if |first| == |s| then None else Some(BeforeDot(s[|first| + 1..]))
  }

  /** The minor of "v1.23", "1.23" or "v1.23.17". */
  function ParseMinor(s: string): Option<int> {
    match SecondPart(TrimV(s))
    case None => None
    case Some(part) => Atoi(part)
  }

  function OnlyDigits(s: string): (r: string)
    ensures AllDigits(r)
    ensures AllDigits(s) ==> r == s
  {
    if s == "" then "" else (if IsDigit(s[0]) then [s[0]] else "") + OnlyDigits(s[1..])
  }

  /** The same, ignoring anything that is not a digit ("34+"). */
  function MinorOfVersion(s: string): Option<int> {
    match SecondPart(TrimV(s))
    case None => None
    case Some(part) => if OnlyDigits(part) == "" then None else Atoi(OnlyDigits(part))
  }

  /** The canonical key of a minor in the upgrade path. */
  function Key(minor: int): string {
    "v1." + Itoa(minor)
  }

  lemma {:induction false} BeforeDotSplit(a: string, rest: string)
    requires '.' !in a && (rest == "" || rest[0] == '.')
    ensures BeforeDot(a + rest) == a
  {
    if a == "" {
      assert a + rest == rest;
    } else {
      assert (a + rest)[1..] == a[1..] + rest;
      BeforeDotSplit(a[1..], rest);
    }
  }

  lemma SecondPartOf(text: string, rest: string)
    requires '.' !in text && (rest == "" || rest[0] == '.')
    ensures SecondPart(TrimV("v1." + text + rest)) == Some(text)
  {
    var s := "v1." + text + rest;
    assert TrimV(s) == "1" + ("." + text + rest);
    BeforeDotSplit("1", "." + text + rest);
    assert TrimV(s)[2..] == text + rest;
    BeforeDotSplit(text, rest);
  }

  lemma ItoaHasNoDot(n: int)
    ensures '.' !in Itoa(n)
  {
    var d := Digits(if n < 0 then -n else n);
    assert forall i :: 0 <= i < |d| ==> d[i] != '.';
    assert Itoa(n) == if n < 0 then "-" + d else d;
  }

  /** Printing a minor as a key and parsing it back is the identity. */
  lemma KeyRoundTrip(minor: int)
    requires MIN_INT <= minor <= MAX_INT
    ensures ParseMinor(Key(minor)) == Some(minor) && Key(minor) == "v1." + Itoa(minor) && Atoi(Itoa(minor)) == Some(minor)
  {
    ItoaHasNoDot(minor);
    SecondPartOf(Itoa(minor), "");
    assert "v1." + Itoa(minor) + "" == Key(minor);
    AtoiOfItoa(minor);
  }

  /** So distinct minors have distinct keys. */
  lemma KeyInjective(a: int, b: int)
    requires MIN_INT <= a <= MAX_INT && MIN_INT <= b <= MAX_INT && Key(a) == Key(b)
    ensures a == b
  {
    KeyRoundTrip(a);
    KeyRoundTrip(b);
  }

  lemma MinorOfText(text: string, rest: string)
    requires '.' !in text && (rest == "" || rest[0] == '.') && OnlyDigits(text) != ""
    ensures MinorOfVersion("v1." + text + rest) == Atoi(OnlyDigits(text))
  {
    SecondPartOf(text, rest);
  }

  /** A vendor's suffix on the minor is overlooked, as in "v1.34+". */
  lemma SuffixIgnored(minor: nat, suffix: string, rest: string)
    requires minor <= MAX_INT && (rest == "" || rest[0] == '.')
    requires '.' !in suffix && forall i :: 0 <= i < |suffix| ==> !('0' <= suffix[i] <= '9')
    ensures MinorOfVersion("v1." + (Itoa(minor) + suffix) + rest) == Some(minor)
  {
    ItoaHasNoDot(minor);
    AtoiOfItoa(minor);
    OnlyDigitsOfBoth(Itoa(minor), suffix);
    hide Itoa;
    hide Atoi;
    hide MinorOfVersion;
    MinorOfText(Itoa(minor) + suffix, rest);
  }

  /** The leading v may be left out. */
  lemma LeadingVOptional(s: string)
    requires s == "" || s[0] != 'v'
    ensures ParseMinor("v" + s) == ParseMinor(s) && MinorOfVersion("v" + s) == MinorOfVersion(s)
  {
    assert ("v" + s)[1..] == s;
  }

  lemma {:induction false} OnlyDigitsOfBoth(digits: string, suffix: string)
    requires AllDigits(digits) && forall i :: 0 <= i < |suffix| ==> !IsDigit(suffix[i])
    ensures OnlyDigits(digits + suffix) == digits
  {
    if digits != "" {
      assert (digits + suffix)[1..] == digits[1..] + suffix;
      OnlyDigitsOfBoth(digits[1..], suffix);
    } else {
      assert digits + suffix == suffix;
      NoDigits(suffix);
    }
  }

  lemma {:induction false} NoDigits(s: string)
    requires forall i :: 0 <= i < |s| ==> !IsDigit(s[i])
    ensures OnlyDigits(s) == ""
  {
    if s != "" { NoDigits(s[1..]); }
  }

  /** A string without a dot names no minor. */
  lemma NoDotNoMinor(s: string)
    requires '.' !in s
    ensures ParseMinor(s).None? && MinorOfVersion(s).None?
  {
    var t := TrimV(s);
    assert '.' !in t;
  }

  /** A full version "v1.N.patch" is of minor N for both readers. */
  lemma VersionMinor(minor: nat, rest: string)
    requires minor <= MAX_INT && (rest == "" || rest[0] == '.')
    ensures MinorOfVersion(Key(minor) + rest) == Some(minor) && ParseMinor(Key(minor) + rest) == Some(minor)
  {
    ItoaHasNoDot(minor);
    SecondPartOf(Itoa(minor), rest);
    AtoiOfItoa(minor);
  }
}

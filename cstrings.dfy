/**
 * The C and C++ string routines the core relies on: std::string::find,
 * atoi, and printf's "%d" conversion, over strings as sequences of chars.
 */
module CStrings {
  import opened Wrappers

  predicate IsDigit(c: char) {
    '0' <= c <= '9'
  }

  predicate AllDigits(s: string) {
    forall i | 0 <= i < |s| :: IsDigit(s[i])
  }

  /** isspace in the C locale: space, \t, \n, \v, \f and \r. */
  predicate IsSpace(c: char) {
    c == ' ' || c == '\t' || c == '\n' || c == '\r' || c as int == 11 || c as int == 12
  }

  function DigitValue(c: char): (v: nat)
    requires IsDigit(c)
  {
    c as int - '0' as int
  }

  function DigitChar(d: nat): (c: char)
    requires d < 10
    ensures IsDigit(c) && DigitValue(c) == d
  {
    ('0' as int + d) as char
  }

  /** The value of a string of decimal digits, most significant digit first. */
  function DecimalValue(ds: string): (v: nat)
    requires AllDigits(ds)
  {
    if ds == [] then 0 else DecimalValue(ds[..|ds| - 1]) * 10 + DigitValue(ds[|ds| - 1])
  }

  /** pat occurs in s starting at index i. */
  predicate MatchesAt(s: string, pat: string, i: nat) {
    i + |pat| <= |s| && s[i..i + |pat|] == pat
  }

  /**
   * std::string::find(pat, from): the first index at or after from where
   * pat occurs, or None for std::string::npos.
   */
  function Find(s: string, pat: string, from: nat): (r: Option<nat>)
    ensures r.Some? ==> from <= r.value && MatchesAt(s, pat, r.value)
    ensures r.Some? ==> forall j :: from <= j < r.value ==> !MatchesAt(s, pat, j)
    ensures r.None? ==> forall j :: from <= j ==> !MatchesAt(s, pat, j)
    decreases |s| - from
  {
    if from + |pat| > |s| then None
    else if MatchesAt(s, pat, from) then Some(from)
    else Find(s, pat, from + 1)
  }

  /** Find returns exactly the index of a match that no earlier match precedes. */
  lemma FindIs(s: string, pat: string, from: nat, k: nat)
    requires from <= k && MatchesAt(s, pat, k)
    requires forall j :: from <= j < k ==> !MatchesAt(s, pat, j)
    ensures Find(s, pat, from) == Some(k)
  {
  }

  /** The whitespace atoi skips before the number. */
  function SkipSpaces(s: string): (t: string)
    ensures |t| <= |s| && t == s[|s| - |t|..]
    ensures t == [] || !IsSpace(t[0])
    ensures forall i | 0 <= i < |s| - |t| :: IsSpace(s[i])
  {
    if s != [] && IsSpace(s[0]) then SkipSpaces(s[1..]) else s
  }

  /** The longest prefix of s made of decimal digits. */
  function LeadingDigits(s: string): (ds: string)
    ensures |ds| <= |s| && AllDigits(ds) && ds == s[..|ds|]
    ensures |ds| == |s| || !IsDigit(s[|ds|])
  {
    if s == [] || !IsDigit(s[0]) then [] else [s[0]] + LeadingDigits(s[1..])
  }

  /**
   * atoi: optional whitespace, an optional sign, then as many digits as
   * follow; 0 when there are none. The value is exact (see README on overflow).
   */
  function AtoI(s: string): (n: int)
    ensures n < 0 ==> SkipSpaces(s) != [] && SkipSpaces(s)[0] == '-'
    ensures SkipSpaces(s) == [] || (SkipSpaces(s)[0] !in "+-" && !IsDigit(SkipSpaces(s)[0])) ==> n == 0
  {
    var t := SkipSpaces(s);
    if t != [] && t[0] == '-' then -(DecimalValue(LeadingDigits(t[1..])) as int)
    else if t != [] && t[0] == '+' then DecimalValue(LeadingDigits(t[1..]))
    else DecimalValue(LeadingDigits(t))
  }

  /** The decimal digits of n, without leading zeros ("0" for zero). */
  function NatToDecimal(n: nat): (s: string)
    ensures AllDigits(s) && |s| >= 1
    ensures s[0] == '0' ==> n == 0
  {
    if n < 10 then [DigitChar(n)] else NatToDecimal(n / 10) + [DigitChar(n % 10)]
  }

  /** printf's "%d" conversion. */
  function FormatInt(n: int): (s: string)
    ensures |s| >= 1 && (s[0] == '-' <==> n < 0)
    ensures var ds := if n < 0 then s[1..] else s; ds != [] && AllDigits(ds) && (ds[0] == '0' ==> n == 0)
  {
    if n < 0 then "-" + NatToDecimal(-n) else NatToDecimal(n)
  }

  lemma {:induction false} DecimalValueOfNatToDecimal(n: nat)
    ensures DecimalValue(NatToDecimal(n)) == n
  {
    var s := NatToDecimal(n);
    if n >= 10 {
      DecimalValueOfNatToDecimal(n / 10);
      assert s[..|s| - 1] == NatToDecimal(n / 10);
    }
  }

  /** A run of digits followed by a non-digit (or the end) is exactly what LeadingDigits takes. */
  lemma {:induction false} LeadingDigitsOfDigits(ds: string, rest: string)
    requires AllDigits(ds)
    requires rest == [] || !IsDigit(rest[0])
    ensures LeadingDigits(ds + rest) == ds
  {
    if ds != [] {
      assert (ds + rest)[1..] == ds[1..] + rest;
      LeadingDigitsOfDigits(ds[1..], rest);
    }
  }

  /** atoi reads back every number that "%d" writes. */
  lemma AtoIOfFormatInt(n: int)
    ensures AtoI(FormatInt(n)) == n
  {
    if n < 0 {
      AtoIOfNegative(NatToDecimal(-n));
      DecimalValueOfNatToDecimal(-n);
    } else {
      AtoIOfDigits(NatToDecimal(n));
      DecimalValueOfNatToDecimal(n);
    }
  }

  /** atoi of a minus sign followed by digits is the negated decimal value. */
  lemma AtoIOfNegative(ds: string)
    requires AllDigits(ds)
    ensures AtoI("-" + ds) == -(DecimalValue(ds) as int)
  {
    var s := "-" + ds;
    assert s[0] == '-' && s[1..] == ds;
    SkipSpacesOfNonSpace(s);
    AtoIOfDigits(ds);
  }

  /** atoi of a plain digit string is its decimal value. */
  lemma AtoIOfDigits(ds: string)
    requires AllDigits(ds)
    ensures AtoI(ds) == DecimalValue(ds)
    ensures LeadingDigits(ds) == ds
  {
    LeadingDigitsOfDigits(ds, []);
    assert ds + [] == ds;
    SkipSpacesOfNonSpace(ds);
  }

  lemma SkipSpacesOfNonSpace(s: string)
    requires s == [] || !IsSpace(s[0])
    ensures SkipSpaces(s) == s
  {
  }

  /** A number below 10^k has at most k digits. */
  lemma {:induction false} NatToDecimalLength(n: nat, k: nat)
    requires n < Pow10(k)
    ensures |NatToDecimal(n)| <= if k == 0 then 1 else k
  {
    if n >= 10 {
      NatToDecimalLength(n / 10, k - 1);
    }
  }

  function Pow10(k: nat): (p: nat) {
    if k == 0 then 1 else 10 * Pow10(k - 1)
  }
}

/** Decimal numerals, written and read as Go's strconv does for 64-bit integers. */
module Numerals {
  import opened Wrappers

  const MIN_INT := -0x8000_0000_0000_0000
  const MAX_INT := 0x7FFF_FFFF_FFFF_FFFF

  predicate IsDigit(c: char) {
    '0' <= c <= '9'
  }

  function DigitChar(d: nat): (c: char)
    requires d < 10
    ensures IsDigit(c)
  {
    (d + '0' as int) as char
  }

  function FormatNat(n: nat): string {
    if n < 10 then [DigitChar(n)] else FormatNat(n / 10) + [DigitChar(n % 10)]
  }

  function FormatInt(n: int): string {
    if n < 0 then "-" + FormatNat(-n) else FormatNat(n)
  }

  /** The value of a non-empty string of digits. */
  function ParseDigits(s: string): Option<nat> {
    if s == [] || !IsDigit(s[|s| - 1]) then None
    else
      var d := s[|s| - 1] as int - '0' as int;
      if |s| == 1 then Some(d)
      else match ParseDigits(s[..|s| - 1])
           case None => None
           case Some(front) => Some(10 * front + d)
  }

  /** An optional sign, digits, and nothing else; out-of-range values are errors. */
  function Atoi(s: string): Option<int> {
    var signed := s != [] && (s[0] == '-' || s[0] == '+');
    match ParseDigits(if signed then s[1..] else s)
    case None => None
    case Some(n) =>
      var value := if signed && s[0] == '-' then 0 - n else n as int;
      if MIN_INT <= value <= MAX_INT then Some(value) else None
  }

  lemma {:induction false} ParseFormattedNat(n: nat)
    ensures FormatNat(n) != [] && forall i :: 0 <= i < |FormatNat(n)| ==> IsDigit(FormatNat(n)[i])
    ensures ParseDigits(FormatNat(n)) == Some(n)
  {
    if n >= 10 {
      ParseFormattedNat(n / 10);
      var s := FormatNat(n);
      assert s[..|s| - 1] == FormatNat(n / 10) && s[|s| - 1] == DigitChar(n % 10);
      assert DigitChar(n % 10) as int - '0' as int == n % 10;
    } else {
      assert DigitChar(n) as int - '0' as int == n;
    }
  }

  /** What is written is read back. */
  lemma FormatThenAtoi(n: int)
    requires MIN_INT <= n <= MAX_INT
    ensures Atoi(FormatInt(n)) == Some(n)
  {
    if n < 0 {
      ParseFormattedNat(-n);
      assert FormatInt(n)[1..] == FormatNat(-n);
    } else {
      ParseFormattedNat(n);
    }
  }

  // What a numeral is worth

  predicate Digits(s: string) {
    s != "" && forall i :: 0 <= i < |s| ==> IsDigit(s[i])
  }

  function Power10(k: nat): nat {
    if k == 0 then 1 else 10 * Power10(k - 1)
  }

  /** The sum of the digits, each times the power of ten of its place. */
  function PlaceValue(s: string): int {
    if s == "" then 0 else (s[0] as int - '0' as int) * Power10(|s| - 1) + PlaceValue(s[1..])
  }

  lemma {:induction false} OneMorePlace(s: string, c: char)
    ensures PlaceValue(s + [c]) == 10 * PlaceValue(s) + (c as int - '0' as int)
  {
    if s == "" {
      assert s + [c] == [c] && [c][1..] == "" && Power10(0) == 1;
    } else {
      OneMorePlace(s[1..], c);
      assert (s + [c])[1..] == s[1..] + [c] && (s + [c])[0] == s[0];
      var d, p := s[0] as int - '0' as int, Power10(|s| - 1);
      assert Power10(|s|) == 10 * p;
      assert d * (10 * p) == 10 * (d * p);
    }
  }

  /** Digits are read by their places. */
  lemma {:induction false} ParseDigitsMeans(s: string)
    ensures ParseDigits(s).Some? <==> Digits(s)
    ensures Digits(s) ==> ParseDigits(s).value == PlaceValue(s)
  {
    if s != "" {
      var front, last := s[..|s| - 1], s[|s| - 1];
      ParseDigitsMeans(front);
      OneMorePlace(front, last);
      assert s == front + [last];
      assert forall i :: 0 <= i < |front| ==> front[i] == s[i];
    }
  }

  /** Digits with an optional sign, within 64 bits. */
  predicate Reads(s: string, n: int) {
    && MIN_INT <= n <= MAX_INT
    && ((Digits(s) && n == PlaceValue(s))
        || ("+" <= s && Digits(s[1..]) && n == PlaceValue(s[1..]))
        || ("-" <= s && Digits(s[1..]) && n == 0 - PlaceValue(s[1..])))
  }

  lemma AtoiMeans(s: string, n: int)
    ensures Atoi(s) == Some(n) <==> Reads(s, n)
  {
    ParseDigitsMeans(s);
    if s != "" { ParseDigitsMeans(s[1..]); }
  }

  /** A minus sign for negative numbers, then digits without a leading zero. */
  predicate Writes(s: string, n: int) {
    var body := if n < 0 && s != "" then s[1..] else s;
    && (n < 0 ==> "-" <= s)
    && Digits(body) && PlaceValue(body) == (if n < 0 then 0 - n else n) && (body[0] == '0' ==> |body| == 1)
  }

  lemma {:induction false} FormatNatLeads(n: nat)
    ensures FormatNat(n) != "" && (FormatNat(n)[0] == '0' ==> n == 0 && |FormatNat(n)| == 1)
  {
    if n >= 10 {
      FormatNatLeads(n / 10);
      assert FormatNat(n)[0] == FormatNat(n / 10)[0];
    } else {
      assert DigitChar(n) == '0' ==> n == 0;
    }
  }

  lemma FormatIntWrites(n: int)
    ensures Writes(FormatInt(n), n)
  {
    var m := if n < 0 then 0 - n else n;
    FormatNatLeads(m);
    ParseFormattedNat(m);
    ParseDigitsMeans(FormatNat(m));
    if n < 0 { assert FormatInt(n)[1..] == FormatNat(m); }
  }
}

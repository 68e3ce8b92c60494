/** Decimal numerals as Go's strconv and fmt treat them, for the ids of
    services/arnika-vici/repositories/swanvici/vici.go. */
module Numerals {

  const UINT64 := 0x1_0000_0000_0000_0000
  const INT64 := 0x8000_0000_0000_0000

  /** The successor of an unsigned 64-bit number. */
  function Successor(n: nat): nat
    requires n < UINT64
  {
    if n + 1 < UINT64 then n + 1 else 0
  }

  datatype Parsed = Bad | Number(n: int)

  predicate Digits(s: string) {
    s != "" && forall i :: 0 <= i < |s| ==> '0' <= s[i] <= '9'
  }

  function Value(s: string): nat
    requires forall i :: 0 <= i < |s| ==> '0' <= s[i] <= '9'
  {
    if s == "" then 0 else 10 * Value(s[..|s| - 1]) + (s[|s| - 1] as int - '0' as int)
  }

  /** `strconv.ParseUint(s, 10, 64)`: leading zeros are accepted, signs are not. */
  function ParseUint(s: string): (r: Parsed)
    ensures r.Number? ==> 0 <= r.n < UINT64
  {
    if Digits(s) && Value(s) < UINT64 then Number(Value(s)) else Bad
  }

  /** `strconv.Atoi` on a 64-bit machine. */
  function Atoi(s: string): Parsed {
    if s != "" && (s[0] == '-' || s[0] == '+') then
      if !Digits(s[1..]) then Bad
      else if s[0] == '+' then if Value(s[1..]) < INT64 then Number(Value(s[1..])) else Bad
      else if Value(s[1..]) <= INT64 then Number(-(Value(s[1..]) as int)) else Bad
    else if Digits(s) && Value(s) < INT64 then Number(Value(s))
    else Bad
  }

  function Digit(d: nat): char
    requires d < 10
  {
    '0' + d as char
  }

  /** `%d` of an unsigned number. */
  function Format(n: nat): string {
    if n < 10 then [Digit(n)] else Format(n / 10) + [Digit(n % 10)]
  }

  /** Parsing undoes formatting. */
  lemma {:induction false} FormatRoundTrip(n: nat)
    ensures Digits(Format(n)) && Value(Format(n)) == n
    ensures n < UINT64 ==> ParseUint(Format(n)) == Number(n)
  {
    if n < 10 {
      assert Value(Format(n)[..0]) == 0;
    } else {
      FormatRoundTrip(n / 10);
      assert Format(n)[..|Format(n)| - 1] == Format(n / 10);
    }
  }

  /** No leading zero is written. */
  lemma {:induction false} FormatIsShortest(n: nat)
    ensures |Format(n)| == 1 || Format(n)[0] != '0'
    ensures n > 0 ==> Format(n)[0] != '0'
  {
    if n >= 10 {
      FormatIsShortest(n / 10);
      assert Format(n)[0] == Format(n / 10)[0];
    }
  }

  /** Numbers out of range are not numbers. */
  lemma ParsedNumerals(n: nat)
    ensures ParseUint(Format(n)) == if n < UINT64 then Number(n) else Bad
    ensures Atoi(Format(n)) == if n < INT64 then Number(n) else Bad
  {
    FormatRoundTrip(n);
  }

  /** A sign is read by Atoi alone. */
  lemma SignedNumerals(n: nat)
    ensures Atoi("+" + Format(n)) == if n < INT64 then Number(n) else Bad
    ensures Atoi("-" + Format(n)) == if n <= INT64 then Number(-(n as int)) else Bad
    ensures ParseUint("+" + Format(n)) == ParseUint("-" + Format(n)) == Bad
  {
    FormatRoundTrip(n);
    Signed("+", Format(n));
    Signed("-", Format(n));
  }

  lemma Signed(sign: string, f: string)
    requires |sign| == 1
    ensures (sign + f)[0] == sign[0] && (sign + f)[1..] == f
  {
  }
}

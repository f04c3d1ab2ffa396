/** Decimal rendering of gateway payment ids (Go's strconv.Itoa), which turns the
    gateway's integer id into the ledger's external_id key, and its inverse. */
module Decimal {

  import Types

  predicate IsDigit(c: char) { '0' <= c <= '9' }

  predicate AllDigits(s: string) { forall i :: 0 <= i < |s| ==> IsDigit(s[i]) }

  function DigitChar(d: nat): (c: char)
    requires d < 10
    ensures IsDigit(c) && (c as int) - ('0' as int) == d
  {
    (('0' as int) + d) as char
  }

  /** Digits of a natural number, most significant first, without leading zeros. */
  function NatToDecimal(n: nat): (s: string)
    ensures |s| >= 1 && AllDigits(s)
    ensures |s| > 1 ==> s[0] != '0'
    decreases n
  {
    if n < 10 then [DigitChar(n)] else NatToDecimal(n / 10) + [DigitChar(n % 10)]
  }

  /** strconv.Itoa: a leading '-' for negative numbers, then the digits of the magnitude. */
  function Itoa(n: int): string
  {
    if n < 0 then "-" + NatToDecimal(-n) else NatToDecimal(n)
  }

  /** The value of a string of decimal digits. */
  function DecimalValue(s: string): nat
    requires AllDigits(s)
    decreases |s|
  {
    if s == [] then 0
    else DecimalValue(s[..|s| - 1]) * 10 + ((s[|s| - 1] as int) - ('0' as int))
  }

  /** strconv.Atoi restricted to what Itoa produces: an optional '-' and digits. */
  function Atoi(s: string): Types.Option<int>
  {
    if |s| >= 2 && s[0] == '-' && AllDigits(s[1..]) then Types.Some(-(DecimalValue(s[1..]) as int))
    else if |s| >= 1 && AllDigits(s) then Types.Some(DecimalValue(s) as int)
    else Types.None
  }

  lemma {:induction false} NatToDecimalRoundTrip(n: nat)
    ensures DecimalValue(NatToDecimal(n)) == n
    decreases n
  {
    if n >= 10 {
      NatToDecimalRoundTrip(n / 10);
      var s := NatToDecimal(n);
      assert s[..|s| - 1] == NatToDecimal(n / 10);
    }
  }

  /** Parsing a rendered id gives the id back. */
  lemma {:induction false} ItoaRoundTrip(n: int)
    ensures Atoi(Itoa(n)) == Types.Some(n)
  {
    var s := Itoa(n);
    if n < 0 {
      NatToDecimalRoundTrip(-n);
      assert s[0] == '-' && s[1..] == NatToDecimal(-n);
      assert |s| >= 2 && AllDigits(s[1..]);
    } else {
      NatToDecimalRoundTrip(n);
      assert s == NatToDecimal(n) && IsDigit(s[0]);
    }
  }

  /** Distinct gateway ids never share a ledger key. */
  lemma ItoaInjective(a: int, b: int)
    ensures Itoa(a) == Itoa(b) <==> a == b
  {
    if Itoa(a) == Itoa(b) {
      ItoaRoundTrip(a);
      ItoaRoundTrip(b);
    }
  }
}

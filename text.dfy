/** Bytes of Go strings, ASCII literals and the decimal rendering used by
    `strconv.Itoa` and `%d`. */
module Text {

  newtype byte = b: int | 0 <= b < 256

  const NL: byte := 10
  const CloseParen: byte := 41
  const Minus: byte := 45
  const Zero: byte := 48

  /** The bytes of an ASCII literal of the program text. */
  function Lit(s: string): (r: seq<byte>)
    ensures |r| == |s|
  {
    seq(|s|, i requires 0 <= i < |s| => (s[i] as int % 256) as byte)
  }

  lemma LitSplit(a: string, b: string)
    ensures Lit(a + b) == Lit(a) + Lit(b)
  {
  }

  lemma LitNoNewline(s: string)
    requires forall i | 0 <= i < |s| :: s[i] < 128 as char && s[i] != '\n'
    ensures NL !in Lit(s)
  {
    forall i | 0 <= i < |s| ensures Lit(s)[i] != NL {
      assert s[i] as int < 128;
    }
  }

  predicate IsDigit(b: byte) {
    Zero <= b < Zero + 10
  }

  /** Decimal digits of a natural number, most significant first. */
  function Digits(n: nat): (r: seq<byte>)
    ensures |r| > 0 && forall i | 0 <= i < |r| :: IsDigit(r[i])
  {
    if n < 10 then [Zero + n as byte]
    else Digits(n / 10) + [Zero + (n % 10) as byte]
  }

  /** `strconv.Itoa` / `%d`: optional minus sign, then the digits. */
  function Decimal(n: int): seq<byte> {
    if n < 0 then [Minus] + Digits(-n) else Digits(n)
  }

  /** Reads back a run of decimal digits. */
  function DigitsValue(s: seq<byte>): nat
    requires forall i | 0 <= i < |s| :: IsDigit(s[i])
  {
    if s == [] then 0
    else
      assert IsDigit(s[|s| - 1]);
      DigitsValue(s[..|s| - 1]) * 10 + (s[|s| - 1] as int - Zero as int)
  }

  /** Reads back what `Decimal` writes. */
  function DecimalValue(s: seq<byte>): int
    requires |s| > 0
    requires forall i | 0 < i < |s| :: IsDigit(s[i])
    requires IsDigit(s[0]) || s[0] == Minus
  {
    if s[0] == Minus then 0 - DigitsValue(s[1..]) as int else DigitsValue(s)
  }

  lemma {:induction false} DigitsRoundTrip(n: nat)
    ensures DigitsValue(Digits(n)) == n
  {
    if n >= 10 {
      var d := Digits(n);
      DigitsRoundTrip(n / 10);
      assert d[..|d| - 1] == Digits(n / 10);
    }
  }

  /** `Decimal` is injective: reading the text back gives the number, and
      the text holds neither a newline nor a closing parenthesis. */
  lemma DecimalRoundTrip(n: int)
    ensures |Decimal(n)| > 0
    ensures forall i | 0 < i < |Decimal(n)| :: IsDigit(Decimal(n)[i])
    ensures IsDigit(Decimal(n)[0]) || Decimal(n)[0] == Minus
    ensures DecimalValue(Decimal(n)) == n
    ensures NL !in Decimal(n) && CloseParen !in Decimal(n)
  {
    var d := Decimal(n);
    if n < 0 {
      assert d[1..] == Digits(-n);
      DigitsRoundTrip(-n);
    } else {
      DigitsRoundTrip(n);
    }
  }
}

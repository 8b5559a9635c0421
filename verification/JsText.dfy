/** Strings of the source language: sequences of 16-bit code units. */
module JsText {

  type Unit = n: nat | n < 0x1_0000

  type Text = seq<Unit>

  const QUOTE: Unit := 34
  const COMMA: Unit := 44
  const COLON: Unit := 58
  const BACKSLASH: Unit := 92

  datatype Option<+T> = None | Some(value: T)

  // ---- Hexadecimal ---------------------------------------------------------

  function HexDigit(n: nat): Unit
    requires n < 16
  {
    if n < 10 then 48 + n else 87 + n
  }

  function HexValue(u: nat): (r: Option<nat>)
    ensures r.Some? ==> r.value < 16
  {
    if 48 <= u < 58 then Some(u - 48)
    else if 97 <= u < 103 then Some(u - 87)
    else if 65 <= u < 71 then Some(u - 55)
    else None
  }

  /** Four lower-case digits, zero-padded on the left. */
  function Hex4(n: nat): seq<Unit>
    requires n < 0x1_0000
  {
    [HexDigit(n / 16 / 16 / 16), HexDigit(n / 16 / 16 % 16), HexDigit(n / 16 % 16), HexDigit(n % 16)]
  }

  function ReadHex4(t: seq<nat>): (r: Option<nat>)
    requires |t| >= 4
    ensures r.Some? ==> r.value < 0x1_0000
  {
    match (HexValue(t[0]), HexValue(t[1]), HexValue(t[2]), HexValue(t[3]))
    case (Some(a), Some(b), Some(c), Some(d)) => Some(a * 4096 + b * 256 + c * 16 + d)
    case _ => None
  }

  lemma HexDigitRoundTrip(n: nat)
    requires n < 16
    ensures HexValue(HexDigit(n)) == Some(n)
  {
  }

  lemma HexRoundTrip(n: nat, rest: seq<nat>)
    requires n < 0x1_0000
    ensures ReadHex4(Hex4(n) + rest) == Some(n)
  {
    var p, q, r := n / 16, n / 16 / 16, n / 16 / 16 / 16;
    assert n == 16 * p + n % 16 && p == 16 * q + p % 16 && q == 16 * r + q % 16;
    HexDigitRoundTrip(r);
    HexDigitRoundTrip(q % 16);
    HexDigitRoundTrip(p % 16);
    HexDigitRoundTrip(n % 16);
  }
}

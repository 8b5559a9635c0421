/** The printer of single-quoted string literals, and a reader of such literals after
    section 12.9.4 of ECMA-262 to check it against. */
module StringLiteral {
  import opened JsText

  type CodePoint = n: nat | n < 0x11_0000

  const APOSTROPHE: CodePoint := 39

  // ---- The printer ---------------------------------------------------------

  function Piece(ch: CodePoint): seq<CodePoint> {
    if ch == BACKSLASH || ch == APOSTROPHE then [BACKSLASH, ch]
    else if ch == 10 then [BACKSLASH, 110]
    else if ch == 13 then [BACKSLASH, 114]
    else if ch < 0x20 || ch == 0x7F || ch == 0x2028 || ch == 0x2029 then [BACKSLASH, 117] + Hex4(ch)
    else [ch]
  }

  function Escaped(s: seq<CodePoint>): seq<CodePoint> {
    if s == [] then [] else Escaped(s[..|s| - 1]) + Piece(s[|s| - 1])
  }

  lemma EscapedStep(s: seq<CodePoint>, i: nat)
    requires i < |s|
    ensures Escaped(s[..i + 1]) == Escaped(s[..i]) + Piece(s[i])
  {
    assert s[..i + 1][..i] == s[..i];
  }

  /** The loop over the code points. */
  method EscapeAll(s: seq<CodePoint>) returns (out: seq<CodePoint>)
    ensures out == Escaped(s)
  {
    out := [];
    for i := 0 to |s|
      invariant out == Escaped(s[..i])
    {
      EscapedStep(s, i);
      var ch := s[i];
      if ch == BACKSLASH || ch == APOSTROPHE {
        out := out + [BACKSLASH, ch];
      } else if ch == 10 {
        out := out + [BACKSLASH, 110];
      } else if ch == 13 {
        out := out + [BACKSLASH, 114];
      } else if ch < 0x20 || ch == 0x7F || ch == 0x2028 || ch == 0x2029 {
        out := out + ([BACKSLASH, 117] + Hex4(ch));
      } else {
        out := out + [ch];
      }
    }
    assert s[..|s|] == s;
  }

  /** A literal that reads back as the string, and stays on its line. */
  method Quote(s: seq<CodePoint>) returns (literal: seq<CodePoint>)
    ensures ReadLiteral(literal) == Some((s, []))
    ensures OneLine(literal)
    ensures literal == [APOSTROPHE] + Escaped(s) + [APOSTROPHE]
  {
    var out := EscapeAll(s);
    literal := [APOSTROPHE] + out + [APOSTROPHE];
    LiteralSound(s);
  }

  // ---- The reader ----------------------------------------------------------

  /** A single-quoted literal at the front of `t`: its value and the text after it. */
  function ReadLiteral(t: seq<CodePoint>): Option<(seq<CodePoint>, seq<CodePoint>)> {
    if t == [] || t[0] != APOSTROPHE then None else ReadBody(t[1..])
  }

  function ReadBody(t: seq<CodePoint>): Option<(seq<CodePoint>, seq<CodePoint>)>
    decreases |t|
  {
    if t == [] then None
    else if t[0] == APOSTROPHE then Some(([], t[1..]))
    else if t[0] == BACKSLASH then
      match ReadEscape(t[1..])
      case None => None
      case Some((value, used)) => Push(value, ReadBody(t[1 + used..]))
    else if t[0] == 10 || t[0] == 13 then None
    else Push([t[0]], ReadBody(t[1..]))
  }

  function Push(value: seq<CodePoint>, r: Option<(seq<CodePoint>, seq<CodePoint>)>)
    : Option<(seq<CodePoint>, seq<CodePoint>)>
  {
    match r
    case None => None
    case Some((s, rest)) => Some((value + s, rest))
  }

  /** What follows a backslash: the code points it stands for and its length. */
  function ReadEscape(t: seq<CodePoint>): (r: Option<(seq<CodePoint>, nat)>)
    ensures r.Some? ==> 0 < r.value.1 <= |t|
  {
    if t == [] then None
    else if t[0] == 117 then
      if |t| >= 2 && t[1] == 123 then ReadBraced(t[2..], 0, 2)
      else if |t| < 5 then None
      else match ReadHex4(t[1..])
        case None => None
        case Some(n) => Some(([n], 5))
    else if t[0] == 120 then
      if |t| < 3 then None
      else match (HexValue(t[1]), HexValue(t[2]))
        case (Some(a), Some(b)) => Some(([a * 16 + b], 3))
        case _ => None
    else if t[0] == 13 && |t| > 1 && t[1] == 10 then Some(([], 2))
    else if t[0] == 10 || t[0] == 13 || t[0] == 0x2028 || t[0] == 0x2029 then Some(([], 1))
    else if 48 <= t[0] < 58 then
      if t[0] == 48 && !(|t| > 1 && 48 <= t[1] < 58) then Some(([0], 1)) else None
    else Some(([SingleEscape(t[0])], 1))
  }

  /** The named escapes; any other character stands for itself. */
  function SingleEscape(ch: CodePoint): CodePoint {
    if ch == 98 then 8
    else if ch == 116 then 9
    else if ch == 110 then 10
    else if ch == 118 then 11
    else if ch == 102 then 12
    else if ch == 114 then 13
    else ch
  }

  /** The digits of a braced escape, up to the closing brace. */
  function ReadBraced(t: seq<CodePoint>, value: nat, used: nat): (r: Option<(seq<CodePoint>, nat)>)
    ensures r.Some? ==> used < r.value.1 <= used + |t|
  {
    if t == [] || value >= 0x11_0000 then None
    else if t[0] == 125 then (if used == 2 then None else Some(([value], used + 1)))
    else match HexValue(t[0])
      case None => None
      case Some(d) => ReadBraced(t[1..], value * 16 + d, used + 1)
  }

  // ---- The round trip ------------------------------------------------------

  lemma PieceReads(ch: CodePoint, tail: seq<CodePoint>)
    ensures ReadBody(Piece(ch) + tail) == Push([ch], ReadBody(tail))
  {
    var p := Piece(ch);
    var t := p + tail;
    assert t[|p|..] == tail;
    if |p| == 6 {
      var rest := t[1..];
      assert rest[1..] == Hex4(ch) + tail;
      HexRoundTrip(ch, tail);
      assert t[1 + 5..] == tail;
    } else if |p| == 2 {
      assert t[1 + 1..] == tail;
    }
  }

  lemma Regroup<T>(a: seq<T>, b: seq<T>, c: seq<T>)
    ensures (a + b) + c == a + (b + c)
  {
  }

  lemma EscapedThen(s: seq<CodePoint>, tail: seq<CodePoint>)
    requires s != []
    ensures Escaped(s) + tail == Escaped(s[..|s| - 1]) + (Piece(s[|s| - 1]) + tail)
  {
    Regroup(Escaped(s[..|s| - 1]), Piece(s[|s| - 1]), tail);
  }

  lemma {:induction false} BodyRoundTrip(s: seq<CodePoint>, tail: seq<CodePoint>)
    ensures ReadBody(Escaped(s) + tail) == Push(s, ReadBody(tail))
  {
    if s == [] {
      assert Escaped(s) + tail == tail;
      PushNothing(ReadBody(tail));
    } else {
      var before, ch := s[..|s| - 1], s[|s| - 1];
      BodyRoundTrip(before, Piece(ch) + tail);
      PieceReads(ch, tail);
      EscapedThen(s, tail);
      PushTwice(before, ch, ReadBody(tail));
      assert before + [ch] == s;
    }
  }

  lemma PushNothing(r: Option<(seq<CodePoint>, seq<CodePoint>)>)
    ensures Push([], r) == r
  {
    if r.Some? {
      assert [] + r.value.0 == r.value.0;
    }
  }

  lemma PushTwice(before: seq<CodePoint>, ch: CodePoint, r: Option<(seq<CodePoint>, seq<CodePoint>)>)
    ensures Push(before, Push([ch], r)) == Push(before + [ch], r)
  {
    if r.Some? {
      assert before + ([ch] + r.value.0) == (before + [ch]) + r.value.0;
    }
  }

  /** Whatever text follows, the reader takes exactly the literal and yields exactly
      the string: quotes, backslashes, controls and separators included. */
  lemma LiteralRoundTrip(s: seq<CodePoint>, rest: seq<CodePoint>)
    ensures ReadLiteral([APOSTROPHE] + Escaped(s) + [APOSTROPHE] + rest) == Some((s, rest))
  {
    var closing := [APOSTROPHE] + rest;
    assert [APOSTROPHE] + Escaped(s) + [APOSTROPHE] + rest == [APOSTROPHE] + (Escaped(s) + closing);
    OpeningReads(Escaped(s) + closing);
    BodyRoundTrip(s, closing);
    ClosingReads(s, rest);
  }

  lemma OpeningReads(t: seq<CodePoint>)
    ensures ReadLiteral([APOSTROPHE] + t) == ReadBody(t)
  {
    assert ([APOSTROPHE] + t)[1..] == t;
  }

  lemma ClosingReads(s: seq<CodePoint>, rest: seq<CodePoint>)
    ensures Push(s, ReadBody([APOSTROPHE] + rest)) == Some((s, rest))
  {
    assert ([APOSTROPHE] + rest)[1..] == rest && s + [] == s;
  }

  predicate Plain(ch: CodePoint) {
    ch >= 0x20 && ch != 0x27 && ch != 0x5C && ch != 0x7F && ch != 0x2028 && ch != 0x2029
  }

  /** Characters that need no escape are copied as they are. */
  lemma {:induction false} PlainStays(s: seq<CodePoint>)
    requires forall ch | ch in s :: Plain(ch)
    ensures Escaped(s) == s
  {
    if s != [] {
      var rest, last := s[..|s| - 1], s[|s| - 1];
      assert s == rest + [last];
      PlainStays(rest);
      assert Plain(last);
    }
  }

  /** Quote, backslash, line feed and carriage return have two-character escapes; the other
      characters that cannot stand in a literal take six, in lower-case digits. */
  lemma EscapeLengths(ch: CodePoint)
    ensures |Piece(ch)| ==
      if ch in {39, 92, 10, 13} then 2 else if ch < 0x20 || ch in {0x7F, 0x2028, 0x2029} then 6 else 1
    ensures forall u | u in Piece(ch) && |Piece(ch)| == 6 :: u == BACKSLASH || u == 117 || 48 <= u < 58 || 97 <= u < 103
  {
  }

  /** No control character and no line or paragraph separator appears as such. */
  ghost predicate OneLine(t: seq<CodePoint>) {
    forall k | 0 <= k < |t| :: t[k] >= 0x20 && t[k] != 0x7F && t[k] != 0x2028 && t[k] != 0x2029
  }

  lemma PieceOneLine(ch: CodePoint)
    ensures OneLine(Piece(ch))
  {
  }

  lemma {:induction false} EscapedOneLine(s: seq<CodePoint>)
    ensures OneLine(Escaped(s))
  {
    if s != [] {
      EscapedOneLine(s[..|s| - 1]);
      PieceOneLine(s[|s| - 1]);
      assert Escaped(s) == Escaped(s[..|s| - 1]) + Piece(s[|s| - 1]);
    }
  }

  lemma LiteralSound(s: seq<CodePoint>)
    ensures var literal := [APOSTROPHE] + Escaped(s) + [APOSTROPHE];
      ReadLiteral(literal) == Some((s, [])) && OneLine(literal)
  {
    var literal := [APOSTROPHE] + Escaped(s) + [APOSTROPHE];
    LiteralRoundTrip(s, []);
    assert literal + [] == literal;
    EscapedOneLine(s);
  }
}

/** Greedy wrapping of a card's text into lines of bounded width. */
module LineWrap {
  import opened JsText

  const SPACE: Unit := 32

  type Word = Text

  /** White space and line terminators, what `\s` matches and `trim` removes. */
  predicate Space(u: Unit) {
    9 <= u <= 13 || u == 32 || u == 160 || u == 0x1680 || 0x2000 <= u <= 0x200A
    || u == 0x2028 || u == 0x2029 || u == 0x202F || u == 0x205F || u == 0x3000 || u == 0xFEFF
  }

  predicate ProperWord(w: Word) {
    w != [] && forall u | u in w :: !Space(u)
  }

  predicate ProperWords(ws: seq<Word>) {
    forall w | w in ws :: ProperWord(w)
  }

  // ---- Words ---------------------------------------------------------------

  function TrimStart(t: Text): Text {
    if t != [] && Space(t[0]) then TrimStart(t[1..]) else t
  }

  function TrimEnd(t: Text): Text {
    if t != [] && Space(t[|t| - 1]) then TrimEnd(t[..|t| - 1]) else t
  }

  /** The pieces between maximal runs of white space. */
  function Split(t: Text): (ws: seq<Word>)
    ensures ws != []
    decreases |t|
  {
    if t == [] then [[]]
    else if Space(t[0]) then
      TrimStartShortens(t);
      [[]] + Split(TrimStart(t))
    else
      var rest := Split(t[1..]);
      [[t[0]] + rest[0]] + rest[1..]
  }

  lemma TrimStartShortens(t: Text)
    ensures |TrimStart(t)| <= |t|
    ensures t != [] && Space(t[0]) ==> |TrimStart(t)| < |t|
  {
  }

  function Words(text: Text): seq<Word> {
    Split(TrimEnd(TrimStart(text)))
  }

  /** A text with no white space at either end splits into proper words. */
  lemma {:induction false} SplitProper(t: Text)
    requires t != [] ==> !Space(t[|t| - 1])
    ensures forall k | 0 < k < |Split(t)| :: ProperWord(Split(t)[k])
    ensures t != [] && !Space(t[0]) ==> ProperWord(Split(t)[0])
    ensures forall u | u in Split(t)[0] :: !Space(u)
    decreases |t|
  {
    if t != [] {
      if Space(t[0]) {
        TrimStartShortens(t);
        TrimStartStops(t);
        SplitProper(TrimStart(t));
      } else {
        SplitProper(t[1..]);
      }
    }
  }

  lemma {:induction false} TrimStartStops(t: Text)
    ensures TrimStart(t) != [] ==> !Space(TrimStart(t)[0])
    ensures t != [] && !Space(t[|t| - 1]) ==> TrimStart(t) != [] && TrimStart(t)[|TrimStart(t)| - 1] == t[|t| - 1]
  {
    if t != [] && Space(t[0]) {
      TrimStartStops(t[1..]);
    }
  }

  lemma {:induction false} TrimEndStops(t: Text)
    ensures TrimEnd(t) != [] ==> !Space(TrimEnd(t)[|TrimEnd(t)| - 1])
    ensures t != [] && !Space(t[0]) ==> TrimEnd(t) != [] && TrimEnd(t)[0] == t[0]
  {
    if t != [] && Space(t[|t| - 1]) {
      TrimEndStops(t[..|t| - 1]);
    }
  }

  /** Either the text is blank, and the one piece is empty, or every piece is a word. */
  lemma WordsProper(text: Text)
    ensures Words(text) == [[]] || ProperWords(Words(text))
  {
    var t := TrimStart(text);
    TrimStartStops(text);
    TrimEndStops(t);
    SplitProper(TrimEnd(t));
    if t == [] {
      assert TrimEnd(t) == [];
    }
  }

  /** The units of a text that are not white space. */
  function Letters(t: Text): Text {
    if t == [] then [] else Letter(t[0]) + Letters(t[1..])
  }

  function Concat(ws: seq<Word>): Text {
    if ws == [] then [] else ws[0] + Concat(ws[1..])
  }

  lemma {:induction false} TrimsKeepLetters(t: Text)
    ensures Letters(TrimStart(t)) == Letters(t)
    decreases |t|
  {
    if t != [] && Space(t[0]) {
      TrimsKeepLetters(t[1..]);
    }
  }

  lemma {:induction false} TrimEndKeepsLetters(t: Text)
    ensures Letters(TrimEnd(t)) == Letters(t)
    decreases |t|
  {
    if t != [] && Space(t[|t| - 1]) {
      TrimEndKeepsLetters(t[..|t| - 1]);
      LettersOfBoth(t[..|t| - 1], [t[|t| - 1]]);
      assert t[..|t| - 1] + [t[|t| - 1]] == t;
    }
  }

  function Letter(u: Unit): Text {
    if Space(u) then [] else [u]
  }

  lemma Regroup(a: Text, b: Text, c: Text)
    ensures (a + b) + c == a + (b + c)
  {
  }

  lemma LettersStep(a: Text, b: Text)
    requires a != []
    ensures Letters(a + b) == Letter(a[0]) + Letters(a[1..] + b)
  {
    assert (a + b)[1..] == a[1..] + b;
  }

  lemma {:induction false} LettersOfBoth(a: Text, b: Text)
    ensures Letters(a + b) == Letters(a) + Letters(b)
  {
    if a == [] {
      assert a + b == b;
    } else {
      LettersOfBoth(a[1..], b);
      LettersStep(a, b);
      Regroup(Letter(a[0]), Letters(a[1..]), Letters(b));
    }
  }

  lemma ConcatPrepends(u: Unit, ws: seq<Word>)
    requires ws != []
    ensures Concat([[u] + ws[0]] + ws[1..]) == [u] + Concat(ws)
  {
    assert ([[u] + ws[0]] + ws[1..])[1..] == ws[1..];
    assert ([u] + ws[0]) + Concat(ws[1..]) == [u] + (ws[0] + Concat(ws[1..]));
  }

  lemma ConcatSkips(ws: seq<Word>)
    ensures Concat([[]] + ws) == Concat(ws)
  {
    assert ([[]] + ws)[1..] == ws;
  }

  lemma {:induction false} SplitKeepsLetters(t: Text)
    ensures Concat(Split(t)) == Letters(t)
    decreases |t|
  {
    if t == [] {
      ConcatSkips([]);
    } else if Space(t[0]) {
      TrimStartShortens(t);
      TrimsKeepLetters(t);
      SplitKeepsLetters(TrimStart(t));
      ConcatSkips(Split(TrimStart(t)));
    } else {
      SplitKeepsLetters(t[1..]);
      ConcatPrepends(t[0], Split(t[1..]));
    }
  }

  /** No character but white space is lost or moved. */
  lemma WordsKeepLetters(text: Text)
    ensures Concat(Words(text)) == Letters(text)
  {
    TrimsKeepLetters(text);
    TrimEndKeepsLetters(TrimStart(text));
    SplitKeepsLetters(TrimEnd(TrimStart(text)));
  }

  lemma SplitConsumesUnit(u: Unit, t: Text, ws: seq<Word>)
    requires !Space(u) && Split(t) == ws
    ensures Split([u] + t) == [[u] + ws[0]] + ws[1..]
  {
    assert ([u] + t)[1..] == t;
  }

  lemma SplitAtSpace(w: Word)
    requires ProperWord(w)
    ensures Split([SPACE] + w) == [[], w]
  {
    assert ([SPACE] + w)[1..] == w;
    OneWord(w);
  }

  /** A text that ends in a word, a space and another word: one more piece. */
  lemma {:induction false} SplitAppends(t: Text, w: Word)
    requires t != [] && !Space(t[|t| - 1]) && ProperWord(w)
    ensures Split(t + ([SPACE] + w)) == Split(t) + [w]
    decreases |t|
  {
    var more := [SPACE] + w;
    assert t + more == [t[0]] + (t[1..] + more);
    if Space(t[0]) {
      TrimStartShortens(t);
      TrimStartStops(t);
      TrimStartPasses(t, more);
      SplitAppends(TrimStart(t), w);
    } else if |t| == 1 {
      assert t[1..] + more == more;
      SplitAtSpace(w);
      SplitConsumesUnit(t[0], more, [[], w]);
    } else {
      SplitAppends(t[1..], w);
      SplitConsumesUnit(t[0], t[1..] + more, Split(t[1..]) + [w]);
    }
  }

  lemma {:induction false} TrimStartPasses(t: Text, more: Text)
    requires t != [] && !Space(t[|t| - 1])
    ensures TrimStart(t + more) == TrimStart(t) + more
  {
    if Space(t[0]) {
      TrimStartPasses(t[1..], more);
      assert (t + more)[1..] == t[1..] + more;
    }
  }

  lemma {:induction false} OneWord(w: Word)
    requires forall u | u in w :: !Space(u)
    ensures Split(w) == [w] && TrimStart(w) == w
  {
    if w != [] {
      OneWord(w[1..]);
      assert [w[0]] + w[1..] == w;
    }
  }

  // ---- Lines ---------------------------------------------------------------

  function Joined(line: seq<Word>): Text {
    if line == [] then []
    else if |line| == 1 then line[0] else Joined(line[..|line| - 1]) + [SPACE] + line[|line| - 1]
  }

  lemma {:induction false} JoinedEnds(line: seq<Word>)
    requires line != [] && ProperWords(line)
    ensures Joined(line) != [] && !Space(Joined(line)[0]) && !Space(Joined(line)[|Joined(line)| - 1])
  {
    var last := line[|line| - 1];
    assert last in line && last[0] in last && last[|last| - 1] in last;
    if |line| > 1 {
      JoinedEnds(line[..|line| - 1]);
    }
  }

  lemma {:induction false} SplitOneMore(t: Text, ws: seq<Word>, w: Word, whole: Text)
    requires t != [] && !Space(t[|t| - 1]) && ProperWord(w) && Split(t) == ws
    requires whole == t + [SPACE] + w
    ensures Split(whole) == ws + [w]
  {
    SplitAppends(t, w);
    assert whole == t + ([SPACE] + w);
  }

  lemma {:induction false} JoinedSplit(line: seq<Word>)
    requires line != [] && ProperWords(line)
    ensures Split(Joined(line)) == line
  {
    var before, last := line[..|line| - 1], line[|line| - 1];
    assert last in line;
    assert line == before + [last];
    if before == [] {
      OneWord(last);
    } else {
      JoinedEnds(before);
      JoinedSplit(before);
      SplitOneMore(Joined(before), before, last, Joined(line));
    }
  }

  /** Cutting a printed line gives back exactly its words. */
  lemma JoinedSplitsBack(line: seq<Word>)
    requires line != [] && ProperWords(line)
    ensures Words(Joined(line)) == line
  {
    JoinedEnds(line);
    JoinedSplit(line);
  }

  function JoinAll(lines: seq<seq<Word>>): seq<Text> {
    if lines == [] then [] else [Joined(lines[0])] + JoinAll(lines[1..])
  }

  function Flat(lines: seq<seq<Word>>): seq<Word> {
    if lines == [] then [] else lines[0] + Flat(lines[1..])
  }

  /** Within the limit, or a single word that cannot be helped. */
  predicate Allowed(line: seq<Word>, maxChars: int) {
    line != [] && (|line| == 1 || |Joined(line)| <= maxChars)
  }

  predicate AllAllowed(lines: seq<seq<Word>>, maxChars: int) {
    forall l | l in lines :: Allowed(l, maxChars)
  }

  /** The lines made of a line begun with `current` and the words still to come. */
  function Greedy(current: seq<Word>, ws: seq<Word>, maxChars: int): (lines: seq<seq<Word>>)
    requires current != []
    ensures lines != [] && forall l | l in lines :: l != []
    decreases |ws|
  {
    if ws == [] then [current]
    else if |Joined(current + [ws[0]])| > maxChars then [current] + Greedy([ws[0]], ws[1..], maxChars)
    else Greedy(current + [ws[0]], ws[1..], maxChars)
  }

  lemma OneLineMore(line: seq<Word>, rest: seq<seq<Word>>, maxChars: int)
    ensures Flat([line] + rest) == line + Flat(rest)
    ensures AllAllowed([line] + rest, maxChars) <==> Allowed(line, maxChars) && AllAllowed(rest, maxChars)
  {
    assert ([line] + rest)[1..] == rest;
  }

  /** Every word once and in order, every line allowed. */
  lemma {:induction false} GreedyValid(current: seq<Word>, ws: seq<Word>, maxChars: int)
    requires Allowed(current, maxChars)
    ensures Flat(Greedy(current, ws, maxChars)) == current + ws
    ensures AllAllowed(Greedy(current, ws, maxChars), maxChars)
    decreases |ws|
  {
    if ws == [] {
      assert [current][1..] == [];
    } else {
      assert [ws[0]] + ws[1..] == ws;
      if |Joined(current + [ws[0]])| > maxChars {
        GreedyValid([ws[0]], ws[1..], maxChars);
        OneLineMore(current, Greedy([ws[0]], ws[1..], maxChars), maxChars);
      } else {
        GreedyValid(current + [ws[0]], ws[1..], maxChars);
        assert current + [ws[0]] + ws[1..] == current + ws;
      }
    }
  }

  lemma {:induction false} WiderOnTheRight(line: seq<Word>, more: seq<Word>)
    requires line != []
    ensures |Joined(line + more)| >= |Joined(line)|
    decreases |more|
  {
    if more != [] {
      WiderOnTheRight(line, more[..|more| - 1]);
      assert (line + more)[..|line + more| - 1] == line + more[..|more| - 1];
    } else {
      assert line + more == line;
    }
  }

  lemma {:induction false} WiderOnTheLeft(before: seq<Word>, line: seq<Word>)
    requires line != []
    ensures |Joined(before + line)| >= |Joined(line)|
    decreases |line|
  {
    if before == [] {
      assert before + line == line;
    } else if |line| == 1 {
      assert (before + line)[|before + line| - 1] == line[0];
    } else {
      WiderOnTheLeft(before, line[..|line| - 1]);
      assert (before + line)[..|before + line| - 1] == before + line[..|line| - 1];
    }
  }

  /** However another allowed layout begins, even with further words in front, it
      uses at least as many lines: its first line cannot reach past greedy's. */
  lemma {:induction false} GreedyStaysAhead(before: seq<Word>, current: seq<Word>, ws: seq<Word>, maxChars: int,
                                            other: seq<seq<Word>>)
    requires current != [] && AllAllowed(other, maxChars)
    requires Flat(other) == before + current + ws
    ensures |Greedy(current, ws, maxChars)| <= |other|
    decreases |ws|
  {
    if ws == [] {
    } else if |Joined(current + [ws[0]])| > maxChars {
      var first := other[0];
      assert first in other && Flat(other) == first + Flat(other[1..]);
      var n := |before| + |current|;
      if |first| > n {
        var extra := first[n + 1..];
        assert first == (before + (current + [ws[0]])) + extra by {
          assert first == Flat(other)[..|first|];
        }
        WiderOnTheLeft(before, current + [ws[0]]);
        WiderOnTheRight(before + (current + [ws[0]]), extra);
        assert false;
      }
      var skipped := (before + current)[|first|..];
      assert Flat(other[1..]) == skipped + [ws[0]] + ws[1..] by {
        assert Flat(other[1..]) == Flat(other)[|first|..];
        assert ws == [ws[0]] + ws[1..];
      }
      GreedyStaysAhead(skipped, [ws[0]], ws[1..], maxChars, other[1..]);
    } else {
      assert before + (current + [ws[0]]) + ws[1..] == before + current + ws;
      GreedyStaysAhead(before, current + [ws[0]], ws[1..], maxChars, other);
    }
  }

  /** The layout of a text's words. */
  function Layout(ws: seq<Word>, maxChars: int): (lines: seq<seq<Word>>)
    ensures forall l | l in lines :: l != []
  {
    if ws == [] || ws == [[]] then [] else Greedy([ws[0]], ws[1..], maxChars)
  }

  lemma LayoutStarts(ws: seq<Word>, maxChars: int)
    requires ws != [] && ProperWords(ws)
    ensures Layout(ws, maxChars) == Greedy([ws[0]], ws[1..], maxChars)
  {
    assert ws[0] in ws;
  }

  lemma LayoutValid(ws: seq<Word>, maxChars: int)
    requires ws != [] && ProperWords(ws)
    ensures Flat(Layout(ws, maxChars)) == ws && AllAllowed(Layout(ws, maxChars), maxChars)
  {
    LayoutStarts(ws, maxChars);
    assert [ws[0]] + ws[1..] == ws;
    GreedyValid([ws[0]], ws[1..], maxChars);
  }

  /** No allowed layout of the same words has fewer lines. */
  lemma {:induction false} LayoutOptimal(ws: seq<Word>, maxChars: int, other: seq<seq<Word>>)
    requires ws != [] && ProperWords(ws)
    requires AllAllowed(other, maxChars) && Flat(other) == ws
    ensures |Layout(ws, maxChars)| <= |other|
  {
    LayoutStarts(ws, maxChars);
    assert ws == [] + [ws[0]] + ws[1..];
    GreedyStaysAhead([], [ws[0]], ws[1..], maxChars, other);
  }

  lemma {:induction false} JoinAllAppend(lines: seq<seq<Word>>, l: seq<Word>)
    ensures JoinAll(lines + [l]) == JoinAll(lines) + [Joined(l)]
  {
    if lines != [] {
      JoinAllAppend(lines[1..], l);
      assert (lines + [l])[1..] == lines[1..] + [l];
    }
  }

  /** What is still to be laid out once the line begun holds `group`. */
  function Continued(group: seq<Word>, ws: seq<Word>, maxChars: int): seq<seq<Word>> {
    if group == [] then Layout(ws, maxChars) else Greedy(group, ws, maxChars)
  }

  /** The loop's state: lines finished, the line begun, the words to come. */
  datatype Progress = Progress(done: seq<seq<Word>>, group: seq<Word>, rest: seq<Word>)

  ghost predicate Midway(p: Progress, lines: seq<Text>, current: Text, whole: seq<seq<Word>>, maxChars: int) {
    current == Joined(p.group) && (p.group != [] ==> current != [])
    && lines == JoinAll(p.done)
    && p.done + Continued(p.group, p.rest, maxChars) == whole
  }

  lemma GreedyBreaks(group: seq<Word>, w: Word, rest: seq<Word>, maxChars: int)
    requires group != [] && |Joined(group) + [SPACE] + w| > maxChars
    ensures Greedy(group, [w] + rest, maxChars) == [group] + Greedy([w], rest, maxChars)
  {
    assert (group + [w])[..|group|] == group;
    assert ([w] + rest)[1..] == rest;
  }

  lemma LineBreaks(
      p: Progress, lines: seq<Text>, current: Text, whole: seq<seq<Word>>, maxChars: int, w: Word, rest: seq<Word>)
    requires Midway(p, lines, current, whole, maxChars) && p.rest == [w] + rest && w != []
    requires current != [] && |current + [SPACE] + w| > maxChars
    ensures Midway(Progress(p.done + [p.group], [w], rest), lines + [current], w, whole, maxChars)
  {
    GreedyBreaks(p.group, w, rest, maxChars);
    JoinAllAppend(p.done, p.group);
    DoneShifts(p.done, p.group, Continued([w], rest, maxChars));
  }

  lemma DoneShifts(done: seq<seq<Word>>, line: seq<Word>, more: seq<seq<Word>>)
    ensures done + ([line] + more) == (done + [line]) + more
  {
  }

  lemma LineGoesOn(
      p: Progress, lines: seq<Text>, current: Text, whole: seq<seq<Word>>, maxChars: int, w: Word, rest: seq<Word>)
    requires Midway(p, lines, current, whole, maxChars) && p.rest == [w] + rest && w != []
    requires current != [] ==> |current + [SPACE] + w| <= maxChars
    ensures Midway(Progress(p.done, p.group + [w], rest), lines,
                   if current != [] then current + [SPACE] + w else w, whole, maxChars)
  {
    assert (p.group + [w])[..|p.group|] == p.group;
    assert ([w] + rest)[1..] == rest && ([w] + rest)[0] == w;
  }

  lemma LastLine(p: Progress, lines: seq<Text>, current: Text, whole: seq<seq<Word>>, maxChars: int)
    requires Midway(p, lines, current, whole, maxChars) && p.rest == []
    ensures JoinAll(whole) == if current != [] then lines + [current] else lines
  {
    JoinAllAppend(p.done, p.group);
    assert p.done + [] == p.done;
  }

  /** The loop over the words. */
  method WrapWords(words: seq<Word>, maxChars: int) returns (lines: seq<Text>)
    requires words == [[]] || ProperWords(words)
    ensures lines == JoinAll(Layout(words, maxChars))
  {
    lines := [];
    var current: Text := [];
    ghost var whole := Layout(words, maxChars);
    ghost var p := Progress([], [], words);
    for i := 0 to |words|
      invariant p.rest == words[i..] && Midway(p, lines, current, whole, maxChars)
      invariant words == [[]] ==> current == [] && p.group == []
    {
      var w := words[i];
      ghost var rest := words[i + 1..];
      assert w in words && words[i..] == [w] + rest;
      var candidate := if current != [] then current + [SPACE] + w else w;
      if |candidate| > maxChars && current != [] {
        LineBreaks(p, lines, current, whole, maxChars, w, rest);
        lines := lines + [current];
        current := w;
        p := Progress(p.done + [p.group], [w], rest);
      } else {
        if w != [] {
          LineGoesOn(p, lines, current, whole, maxChars, w, rest);
        }
        p := Progress(p.done, if w != [] then p.group + [w] else p.group, rest);
        current := candidate;
      }
    }
    LastLine(p, lines, current, whole, maxChars);
    if current != [] {
      lines := lines + [current];
    }
  }

  method Wrap(text: Text, maxChars: int) returns (lines: seq<Text>)
    ensures lines == JoinAll(Layout(Words(text), maxChars))
  {
    WordsProper(text);
    lines := WrapWords(Words(text), maxChars);
  }

  /** What wrapping promises: the text's words in order, each line within the limit or
      a single word, and no such layout with fewer lines. */
  method WrapText(text: Text, maxChars: int) returns (lines: seq<Text>)
    ensures var layout := Layout(Words(text), maxChars);
      && lines == JoinAll(layout) && |lines| == |layout|
      && Flat(layout) == (if Words(text) == [[]] then [] else Words(text))
      && (forall l | l in layout :: l != [] && (|l| == 1 || |Joined(l)| <= maxChars))
      && (forall other :: AllAllowed(other, maxChars) && Flat(other) == Flat(layout) ==> |lines| <= |other|)
  {
    lines := Wrap(text, maxChars);
    ghost var layout := Layout(Words(text), maxChars);
    WordsProper(text);
    JoinAllLength(layout);
    if Words(text) != [[]] {
      LayoutValid(Words(text), maxChars);
      forall other | AllAllowed(other, maxChars) && Flat(other) == Flat(layout) ensures |lines| <= |other| {
        LayoutOptimal(Words(text), maxChars, other);
      }
    }
  }

  lemma {:induction false} JoinAllLength(lines: seq<seq<Word>>)
    ensures |JoinAll(lines)| == |lines|
  {
    if lines != [] {
      JoinAllLength(lines[1..]);
    }
  }
}

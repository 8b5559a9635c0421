/** Line diff of two texts: the longest-common-subsequence table, the walk back
    through it, and the reversal that yields the printed edit script. */
module UnifiedDiff {

  // ---- Edit scripts -------------------------------------------------------

  datatype Tag = Keep | Del | Add

  datatype Entry = Entry(tag: Tag, line: string)

  /** What remains when the '+' entries are dropped. */
  function OldSide(script: seq<Entry>): seq<string> {
    if script == [] then []
    else OldSide(script[..|script| - 1]) + if Last(script).tag == Add then [] else [Last(script).line]
  }

  /** What remains when the '-' entries are dropped. */
  function NewSide(script: seq<Entry>): seq<string> {
    if script == [] then []
    else NewSide(script[..|script| - 1]) + if Last(script).tag == Del then [] else [Last(script).line]
  }

  /** The lines a script keeps. */
  function Kept(script: seq<Entry>): seq<string> {
    if script == [] then []
    else Kept(script[..|script| - 1]) + if Last(script).tag == Keep then [Last(script).line] else []
  }

  ghost predicate Transforms(script: seq<Entry>, a: seq<string>, b: seq<string>) {
    OldSide(script) == a && NewSide(script) == b
  }

  function Last<T>(s: seq<T>): T
    requires s != []
  {
    s[|s| - 1]
  }

  function Init<T>(s: seq<T>): seq<T>
    requires s != []
  {
    s[..|s| - 1]
  }

  // ---- Longest common subsequences ---------------------------------------

  /** `c` is obtained from `a` by deleting elements. */
  ghost predicate Subsequence(c: seq<string>, a: seq<string>) {
    if c == [] then true
    else if a == [] then false
    else (Last(c) == Last(a) && Subsequence(Init(c), Init(a))) || Subsequence(c, Init(a))
  }

  /** The recurrence the table is filled by. */
  function Lcs(a: seq<string>, b: seq<string>): nat
    decreases |a| + |b|
  {
    if a == [] || b == [] then 0
    else if Last(a) == Last(b) then Lcs(Init(a), Init(b)) + 1
    else Max(Lcs(Init(a), b), Lcs(a, Init(b)))
  }

  function Max(x: nat, y: nat): nat {
    if x > y then x else y
  }

  /** Dropping the last line of one side loses at most one, and never gains. */
  lemma {:induction false} LcsMonotone(a: seq<string>, b: seq<string>)
    ensures a != [] ==> Lcs(Init(a), b) <= Lcs(a, b) <= Lcs(Init(a), b) + 1
    ensures b != [] ==> Lcs(a, Init(b)) <= Lcs(a, b) <= Lcs(a, Init(b)) + 1
    decreases |a| + |b|
  {
    if a != [] && b != [] {
      LcsMonotone(Init(a), b);
      LcsMonotone(a, Init(b));
    }
  }

  lemma {:induction false} SubsequenceOfInit(c: seq<string>, a: seq<string>)
    requires c != [] && Subsequence(c, a)
    ensures a != [] && Subsequence(Init(c), Init(a))
  {
    if !(Last(c) == Last(a) && Subsequence(Init(c), Init(a))) {
      SubsequenceOfInit(c, Init(a));
      SubsequenceGrows(Init(c), Init(Init(a)), Last(Init(a)));
      assert Init(Init(a)) + [Last(Init(a))] == Init(a);
    }
  }

  lemma SubsequenceGrows(c: seq<string>, a: seq<string>, x: string)
    requires Subsequence(c, a)
    ensures Subsequence(c, a + [x])
  {
    assert Init(a + [x]) == a;
  }

  /** `Lcs` bounds every common subsequence. */
  lemma {:induction false} LcsBounds(c: seq<string>, a: seq<string>, b: seq<string>)
    requires Subsequence(c, a) && Subsequence(c, b)
    ensures |c| <= Lcs(a, b)
    decreases |a| + |b|
  {
    if c != [] {
      if Last(a) == Last(b) {
        SubsequenceOfInit(c, a);
        SubsequenceOfInit(c, b);
        LcsBounds(Init(c), Init(a), Init(b));
      } else if Subsequence(c, Init(a)) {
        LcsBounds(c, Init(a), b);
      } else {
        LcsBounds(c, a, Init(b));
      }
    }
  }

  /** The kept lines of any script are a common subsequence of its two sides. */
  lemma {:induction false} KeptIsCommon(script: seq<Entry>)
    ensures Subsequence(Kept(script), OldSide(script))
    ensures Subsequence(Kept(script), NewSide(script))
    ensures |script| + |Kept(script)| == |OldSide(script)| + |NewSide(script)|
  {
    if script != [] {
      var rest, e := Init(script), Last(script);
      KeptIsCommon(rest);
      match e.tag
      case Keep =>
        assert Init(Kept(script)) == Kept(rest);
        assert Init(OldSide(script)) == OldSide(rest) && Init(NewSide(script)) == NewSide(rest);
      case Del =>
        assert Kept(script) == Kept(rest) && NewSide(script) == NewSide(rest);
        SubsequenceGrows(Kept(rest), OldSide(rest), e.line);
      case Add =>
        assert Kept(script) == Kept(rest) && OldSide(script) == OldSide(rest);
        SubsequenceGrows(Kept(rest), NewSide(rest), e.line);
    }
  }

  // ---- The walk back -------------------------------------------------------

  /** The walk keeps a line in this state ... */
  predicate StepKeeps(a: seq<string>, b: seq<string>) {
    a != [] && b != [] && Last(a) == Last(b)
  }

  /** ... and otherwise emits a '+' entry in this one; the `>=` is the tie-break. */
  predicate StepAdds(a: seq<string>, b: seq<string>) {
    b != [] && (a == [] || Lcs(a, Init(b)) >= Lcs(Init(a), b))
  }

  /** The edit script in printed order. */
  function Script(a: seq<string>, b: seq<string>): seq<Entry>
    decreases |a| + |b|
  {
    if a == [] && b == [] then []
    else if StepKeeps(a, b) then Script(Init(a), Init(b)) + [Entry(Keep, Last(a))]
    else if StepAdds(a, b) then Script(a, Init(b)) + [Entry(Add, Last(b))]
    else Script(Init(a), b) + [Entry(Del, Last(a))]
  }

  lemma Sides(script: seq<Entry>, e: Entry)
    ensures OldSide(script + [e]) == OldSide(script) + if e.tag == Add then [] else [e.line]
    ensures NewSide(script + [e]) == NewSide(script) + if e.tag == Del then [] else [e.line]
    ensures Kept(script + [e]) == Kept(script) + if e.tag == Keep then [e.line] else []
  {
    assert (script + [e])[..|script|] == script;
  }

  /** Both files can be read back off the script, and it keeps exactly `Lcs` lines. */
  lemma {:induction false} ScriptIsValid(a: seq<string>, b: seq<string>)
    ensures Transforms(Script(a, b), a, b)
    ensures |Kept(Script(a, b))| == Lcs(a, b)
    decreases |a| + |b|
  {
    assert a != [] ==> Init(a) + [Last(a)] == a;
    assert b != [] ==> Init(b) + [Last(b)] == b;
    if a == [] && b == [] {
    } else if StepKeeps(a, b) {
      ScriptIsValid(Init(a), Init(b));
      Sides(Script(Init(a), Init(b)), Entry(Keep, Last(a)));
    } else if StepAdds(a, b) {
      ScriptIsValid(a, Init(b));
      Sides(Script(a, Init(b)), Entry(Add, Last(b)));
    } else {
      ScriptIsValid(Init(a), b);
      Sides(Script(Init(a), b), Entry(Del, Last(a)));
    }
  }

  /** No edit script between the two files is shorter, and the lines kept are a
      longest common subsequence of them. */
  lemma ScriptIsShortest(a: seq<string>, b: seq<string>, other: seq<Entry>, common: seq<string>)
    requires Transforms(other, a, b)
    requires Subsequence(common, a) && Subsequence(common, b)
    ensures |Script(a, b)| <= |other|
    ensures Subsequence(Kept(Script(a, b)), a) && Subsequence(Kept(Script(a, b)), b)
    ensures |common| <= |Kept(Script(a, b))|
  {
    ScriptIsValid(a, b);
    KeptIsCommon(Script(a, b));
    KeptIsCommon(other);
    LcsBounds(Kept(other), a, b);
    LcsBounds(common, a, b);
  }

  /** Within a run of changed lines every deletion precedes every insertion. */
  ghost predicate DeletionsFirst(script: seq<Entry>) {
    forall k :: 0 < k < |script| && script[k].tag == Del ==> script[k - 1].tag != Add
  }

  lemma {:induction false} ScriptDeletesFirst(a: seq<string>, b: seq<string>)
    ensures DeletionsFirst(Script(a, b))
    decreases |a| + |b|
  {
    if a == [] && b == [] {
    } else if StepKeeps(a, b) {
      ScriptDeletesFirst(Init(a), Init(b));
    } else if StepAdds(a, b) {
      ScriptDeletesFirst(a, Init(b));
    } else {
      ScriptDeletesFirst(Init(a), b);
      var rest := Script(Init(a), b);
      if rest != [] && Last(rest).tag == Add {
        // The table would have had to drop between (Init(a), b) and (a, Init(b)).
        LcsMonotone(a, Init(b));
        assert false;
      }
    }
  }

  /** Lines kept, one after another. */
  function AllKept(lines: seq<string>): seq<Entry> {
    seq(|lines|, i requires 0 <= i < |lines| => Entry(Keep, lines[i]))
  }

  /** What two texts end in alike is kept as it is, and decides nothing about the rest. */
  lemma {:induction false} CommonEndingKept(a: seq<string>, b: seq<string>, ending: seq<string>)
    ensures Script(a + ending, b + ending) == Script(a, b) + AllKept(ending)
  {
    if ending == [] {
      assert a + ending == a && b + ending == b;
    } else {
      var rest, last := Init(ending), Last(ending);
      assert Init(a + ending) == a + rest && Init(b + ending) == b + rest;
      CommonEndingKept(a, b, rest);
      assert AllKept(ending) == AllKept(rest) + [Entry(Keep, last)];
    }
  }

  /** A text is kept whole against itself. */
  lemma NothingChanged(a: seq<string>)
    ensures Script(a, a) == AllKept(a)
  {
    CommonEndingKept([], [], a);
    assert [] + a == a;
  }

  // ---- The imperative form -------------------------------------------------

  function Reversed<T>(s: seq<T>): (r: seq<T>)
    ensures |r| == |s|
  {
    if s == [] then [] else Reversed(s[1..]) + [s[0]]
  }

  lemma {:induction false} ReversedPush<T>(s: seq<T>, x: T)
    ensures Reversed(s + [x]) == [x] + Reversed(s)
  {
    if s != [] {
      ReversedPush(s[1..], x);
      assert (s + [x])[1..] == s[1..] + [x];
    }
  }

  /** Moving the last entry of `script + [e]` onto the (backwards) accumulator. */
  lemma MoveLast(script: seq<Entry>, e: Entry, result: seq<Entry>)
    ensures (script + [e]) + Reversed(result) == script + Reversed(result + [e])
  {
    ReversedPush(result, e);
    assert (script + [e]) + Reversed(result) == script + ([e] + Reversed(result));
  }

  method FillTable(a: seq<string>, b: seq<string>) returns (dp: array2<nat>)
    ensures fresh(dp) && dp.Length0 == |a| + 1 && dp.Length1 == |b| + 1
    ensures forall x, y :: 0 <= x <= |a| && 0 <= y <= |b| ==> dp[x, y] == Lcs(a[..x], b[..y])
  {
    dp := new nat[|a| + 1, |b| + 1]((_, _) => 0);
    for i := 1 to |a| + 1
      invariant forall x, y :: 0 <= x < i && 0 <= y <= |b| ==> dp[x, y] == Lcs(a[..x], b[..y])
      invariant forall x :: i <= x <= |a| ==> dp[x, 0] == 0
    {
      for j := 1 to |b| + 1
        invariant forall x, y :: 0 <= x < i && 0 <= y <= |b| ==> dp[x, y] == Lcs(a[..x], b[..y])
        invariant forall y :: 0 <= y < j ==> dp[i, y] == Lcs(a[..i], b[..y])
        invariant forall x :: i <= x <= |a| ==> dp[x, 0] == 0
      {
        assert Init(a[..i]) == a[..i - 1] && Init(b[..j]) == b[..j - 1];
        if a[i - 1] == b[j - 1] {
          dp[i, j] := dp[i - 1, j - 1] + 1;
        } else {
          dp[i, j] := Max(dp[i - 1, j], dp[i, j - 1]);
        }
      }
    }
  }

  method Diff(a: seq<string>, b: seq<string>) returns (result: seq<Entry>)
    ensures result == Script(a, b)
  {
    var dp := FillTable(a, b);
    result := [];
    var i, j := |a|, |b|;
    assert a[..i] == a && b[..j] == b;
    while i > 0 || j > 0
      invariant 0 <= i <= |a| && 0 <= j <= |b|
      invariant forall x, y :: 0 <= x <= |a| && 0 <= y <= |b| ==> dp[x, y] == Lcs(a[..x], b[..y])
      invariant Script(a[..i], b[..j]) + Reversed(result) == Script(a, b)
      decreases i + j
    {
      ghost var x, y := a[..i], b[..j];
      assert i > 0 ==> Init(x) == a[..i - 1] && Last(x) == a[i - 1];
      assert j > 0 ==> Init(y) == b[..j - 1] && Last(y) == b[j - 1];
      if i > 0 && j > 0 && a[i - 1] == b[j - 1] {
        assert StepKeeps(x, y);
        MoveLast(Script(Init(x), Init(y)), Entry(Keep, a[i - 1]), result);
        result := result + [Entry(Keep, a[i - 1])];
        i, j := i - 1, j - 1;
      } else if j > 0 && (i == 0 || dp[i, j - 1] >= dp[i - 1, j]) {
        assert i > 0 ==> dp[i, j - 1] == Lcs(x, Init(y)) && dp[i - 1, j] == Lcs(Init(x), y);
        assert !StepKeeps(x, y) && StepAdds(x, y);
        MoveLast(Script(x, Init(y)), Entry(Add, b[j - 1]), result);
        result := result + [Entry(Add, b[j - 1])];
        j := j - 1;
      } else {
        assert !StepKeeps(x, y) && !StepAdds(x, y);
        MoveLast(Script(Init(x), y), Entry(Del, a[i - 1]), result);
        result := result + [Entry(Del, a[i - 1])];
        i := i - 1;
      }
    }
    result := Reversed(result);
  }

  // ---- Texts ---------------------------------------------------------------

  /** The text cut at every newline. */
  function SplitLines(s: string): (lines: seq<string>)
    ensures lines != [] && forall line | line in lines :: '\n' !in line
  {
    if s == "" then [""]
    else
      var rest := SplitLines(s[1..]);
      if s[0] == '\n' then [""] + rest else [[s[0]] + rest[0]] + rest[1..]
  }

  function JoinLines(lines: seq<string>): string
    requires lines != []
  {
    if |lines| == 1 then lines[0] else lines[0] + "\n" + JoinLines(lines[1..])
  }

  lemma {:induction false} JoinSplit(s: string)
    ensures JoinLines(SplitLines(s)) == s
  {
    if s != "" {
      JoinSplit(s[1..]);
      var rest := SplitLines(s[1..]);
      if s[0] == '\n' {
        assert ([""] + rest)[1..] == rest;
        assert s == "\n" + s[1..];
      } else {
        assert ([[s[0]] + rest[0]] + rest[1..])[1..] == rest[1..];
        assert s == [s[0]] + s[1..];
      }
    }
  }

  /** The whole command: both texts are recovered from what is printed, nothing
      shorter would do, and each hunk lists its deletions first. */
  method DiffTexts(a: string, b: string) returns (result: seq<Entry>)
    ensures OldSide(result) != [] && JoinLines(OldSide(result)) == a
    ensures NewSide(result) != [] && JoinLines(NewSide(result)) == b
    ensures forall other :: Transforms(other, SplitLines(a), SplitLines(b)) ==> |result| <= |other|
    ensures DeletionsFirst(result)
  {
    var linesA, linesB := SplitLines(a), SplitLines(b);
    result := Diff(linesA, linesB);
    ScriptIsValid(linesA, linesB);
    ScriptDeletesFirst(linesA, linesB);
    JoinSplit(a);
    JoinSplit(b);
    forall other | Transforms(other, linesA, linesB) ensures |result| <= |other| {
      ScriptIsShortest(linesA, linesB, other, []);
    }
  }
}

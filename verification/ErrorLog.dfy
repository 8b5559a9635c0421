/** The error log: numbered backups shifted in place, then one line appended. */
module ErrorLog {

  datatype Option<+T> = None | Some(value: T)

  /** A setting as it comes from the configuration. */
  datatype Number = Finite(value: real) | NotFinite

  datatype Rotation = Rotation(maxBytes: Number, maxFiles: Number, enabled: bool)

  const DEFAULT_ROTATION := Rotation(Finite(10485760.0), Finite(5.0), true)

  /** One log line and its size on disk, newline included. */
  datatype Line = Line(text: string, bytes: nat)

  type File = seq<Line>

  function Bytes(f: File): nat {
    if f == [] then 0 else Bytes(f[..|f| - 1]) + f[|f| - 1].bytes
  }

  /** A file is as large as its lines together. */
  lemma {:induction false} SizesAdd(f: File, g: File, line: Line)
    ensures Bytes([line]) == line.bytes
    ensures Bytes(f + g) == Bytes(f) + Bytes(g)
  {
    if g == [] {
      assert f + g == f;
    } else {
      var rest, last := g[..|g| - 1], g[|g| - 1];
      assert (f + g)[..|f + g| - 1] == f + rest;
      SizesAdd(f, rest, line);
    }
  }

  // ---- Settings ------------------------------------------------------------

  predicate Rotates(c: Rotation) {
    c.enabled && c.maxBytes.Finite? && c.maxBytes.value > 0.0 && c.maxFiles.Finite? && c.maxFiles.value >= 1.0
  }

  function Files(c: Rotation): (n: nat)
    requires Rotates(c)
    ensures n >= 1 && n as real <= c.maxFiles.value < n as real + 1.0
  {
    c.maxFiles.value.Floor
  }

  /** The least whole number of bytes that reaches the limit. */
  function Limit(c: Rotation): (n: nat)
    requires Rotates(c)
    ensures n as real >= c.maxBytes.value > n as real - 1.0
  {
    -((-c.maxBytes.value).Floor)
  }

  /** Missing settings take the defaults, and so do meaningless ones. */
  function Merged(maxBytes: Option<Number>, maxFiles: Option<Number>, enabled: Option<bool>): Rotation {
    var bytes := if maxBytes.Some? then maxBytes.value else DEFAULT_ROTATION.maxBytes;
    var files := if maxFiles.Some? then maxFiles.value else DEFAULT_ROTATION.maxFiles;
    Rotation(
      if bytes.NotFinite? || bytes.value <= 0.0 then DEFAULT_ROTATION.maxBytes else bytes,
      if files.NotFinite? || files.value < 1.0 then DEFAULT_ROTATION.maxFiles else files,
      if enabled.Some? then enabled.value else DEFAULT_ROTATION.enabled)
  }

  /** Settings that went through the setter rotate exactly when enabled. */
  lemma MergedRotates(maxBytes: Option<Number>, maxFiles: Option<Number>, enabled: Option<bool>)
    ensures Rotates(Merged(maxBytes, maxFiles, enabled)) <==> enabled != Some(false)
  {
  }

  /** A meaningful setting is kept; a missing or meaningless one is 10 MiB and five files. */
  lemma MergedKeeps(maxBytes: Option<Number>, maxFiles: Option<Number>, enabled: Option<bool>)
    ensures var c := Merged(maxBytes, maxFiles, enabled);
      && (c.enabled <==> enabled != Some(false))
      && c.maxBytes == (if maxBytes.Some? && maxBytes.value.Finite? && maxBytes.value.value > 0.0 then maxBytes.value
                        else Finite(10485760.0))
      && c.maxFiles == (if maxFiles.Some? && maxFiles.value.Finite? && maxFiles.value.value >= 1.0 then maxFiles.value
                        else Finite(5.0))
  {
  }

  // ---- The directory as a value --------------------------------------------

  datatype Store = Store(live: Option<File>, backups: map<nat, File>)

  const EMPTY := Store(None, map[])

  predicate Full(s: Store, c: Rotation) {
    Rotates(c) && s.live.Some? && Bytes(s.live.value) >= Limit(c)
  }

  /** Every backup up to the limit moves up one place, the oldest falls off, and the
      live file becomes the first. */
  function Rotated(s: Store, c: Rotation): Store {
    if !Full(s, c) then s
    else
      var n := Files(c);
      Store(None, map j | j in UpTo(n) + s.backups.Keys && Taken(s, n, j) :: Moved(s, n, j))
  }

  function UpTo(n: nat): (r: set<nat>)
    ensures forall k: nat :: k in r <==> k <= n
  {
    if n == 0 then {0} else UpTo(n - 1) + {n}
  }

  /** Whether place `j` holds a file after the shift, and which one. */
  predicate Taken(s: Store, n: nat, j: nat) {
    j == 1 || (if 1 < j <= n then j - 1 in s.backups else j in s.backups)
  }

  function Moved(s: Store, n: nat, j: nat): File
    requires s.live.Some? && Taken(s, n, j)
  {
    if j == 1 then s.live.value else if 1 < j <= n then s.backups[j - 1] else s.backups[j]
  }

  function Appended(s: Store, c: Rotation, line: Line): Store {
    var r := Rotated(s, c);
    r.(live := Some((if r.live.Some? then r.live.value else []) + [line]))
  }

  function Logged(c: Rotation, history: seq<Line>): Store {
    if history == [] then EMPTY
    else Appended(Logged(c, history[..|history| - 1]), c, history[|history| - 1])
  }

  /** A rotation, on any directory: it happens exactly when the live file has reached the
      limit; then the live file becomes the first backup, backups below the limit of files
      move up one place, and files numbered beyond it are not touched. */
  lemma RotationPlaces(s: Store, c: Rotation, j: nat)
    ensures !(Rotates(c) && s.live.Some? && Bytes(s.live.value) as real >= c.maxBytes.value) ==> Rotated(s, c) == s
    ensures Rotates(c) && s.live.Some? && Bytes(s.live.value) as real >= c.maxBytes.value ==>
      var r := Rotated(s, c);
      && r.live.None? && 1 in r.backups && r.backups[1] == s.live.value
      && (1 <= j && (j + 1) as real <= c.maxFiles.value ==>
            (j + 1 in r.backups <==> j in s.backups) && (j in s.backups ==> r.backups[j + 1] == s.backups[j]))
      && (j == 0 || (j > 1 && j as real > c.maxFiles.value) ==>
            (j in r.backups <==> j in s.backups) && (j in s.backups ==> r.backups[j] == s.backups[j]))
  {
    if Rotates(c) && s.live.Some? {
      LimitReached(Bytes(s.live.value), c);
    }
  }

  lemma LimitReached(bytes: nat, c: Rotation)
    requires Rotates(c)
    ensures bytes >= Limit(c) <==> bytes as real >= c.maxBytes.value
  {
  }

  // ---- What survives -------------------------------------------------------

  /** Backups `k` down to 1, oldest first. */
  function Oldest(backups: map<nat, File>, k: nat): seq<Line>
    requires forall i: nat | 1 <= i <= k :: i in backups
  {
    if k == 0 then [] else backups[k] + Oldest(backups, k - 1)
  }

  /** Only its last line can take a file over the limit. */
  ghost predicate JustFits(f: File, c: Rotation)
    requires Rotates(c)
  {
    f != [] && Bytes(f[..|f| - 1]) < Limit(c)
  }

  /** The store holds backups 1 .. k, each at least as big as the limit, and what it
      holds in order of age is the end of the history; nothing is missing from the
      front unless all places are taken. */
  ghost predicate Keeps(s: Store, c: Rotation, history: seq<Line>, k: nat) {
    && (forall i: nat :: i in s.backups <==> 1 <= i <= k)
    && (k > 0 ==> Rotates(c) && k <= Files(c) && forall i: nat | 1 <= i <= k :: Bytes(s.backups[i]) >= Limit(c))
    && var held := Held(s, k);
      |held| <= |history| && history[|history| - |held|..] == held
      && (|held| < |history| ==> Rotates(c) && k == Files(c))
  }

  function Held(s: Store, k: nat): seq<Line>
    requires forall i: nat | 1 <= i <= k :: i in s.backups
  {
    Oldest(s.backups, k) + if s.live.Some? then s.live.value else []
  }

  /** Renumbering the backups one up puts the new first one behind them. */
  lemma {:induction false} OldestShifts(before: map<nat, File>, after: map<nat, File>, k: nat)
    requires k >= 1
    requires forall i: nat | 1 <= i <= k :: i in after
    requires forall i: nat | 1 <= i < k :: i in before && after[i + 1] == before[i]
    ensures Oldest(after, k) == Oldest(before, k - 1) + after[1]
  {
    if k > 1 {
      OldestShifts(before, after, k - 1);
      assert after[k] + (Oldest(before, k - 2) + after[1]) == (before[k - 1] + Oldest(before, k - 2)) + after[1];
    }
  }

  /** How many backups a rotation leaves. */
  function Kept(c: Rotation, k: nat): nat
    requires Rotates(c)
  {
    if k < Files(c) then k + 1 else Files(c)
  }

  lemma RotatedShape(s: Store, c: Rotation, k: nat)
    requires Full(s, c) && k <= Files(c) && forall i: nat :: i in s.backups <==> 1 <= i <= k
    ensures MovedUp(s, Rotated(s, c), Kept(c, k))
  {
  }

  lemma DropOldest(s: Store, k: nat)
    requires k >= 1 && s.live.Some? && forall i: nat | 1 <= i <= k :: i in s.backups
    ensures Held(s, k) == s.backups[k] + (Oldest(s.backups, k - 1) + s.live.value)
  {
    var first, rest := s.backups[k], Oldest(s.backups, k - 1);
    assert (first + rest) + s.live.value == first + (rest + s.live.value);
  }

  lemma SuffixOfSuffix(history: seq<Line>, dropped: seq<Line>, tail: seq<Line>)
    requires |dropped + tail| <= |history| && history[|history| - |dropped + tail|..] == dropped + tail
    ensures history[|history| - |tail|..] == tail
  {
    assert history[|history| - |tail|..] == (dropped + tail)[|dropped|..];
  }

  /** `r` is `s` with its backups moved up to places 2 .. m and the live file in the first. */
  ghost predicate MovedUp(s: Store, r: Store, m: nat) {
    && s.live.Some? && r.live.None? && m >= 1
    && (forall i: nat :: i in r.backups <==> 1 <= i <= m)
    && r.backups[1] == s.live.value
    && (forall i: nat | 1 <= i < m :: i in s.backups && r.backups[i + 1] == s.backups[i])
  }

  lemma MovedUpHolds(s: Store, r: Store, m: nat)
    requires MovedUp(s, r, m)
    ensures Held(r, m) == Oldest(s.backups, m - 1) + s.live.value
  {
    OldestShifts(s.backups, r.backups, m);
  }

  lemma MovedUpBytes(s: Store, r: Store, m: nat, limit: nat)
    requires MovedUp(s, r, m) && Bytes(s.live.value) >= limit
    requires forall i: nat | 1 <= i < m :: Bytes(s.backups[i]) >= limit
    ensures forall i: nat | 1 <= i <= m :: Bytes(r.backups[i]) >= limit
  {
    forall i: nat | 1 <= i <= m ensures Bytes(r.backups[i]) >= limit {
      if i > 1 {
        assert r.backups[(i - 1) + 1] == s.backups[i - 1];
      }
    }
  }

  /** What is held is still the end of the history once the oldest backup, if the
      places were all taken, has gone. */
  lemma MovedUpSuffix(s: Store, r: Store, history: seq<Line>, k: nat, m: nat)
    requires MovedUp(s, r, m) && (m == k + 1 || m == k) && forall i: nat | 1 <= i <= k :: i in s.backups
    requires var held := Held(s, k); |held| <= |history| && history[|history| - |held|..] == held
    ensures var held := Held(r, m); |held| <= |history| && history[|history| - |held|..] == held
    ensures m == k + 1 ==> Held(r, m) == Held(s, k)
  {
    MovedUpHolds(s, r, m);
    if m == k {
      DropOldest(s, k);
      SuffixOfSuffix(history, s.backups[k], Oldest(s.backups, k - 1) + s.live.value);
    }
  }

  lemma RotationKeeps(s: Store, c: Rotation, history: seq<Line>, k: nat)
    requires Keeps(s, c, history, k) && Full(s, c)
    ensures Keeps(Rotated(s, c), c, history, Kept(c, k))
  {
    var r, m := Rotated(s, c), Kept(c, k);
    RotatedShape(s, c, k);
    MovedUpSuffix(s, r, history, k, m);
    MovedUpBytes(s, r, m, Limit(c));
  }

  lemma AppendKeeps(s: Store, c: Rotation, history: seq<Line>, k: nat, line: Line)
    requires Keeps(s, c, history, k)
    ensures Keeps(s.(live := Some((if s.live.Some? then s.live.value else []) + [line])), c, history + [line], k)
  {
    var t := s.(live := Some((if s.live.Some? then s.live.value else []) + [line]));
    assert Held(t, k) == Held(s, k) + [line];
    assert (history + [line])[|history + [line]| - |Held(t, k)|..] == history[|history| - |Held(s, k)|..] + [line];
  }

  function KeptAfter(s: Store, c: Rotation, k: nat): nat {
    if Full(s, c) then Kept(c, k) else k
  }

  lemma AppendedKeeps(s: Store, c: Rotation, history: seq<Line>, k: nat, line: Line)
    requires Keeps(s, c, history, k)
    ensures Keeps(Appended(s, c, line), c, history + [line], KeptAfter(s, c, k))
  {
    if Full(s, c) {
      RotationKeeps(s, c, history, k);
    }
    AppendKeeps(Rotated(s, c), c, history, KeptAfter(s, c, k), line);
  }

  /** Over the whole history of appends from a fresh directory. */
  lemma {:induction false} HistoryKept(c: Rotation, history: seq<Line>) returns (k: nat)
    ensures Keeps(Logged(c, history), c, history, k)
  {
    k := 0;
    if history != [] {
      var earlier, line := history[..|history| - 1], history[|history| - 1];
      assert earlier + [line] == history;
      k := HistoryKept(c, earlier);
      AppendedKeeps(Logged(c, earlier), c, earlier, k, line);
      k := KeptAfter(Logged(c, earlier), c, k);
    }
  }

  /** Every file there is went over the limit with its last line or not at all. */
  ghost predicate Sized(s: Store, c: Rotation) {
    Rotates(c) ==>
      (s.live.Some? ==> JustFits(s.live.value, c)) && forall i | i in s.backups :: JustFits(s.backups[i], c)
  }

  lemma {:induction false} HistorySized(c: Rotation, history: seq<Line>)
    ensures Sized(Logged(c, history), c)
  {
    if history != [] && Rotates(c) {
      var s, line := Logged(c, history[..|history| - 1]), history[|history| - 1];
      HistorySized(c, history[..|history| - 1]);
      var r := Rotated(s, c);
      assert Sized(r, c);
      var before := if r.live.Some? then r.live.value else [];
      assert (before + [line])[..|before|] == before;
    }
  }

  lemma {:induction false} BytesAdd(f: File, g: File)
    ensures Bytes(f + g) == Bytes(f) + Bytes(g)
  {
    if g == [] {
      assert f + g == f;
    } else {
      BytesAdd(f, g[..|g| - 1]);
      assert (f + g)[..|f + g| - 1] == f + g[..|g| - 1];
    }
  }

  lemma {:induction false} OldestBytes(backups: map<nat, File>, k: nat, each: nat)
    requires forall i: nat | 1 <= i <= k :: i in backups && Bytes(backups[i]) >= each
    ensures Bytes(Oldest(backups, k)) >= k * each
  {
    if k > 0 {
      OldestBytes(backups, k - 1, each);
      BytesAdd(backups[k], Oldest(backups, k - 1));
      assert k * each == (k - 1) * each + each;
    }
  }

  /** The backups from oldest to newest, then the live file, are the end of the
      history: at most the configured number of them, each within the limit but for
      its last line, all of the history while rotation is off, and once any line is
      gone at least `maxFiles * maxBytes` bytes remain. */
  lemma RetentionTheorem(c: Rotation, history: seq<Line>) returns (k: nat)
    ensures var s := Logged(c, history);
      && (forall i: nat :: i in s.backups <==> 1 <= i <= k)
      && (Rotates(c) ==> k <= Files(c)) && (!Rotates(c) ==> k == 0)
      && Sized(s, c)
      && var held := Held(s, k);
        && |held| <= |history| && history[|history| - |held|..] == held
        && (!Rotates(c) ==> held == history)
        && (held != history ==> Rotates(c) && Bytes(held) >= Files(c) * Limit(c))
  {
    k := HistoryKept(c, history);
    HistorySized(c, history);
    var s := Logged(c, history);
    var held := Held(s, k);
    if |held| == |history| {
      assert history[0..] == history;
    } else {
      OldestBytes(s.backups, k, Limit(c));
      BytesAdd(Oldest(s.backups, k), if s.live.Some? then s.live.value else []);
    }
  }

  /** The shift under way: places above `i + 1` have received their file, `i + 1` is
      vacant, the rest is untouched. */
  ghost predicate Shifting(before: map<nat, File>, now: map<nat, File>, i: int, n: nat) {
    forall j: nat :: PlaceShifted(before, now, i, n, j)
  }

  ghost predicate PlaceShifted(before: map<nat, File>, now: map<nat, File>, i: int, n: nat, j: nat) {
    if j == i + 1 then j !in now
    else if i + 1 < j <= n then (j in now <==> j - 1 in before) && (j in now ==> now[j] == before[j - 1])
    else (j in now <==> j in before) && (j in now ==> now[j] == before[j])
  }

  /** A rename into the vacant place, or nothing when there is no file to move. */
  function Renamed(backups: map<nat, File>, i: nat, j: nat): map<nat, File> {
    if i in backups then (backups - {i})[j := backups[i]] else backups
  }

  lemma ShiftStep(before: map<nat, File>, now: map<nat, File>, i: nat, n: nat)
    requires 1 <= i < n && Shifting(before, now, i, n)
    ensures i + 1 !in now && Shifting(before, Renamed(now, i, i + 1), i - 1, n)
  {
    assert PlaceShifted(before, now, i, n, i) && PlaceShifted(before, now, i, n, i + 1);
    var next, h := Renamed(now, i, i + 1), i - 1;
    forall j: nat ensures PlaceShifted(before, next, h, n, j) {
      assert PlaceShifted(before, now, i, n, j);
    }
  }

  lemma ShiftDone(s: Store, now: map<nat, File>, c: Rotation)
    requires Full(s, c) && Shifting(s.backups, now, 0, Files(c))
    ensures 1 !in now && Rotated(s, c) == Store(None, now[1 := s.live.value])
  {
    var r := Rotated(s, c);
    forall j: nat ensures j in r.backups <==> j in now[1 := s.live.value] {
      assert PlaceShifted(s.backups, now, 0, Files(c), j);
    }
    forall j: nat | j in r.backups ensures r.backups[j] == now[1 := s.live.value][j] {
      assert PlaceShifted(s.backups, now, 0, Files(c), j);
    }
    assert PlaceShifted(s.backups, now, 0, Files(c), 1);
  }

  // ---- The directory in place ----------------------------------------------

  class LogDirectory {
    var live: Option<File>
    var backups: map<nat, File>
    ghost var overwritten: nat // renames that replaced an existing file

    function Contents(): Store
      reads this
    {
      Store(live, backups)
    }

    constructor ()
      ensures Contents() == EMPTY && overwritten == 0
    {
      live, backups, overwritten := None, map[], 0;
    }

    /** Renaming a backup replaces the target; a missing one is ignored. */
    method RenameBackup(i: nat, j: nat)
      requires i != j
      modifies this
      ensures live == old(live)
      ensures backups == Renamed(old(backups), i, j)
      ensures overwritten == old(overwritten) + if i in old(backups) && j in old(backups) then 1 else 0
    {
      if i in backups {
        if j in backups {
          overwritten := overwritten + 1;
        }
        backups := (backups - {i})[j := backups[i]];
      }
    }

    method RenameLive()
      requires live.Some?
      modifies this
      ensures live.None? && backups == old(backups)[1 := old(live).value]
      ensures overwritten == old(overwritten) + if 1 in old(backups) then 1 else 0
    {
      if 1 in backups {
        overwritten := overwritten + 1;
      }
      backups := backups[1 := live.value];
      live := None;
    }

    /** For any directory, gaps and stray files included: the oldest backup is unlinked,
        the others move up, and no rename ever replaces a file. */
    method RotateIfNeeded(c: Rotation)
      modifies this
      ensures Contents() == Rotated(old(Contents()), c)
      ensures overwritten == old(overwritten)
    {
      if !Rotates(c) || live.None? || (Bytes(live.value) as real) < c.maxBytes.value {
        return;
      }
      var maxFiles := Files(c);
      backups := backups - {maxFiles};
      var i := maxFiles - 1;
      while i >= 1
        invariant 0 <= i < maxFiles && live == old(live) && overwritten == old(overwritten)
        invariant Shifting(old(backups), backups, i, maxFiles)
      {
        ShiftStep(old(backups), backups, i, maxFiles);
        RenameBackup(i, i + 1);
        i := i - 1;
      }
      ShiftDone(old(Contents()), backups, c);
      RenameLive();
    }

    method Append(c: Rotation, line: Line)
      modifies this
      ensures Contents() == Appended(old(Contents()), c, line)
      ensures overwritten == old(overwritten)
    {
      RotateIfNeeded(c);
      live := Some((if live.Some? then live.value else []) + [line]);
    }

    /** A whole history of appends to a fresh directory. */
    method AppendAll(c: Rotation, lines: seq<Line>)
      requires Contents() == EMPTY
      modifies this
      ensures Contents() == Logged(c, lines) && overwritten == old(overwritten)
    {
      assert lines[..0] == [];
      for n := 0 to |lines|
        invariant Contents() == Logged(c, lines[..n]) && overwritten == old(overwritten)
      {
        assert lines[..n + 1][..n] == lines[..n];
        Append(c, lines[n]);
      }
      assert lines[..|lines|] == lines;
    }
  }
}

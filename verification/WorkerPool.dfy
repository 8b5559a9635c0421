/** Bounded concurrent maps: a few workers share one counter, and whichever call
    returns next is left to the schedule. */
module WorkerPool {

  datatype Option<+T> = None | Some(value: T)

  function Min(a: int, b: int): int {
    if a < b then a else b
  }

  function Max(a: int, b: int): int {
    if a < b then b else a
  }

  /** What each item's call returns, in input order. */
  function MapAll<T, R>(fn: T -> R, items: seq<T>): seq<R> {
    seq(|items|, i requires 0 <= i < |items| => fn(items[i]))
  }

  /** A pool at work: calls 0 .. next-1 have begun, those in `flight` have not returned. */
  datatype Work<R> = Work(next: nat, flight: set<nat>, out: seq<Option<R>>, failed: bool)

  /** Unless a call has failed, as many calls are in flight as there are workers while
      any remain to be begun; a slot holds what its call returned, or nothing yet. */
  ghost predicate Working<T, R>(items: seq<T>, fn: T -> Option<R>, workers: nat, w: Work<R>) {
    && w.next <= |items| == |w.out| && |w.flight| <= workers <= |items|
    && (forall i | i in w.flight :: i < w.next)
    && (!w.failed && w.next < |items| ==> |w.flight| == workers)
    && (forall i: nat | i < |items| :: SlotFits(items, fn, w, i))
    && (w.failed ==> exists i: nat :: Rejects(items, fn, i))
  }

  ghost predicate SlotFits<T, R>(items: seq<T>, fn: T -> Option<R>, w: Work<R>, i: nat)
    requires i < |items| == |w.out|
  {
    w.out[i] == (if i < w.next && i !in w.flight then fn(items[i]) else None)
    && (i < w.next && i !in w.flight && Rejects(items, fn, i) ==> w.failed)
  }

  ghost predicate Rejects<T, R>(items: seq<T>, fn: T -> Option<R>, i: nat) {
    i < |items| && fn(items[i]).None?
  }

  /** One call returns: its worker stops on a rejection, or takes the next index. */
  function Returned<T, R>(items: seq<T>, fn: T -> Option<R>, w: Work<R>, i: nat): Work<R>
    requires i < |items| == |w.out|
  {
    var result := fn(items[i]);
    if result.None? then w.(flight := w.flight - {i}, failed := true)
    else if w.next < |items| then Work(w.next + 1, w.flight - {i} + {w.next}, w.out[i := result], w.failed)
    else Work(w.next, w.flight - {i}, w.out[i := result], w.failed)
  }

  lemma ReturnedWorks<T, R>(items: seq<T>, fn: T -> Option<R>, workers: nat, w: Work<R>, i: nat)
    requires Working(items, fn, workers, w) && i in w.flight
    ensures Working(items, fn, workers, Returned(items, fn, w, i))
  {
    var v := Returned(items, fn, w, i);
    assert |w.flight - {i}| == |w.flight| - 1;
    forall k: nat | k < |items| ensures SlotFits(items, fn, v, k) {
      assert SlotFits(items, fn, w, k);
    }
    if fn(items[i]).None? {
      assert Rejects(items, fn, i);
    }
  }

  /** When nothing is in flight, the pool has failed just if some call rejects, and
      otherwise every slot holds its item's result. */
  lemma PoolEnds<T, R>(items: seq<T>, fn: T -> Option<R>, workers: nat, w: Work<R>)
    requires Working(items, fn, workers, w) && w.flight == {} && (workers >= 1 || |items| == 0)
    ensures w.failed <==> exists i: nat :: Rejects(items, fn, i)
    ensures !w.failed ==> w.next == |items| && w.out == MapAll(fn, items)
  {
    if !w.failed {
      forall i: nat ensures !Rejects(items, fn, i) {
        assert i < |items| ==> SlotFits(items, fn, w, i);
      }
      forall i: nat | i < |items| ensures w.out[i] == fn(items[i]) {
        assert SlotFits(items, fn, w, i);
      }
    }
  }

  /** Every worker runs to its first await before any call returns. */
  method StartWorkers(workers: nat) returns (next: nat, flight: set<nat>, ghost calls: seq<nat>)
    ensures next == workers && (forall i: nat :: i in flight <==> i < next) && |flight| == next
    ensures |calls| == next && forall k | 0 <= k < next :: calls[k] == k
  {
    next, flight, calls := 0, {}, [];
    while next < workers
      invariant 0 <= next <= workers && (forall i: nat :: i in flight <==> i < next) && |flight| == next
      invariant |calls| == next && forall k | 0 <= k < next :: calls[k] == k
    {
      calls := calls + [next];
      flight := flight + {next};
      next := next + 1;
    }
  }

  /** `fn` over the items, `limit` at a time; `None` from a call is a rejection. Whatever
      order the calls return in: each index is called at most once and in order, no more
      than `limit` are in flight, and the pool resolves exactly when every call succeeds,
      with the results in input order. A limit below one calls nothing. */
  method Pool<T, R>(items: seq<T>, limit: int, fn: T -> Option<R>)
    returns (out: seq<Option<R>>, rejected: bool, ghost calls: seq<nat>, ghost peak: nat)
    ensures peak == if limit < 0 then 0 else if limit < |items| then limit else |items|
    ensures |calls| <= |items| && forall k | 0 <= k < |calls| :: calls[k] == k
    ensures limit >= 1 ==> (rejected <==> exists i: nat :: Rejects(items, fn, i))
    ensures limit >= 1 && !rejected ==> out == MapAll(fn, items) && |calls| == |items|
    ensures limit < 1 ==> !rejected && calls == [] && out == seq(|items|, _ => None)
  {
    var workers := if limit < 0 then 0 else Min(limit, |items|);
    out := seq(|items|, _ => None);
    rejected := false;
    var next: nat, flight: set<nat>;
    next, flight, calls := StartWorkers(workers);
    peak := workers;
    if workers == 0 {
      return;
    }
    assert forall i: nat | i < |items| :: SlotFits(items, fn, Work(next, flight, out, rejected), i);
    while flight != {}
      invariant Working(items, fn, workers, Work(next, flight, out, rejected))
      invariant |calls| == next && (forall k | 0 <= k < next :: calls[k] == k) && |flight| <= peak == workers
      decreases |items| - next, |flight|
    {
      var i :| i in flight;
      ReturnedWorks(items, fn, workers, Work(next, flight, out, rejected), i);
      flight := flight - {i};
      var result := fn(items[i]);
      if result.None? {
        rejected := true;
      } else {
        out := out[i := result];
        if next < |items| {
          calls := calls + [next];
          flight := flight + {next};
          next := next + 1;
        }
      }
      peak := Max(peak, |flight|);
    }
    PoolEnds(items, fn, workers, Work(next, flight, out, rejected));
  }

  // ---- Sorting what arrives in any order ------------------------------------

  /** A report, with the collation rank of the id it is sorted by. */
  datatype Report = Report(rank: int, body: string)

  ghost predicate RankSorted(reports: seq<Report>) {
    forall i, j :: 0 <= i < j < |reports| ==> reports[i].rank <= reports[j].rank
  }

  predicate Apart(x: Report, y: Report) {
    x.rank == y.rank ==> x == y
  }

  /** Reports of one rank are one report. */
  ghost predicate Uniform(reports: seq<Report>) {
    forall i, j :: 0 <= i < |reports| && 0 <= j < |reports| ==> Apart(reports[i], reports[j])
  }

  /** Insertion after every report of the same rank: the sort is stable. */
  function Insert(reports: seq<Report>, r: Report): seq<Report> {
    if reports == [] || reports[|reports| - 1].rank <= r.rank then reports + [r]
    else Insert(reports[..|reports| - 1], r) + [reports[|reports| - 1]]
  }

  function Sorted(reports: seq<Report>): seq<Report> {
    if reports == [] then [] else Insert(Sorted(reports[..|reports| - 1]), reports[|reports| - 1])
  }

  lemma {:induction false} InsertMembers(reports: seq<Report>, r: Report)
    ensures multiset(Insert(reports, r)) == multiset(reports) + multiset{r}
    ensures forall x :: x in Insert(reports, r) <==> x == r || x in reports
  {
    if reports != [] {
      var rest, last := reports[..|reports| - 1], reports[|reports| - 1];
      InsertMembers(rest, r);
      assert reports == rest + [last];
    }
  }

  lemma {:induction false} InsertSorts(reports: seq<Report>, r: Report)
    requires RankSorted(reports)
    ensures RankSorted(Insert(reports, r))
  {
    if reports != [] && reports[|reports| - 1].rank > r.rank {
      var rest, last := reports[..|reports| - 1], reports[|reports| - 1];
      InsertSorts(rest, r);
      InsertMembers(rest, r);
      var inserted := Insert(rest, r);
      forall k | 0 <= k < |inserted| ensures inserted[k].rank <= last.rank {
        assert inserted[k] in inserted;
      }
    }
  }

  lemma {:induction false} SortMembers(reports: seq<Report>)
    ensures multiset(Sorted(reports)) == multiset(reports)
  {
    if reports != [] {
      var rest, last := reports[..|reports| - 1], reports[|reports| - 1];
      SortMembers(rest);
      InsertMembers(Sorted(rest), last);
      assert reports == rest + [last];
    }
  }

  lemma {:induction false} SortSorts(reports: seq<Report>)
    ensures RankSorted(Sorted(reports))
  {
    if reports != [] {
      SortSorts(reports[..|reports| - 1]);
      InsertSorts(Sorted(reports[..|reports| - 1]), reports[|reports| - 1]);
    }
  }

  lemma SameLast(a: seq<Report>, b: seq<Report>)
    requires a != [] && RankSorted(a) && RankSorted(b) && multiset(a) == multiset(b) && Uniform(a)
    ensures b != [] && a[|a| - 1] == b[|b| - 1]
  {
    var n := |a| - 1;
    assert a[n] in multiset(b);
    var i :| 0 <= i < |b| && b[i] == a[n];
    var m := |b| - 1;
    assert b[m] in multiset(a);
    var j :| 0 <= j < |a| && a[j] == b[m];
    assert b[i].rank <= b[m].rank && a[j].rank <= a[n].rank;
    assert Apart(a[n], a[j]);
  }

  lemma DropLast(a: seq<Report>)
    requires a != []
    ensures multiset(a[..|a| - 1]) == multiset(a) - multiset{a[|a| - 1]}
  {
    assert a == a[..|a| - 1] + [a[|a| - 1]];
  }

  lemma UniformPrefix(a: seq<Report>)
    requires a != [] && Uniform(a)
    ensures Uniform(a[..|a| - 1])
  {
    var rest := a[..|a| - 1];
    forall i, j | 0 <= i < |rest| && 0 <= j < |rest| ensures Apart(rest[i], rest[j]) {
      assert Apart(a[i], a[j]);
    }
  }

  /** When no two different reports share a rank there is only one sorted arrangement. */
  lemma {:induction false} SortedUnique(a: seq<Report>, b: seq<Report>)
    requires RankSorted(a) && RankSorted(b) && multiset(a) == multiset(b) && Uniform(a)
    ensures a == b
  {
    if a == [] {
      assert |multiset(b)| == 0;
    } else {
      SameLast(a, b);
      DropLast(a);
      DropLast(b);
      UniformPrefix(a);
      SortedUnique(a[..|a| - 1], b[..|b| - 1]);
      assert a == a[..|a| - 1] + [a[|a| - 1]] && b == b[..|b| - 1] + [b[|b| - 1]];
    }
  }

  /** The reports of one rank, in order. */
  function Ranked(reports: seq<Report>, rank: int): seq<Report> {
    if reports == [] then [] else Ranked(reports[..|reports| - 1], rank) + One(reports[|reports| - 1], rank)
  }

  function One(r: Report, rank: int): seq<Report> {
    if r.rank == rank then [r] else []
  }

  lemma RankedPush(reports: seq<Report>, r: Report, rank: int)
    ensures Ranked(reports + [r], rank) == Ranked(reports, rank) + One(r, rank)
  {
    assert (reports + [r])[..|reports|] == reports;
  }

  lemma {:induction false} RankedJoin(a: seq<Report>, b: seq<Report>, rank: int)
    ensures Ranked(a + b, rank) == Ranked(a, rank) + Ranked(b, rank)
  {
    if b == [] {
      assert a + b == a;
    } else {
      var rest, last := b[..|b| - 1], b[|b| - 1];
      assert a + b == (a + rest) + [last];
      RankedPush(a + rest, last, rank);
      RankedJoin(a, rest, rank);
    }
  }

  lemma OnesSwap(a: seq<Report>, x: Report, y: Report, rank: int)
    requires x.rank != y.rank
    ensures (a + One(x, rank)) + One(y, rank) == (a + One(y, rank)) + One(x, rank)
  {
  }

  lemma {:induction false} InsertStable(reports: seq<Report>, r: Report, rank: int)
    ensures Ranked(Insert(reports, r), rank) == Ranked(reports + [r], rank)
  {
    if reports != [] && reports[|reports| - 1].rank > r.rank {
      var rest, last := reports[..|reports| - 1], reports[|reports| - 1];
      InsertStable(rest, r, rank);
      RankedPush(Insert(rest, r), last, rank);
      RankedPush(rest, r, rank);
      RankedPush(reports, r, rank);
      OnesSwap(Ranked(rest, rank), r, last, rank);
    }
  }

  /** Sorting keeps the reports of each rank in the order they came in. */
  lemma {:induction false} SortStable(reports: seq<Report>, rank: int)
    ensures Ranked(Sorted(reports), rank) == Ranked(reports, rank)
  {
    if reports != [] {
      var rest, last := reports[..|reports| - 1], reports[|reports| - 1];
      SortStable(rest, rank);
      InsertStable(Sorted(rest), last, rank);
      RankedPush(Sorted(rest), last, rank);
    }
  }

  // ---- Schedules -------------------------------------------------------------

  /** Distinct indices below `n`. */
  ghost predicate Picks(order: seq<nat>, n: nat) {
    (forall k | 0 <= k < |order| :: order[k] < n)
    && (forall j, k :: 0 <= j < k < |order| ==> order[j] != order[k])
  }

  /** A full order of arrival that `workers` workers can produce: each return begins one
      more call, so call number `order[k]` has begun before the k-th return. */
  ghost predicate Possible(order: seq<nat>, n: nat, workers: nat) {
    |order| == n && Picks(order, n) && forall k | 0 <= k < n :: order[k] < workers + k
  }

  function Arrived(all: seq<Report>, order: seq<nat>): seq<Report>
    requires forall k | 0 <= k < |order| :: order[k] < |all|
  {
    seq(|order|, k requires 0 <= k < |order| => all[order[k]])
  }

  lemma ArrivedPush(all: seq<Report>, order: seq<nat>, i: nat)
    requires i < |all| && forall k | 0 <= k < |order| :: order[k] < |all|
    ensures (forall k | 0 <= k < |order + [i]| :: (order + [i])[k] < |all|)
    ensures Arrived(all, order + [i]) == Arrived(all, order) + [all[i]]
  {
  }

  /** Input order, except that the `i`-th call is the last to return. */
  function Delayed(n: nat, i: nat): seq<nat>
    requires i < n
  {
    seq(n, k requires 0 <= k < n => if k < i then k else if k < n - 1 then k + 1 else i)
  }

  lemma DelayedPossible(n: nat, i: nat, workers: nat)
    requires i < n && workers >= 2
    ensures Possible(Delayed(n, i), n, workers)
  {
  }

  lemma {:induction false} RotatedSame(x: Report, rest: seq<Report>)
    requires [x] + rest == rest + [x]
    ensures forall k | 0 <= k < |rest| :: rest[k] == x
  {
    if rest != [] {
      assert ([x] + rest)[0] == (rest + [x])[0];
      assert rest == [x] + rest[1..];
      assert ([x] + rest)[1..] == rest && (rest + [x])[1..] == rest[1..] + [x];
      RotatedSame(x, rest[1..]);
    }
  }

  lemma {:induction false} RankedHas(reports: seq<Report>, x: Report)
    requires x in reports
    ensures x in Ranked(reports, x.rank)
  {
    var rest, last := reports[..|reports| - 1], reports[|reports| - 1];
    assert reports == rest + [last];
    if x != last {
      RankedHas(rest, x);
    }
  }

  lemma MovedLast(before: seq<Report>, x: Report, after: seq<Report>, y: Report)
    requires y in after && y.rank == x.rank && y != x
    ensures Ranked(before + ([x] + after), x.rank) != Ranked(before + (after + [x]), x.rank)
  {
    var start, rest := Ranked(before, x.rank), Ranked(after, x.rank);
    RankedJoin(before, [x] + after, x.rank);
    RankedPush([], x, x.rank);
    assert [] + [x] == [x];
    RankedJoin([x], after, x.rank);
    RankedJoin(before, after + [x], x.rank);
    RankedPush(after, x, x.rank);
    RankedHas(after, y);
    if start + ([x] + rest) == start + (rest + [x]) {
      assert (start + ([x] + rest))[|start|..] == [x] + rest;
      assert (start + (rest + [x]))[|start|..] == rest + [x];
      RotatedSame(x, rest);
    }
  }

  lemma DelayedArrives(all: seq<Report>, i: nat)
    requires i < |all|
    ensures Arrived(all, Delayed(|all|, i)) == all[..i] + (all[i + 1..] + [all[i]])
  {
  }

  lemma SortsDiffer(a: seq<Report>, b: seq<Report>, rank: int)
    requires Ranked(a, rank) != Ranked(b, rank)
    ensures Sorted(a) != Sorted(b)
  {
    SortStable(a, rank);
    SortStable(b, rank);
  }

  lemma SplitAt(all: seq<Report>, i: nat, j: nat)
    requires i < j < |all|
    ensures all == all[..i] + ([all[i]] + all[i + 1..]) && all[j] in all[i + 1..]
  {
    assert all[i + 1..][j - i - 1] == all[j];
  }

  /** Two different reports of one rank: delaying the first one changes the result. */
  lemma TieShows(all: seq<Report>, i: nat, j: nat)
    requires i < j < |all| && !Apart(all[i], all[j])
    ensures Sorted(Arrived(all, Delayed(|all|, i))) != Sorted(all)
  {
    var before, x, after := all[..i], all[i], all[i + 1..];
    SplitAt(all, i, j);
    DelayedArrives(all, i);
    MovedLast(before, x, after, all[j]);
    SortsDiffer(before + ([x] + after), before + (after + [x]), x.rank);
  }

  lemma SameUniform(a: seq<Report>, b: seq<Report>)
    requires Uniform(a) && multiset(a) == multiset(b)
    ensures Uniform(b)
  {
    forall i, j | 0 <= i < |b| && 0 <= j < |b| ensures Apart(b[i], b[j]) {
      assert b[i] in multiset(a) && b[j] in multiset(a);
      var k :| 0 <= k < |a| && a[k] == b[i];
      var l :| 0 <= l < |a| && a[l] == b[j];
      assert Apart(a[k], a[l]);
    }
  }

  lemma OrderIrrelevant(all: seq<Report>, order: seq<nat>)
    requires |order| == |all| && Picks(order, |all|)
    ensures multiset(Sorted(Arrived(all, order))) == multiset(all) && RankSorted(Sorted(Arrived(all, order)))
    ensures Uniform(all) ==> Sorted(Arrived(all, order)) == Sorted(all)
  {
    var some := Arrived(all, order);
    PermutationMultiset(all, order, some);
    SortMembers(all);
    SortMembers(some);
    SortSorts(all);
    SortSorts(some);
    if Uniform(all) {
      SameUniform(all, Sorted(all));
      SortedUnique(Sorted(all), Sorted(some));
    }
  }

  /** The sorted reports are the same for every order the workers can produce exactly when
      no two different reports share a rank. */
  lemma OrderIrrelevantIff(all: seq<Report>, workers: nat)
    requires workers >= 2 || |all| < 2
    ensures (forall order :: Possible(order, |all|, workers) ==> Sorted(Arrived(all, order)) == Sorted(all))
      <==> Uniform(all)
  {
    if Uniform(all) {
      forall order | Possible(order, |all|, workers) ensures Sorted(Arrived(all, order)) == Sorted(all) {
        OrderIrrelevant(all, order);
      }
    } else {
      var order := TiedSchedule(all, workers);
    }
  }

  lemma TiedSchedule(all: seq<Report>, workers: nat) returns (order: seq<nat>)
    requires (workers >= 2 || |all| < 2) && !Uniform(all)
    ensures Possible(order, |all|, workers) && Sorted(Arrived(all, order)) != Sorted(all)
  {
    var p, q :| 0 <= p < |all| && 0 <= q < |all| && !Apart(all[p], all[q]);
    var i, j := Min(p, q), Max(p, q);
    TieShows(all, i, j);
    DelayedPossible(|all|, i, workers);
    order := Delayed(|all|, i);
  }

  // ---- The checks ------------------------------------------------------------

  const CONCURRENCY := 4

  function CheckWorkers(n: nat): nat {
    if n < CONCURRENCY then n else CONCURRENCY
  }

  /** The report of a check, when it does not reject. */
  function ReportOf<E>(check: E -> Option<Report>, e: E): Report {
    match check(e)
    case Some(r) => r
    case None => Report(0, "")
  }

  /** All reports, in input order. */
  function AllReports<E>(entries: seq<E>, check: E -> Option<Report>): seq<Report> {
    seq(|entries|, i requires 0 <= i < |entries| => ReportOf(check, entries[i]))
  }

  /** The checks at work: those in `flight` have not come back, those in `order` have. */
  datatype Checking = Checking(next: nat, flight: set<nat>, order: seq<nat>, failed: bool)

  ghost predicate CheckBack<E>(entries: seq<E>, check: E -> Option<Report>, workers: nat, c: Checking, k: nat) {
    k < |c.order| ==>
      && c.order[k] < c.next <= |entries| && c.order[k] !in c.flight
      && c.order[k] < workers + k && !Rejects(entries, check, c.order[k])
  }

  ghost predicate Collecting<E>(entries: seq<E>, check: E -> Option<Report>, workers: nat, c: Checking) {
    && c.next <= |entries| && c.next <= workers + |c.order|
    && (forall i | i in c.flight :: i < c.next)
    && Picks(c.order, c.next) && (forall k: nat :: CheckBack(entries, check, workers, c, k))
    && (!c.failed ==> |c.order| + |c.flight| == c.next && (c.next < |entries| ==> |c.flight| == workers))
    && (c.failed ==> exists i: nat :: Rejects(entries, check, i))
  }

  function CameBack<E>(entries: seq<E>, check: E -> Option<Report>, c: Checking, i: nat): Checking
    requires i < |entries|
  {
    if check(entries[i]).None? then c.(flight := c.flight - {i}, failed := true)
    else if c.next < |entries| then Checking(c.next + 1, c.flight - {i} + {c.next}, c.order + [i], c.failed)
    else c.(flight := c.flight - {i}, order := c.order + [i])
  }

  lemma CameBackCollects<E>(entries: seq<E>, check: E -> Option<Report>, workers: nat, c: Checking, i: nat)
    requires Collecting(entries, check, workers, c) && i in c.flight
    ensures Collecting(entries, check, workers, CameBack(entries, check, c, i))
  {
    var d := CameBack(entries, check, c, i);
    assert |c.flight - {i}| == |c.flight| - 1;
    forall k: nat ensures CheckBack(entries, check, workers, d, k) {
      assert CheckBack(entries, check, workers, c, k);
    }
    if check(entries[i]).None? {
      assert Rejects(entries, check, i);
    } else {
      forall k | 0 <= k < |c.order| ensures c.order[k] != i {
        assert CheckBack(entries, check, workers, c, k);
      }
    }
  }

  /** When nothing is in flight, a run without a rejection has had every check back. */
  lemma CollectingEnds<E>(entries: seq<E>, check: E -> Option<Report>, workers: nat, c: Checking)
    requires Collecting(entries, check, workers, c) && c.flight == {} && (workers >= 1 || |entries| == 0)
    ensures c.failed <==> exists i: nat :: Rejects(entries, check, i)
    ensures !c.failed ==> Possible(c.order, |entries|, workers)
  {
    if !c.failed {
      forall k | 0 <= k < |c.order| ensures c.order[k] < workers + k {
        assert CheckBack(entries, check, workers, c, k);
      }
      forall i: nat ensures !Rejects(entries, check, i) {
        if i < |entries| {
          var p := Position(c.order, i, |entries|);
          assert CheckBack(entries, check, workers, c, p);
        }
      }
    }
  }

  function Below(n: nat): (s: set<nat>)
    ensures |s| == n && forall i: nat :: i in s <==> i < n
  {
    if n == 0 then {} else Below(n - 1) + {n - 1}
  }

  /** The checks at work once those of `order` have come back, one after another. */
  function Came<E>(entries: seq<E>, check: E -> Option<Report>, workers: nat, order: seq<nat>): Checking
    requires forall k | 0 <= k < |order| :: order[k] < |entries|
  {
    if order == [] then Checking(workers, Below(workers), [], false)
    else CameBack(entries, check, Came(entries, check, workers, order[..|order| - 1]), order[|order| - 1])
  }

  /** A schedule: each check that comes back was in flight. */
  predicate Scheduled<E>(entries: seq<E>, check: E -> Option<Report>, workers: nat, order: seq<nat>) {
    order == []
    || (var earlier, last := order[..|order| - 1], order[|order| - 1];
        && last < |entries| && Scheduled(entries, check, workers, earlier)
        && (forall k | 0 <= k < |earlier| :: earlier[k] < |entries|)
        && last in Came(entries, check, workers, earlier).flight)
  }

  ghost predicate NoneRejects<E>(entries: seq<E>, check: E -> Option<Report>) {
    forall i: nat :: !Rejects(entries, check, i)
  }

  lemma {:induction false} ScheduledInRange<E>(
      entries: seq<E>, check: E -> Option<Report>, workers: nat, order: seq<nat>)
    requires Scheduled(entries, check, workers, order)
    ensures forall k | 0 <= k < |order| :: order[k] < |entries|
  {
  }

  lemma CollectsOn<E>(entries: seq<E>, check: E -> Option<Report>, workers: nat, c: Checking, i: nat)
    requires Collecting(entries, check, workers, c) && !c.failed && i in c.flight && NoneRejects(entries, check)
    ensures var d := CameBack(entries, check, c, i);
      Collecting(entries, check, workers, d) && !d.failed && d.order == c.order + [i]
  {
    assert !Rejects(entries, check, i);
    CameBackCollects(entries, check, workers, c, i);
  }

  lemma {:induction false} ScheduledCollects<E>(
      entries: seq<E>, check: E -> Option<Report>, workers: nat, order: seq<nat>)
    requires workers <= |entries| && NoneRejects(entries, check) && Scheduled(entries, check, workers, order)
    ensures forall k | 0 <= k < |order| :: order[k] < |entries|
    ensures var c := Came(entries, check, workers, order);
      Collecting(entries, check, workers, c) && c.order == order && !c.failed
  {
    ScheduledInRange(entries, check, workers, order);
    if order != [] {
      var earlier, last := order[..|order| - 1], order[|order| - 1];
      ScheduledCollects(entries, check, workers, earlier);
      CollectsOn(entries, check, workers, Came(entries, check, workers, earlier), last);
      assert order == earlier + [last];
    }
  }

  /** Every worker is busy with the next checks that have not come back, while there are any. */
  ghost predicate InStep(c: Checking, n: nat, workers: nat, back: seq<nat>) {
    && c.next == (if workers + |back| < n then workers + |back| else n)
    && forall i: nat :: i in c.flight <==> i < c.next && i !in back
  }

  lemma StaysInStep<E>(entries: seq<E>, check: E -> Option<Report>, workers: nat, c: Checking, back: seq<nat>, i: nat)
    requires InStep(c, |entries|, workers, back) && i in c.flight && !Rejects(entries, check, i)
    requires forall k | 0 <= k < |back| :: back[k] < c.next
    ensures i < |entries| && InStep(CameBack(entries, check, c, i), |entries|, workers, back + [i])
  {
    assert c.next !in back;
  }

  lemma TakeOneMore(order: seq<nat>, k: nat)
    requires 0 < k <= |order|
    ensures order[..k] == order[..k - 1] + [order[k - 1]] && order[..k][..k - 1] == order[..k - 1]
  {
  }

  /** Where the first `k` returns of an order leave the workers. */
  lemma {:induction false} PossibleGoesOn<E>(
      entries: seq<E>, check: E -> Option<Report>, workers: nat, order: seq<nat>, k: nat)
    requires workers <= |entries| && NoneRejects(entries, check) && k <= |order|
    requires Possible(order, |entries|, workers)
    ensures Scheduled(entries, check, workers, order[..k])
    ensures InStep(Came(entries, check, workers, order[..k]), |entries|, workers, order[..k])
  {
    if k == 0 {
      assert order[..0] == [];
    } else {
      var earlier, last := order[..k - 1], order[k - 1];
      PossibleGoesOn(entries, check, workers, order, k - 1);
      TakeOneMore(order, k);
      StaysInStep(entries, check, workers, Came(entries, check, workers, earlier), earlier, last);
    }
  }

  /** The orders of the bound above are exactly those of full schedules. */
  lemma ScheduledIff<E>(entries: seq<E>, check: E -> Option<Report>, workers: nat, order: seq<nat>)
    requires workers <= |entries| == |order| && (workers >= 1 || |entries| == 0) && NoneRejects(entries, check)
    ensures Scheduled(entries, check, workers, order) <==> Possible(order, |entries|, workers)
  {
    if Scheduled(entries, check, workers, order) {
      var c := Came(entries, check, workers, order);
      ScheduledCollects(entries, check, workers, order);
      assert |c.flight| == 0;
      CollectingEnds(entries, check, workers, c);
    }
    if Possible(order, |entries|, workers) {
      PossibleGoesOn(entries, check, workers, order, |order|);
      assert order[..|order|] == order;
    }
  }

  /** The report is the same under every schedule exactly when no two different reports
      share a rank. */
  lemma ScheduleIrrelevantIff<E>(entries: seq<E>, check: E -> Option<Report>)
    requires NoneRejects(entries, check)
    ensures var (all, workers) := (AllReports(entries, check), CheckWorkers(|entries|));
      (forall order :: |order| == |entries| && Scheduled(entries, check, workers, order) ==>
         (forall k | 0 <= k < |order| :: order[k] < |all|) && Sorted(Arrived(all, order)) == Sorted(all))
      <==> Uniform(all)
  {
    var all, workers := AllReports(entries, check), CheckWorkers(|entries|);
    forall order | |order| == |entries|
      ensures Scheduled(entries, check, workers, order) <==> Possible(order, |all|, workers)
    {
      ScheduledIff(entries, check, workers, order);
    }
    OrderIrrelevantIff(all, workers);
  }

  /** Reports in the order their checks came back. A check that rejects ends its worker
      and, whatever the others do, the whole run. */
  method CollectReports<E>(entries: seq<E>, check: E -> Option<Report>)
    returns (reports: seq<Report>, rejected: bool, ghost order: seq<nat>, ghost peak: nat)
    ensures peak == if |entries| < 4 then |entries| else 4
    ensures rejected <==> exists i: nat :: Rejects(entries, check, i)
    ensures !rejected ==> Possible(order, |entries|, CheckWorkers(|entries|))
    ensures !rejected ==> reports == Arrived(AllReports(entries, check), order)
  {
    var workers := CheckWorkers(|entries|);
    ghost var all := AllReports(entries, check);
    reports, rejected, order := [], false, [];
    var next: nat, flight: set<nat>, first := StartWorkers(workers);
    peak := workers;
    while flight != {}
      invariant |flight| <= peak == workers
      invariant Collecting(entries, check, workers, Checking(next, flight, order, rejected))
      invariant forall k | 0 <= k < |order| :: order[k] < |all|
      invariant reports == Arrived(all, order)
      decreases |entries| - next, |flight|
    {
      var i :| i in flight;
      CameBackCollects(entries, check, workers, Checking(next, flight, order, rejected), i);
      flight := flight - {i};
      var result := check(entries[i]);
      if result.None? {
        rejected := true;
      } else {
        ArrivedPush(all, order, i);
        reports := reports + [result.value];
        order := order + [i];
        if next < |entries| {
          flight := flight + {next};
          next := next + 1;
        }
      }
      peak := Max(peak, |flight|);
    }
    CollectingEnds(entries, check, workers, Checking(next, flight, order, rejected));
  }

  /** Four at a time, reports collected as they come and sorted at the end. Unless a check
      rejects, the outcome holds every report once, sorted, and is the same under every
      schedule when no two different reports share a rank. */
  method RunChecks<E>(entries: seq<E>, check: E -> Option<Report>)
    returns (reports: seq<Report>, rejected: bool, ghost order: seq<nat>)
    ensures rejected <==> exists i: nat :: Rejects(entries, check, i)
    ensures !rejected ==>
      var all := AllReports(entries, check);
      && Possible(order, |entries|, CheckWorkers(|entries|)) && reports == Sorted(Arrived(all, order))
      && multiset(reports) == multiset(all) && RankSorted(reports)
      && (Uniform(all) ==> reports == Sorted(all))
  {
    ghost var peak;
    reports, rejected, order, peak := CollectReports(entries, check);
    if !rejected {
      OrderIrrelevant(AllReports(entries, check), order);
      reports := Sorted(reports);
    }
  }

  lemma {:induction false} PermutationMultiset(all: seq<Report>, order: seq<nat>, some: seq<Report>)
    requires |order| == |all| == |some|
    requires Picks(order, |all|) && forall k | 0 <= k < |order| :: some[k] == all[order[k]]
    ensures multiset(some) == multiset(all)
  {
    if all != [] {
      var n := |all| - 1;
      // every index occurs in a duplicate-free list of the right length
      var p := Position(order, n, |all|);
      var order', some' := order[..p] + order[p + 1..], some[..p] + some[p + 1..];
      forall k | 0 <= k < |order'| ensures order'[k] < n && some'[k] == all[..n][order'[k]] {
        assert order'[k] == if k < p then order[k] else order[k + 1];
      }
      PermutationMultiset(all[..n], order', some');
      assert some == some[..p] + [some[p]] + some[p + 1..];
      assert all == all[..n] + [all[n]];
    }
  }

  /** A list of `m` distinct numbers below `m` contains each of them. */
  lemma {:induction false} Position(order: seq<nat>, wanted: nat, m: nat) returns (p: nat)
    requires |order| == m && wanted < m && Picks(order, m)
    ensures p < m && order[p] == wanted
  {
    var seen := set k | 0 <= k < m :: order[k];
    DistinctCount(order);
    if wanted !in seen {
      BoundedCount(seen + {wanted}, m);
      assert false;
    }
    p :| 0 <= p < m && order[p] == wanted;
  }

  lemma {:induction false} DistinctCount(order: seq<nat>)
    requires forall j, k :: 0 <= j < k < |order| ==> order[j] != order[k]
    ensures |(set k | 0 <= k < |order| :: order[k])| == |order|
  {
    if order != [] {
      var rest := order[..|order| - 1];
      DistinctCount(rest);
      assert (set k | 0 <= k < |order| :: order[k]) == (set k | 0 <= k < |rest| :: rest[k]) + {order[|order| - 1]};
    }
  }

  lemma {:induction false} BoundedCount(s: set<nat>, m: nat)
    requires forall i | i in s :: i < m
    ensures |s| <= m
  {
    if m > 0 {
      BoundedCount(s - {m - 1}, m - 1);
    } else {
      assert s == {};
    }
  }
}

/** Pending tool approvals: requested by the agent loop, decided by a click, a timer,
    a cancelled session or a shutdown. Listeners run inside every operation and may
    call back; a script tree says what they do. */
module Approvals {

  datatype Option<+T> = None | Some(value: T)

  type User = string

  /** The one decider that passes every binding. */
  const SYSTEM: User := "__ethos_system__"

  const MAX_TIMER_MS := 2_147_483_647

  /** Approvals are numbered as they are issued; their random identities are fresh. */
  type Ticket = nat

  datatype Decision = Allow | Deny(reason: string)

  datatype Issue = Issue(session: string, requester: Option<User>, issuedAt: int, deadline: Option<int>)

  datatype Outcome = Outcome(approval: Ticket, decision: Decision, who: User, at: int)

  datatype State = State(
    now: int,
    issued: seq<Issue>,
    pending: set<Ticket>,
    timers: set<Ticket>,
    outcomes: seq<Outcome>)

  /** What the listeners of one event do when told of it, and whether one of them then
      throws. */
  datatype Script = Script(ops: seq<Op>, throws: bool)

  /** An operation with what the listeners it wakes do in turn. A cancellation or a
      shutdown wakes them once for each approval it settles. */
  datatype Op =
    | Request(session: string, requester: Option<User>, timeoutMs: int, onPending: Script)
    | Decide(approval: Ticket, decision: Decision, who: User, onResolved: Script)
    | FireTimer(timer: Ticket, onTimeout: Script)
    | CancelSession(cancelled: string, reason: string, onEach: seq<Script>)
    | SettleAll(why: string, onAll: seq<Script>)
    | Elapse(ms: nat)

  const START := State(0, [], {}, {}, [])

  const TIMED_OUT := Deny("approval timed out")

  // ---- Steps ---------------------------------------------------------------

  function Min(a: int, b: int): int {
    if a < b then a else b
  }

  function Issued(s: State, session: string, requester: Option<User>, timeoutMs: int): State {
    var id := |s.issued|;
    var deadline := if timeoutMs > 0 then Some(s.now + Min(timeoutMs, MAX_TIMER_MS)) else None;
    State(s.now, s.issued + [Issue(session, requester, s.now, deadline)], s.pending + {id},
          if timeoutMs > 0 then s.timers + {id} else s.timers, s.outcomes)
  }

  /** Whether a decision is accepted: only from the bound requester or the system. */
  predicate Accepts(s: State, id: Ticket, who: User) {
    id in s.pending && id < |s.issued|
    && (s.issued[id].requester.None? || who == SYSTEM || s.issued[id].requester == Some(who))
  }

  function Settled(s: State, id: Ticket, decision: Decision, who: User): State {
    State(s.now, s.issued, s.pending - {id}, s.timers - {id}, s.outcomes + [Outcome(id, decision, who, s.now)])
  }

  /** Time does not run past a timer that has not fired. */
  function Later(s: State, ms: nat): State {
    s.(now := Earliest(s, s.now + ms, |s.issued|))
  }

  function Earliest(s: State, limit: int, n: nat): (t: int)
    requires n <= |s.issued|
    ensures t <= limit
    ensures forall id | id < n && id in s.timers && s.issued[id].deadline.Some? :: t <= s.issued[id].deadline.value
    ensures t == limit || exists id :: id < n && id in s.timers && s.issued[id].deadline == Some(t)
  {
    if n == 0 then limit
    else
      var t := Earliest(s, limit, n - 1);
      if n - 1 in s.timers && s.issued[n - 1].deadline.Some? then Min(t, s.issued[n - 1].deadline.value) else t
  }

  predicate Due(s: State, id: Ticket) {
    id in s.timers && id in s.pending && id < |s.issued|
    && s.issued[id].deadline.Some? && s.issued[id].deadline.value <= s.now
  }

  /** The state afterwards, and whether a listener's exception reaches the caller. A request
      and a click turn it into the rejection of their promise and a timer has no caller,
      but a cancellation and a shutdown let it through. */
  function Exec(s: State, op: Op): (State, bool)
    decreases op, 1
  {
    match op
    case Request(session, requester, timeoutMs, onPending) =>
      (Play(Issued(s, session, requester, timeoutMs), onPending).0, false)
    case Decide(id, decision, who, onResolved) =>
      (if Accepts(s, id, who) then Play(Settled(s, id, decision, who), onResolved).0 else s, false)
    case FireTimer(id, onTimeout) =>
      (if Due(s, id) then Play(Settled(s, id, TIMED_OUT, SYSTEM), onTimeout).0 else s, false)
    case CancelSession(session, reason, onEach) => CancelFrom(s, session, Deny(reason), 0, onEach)
    case SettleAll(why, onAll) => SettleEach(s, Snapshot(s, |s.issued|), Deny(why), onAll)
    case Elapse(ms) => (Later(s, ms), false)
  }

  /** Listeners at work: an exception out of one of their calls ends them. */
  function Play(s: State, script: Script): (State, bool)
    decreases script, 0
  {
    var (t, threw) := ExecAll(s, script.ops);
    (t, threw || script.throws)
  }

  function ExecAll(s: State, ops: seq<Op>): (State, bool)
    decreases ops, 0
  {
    if ops == [] then (s, false)
    else
      var (t, threw) := Exec(s, ops[0]);
      if threw then (t, true) else ExecAll(t, ops[1..])
  }

  /** Independent callers one after another, whatever happened to the one before. */
  function RunAll(s: State, ops: seq<Op>): State
    decreases |ops|
  {
    if ops == [] then s else RunAll(Exec(s, ops[0]).0, ops[1..])
  }

  /** The next pending approval of the session, in order of insertion. */
  function Next(s: State, session: string, cursor: nat): (r: Option<Ticket>)
    ensures r.Some? ==> cursor <= r.value < |s.issued| && r.value in s.pending && s.issued[r.value].session == session
    ensures forall id | cursor <= id < |s.issued| && id in s.pending && s.issued[id].session == session ::
      r.Some? && r.value <= id
    decreases |s.issued| - cursor
  {
    if cursor >= |s.issued| then None
    else if cursor in s.pending && s.issued[cursor].session == session then Some(cursor)
    else Next(s, session, cursor + 1)
  }

  /** Iterating the live map: entries added meanwhile are met too. An exception ends it. */
  function CancelFrom(s: State, session: string, decision: Decision, cursor: nat, onEach: seq<Script>): (State, bool)
    decreases onEach, |s.issued| - cursor
  {
    match Next(s, session, cursor)
    case None => (s, false)
    case Some(id) =>
      var t := Settled(s, id, decision, SYSTEM);
      if onEach == [] then CancelFrom(t, session, decision, id + 1, [])
      else
        var (u, threw) := Play(t, onEach[0]);
        if threw then (u, true) else CancelFrom(u, session, decision, id + 1, onEach[1..])
  }

  /** The keys as they are when the shutdown begins. */
  function Snapshot(s: State, n: nat): seq<Ticket> {
    if n == 0 then [] else Snapshot(s, n - 1) + if n - 1 in s.pending then [n - 1] else []
  }

  function SettleEach(s: State, ids: seq<Ticket>, decision: Decision, onAll: seq<Script>): (State, bool)
    decreases onAll, |ids|
  {
    if ids == [] then (s, false)
    else if ids[0] !in s.pending then SettleEach(s, ids[1..], decision, onAll)
    else
      var t := Settled(s, ids[0], decision, SYSTEM);
      if onAll == [] then SettleEach(t, ids[1..], decision, [])
      else
        var (u, threw) := Play(t, onAll[0]);
        if threw then (u, true) else SettleEach(u, ids[1..], decision, onAll[1..])
  }

  // ---- What every run keeps ------------------------------------------------

  ghost predicate HasOutcome(s: State, id: Ticket) {
    exists k :: 0 <= k < |s.outcomes| && s.outcomes[k].approval == id
  }

  /** Each approval is pending or resolved, and a timer is live just for the pending
      ones that have a deadline, which has not passed. */
  ghost predicate ApprovalSafe(s: State, id: Ticket) {
    && (id in s.pending ==> id < |s.issued|)
    && (id < |s.issued| ==> (id in s.pending <==> !HasOutcome(s, id)))
    && (id in s.timers <==> id in s.pending && s.issued[id].deadline.Some?)
    && (id in s.timers ==> s.now <= s.issued[id].deadline.value)
  }

  /** A resolution is of an issued approval, by its bound requester or the system, and
      no later than its deadline. */
  ghost predicate OutcomeSafe(s: State, o: Outcome) {
    o.approval < |s.issued|
    && var issue := s.issued[o.approval];
      && (issue.requester.None? || o.who == SYSTEM || issue.requester == Some(o.who))
      && issue.issuedAt <= o.at <= s.now
      && (issue.deadline.Some? ==> o.at <= issue.deadline.value)
  }

  /** A deadline is the issue time plus the requested delay, clamped to what a timer
      can represent: never in the past, never further than the clamp. */
  ghost predicate IssueSafe(i: Issue) {
    i.deadline.Some? ==> i.issuedAt < i.deadline.value <= i.issuedAt + MAX_TIMER_MS
  }

  ghost predicate Safe(s: State) {
    && (forall id: Ticket :: ApprovalSafe(s, id))
    && (forall k | 0 <= k < |s.outcomes| :: OutcomeSafe(s, s.outcomes[k]))
    && (forall j, k | 0 <= j < k < |s.outcomes| :: s.outcomes[j].approval != s.outcomes[k].approval)
    && (forall k | 0 <= k < |s.issued| :: IssueSafe(s.issued[k]) && s.issued[k].issuedAt <= s.now)
    && |s.issued| == |s.pending| + |s.outcomes|
  }

  /** Nothing issued or decided is ever taken back, and only new approvals become pending. */
  ghost predicate Extends(s: State, t: State) {
    s.issued <= t.issued && s.outcomes <= t.outcomes && s.now <= t.now
    && forall id | id in t.pending :: id in s.pending || id >= |s.issued|
  }

  lemma ExtendsJoins(s: State, t: State, u: State)
    requires Extends(s, t) && Extends(t, u)
    ensures Extends(s, u)
  {
  }

  lemma IssuedSafe(s: State, session: string, requester: Option<User>, timeoutMs: int)
    requires Safe(s)
    ensures Safe(Issued(s, session, requester, timeoutMs)) && Extends(s, Issued(s, session, requester, timeoutMs))
  {
    var t := Issued(s, session, requester, timeoutMs);
    assert ApprovalSafe(s, |s.issued|);
    forall id: Ticket ensures ApprovalSafe(t, id) {
      assert ApprovalSafe(s, id);
      assert HasOutcome(t, id) == HasOutcome(s, id);
    }
    forall k | 0 <= k < |t.outcomes| ensures OutcomeSafe(t, t.outcomes[k]) {
      assert OutcomeSafe(s, s.outcomes[k]);
    }
  }

  lemma SettledSafe(s: State, id: Ticket, decision: Decision, who: User)
    requires Safe(s) && Accepts(s, id, who)
    ensures Safe(Settled(s, id, decision, who)) && Extends(s, Settled(s, id, decision, who))
    ensures HasOutcome(Settled(s, id, decision, who), id)
  {
    var t := Settled(s, id, decision, who);
    var n := |s.outcomes|;
    assert ApprovalSafe(s, id);
    assert t.outcomes[n].approval == id;
    forall i: Ticket ensures ApprovalSafe(t, i) {
      assert ApprovalSafe(s, i);
      if HasOutcome(s, i) {
        var k :| 0 <= k < n && s.outcomes[k].approval == i;
        assert t.outcomes[k].approval == i;
      }
      if HasOutcome(t, i) && i != id {
        var k :| 0 <= k < |t.outcomes| && t.outcomes[k].approval == i;
        assert s.outcomes[k].approval == i;
      }
    }
    forall k | 0 <= k < |t.outcomes| ensures OutcomeSafe(t, t.outcomes[k]) {
      assert k < n ==> OutcomeSafe(s, s.outcomes[k]);
    }
    forall k | 0 <= k < n ensures s.outcomes[k].approval != id {
      assert HasOutcome(s, s.outcomes[k].approval);
    }
  }

  lemma LaterSafe(s: State, ms: nat)
    requires Safe(s)
    ensures Safe(Later(s, ms)) && Extends(s, Later(s, ms))
  {
    var t := Later(s, ms);
    assert s.now <= t.now by {
      if t.now < s.now + ms {
        var id :| id < |s.issued| && id in s.timers && s.issued[id].deadline == Some(t.now);
        assert ApprovalSafe(s, id);
      }
    }
    forall id: Ticket ensures ApprovalSafe(t, id) {
      assert ApprovalSafe(s, id);
      assert HasOutcome(t, id) == HasOutcome(s, id);
    }
    forall k | 0 <= k < |t.outcomes| ensures OutcomeSafe(t, t.outcomes[k]) {
      assert OutcomeSafe(s, s.outcomes[k]);
    }
  }

  lemma {:induction false} ExecSafe(s: State, op: Op)
    requires Safe(s)
    ensures Safe(Exec(s, op).0) && Extends(s, Exec(s, op).0)
    decreases op, 1
  {
    match op
    case Request(session, requester, timeoutMs, onPending) =>
      IssuedSafe(s, session, requester, timeoutMs);
      PlaySafe(s, Issued(s, session, requester, timeoutMs), onPending);
    case Decide(id, decision, who, onResolved) =>
      if Accepts(s, id, who) {
        SettledSafe(s, id, decision, who);
        PlaySafe(s, Settled(s, id, decision, who), onResolved);
      }
    case FireTimer(id, onTimeout) =>
      if Due(s, id) {
        SettledSafe(s, id, TIMED_OUT, SYSTEM);
        PlaySafe(s, Settled(s, id, TIMED_OUT, SYSTEM), onTimeout);
      }
    case CancelSession(session, reason, onEach) => CancelFromSafe(s, session, Deny(reason), 0, onEach);
    case SettleAll(why, onAll) => ShutdownSafe(s, why, onAll);
    case Elapse(ms) => LaterSafe(s, ms);
  }

  lemma {:induction false} PlaySafe(s: State, t: State, script: Script)
    requires Safe(t) && Extends(s, t)
    ensures Safe(Play(t, script).0) && Extends(s, Play(t, script).0)
    decreases script, 0
  {
    ExecAllSafe(t, script.ops);
    ExtendsJoins(s, t, Play(t, script).0);
  }

  lemma {:induction false} ShutdownSafe(s: State, why: string, onAll: seq<Script>)
    requires Safe(s)
    ensures var t := SettleEach(s, Snapshot(s, |s.issued|), Deny(why), onAll).0; Safe(t) && Extends(s, t)
    decreases onAll, |s.issued| + 1
  {
    var ids := Snapshot(s, |s.issued|);
    SnapshotIsPending(s, |s.issued|);
    SnapshotLength(s, |s.issued|);
    SettleEachSafe(s, ids, Deny(why), onAll);
  }

  lemma {:induction false} SnapshotLength(s: State, n: nat)
    ensures |Snapshot(s, n)| <= n
  {
    if n > 0 {
      SnapshotLength(s, n - 1);
    }
  }

  lemma {:induction false} ExecAllSafe(s: State, ops: seq<Op>)
    requires Safe(s)
    ensures Safe(ExecAll(s, ops).0) && Extends(s, ExecAll(s, ops).0)
    decreases ops, 0
  {
    if ops != [] {
      var (t, threw) := Exec(s, ops[0]);
      ExecSafe(s, ops[0]);
      if !threw {
        ExecAllSafe(t, ops[1..]);
        ExtendsJoins(s, t, ExecAll(s, ops).0);
      }
    }
  }

  ghost predicate NoneBelow(s: State, session: string, cursor: nat) {
    forall id | id in s.pending && id < cursor && id < |s.issued| :: s.issued[id].session != session
  }

  /** Past the approval just settled, whatever its listeners did. */
  lemma CursorMoves(s: State, u: State, session: string, cursor: nat, id: Ticket)
    requires NoneBelow(s, session, cursor) && Next(s, session, cursor) == Some(id)
    requires s.issued <= u.issued && forall i | i in u.pending :: (i in s.pending && i != id) || i >= |s.issued|
    ensures NoneBelow(u, session, id + 1)
  {
  }

  lemma {:induction false} CancelFromSafe(
      s: State, session: string, decision: Decision, cursor: nat, onEach: seq<Script>)
    requires Safe(s)
    ensures Safe(CancelFrom(s, session, decision, cursor, onEach).0)
    ensures Extends(s, CancelFrom(s, session, decision, cursor, onEach).0)
    decreases onEach, |s.issued| - cursor, 1
  {
    var next := Next(s, session, cursor);
    if next.Some? {
      SettledSafe(s, next.value, decision, SYSTEM);
      var t := Settled(s, next.value, decision, SYSTEM);
      if onEach == [] {
        CancelQuietSafe(s, session, decision, cursor);
      } else {
        CancelRestSafe(s, t, session, decision, next.value + 1, onEach);
      }
    }
  }

  lemma {:induction false} CancelQuietSafe(s: State, session: string, decision: Decision, cursor: nat)
    requires Safe(s)
    ensures var t := CancelFrom(s, session, decision, cursor, []).0; Safe(t) && Extends(s, t)
    decreases |s.issued| - cursor
  {
    var next := Next(s, session, cursor);
    if next.Some? {
      var t := Settled(s, next.value, decision, SYSTEM);
      SettledSafe(s, next.value, decision, SYSTEM);
      CancelQuietSafe(t, session, decision, next.value + 1);
      ExtendsJoins(s, t, CancelFrom(t, session, decision, next.value + 1, []).0);
    }
  }

  lemma {:induction false} CancelRestSafe(
      s: State, t: State, session: string, decision: Decision, cursor: nat, onEach: seq<Script>)
    requires Safe(t) && Extends(s, t) && onEach != []
    ensures var u := Play(t, onEach[0]).0;
      var r := CancelFrom(u, session, decision, cursor, onEach[1..]).0;
      Safe(u) && Extends(s, u) && Safe(r) && Extends(s, r)
    decreases onEach, 0, 0
  {
    var u := Play(t, onEach[0]).0;
    PlaySafe(s, t, onEach[0]);
    CancelFromSafe(u, session, decision, cursor, onEach[1..]);
    ExtendsJoins(s, u, CancelFrom(u, session, decision, cursor, onEach[1..]).0);
  }

  /** One approval settled and its listeners heard: the cursor can move on. */
  lemma OneCancelled(s: State, session: string, decision: Decision, cursor: nat, script: Script)
    requires Safe(s) && NoneBelow(s, session, cursor) && Next(s, session, cursor).Some?
    ensures var id := Next(s, session, cursor).value;
      var u := Play(Settled(s, id, decision, SYSTEM), script).0;
      Safe(u) && NoneBelow(u, session, id + 1)
  {
    var id := Next(s, session, cursor).value;
    var t := Settled(s, id, decision, SYSTEM);
    SettledSafe(s, id, decision, SYSTEM);
    PlaySafe(t, t, script);
    CursorMoves(s, Play(t, script).0, session, cursor, id);
  }

  const SILENT := Script([], false)

  /** A cancellation that ends of itself leaves nothing of its session pending, not even
      what listeners request while it is going on. */
  lemma {:induction false} CancelFromClears(
      s: State, session: string, decision: Decision, cursor: nat, onEach: seq<Script>)
    requires Safe(s) && NoneBelow(s, session, cursor)
    ensures var (t, threw) := CancelFrom(s, session, decision, cursor, onEach);
      !threw ==> NoneBelow(t, session, |t.issued|)
    decreases onEach, |s.issued| - cursor
  {
    var next := Next(s, session, cursor);
    if next.Some? {
      if onEach == [] {
        CancelQuietClears(s, session, decision, cursor);
      } else {
        var t := Settled(s, next.value, decision, SYSTEM);
        OneCancelled(s, session, decision, cursor, onEach[0]);
        CancelFromClears(Play(t, onEach[0]).0, session, decision, next.value + 1, onEach[1..]);
      }
    }
  }

  lemma {:induction false} CancelQuietClears(s: State, session: string, decision: Decision, cursor: nat)
    requires Safe(s) && NoneBelow(s, session, cursor)
    ensures var t := CancelFrom(s, session, decision, cursor, []).0; NoneBelow(t, session, |t.issued|)
    decreases |s.issued| - cursor
  {
    var next := Next(s, session, cursor);
    if next.Some? {
      OneCancelled(s, session, decision, cursor, SILENT);
      assert Play(Settled(s, next.value, decision, SYSTEM), SILENT).0 == Settled(s, next.value, decision, SYSTEM);
      CancelQuietClears(Settled(s, next.value, decision, SYSTEM), session, decision, next.value + 1);
    }
  }

  lemma {:induction false} SnapshotIsPending(s: State, n: nat)
    ensures forall id: Ticket :: id in Snapshot(s, n) <==> id < n && id in s.pending
  {
    if n > 0 {
      SnapshotIsPending(s, n - 1);
    }
  }

  /** A shutdown that ends of itself leaves none of the approvals pending that were when it
      began. */
  lemma {:induction false} SettleEachSafe(s: State, ids: seq<Ticket>, decision: Decision, onAll: seq<Script>)
    requires Safe(s) && forall id | id in ids :: id < |s.issued|
    ensures var (t, threw) := SettleEach(s, ids, decision, onAll);
      Safe(t) && Extends(s, t) && (!threw ==> forall id | id in ids :: id !in t.pending)
    decreases onAll, |ids|
  {
    if ids != [] {
      assert ids[0] in ids && forall id | id in ids[1..] :: id in ids;
      if ids[0] !in s.pending {
        SettleEachSafe(s, ids[1..], decision, onAll);
      } else {
        var t := Settled(s, ids[0], decision, SYSTEM);
        SettledSafe(s, ids[0], decision, SYSTEM);
        if onAll == [] {
          SettleEachSafe(t, ids[1..], decision, []);
          ExtendsJoins(s, t, SettleEach(s, ids, decision, onAll).0);
        } else {
          var (u, threw) := Play(t, onAll[0]);
          PlaySafe(t, t, onAll[0]);
          ExtendsJoins(s, t, u);
          if !threw {
            SettleEachSafe(u, ids[1..], decision, onAll[1..]);
            ExtendsJoins(s, u, SettleEach(s, ids, decision, onAll).0);
          }
        }
      }
    }
  }

  /** Nothing a script does, or makes others do, throws. */
  predicate Calm(script: Script)
    decreases script
  {
    !script.throws && forall op | op in script.ops :: CalmOp(op)
  }

  predicate CalmOp(op: Op)
    decreases op
  {
    match op
    case CancelSession(session, reason, onEach) => forall each | each in onEach :: Calm(each)
    case SettleAll(why, onAll) => forall each | each in onAll :: Calm(each)
    case _ => true
  }

  lemma {:induction false} CalmNeverThrows(s: State, op: Op)
    requires CalmOp(op)
    ensures !Exec(s, op).1
    decreases op, 1
  {
    match op
    case CancelSession(session, reason, onEach) => CalmCancels(s, session, Deny(reason), 0, onEach);
    case SettleAll(why, onAll) => CalmSettles(s, Snapshot(s, |s.issued|), Deny(why), onAll);
    case _ =>
  }

  lemma {:induction false} CalmPlays(s: State, ops: seq<Op>)
    requires forall op | op in ops :: CalmOp(op)
    ensures !ExecAll(s, ops).1
    decreases ops, 0
  {
    if ops != [] {
      assert ops[0] in ops;
      CalmNeverThrows(s, ops[0]);
      CalmPlays(Exec(s, ops[0]).0, ops[1..]);
    }
  }

  lemma {:induction false} CalmCancels(
      s: State, session: string, decision: Decision, cursor: nat, onEach: seq<Script>)
    requires forall each | each in onEach :: Calm(each)
    ensures !CancelFrom(s, session, decision, cursor, onEach).1
    decreases onEach, |s.issued| - cursor
  {
    var next := Next(s, session, cursor);
    if next.Some? {
      var t := Settled(s, next.value, decision, SYSTEM);
      if onEach == [] {
        CalmCancels(t, session, decision, next.value + 1, []);
      } else {
        assert Calm(onEach[0]);
        CalmPlays(t, onEach[0].ops);
        CalmCancels(Play(t, onEach[0]).0, session, decision, next.value + 1, onEach[1..]);
      }
    }
  }

  lemma {:induction false} CalmSettles(s: State, ids: seq<Ticket>, decision: Decision, onAll: seq<Script>)
    requires forall each | each in onAll :: Calm(each)
    ensures !SettleEach(s, ids, decision, onAll).1
    decreases onAll, |ids|
  {
    if ids != [] {
      if ids[0] !in s.pending {
        CalmSettles(s, ids[1..], decision, onAll);
      } else if onAll == [] {
        CalmSettles(Settled(s, ids[0], decision, SYSTEM), ids[1..], decision, []);
      } else {
        var t := Settled(s, ids[0], decision, SYSTEM);
        assert Calm(onAll[0]);
        CalmPlays(t, onAll[0].ops);
        CalmSettles(Play(t, onAll[0]).0, ids[1..], decision, onAll[1..]);
      }
    }
  }

  // ---- Theorems ------------------------------------------------------------

  /** Over any run, listeners calling back or throwing included: each approval resolves at
      most once and only by its bound requester or the system, timers belong to pending
      approvals only, and everything issued is pending or resolved. */
  lemma {:induction false} RunsAreSafe(s: State, ops: seq<Op>)
    requires Safe(s)
    ensures Safe(RunAll(s, ops)) && Extends(s, RunAll(s, ops))
    decreases |ops|
  {
    if ops != [] {
      var t := Exec(s, ops[0]).0;
      ExecSafe(s, ops[0]);
      RunsAreSafe(t, ops[1..]);
      ExtendsJoins(s, t, RunAll(t, ops[1..]));
    }
  }

  /** What is decided stays decided, whatever runs afterwards. */
  lemma DecisionsStand(before: seq<Op>, after: seq<Op>)
    ensures var s := RunAll(START, before);
      s.outcomes <= RunAll(s, after).outcomes
      && forall id | id < |s.issued| && id !in s.pending :: id !in RunAll(s, after).pending
  {
    RunsAreSafe(START, before);
    RunsAreSafe(RunAll(START, before), after);
  }

  /** A click that is not the bound requester's, or on something already decided, does
      nothing at all; one that is accepted decides at once. */
  lemma ClickDecidesIff(s: State, id: Ticket, decision: Decision, who: User, react: Script)
    requires Safe(s) && id < |s.issued|
    ensures var t := Exec(s, Decide(id, decision, who, react)).0;
      var entitled := s.issued[id].requester.None? || who == SYSTEM || s.issued[id].requester == Some(who);
      && (!(id in s.pending && entitled) ==> t == s)
      && (id in s.pending && entitled ==>
            s.outcomes + [Outcome(id, decision, who, s.now)] <= t.outcomes && id !in t.pending)
  {
    if Accepts(s, id, who) {
      var t := Settled(s, id, decision, who);
      SettledSafe(s, id, decision, who);
      PlaySafe(t, t, react);
    }
  }

  /** What a run of system denials adds: one per approval, in order of issue. */
  ghost predicate DeniedInOrder(s: State, t: State, decision: Decision) {
    s.outcomes <= t.outcomes && t.issued == s.issued && t.now == s.now
    && (forall k | |s.outcomes| <= k < |t.outcomes| ::
          t.outcomes[k] == Outcome(t.outcomes[k].approval, decision, SYSTEM, s.now))
    && (forall j, k | |s.outcomes| <= j < k < |t.outcomes| :: t.outcomes[j].approval < t.outcomes[k].approval)
    && (forall k | |s.outcomes| <= k < |t.outcomes| :: t.outcomes[k].approval in s.pending)
  }

  /** With listeners that do not call back, a cancellation denies exactly the session's
      approvals, for the given reason, and leaves every other one as it is. */
  lemma {:induction false} QuietCancellation(s: State, session: string, decision: Decision, cursor: nat)
    requires forall id | id in s.pending :: id < |s.issued|
    ensures var (t, threw) := CancelFrom(s, session, decision, cursor, []);
      && !threw && DeniedInOrder(s, t, decision)
      && (forall id: Ticket :: id in t.pending <==>
            id in s.pending && !(id >= cursor && s.issued[id].session == session))
      && (forall k | |s.outcomes| <= k < |t.outcomes| :: t.outcomes[k].approval >= cursor)
    decreases |s.issued| - cursor
  {
    var next := Next(s, session, cursor);
    if next.Some? {
      var u := Settled(s, next.value, decision, SYSTEM);
      QuietCancellation(u, session, decision, next.value + 1);
      assert u.outcomes[|s.outcomes|] == Outcome(next.value, decision, SYSTEM, s.now);
    }
  }

  /** Unless a listener's exception ends it, a cancellation leaves nothing of its session
      pending; none does when nothing the listeners do throws. */
  lemma CancellationClearsSession(s: State, session: string, reason: string, onEach: seq<Script>)
    requires Safe(s)
    ensures var (t, threw) := Exec(s, CancelSession(session, reason, onEach));
      !threw ==> forall id | id in t.pending :: id < |t.issued| && t.issued[id].session != session
    ensures (forall each | each in onEach :: Calm(each)) ==> !Exec(s, CancelSession(session, reason, onEach)).1
  {
    CancelFromSafe(s, session, Deny(reason), 0, onEach);
    CancelFromClears(s, session, Deny(reason), 0, onEach);
    var t := Exec(s, CancelSession(session, reason, onEach)).0;
    forall id | id in t.pending ensures id < |t.issued| {
      assert ApprovalSafe(t, id);
    }
    if forall each | each in onEach :: Calm(each) {
      CalmCancels(s, session, Deny(reason), 0, onEach);
    }
  }

  /** An exception does leave approvals of the session waiting. */
  lemma ThrowingListenerStopsCancellation(session: string)
    ensures var ask := Request(session, None, 0, SILENT);
      var s := RunAll(START, [ask, ask]);
      var (t, threw) := Exec(s, CancelSession(session, "over", [Script([], true)]));
      s.pending == {0, 1} && threw && t.pending == {1} && |t.issued| == 2 && t.issued[1].session == session
  {
    var ask := Request(session, None, 0, SILENT);
    AskAlone(START, session);
    var a := Exec(START, ask).0;
    AskAlone(a, session);
    assert [ask, ask][1..] == [ask] && [ask][1..] == [];
    var s := Exec(a, ask).0;
    assert RunAll(START, [ask, ask]) == RunAll(a, [ask]) == RunAll(s, []) == s;
    assert Next(s, session, 0) == Some(0);
    var t := Settled(s, 0, Deny("over"), SYSTEM);
    assert Play(t, Script([], true)) == (t, true);
  }

  /** Unless a listener's exception ends it, a shutdown clears what was pending when it
      was called, and only what its listeners request meanwhile can remain. */
  lemma ShutdownClearsSnapshot(s: State, why: string, onAll: seq<Script>)
    requires Safe(s)
    ensures var (t, threw) := Exec(s, SettleAll(why, onAll));
      !threw ==> (forall id | id in s.pending :: id !in t.pending) && (forall id | id in t.pending :: id >= |s.issued|)
    ensures (forall each | each in onAll :: Calm(each)) ==> !Exec(s, SettleAll(why, onAll)).1
  {
    SnapshotIsPending(s, |s.issued|);
    SettleEachSafe(s, Snapshot(s, |s.issued|), Deny(why), onAll);
    forall id | id in s.pending ensures id in Snapshot(s, |s.issued|) {
      assert ApprovalSafe(s, id);
    }
    if forall each | each in onAll :: Calm(each) {
      CalmSettles(s, Snapshot(s, |s.issued|), Deny(why), onAll);
    }
  }

  /** They can indeed: a listener that asks again during the shutdown is left waiting. */
  lemma ShutdownCanLeaveNewRequests(session: string)
    ensures var ask := Request(session, None, 0, SILENT);
      var (t, threw) := Exec(Exec(START, ask).0, SettleAll("bye", [Script([ask], false)]));
      !threw && 1 in t.pending
  {
    var ask := Request(session, None, 0, SILENT);
    AskAlone(START, session);
    var s := Exec(START, ask).0;
    assert s.pending == {0} && |s.issued| == 1;
    assert Snapshot(s, 1) == Snapshot(s, 0) + [0] == [0];
    var t := Settled(s, 0, Deny("bye"), SYSTEM);
    AskAlone(t, session);
    var react := Script([ask], false);
    assert [0][1..] == [] && [react][1..] == [] && [ask][1..] == [];
    var u := Exec(t, ask).0;
    assert ExecAll(t, [ask]) == ExecAll(u, []) == (u, false);
    assert SettleEach(s, [0], Deny("bye"), [react]) == SettleEach(u, [], Deny("bye"), []) == (u, false);
  }

  lemma AskAlone(s: State, session: string)
    ensures Exec(s, Request(session, None, 0, SILENT)) == (Issued(s, session, None, 0), false)
  {
    assert ExecAll(Issued(s, session, None, 0), []) == (Issued(s, session, None, 0), false);
  }

  /** A timed approval is never pending past its clamped deadline; the moment that
      comes, its timer settles it as a denial by the system. */
  lemma DeadlineEnforced(s: State, id: Ticket, react: Script)
    requires Safe(s) && id < |s.issued| && id in s.pending && s.issued[id].deadline.Some?
    ensures s.now <= s.issued[id].deadline.value <= s.issued[id].issuedAt + MAX_TIMER_MS
    ensures Due(s, id) <==> s.now == s.issued[id].deadline.value
    ensures Due(s, id) ==>
      var t := Exec(s, FireTimer(id, react)).0;
      id !in t.pending && s.outcomes + [Outcome(id, TIMED_OUT, SYSTEM, s.issued[id].deadline.value)] <= t.outcomes
  {
    assert ApprovalSafe(s, id) && IssueSafe(s.issued[id]);
    if Due(s, id) {
      var t := Settled(s, id, TIMED_OUT, SYSTEM);
      SettledSafe(s, id, TIMED_OUT, SYSTEM);
      PlaySafe(t, t, react);
    }
  }

  // ---- Listeners -----------------------------------------------------------

  predicate CanThrow(op: Op) {
    op.CancelSession? || op.SettleAll?
  }

  /** What listeners do is what the same calls would do one after another, up to the first
      whose exception comes back to them: a cancellation or a shutdown. */
  lemma {:induction false} ListenersRun(s: State, ops: seq<Op>)
    ensures var (t, threw) := ExecAll(s, ops);
      && (!threw ==> t == RunAll(s, ops))
      && (threw ==> exists n :: 0 <= n < |ops| && Raises(s, ops, n) && t == RunAll(s, ops[..n + 1]))
      && ((exists n :: 0 <= n < |ops| && Raises(s, ops, n)) ==> threw)
    decreases |ops|
  {
    if ops != [] {
      var (a, up) := Exec(s, ops[0]);
      var (t, threw) := ExecAll(s, ops);
      assert ops[..1][1..] == [] && ops[..1][0] == ops[0];
      if up {
        assert Raises(s, ops, 0) && t == RunAll(s, ops[..1]);
      } else {
        ListenersRun(a, ops[1..]);
        forall n | 0 < n < |ops| ensures Raises(s, ops, n) <==> Raises(a, ops[1..], n - 1) {
          assert ops[..n][1..] == ops[1..][..n - 1];
        }
        assert !Raises(s, ops, 0);
        if threw {
          var n :| 0 <= n < |ops[1..]| && Raises(a, ops[1..], n) && t == RunAll(a, ops[1..][..n + 1]);
          assert ops[..n + 2][1..] == ops[1..][..n + 1];
          assert Raises(s, ops, n + 1) && t == RunAll(s, ops[..n + 2]);
        }
        if n :| 0 <= n < |ops| && Raises(s, ops, n) {
          assert Raises(a, ops[1..], n - 1);
        }
      }
    }
  }

  /** The `n`th of the calls, made after the ones before it, lets an exception out. */
  ghost predicate Raises(s: State, ops: seq<Op>, n: nat)
    requires n < |ops|
  {
    CanThrow(ops[n]) && Exec(RunAll(s, ops[..n]), ops[n]).1
  }

  /** Listeners hear of a request, of a click that decides and of a timer that fires after
      it took effect, and what they throw is not the caller's. */
  lemma ListenersAreHeard(s: State, session: string, requester: Option<User>, timeoutMs: int,
                          id: Ticket, decision: Decision, who: User, react: Script)
    ensures var op := Request(session, requester, timeoutMs, react);
      Exec(s, op) == (ExecAll(Exec(s, op.(onPending := SILENT)).0, react.ops).0, false)
    ensures var op := Decide(id, decision, who, react);
      Exec(s, op) == (if Accepts(s, id, who) then ExecAll(Exec(s, op.(onResolved := SILENT)).0, react.ops).0 else s,
                      false)
    ensures var op := FireTimer(id, react);
      Exec(s, op) == (if Due(s, id) then ExecAll(Exec(s, op.(onTimeout := SILENT)).0, react.ops).0 else s, false)
  {
    assert forall t :: ExecAll(t, []) == (t, false);
  }

  lemma CursorCatchesUp(s: State, session: string, decision: Decision, cursor: nat, onEach: seq<Script>)
    requires NoneBelow(s, session, cursor)
    ensures CancelFrom(s, session, decision, cursor, onEach) == CancelFrom(s, session, decision, 0, onEach)
  {
    assert Next(s, session, cursor) == Next(s, session, 0);
  }

  /** A cancellation is a denial, as the system, of the session's oldest pending approval,
      its listeners with it, and then, unless they threw, a cancellation of what is left. */
  lemma CancellationUnfolds(s: State, session: string, reason: string, first: Script, rest: seq<Script>, id: Ticket)
    requires Safe(s) && id < |s.issued| && id in s.pending && s.issued[id].session == session
    requires forall i | i in s.pending && i < id :: s.issued[i].session != session
    ensures var quiet := Exec(s, Decide(id, Deny(reason), SYSTEM, SILENT)).0;
      var (u, threw) := ExecAll(quiet, first.ops);
      && Exec(s, Decide(id, Deny(reason), SYSTEM, first)).0 == u
      && Exec(s, CancelSession(session, reason, [first] + rest)) ==
           if threw || first.throws then (u, true) else Exec(u, CancelSession(session, reason, rest))
  {
    assert Next(s, session, 0) == Some(id);
    ListenersAreHeard(s, session, None, 0, id, Deny(reason), SYSTEM, first);
    var t := Settled(s, id, Deny(reason), SYSTEM);
    assert ExecAll(t, []) == (t, false);
    OneCancelled(s, session, Deny(reason), 0, first);
    var (u, threw) := Play(t, first);
    assert ([first] + rest)[1..] == rest;
    CursorCatchesUp(u, session, Deny(reason), id + 1, rest);
  }

  // ---- What is recorded, and what can be decided ----------------------------

  /** A request is recorded under its own session and requester, due after exactly the
      delay asked for, clamped to what a timer can represent, or never. */
  lemma RequestRecords(s: State, session: string, requester: Option<User>, timeoutMs: int, react: Script)
    requires Safe(s)
    ensures var t := Exec(s, Request(session, requester, timeoutMs, react)).0;
      && |s.issued| < |t.issued|
      && t.issued[|s.issued|] == Issue(session, requester, s.now,
           if timeoutMs <= 0 then None
           else if timeoutMs <= 2_147_483_647 then Some(s.now + timeoutMs) else Some(s.now + 2_147_483_647))
  {
    IssuedSafe(s, session, requester, timeoutMs);
    PlaySafe(s, Issued(s, session, requester, timeoutMs), react);
    PlaySafe(Issued(s, session, requester, timeoutMs), Issued(s, session, requester, timeoutMs), react);
  }

  /** With listeners that do nothing the request is pending, timed just when it asked to
      be, and nothing else has changed. */
  lemma RequestWaits(s: State, session: string, requester: Option<User>, timeoutMs: int)
    ensures var t := Exec(s, Request(session, requester, timeoutMs, SILENT)).0;
      && t.pending == s.pending + {|s.issued|} && t.outcomes == s.outcomes && t.now == s.now
      && t.timers == s.timers + (if timeoutMs > 0 then {|s.issued|} else {})
      && |t.issued| == |s.issued| + 1 && s.issued <= t.issued
  {
    assert ExecAll(Issued(s, session, requester, timeoutMs), []).0 == Issued(s, session, requester, timeoutMs);
  }

  /** Whatever happens after a request is bound to a user, no one else's click on it ever
      has an effect, and what decides it is that user or the system. */
  lemma StrangerNeverDecides(s: State, session: string, owner: User, timeoutMs: int, react: Script, after: seq<Op>,
                             decision: Decision, who: User, later: Script)
    requires Safe(s) && who != owner && who != SYSTEM
    ensures var t := Exec(s, Request(session, Some(owner), timeoutMs, react)).0;
      var u := RunAll(t, after);
      && Exec(u, Decide(|s.issued|, decision, who, later)).0 == u
      && (forall k | 0 <= k < |u.outcomes| && u.outcomes[k].approval == |s.issued| ::
            u.outcomes[k].who == owner || u.outcomes[k].who == SYSTEM)
  {
    var op := Request(session, Some(owner), timeoutMs, react);
    var t := Exec(s, op).0;
    var u := RunAll(t, after);
    RequestRecords(s, session, Some(owner), timeoutMs, react);
    ExecSafe(s, op);
    RunsAreSafe(t, after);
    assert u.issued[|s.issued|] == t.issued[|s.issued|];
    forall k | 0 <= k < |u.outcomes| && u.outcomes[k].approval == |s.issued|
      ensures u.outcomes[k].who == owner || u.outcomes[k].who == SYSTEM
    {
      assert OutcomeSafe(u, u.outcomes[k]);
    }
  }

  /** Time passes as asked unless a timer comes due first, and then stops there for it to
      fire; nothing else changes. */
  lemma TimePasses(s: State, ms: nat)
    requires Safe(s)
    ensures var t := Exec(s, Elapse(ms)).0;
      && t == s.(now := t.now) && s.now <= t.now <= s.now + ms
      && (t.now == s.now + ms || exists id :: Due(t, id))
      && (forall id | id in s.timers && id < |s.issued| && s.issued[id].deadline.Some? ::
            t.now <= s.issued[id].deadline.value)
  {
    var t := Exec(s, Elapse(ms)).0;
    LaterSafe(s, ms);
    if t.now != s.now + ms {
      var id :| id < |s.issued| && id in s.timers && s.issued[id].deadline == Some(t.now);
      assert ApprovalSafe(s, id);
      assert Due(t, id);
    }
  }

  datatype Verdict = Verdict(decision: Decision, who: User)

  /** The verdicts an operation and the listeners it wakes can give: a click its own, a
      timer, a cancellation and a shutdown a denial by the system. */
  function Verdicts(op: Op): set<Verdict>
    decreases op, 1
  {
    match op
    case Request(_, _, _, onPending) => VerdictsOf(onPending.ops)
    case Decide(_, decision, who, onResolved) => {Verdict(decision, who)} + VerdictsOf(onResolved.ops)
    case FireTimer(_, onTimeout) => {Verdict(Deny("approval timed out"), SYSTEM)} + VerdictsOf(onTimeout.ops)
    case CancelSession(_, reason, onEach) => {Verdict(Deny(reason), SYSTEM)} + VerdictsOfAll(onEach)
    case SettleAll(why, onAll) => {Verdict(Deny(why), SYSTEM)} + VerdictsOfAll(onAll)
    case Elapse(_) => {}
  }

  function VerdictsOf(ops: seq<Op>): set<Verdict>
    decreases ops, 0
  {
    if ops == [] then {} else Verdicts(ops[0]) + VerdictsOf(ops[1..])
  }

  function VerdictsOfAll(scripts: seq<Script>): set<Verdict>
    decreases scripts, 0
  {
    if scripts == [] then {} else VerdictsOf(scripts[0].ops) + VerdictsOfAll(scripts[1..])
  }

  /** What was decided between two states is among these verdicts. */
  ghost predicate DecidedBy(s: State, t: State, verdicts: set<Verdict>) {
    && |s.outcomes| <= |t.outcomes|
    && forall k | |s.outcomes| <= k < |t.outcomes| :: Verdict(t.outcomes[k].decision, t.outcomes[k].who) in verdicts
  }

  lemma DecidedJoins(s: State, t: State, u: State, verdicts: set<Verdict>)
    requires s.outcomes <= t.outcomes <= u.outcomes
    requires DecidedBy(s, t, verdicts) && DecidedBy(t, u, verdicts)
    ensures DecidedBy(s, u, verdicts)
  {
  }

  /** Nothing is decided but by a click that was made, or as a denial by the system for
      the reason given. In particular nothing is ever allowed without a click. */
  lemma {:induction false} VerdictsOnly(s: State, op: Op, verdicts: set<Verdict>)
    requires Safe(s) && Verdicts(op) <= verdicts
    ensures DecidedBy(s, Exec(s, op).0, verdicts)
    decreases op, 1
  {
    ExecSafe(s, op);
    match op
    case Request(session, requester, timeoutMs, onPending) =>
      var t := Issued(s, session, requester, timeoutMs);
      IssuedSafe(s, session, requester, timeoutMs);
      PlayDecides(t, onPending, verdicts);
    case Decide(id, decision, who, onResolved) =>
      if Accepts(s, id, who) {
        SettledDecides(s, id, decision, who, onResolved, verdicts);
      }
    case FireTimer(id, onTimeout) =>
      if Due(s, id) {
        SettledDecides(s, id, TIMED_OUT, SYSTEM, onTimeout, verdicts);
      }
    case CancelSession(session, reason, onEach) => CancelDecides(s, session, Deny(reason), 0, onEach, verdicts);
    case SettleAll(why, onAll) =>
      SnapshotIsPending(s, |s.issued|);
      SettleEachDecides(s, Snapshot(s, |s.issued|), Deny(why), onAll, verdicts);
    case Elapse(ms) =>
  }

  lemma {:induction false} PlayDecides(s: State, script: Script, verdicts: set<Verdict>)
    requires Safe(s) && VerdictsOf(script.ops) <= verdicts
    ensures DecidedBy(s, Play(s, script).0, verdicts)
    decreases script, 0
  {
    OpsDecide(s, script.ops, verdicts);
  }

  lemma {:induction false} OpsDecide(s: State, ops: seq<Op>, verdicts: set<Verdict>)
    requires Safe(s) && VerdictsOf(ops) <= verdicts
    ensures DecidedBy(s, ExecAll(s, ops).0, verdicts)
    decreases ops, 0
  {
    if ops != [] {
      var (t, threw) := Exec(s, ops[0]);
      ExecSafe(s, ops[0]);
      VerdictsOnly(s, ops[0], verdicts);
      if !threw {
        OpsDecide(t, ops[1..], verdicts);
        ExecAllSafe(t, ops[1..]);
        DecidedJoins(s, t, ExecAll(t, ops[1..]).0, verdicts);
      }
    }
  }

  lemma {:induction false} SettledDecides(
      s: State, id: Ticket, decision: Decision, who: User, react: Script, verdicts: set<Verdict>)
    requires Safe(s) && Accepts(s, id, who)
    requires Verdict(decision, who) in verdicts && VerdictsOf(react.ops) <= verdicts
    ensures DecidedBy(s, Play(Settled(s, id, decision, who), react).0, verdicts)
    decreases react, 1
  {
    var t := Settled(s, id, decision, who);
    SettledSafe(s, id, decision, who);
    PlayDecides(t, react, verdicts);
    PlaySafe(t, t, react);
    DecidedJoins(s, t, Play(t, react).0, verdicts);
  }

  lemma QuietlyDecides(s: State, session: string, decision: Decision, cursor: nat, verdicts: set<Verdict>)
    requires Safe(s) && Verdict(decision, SYSTEM) in verdicts
    ensures DecidedBy(s, CancelFrom(s, session, decision, cursor, []).0, verdicts)
  {
    forall id | id in s.pending ensures id < |s.issued| {
      assert ApprovalSafe(s, id);
    }
    QuietCancellation(s, session, decision, cursor);
  }

  /** The rest of a cancellation, after the listeners of one approval. */
  lemma {:induction false} CancelGoesOn(
      s: State, u: State, session: string, decision: Decision, cursor: nat, rest: seq<Script>, verdicts: set<Verdict>)
    requires Safe(u) && s.outcomes <= u.outcomes && DecidedBy(s, u, verdicts)
    requires Verdict(decision, SYSTEM) in verdicts && VerdictsOfAll(rest) <= verdicts
    ensures DecidedBy(s, CancelFrom(u, session, decision, cursor, rest).0, verdicts)
    decreases rest, |u.issued| - cursor, 1
  {
    CancelDecides(u, session, decision, cursor, rest, verdicts);
    CancelFromSafe(u, session, decision, cursor, rest);
    DecidedJoins(s, u, CancelFrom(u, session, decision, cursor, rest).0, verdicts);
  }

  lemma {:induction false} CancelDecides(
      s: State, session: string, decision: Decision, cursor: nat, onEach: seq<Script>, verdicts: set<Verdict>)
    requires Safe(s) && Verdict(decision, SYSTEM) in verdicts && VerdictsOfAll(onEach) <= verdicts
    ensures DecidedBy(s, CancelFrom(s, session, decision, cursor, onEach).0, verdicts)
    decreases onEach, |s.issued| - cursor, 0
  {
    var next := Next(s, session, cursor);
    if onEach == [] {
      QuietlyDecides(s, session, decision, cursor, verdicts);
    } else if next.Some? {
      var t := Settled(s, next.value, decision, SYSTEM);
      SettledSafe(s, next.value, decision, SYSTEM);
      SettledDecides(s, next.value, decision, SYSTEM, onEach[0], verdicts);
      PlaySafe(s, t, onEach[0]);
      CancelGoesOn(s, Play(t, onEach[0]).0, session, decision, next.value + 1, onEach[1..], verdicts);
    }
  }

  lemma {:induction false} SettleEachDecides(
      s: State, ids: seq<Ticket>, decision: Decision, onAll: seq<Script>, verdicts: set<Verdict>)
    requires Safe(s) && (forall id | id in ids :: id < |s.issued|)
    requires Verdict(decision, SYSTEM) in verdicts && VerdictsOfAll(onAll) <= verdicts
    ensures DecidedBy(s, SettleEach(s, ids, decision, onAll).0, verdicts)
    decreases onAll, |ids|
  {
    if ids != [] {
      assert ids[0] in ids && forall id | id in ids[1..] :: id in ids;
      if ids[0] !in s.pending {
        SettleEachDecides(s, ids[1..], decision, onAll, verdicts);
      } else {
        var t := Settled(s, ids[0], decision, SYSTEM);
        SettledSafe(s, ids[0], decision, SYSTEM);
        if onAll == [] {
          SettleEachDecides(t, ids[1..], decision, [], verdicts);
          SettleEachSafe(t, ids[1..], decision, []);
          DecidedJoins(s, t, SettleEach(t, ids[1..], decision, []).0, verdicts);
        } else {
          var (u, threw) := Play(t, onAll[0]);
          SettledDecides(s, ids[0], decision, SYSTEM, onAll[0], verdicts);
          PlaySafe(s, t, onAll[0]);
          if !threw {
            SettleEachDecides(u, ids[1..], decision, onAll[1..], verdicts);
            SettleEachSafe(u, ids[1..], decision, onAll[1..]);
            DecidedJoins(s, u, SettleEach(u, ids[1..], decision, onAll[1..]).0, verdicts);
          }
        }
      }
    }
  }

  // ---- The coordinator -----------------------------------------------------

  class ApprovalCoordinator {
    const defaultTimeoutMs: int
    var now: int
    var issued: seq<Issue>
    var pending: set<Ticket>
    var timers: set<Ticket>
    var outcomes: seq<Outcome>

    function Contents(): State
      reads this
    {
      State(now, issued, pending, timers, outcomes)
    }

    constructor (timeoutMs: Option<int>)
      ensures Contents() == START
      ensures defaultTimeoutMs == if timeoutMs.Some? then timeoutMs.value else 600_000
    {
      defaultTimeoutMs := if timeoutMs.Some? then timeoutMs.value else 10 * 60 * 1000;
      now, issued, pending, timers, outcomes := 0, [], {}, {}, [];
    }

    method RequestApproval(session: string, requester: Option<User>, timeoutMs: Option<int>, listener: Script)
      modifies this
      ensures Contents() == Exec(old(Contents()),
        Request(session, requester, if timeoutMs.Some? then timeoutMs.value else defaultTimeoutMs, listener)).0
      decreases listener, 1
    {
      var approval := |issued|;
      var effective := if timeoutMs.Some? then timeoutMs.value else defaultTimeoutMs;
      var deadline := None;
      if effective > 0 {
        deadline := Some(now + Min(effective, MAX_TIMER_MS));
        timers := timers + {approval};
      }
      issued := issued + [Issue(session, requester, now, deadline)];
      pending := pending + {approval};
      var rejected := RunListener(listener);
    }

    /** Every decision goes through here; the entry is gone before any listener runs. */
    method Settle(approval: Ticket, decision: Decision, who: User, listener: Script)
      modifies this
      ensures Contents() == Exec(old(Contents()), Decide(approval, decision, who, listener)).0
      decreases listener, 1
    {
      if approval !in pending || approval >= |issued| {
        return;
      }
      var requester := issued[approval].requester;
      if requester.Some? && who != SYSTEM && who != requester.value {
        return;
      }
      pending := pending - {approval};
      timers := timers - {approval};
      outcomes := outcomes + [Outcome(approval, decision, who, now)];
      var rejected := RunListener(listener);
    }

    method Timeout(approval: Ticket, listener: Script)
      requires Due(Contents(), approval)
      modifies this
      ensures Contents() == Exec(old(Contents()), FireTimer(approval, listener)).0
      decreases listener, 2
    {
      Settle(approval, TIMED_OUT, SYSTEM, listener);
    }

    /** Iterates the live map. */
    method CancelForSession(session: string, reason: string, listeners: seq<Script>) returns (threw: bool)
      modifies this
      ensures (Contents(), threw) == Exec(old(Contents()), CancelSession(session, reason, listeners))
      decreases listeners, 1
    {
      ghost var end := CancelFrom(Contents(), session, Deny(reason), 0, listeners);
      var cursor, k := 0, 0;
      var next := Next(Contents(), session, cursor);
      while next.Some?
        invariant 0 <= k <= |listeners| && next == Next(Contents(), session, cursor)
        invariant CancelFrom(Contents(), session, Deny(reason), cursor, listeners[k..]) == end
        decreases |listeners| - k, |issued| - cursor
      {
        var approval := next.value;
        assert k < |listeners| ==> listeners[k..][0] == listeners[k] && listeners[k..][1..] == listeners[k + 1..];
        pending := pending - {approval};
        timers := timers - {approval};
        outcomes := outcomes + [Outcome(approval, Deny(reason), SYSTEM, now)];
        if k < |listeners| {
          threw := RunListener(listeners[k]);
          if threw {
            return;
          }
          k := k + 1;
        }
        cursor := approval + 1;
        next := Next(Contents(), session, cursor);
      }
      threw := false;
    }

    /** Iterates a snapshot of the keys; one already settled by a listener is skipped. */
    method ForceSettleAll(reason: string, listeners: seq<Script>) returns (threw: bool)
      modifies this
      ensures (Contents(), threw) == Exec(old(Contents()), SettleAll(reason, listeners))
      decreases listeners, 1
    {
      var ids := Snapshot(Contents(), |issued|);
      ghost var end := SettleEach(Contents(), ids, Deny(reason), listeners);
      var k := 0;
      for i := 0 to |ids|
        invariant 0 <= k <= |listeners|
        invariant SettleEach(Contents(), ids[i..], Deny(reason), listeners[k..]) == end
      {
        assert ids[i..][0] == ids[i] && ids[i..][1..] == ids[i + 1..];
        assert k < |listeners| ==> listeners[k..][0] == listeners[k] && listeners[k..][1..] == listeners[k + 1..];
        if ids[i] in pending {
          pending := pending - {ids[i]};
          timers := timers - {ids[i]};
          outcomes := outcomes + [Outcome(ids[i], Deny(reason), SYSTEM, now)];
          if k < |listeners| {
            threw := RunListener(listeners[k]);
            if threw {
              return;
            }
            k := k + 1;
          }
        }
      }
      threw := false;
    }

    /** What the listeners of one event do, calling back into the coordinator. */
    method RunListener(script: Script) returns (threw: bool)
      modifies this
      ensures (Contents(), threw) == Play(old(Contents()), script)
      decreases script, 0
    {
      var ops := script.ops;
      for i := 0 to |ops|
        invariant ExecAll(Contents(), ops[i..]) == ExecAll(old(Contents()), ops)
      {
        assert ops[i..][0] == ops[i] && ops[i..][1..] == ops[i + 1..];
        threw := false;
        match ops[i] {
          case Request(session, requester, timeoutMs, onPending) =>
            RequestApproval(session, requester, Some(timeoutMs), onPending);
          case Decide(id, decision, who, onResolved) => Settle(id, decision, who, onResolved);
          case FireTimer(id, onTimeout) =>
            if Due(Contents(), id) {
              assert onTimeout < ops[i];
              Timeout(id, onTimeout);
            }
          case CancelSession(session, reason, onEach) => threw := CancelForSession(session, reason, onEach);
          case SettleAll(why, onAll) => threw := ForceSettleAll(why, onAll);
          case Elapse(ms) => now := Earliest(Contents(), now + ms, |issued|);
        }
        if threw {
          return;
        }
      }
      threw := script.throws;
    }
  }
}

/** The prompt protocol of the ACP server: a streaming and a blocking transport
    contend for sessions, and a streamed result is sent before its turn ends. Every
    event below is one stretch of code between two awaits. */
module AcpPrompts {

  type Session = string

  /** A JSON-RPC id, within the connection whose controllers it is looked up in. */
  datatype CallId = CallId(connection: nat, id: string)

  /** Requests are numbered in order of arrival. */
  type Ticket = nat

  datatype Phase =
    | Waiting(tail: Ticket)      // suspended on that turn's tail
    | Running(answered: bool)    // holds its session
    | Finished

  datatype Reply = Result | Failure | Refusal

  /** How a request's handling has ended, so far. */
  datatype Ending = Open | Refused | Exhausted | Thrown

  /** `seen` and `ending` are the history of the request's own turn. */
  datatype Request = Request(
    session: Session, call: CallId, streamed: bool, phase: Phase, failed: bool, aborted: bool, replies: seq<Reply>,
    seen: seq<TurnEvent>, ending: Ending)

  datatype State = State(
    requests: seq<Request>,
    busy: set<Session>,
    tails: map<Session, Ticket>,
    controllers: map<CallId, Ticket>)

  /** What the turn iterator may yield: ordinary output, its own terminal events. */
  datatype TurnEvent = Output | TurnDone | TurnError

  datatype Event =
    | Prompt(session: Session, call: CallId, streamed: bool)
    | Resume(waiter: Ticket)
    | Yield(run: Ticket, event: TurnEvent)
    | Exhaust(run: Ticket)
    | Throw(run: Ticket)
    | Cancel(call: CallId)

  const INITIAL := State([], {}, map[], map[])

  // ---- Steps ---------------------------------------------------------------

  predicate IsRunning(s: State, r: Ticket) {
    r < |s.requests| && s.requests[r].phase.Running?
  }

  /** A waiter goes on once the turn it waits for has let go of its tail. */
  predicate CanResume(s: State, r: Ticket) {
    r < |s.requests| && s.requests[r].phase.Waiting?
    && s.requests[r].phase.tail < |s.requests| && s.requests[s.requests[r].phase.tail].phase.Finished?
  }

  function Set(s: State, r: Ticket, q: Request): State
    requires r < |s.requests|
  {
    s.(requests := s.requests[r := q])
  }

  /** The busy check, and the run it guards. */
  function Admit(s: State, r: Ticket): State
    requires r < |s.requests|
  {
    var q := s.requests[r];
    if q.session in s.busy then Set(s, r, q.(phase := Finished, replies := q.replies + [Refusal], ending := Refused))
    else Set(s, r, q.(phase := Running(false))).(
      busy := s.busy + {q.session},
      controllers := if q.streamed then s.controllers[q.call := r] else s.controllers)
  }

  function Arrive(s: State, session: Session, call: CallId, streamed: bool): State {
    var r := |s.requests|;
    var phase := if session in s.tails then Waiting(s.tails[session]) else Finished;
    var t := s.(requests := s.requests + [Request(session, call, streamed, phase, false, false, [], [], Open)]);
    if session in s.tails then t else Admit(t, r)
  }

  /** The terminal event of a streamed turn answers the request and opens its tail;
      the blocking transport only remembers an error. */
  function OnEvent(s: State, r: Ticket, e: TurnEvent): State
    requires IsRunning(s, r)
  {
    var q := s.requests[r];
    var heard := q.(seen := q.seen + [e]);
    if !q.streamed then Set(s, r, heard.(failed := q.failed || e.TurnError?))
    else if q.phase.answered || e.Output? then Set(s, r, heard)
    else Set(s, r, heard.(phase := Running(true), replies := q.replies + [Result])).(tails := s.tails[q.session := r])
  }

  /** The end of a run, normal or not: locks released, at most one more reply. */
  function Leave(s: State, r: Ticket, threw: bool): State
    requires IsRunning(s, r)
  {
    var q := s.requests[r];
    var last := if q.phase.answered then [] else if threw || q.failed then [Failure] else [Result];
    var ended := q.(phase := Finished, replies := q.replies + last, ending := if threw then Thrown else Exhausted);
    var t := Set(s, r, ended).(busy := s.busy - {q.session});
    if q.streamed then t.(tails := s.tails - {q.session}, controllers := s.controllers - {q.call}) else t
  }

  function Step(s: State, e: Event): State {
    match e
    case Prompt(session, call, streamed) => Arrive(s, session, call, streamed)
    case Resume(r) => if CanResume(s, r) then Admit(s, r) else s
    case Yield(r, event) => if IsRunning(s, r) then OnEvent(s, r, event) else s
    case Exhaust(r) => if IsRunning(s, r) then Leave(s, r, false) else s
    case Throw(r) => if IsRunning(s, r) then Leave(s, r, true) else s
    case Cancel(call) =>
      if call in s.controllers && s.controllers[call] < |s.requests|
      then Set(s, s.controllers[call], s.requests[s.controllers[call]].(aborted := true)) else s
  }

  function Run(events: seq<Event>): State {
    if events == [] then INITIAL else Step(Run(events[..|events| - 1]), events[|events| - 1])
  }

  // ---- What every interleaving keeps ---------------------------------------

  predicate Holds(s: State, r: Ticket, x: Session) {
    IsRunning(s, r) && s.requests[r].session == x
  }

  /** A streamed run that has answered and not ended. */
  predicate InTail(s: State, r: Ticket) {
    IsRunning(s, r) && s.requests[r].streamed && s.requests[r].phase.answered
  }

  /** Whether the turn has come to an event that answers a streamed request. */
  predicate Answered(q: Request) {
    TurnDone in q.seen || TurnError in q.seen
  }

  /** The replies a request is owed for what its turn has done: a streamed one is
      answered by the first terminal event or else by the end, a blocking one only by
      the end, which an error event or a throw turns into a failure. */
  function Owed(q: Request): seq<Reply> {
    match q.ending
    case Refused => [Refusal]
    case Open => if q.streamed && Answered(q) then [Result] else []
    case Exhausted => if !q.streamed && TurnError in q.seen then [Failure] else [Result]
    case Thrown => if q.streamed && Answered(q) then [Result] else [Failure]
  }

  predicate RepliesFit(q: Request) {
    && q.replies == Owed(q)
    && (q.phase.Finished? <==> !q.ending.Open?)
    && (q.phase.Waiting? || q.ending.Refused? ==> q.seen == [])
    && (q.phase.Running? ==> (q.phase.answered <==> q.streamed && Answered(q)))
    && (!q.phase.Finished? ==> (q.failed <==> !q.streamed && TurnError in q.seen))
  }

  predicate TailOrOver(s: State, r: Ticket) {
    r < |s.requests| && (InTail(s, r) || s.requests[r].phase.Finished?)
  }

  ghost predicate RequestSafe(s: State, r: Ticket) {
    r < |s.requests| ==>
      var q := s.requests[r];
      && RepliesFit(q)
      && (q.phase.Running? ==> q.session in s.busy)
      && (InTail(s, r) ==> q.session in s.tails && s.tails[q.session] == r)
      && (q.phase.Waiting? ==> TailOrOver(s, q.phase.tail))
  }

  /** A session is busy exactly while one request runs on it, and its tail, if any,
      is that request's. */
  ghost predicate SessionSafe(s: State, x: Session) {
    && (x in s.busy ==> exists r :: Holds(s, r, x))
    && (forall r, q :: Holds(s, r, x) && Holds(s, q, x) ==> r == q)
    && (x in s.tails ==> Holds(s, s.tails[x], x) && InTail(s, s.tails[x]))
  }

  /** A controller belongs to a streamed run of that call, still going. */
  ghost predicate CallSafe(s: State, c: CallId) {
    c in s.controllers ==>
      IsRunning(s, s.controllers[c]) && s.requests[s.controllers[c]].streamed && s.requests[s.controllers[c]].call == c
  }

  ghost predicate Safe(s: State) {
    (forall r :: RequestSafe(s, r)) && (forall x :: SessionSafe(s, x)) && (forall c :: CallSafe(s, c))
  }

  /** The session checks carry over when the same requests hold the same sessions. */
  lemma SessionCarries(s: State, t: State, x: Session)
    requires SessionSafe(s, x)
    requires forall r :: Holds(t, r, x) <==> Holds(s, r, x)
    requires x in t.busy <==> x in s.busy
    requires x in t.tails <==> x in s.tails
    requires x in s.tails ==> t.tails[x] == s.tails[x] && InTail(t, t.tails[x])
    ensures SessionSafe(t, x)
  {
    if x in s.busy {
      var r :| Holds(s, r, x);
      assert Holds(t, r, x);
    }
  }

  predicate Untouched(q: Request) {
    q.replies == [] && q.seen == [] && q.ending.Open? && !q.failed
  }

  lemma ArriveSafe(s: State, session: Session, call: CallId, streamed: bool)
    requires Safe(s)
    ensures Safe(Arrive(s, session, call, streamed))
  {
    var r := |s.requests|;
    var phase := if session in s.tails then Waiting(s.tails[session]) else Finished;
    var t := s.(requests := s.requests + [Request(session, call, streamed, phase, false, false, [], [], Open)]);
    assert SessionSafe(s, session);
    forall k: Ticket ensures k != r ==> RequestSafe(t, k) {
      assert RequestSafe(s, k);
    }
    forall x ensures SessionSafe(t, x) {
      SessionCarries(s, t, x);
    }
    forall c ensures CallSafe(t, c) {
      assert CallSafe(s, c);
    }
    if session !in s.tails {
      forall k: Ticket | k < |t.requests| && t.requests[k].phase.Waiting? ensures t.requests[k].phase.tail != r {
        assert RequestSafe(s, k);
      }
      AdmitSafe(t, r);
    }
  }

  /** Admission, for a request that has just arrived or just been woken. */
  lemma AdmitSafe(s: State, r: Ticket)
    requires r < |s.requests| && !s.requests[r].phase.Running? && Untouched(s.requests[r])
    requires forall k: Ticket :: k != r ==> RequestSafe(s, k)
    requires forall k: Ticket | k < |s.requests| && s.requests[k].phase.Waiting? :: s.requests[k].phase.tail != r
    requires forall x :: SessionSafe(s, x)
    requires forall c :: CallSafe(s, c)
    ensures Safe(Admit(s, r))
  {
    var t := Admit(s, r);
    var session := s.requests[r].session;
    assert SessionSafe(s, session);
    forall k: Ticket ensures RequestSafe(t, k) {
      assert k != r ==> RequestSafe(s, k);
    }
    forall x ensures SessionSafe(t, x) {
      assert SessionSafe(s, x);
      if x != session || session in s.busy {
        SessionCarries(s, t, x);
      } else {
        assert Holds(t, r, x);
        forall k: Ticket | Holds(t, k, x) ensures k == r {
          assert RequestSafe(s, k) || k == r;
        }
      }
    }
    forall c ensures CallSafe(t, c) {
      assert CallSafe(s, c);
    }
  }

  lemma OnEventSession(s: State, r: Ticket, e: TurnEvent, x: Session)
    requires Safe(s) && IsRunning(s, r)
    ensures SessionSafe(OnEvent(s, r, e), x)
  {
    var t := OnEvent(s, r, e);
    assert SessionSafe(s, x);
    if x in s.busy {
      var k :| Holds(s, k, x);
      assert Holds(t, k, x);
    }
    forall k, j | Holds(t, k, x) && Holds(t, j, x) ensures k == j {
      assert Holds(s, k, x) && Holds(s, j, x);
    }
    assert RequestSafe(s, r);
  }

  lemma OnEventRequest(s: State, r: Ticket, e: TurnEvent, k: Ticket)
    requires Safe(s) && IsRunning(s, r)
    ensures RequestSafe(OnEvent(s, r, e), k)
  {
    var session := s.requests[r].session;
    assert RequestSafe(s, r) && RequestSafe(s, k) && SessionSafe(s, session) && Holds(s, r, session);
    if InTail(OnEvent(s, r, e), k) && s.requests[k].session == session {
      assert Holds(s, k, session);
    }
  }

  lemma OnEventSafe(s: State, r: Ticket, e: TurnEvent)
    requires Safe(s) && IsRunning(s, r)
    ensures Safe(OnEvent(s, r, e))
  {
    var t := OnEvent(s, r, e);
    forall k: Ticket ensures RequestSafe(t, k) {
      OnEventRequest(s, r, e, k);
    }
    forall x ensures SessionSafe(t, x) {
      OnEventSession(s, r, e, x);
    }
    forall c ensures CallSafe(t, c) {
      assert CallSafe(s, c);
    }
  }

  lemma LeaveSafe(s: State, r: Ticket, threw: bool)
    requires Safe(s) && IsRunning(s, r)
    ensures Safe(Leave(s, r, threw))
  {
    var t := Leave(s, r, threw);
    var session := s.requests[r].session;
    assert RequestSafe(s, r) && SessionSafe(s, session) && Holds(s, r, session);
    forall k: Ticket ensures RequestSafe(t, k) {
      assert RequestSafe(s, k);
      if IsRunning(s, k) && s.requests[k].session == session {
        assert Holds(s, k, session);
      }
    }
    forall x ensures SessionSafe(t, x) {
      if x != session {
        SessionCarries(s, t, x);
      } else {
        forall k: Ticket ensures !Holds(t, k, x) {
          assert Holds(t, k, x) ==> Holds(s, k, x);
        }
      }
    }
    forall c ensures CallSafe(t, c) {
      assert CallSafe(s, c);
    }
  }

  lemma CancelSafe(s: State, call: CallId)
    requires Safe(s)
    ensures Safe(Step(s, Cancel(call)))
  {
    var t := Step(s, Cancel(call));
    forall k: Ticket ensures RequestSafe(t, k) {
      assert RequestSafe(s, k);
    }
    forall x ensures SessionSafe(t, x) {
      assert SessionSafe(s, x);
      SessionCarries(s, t, x);
    }
    forall c ensures CallSafe(t, c) {
      assert CallSafe(s, c);
    }
  }

  lemma StepSafe(s: State, e: Event)
    requires Safe(s)
    ensures Safe(Step(s, e))
  {
    match e
    case Prompt(session, call, streamed) => ArriveSafe(s, session, call, streamed);
    case Resume(r) =>
      if CanResume(s, r) {
        assert RequestSafe(s, r);
        forall k: Ticket | k < |s.requests| && s.requests[k].phase.Waiting? ensures s.requests[k].phase.tail != r {
          assert RequestSafe(s, k);
        }
        AdmitSafe(s, r);
      }
    case Yield(r, event) => if IsRunning(s, r) { OnEventSafe(s, r, event); }
    case Exhaust(r) => if IsRunning(s, r) { LeaveSafe(s, r, false); }
    case Throw(r) => if IsRunning(s, r) { LeaveSafe(s, r, true); }
    case Cancel(call) => CancelSafe(s, call);
  }

  /** Every interleaving of any prompts, turns and cancellations. */
  lemma {:induction false} AlwaysSafe(events: seq<Event>)
    ensures Safe(Run(events))
  {
    if events != [] {
      AlwaysSafe(events[..|events| - 1]);
      StepSafe(Run(events[..|events| - 1]), events[|events| - 1]);
    }
  }

  // ---- What it means for the callers ---------------------------------------

  /** When nothing is left to run or to wake, every request has been answered exactly
      once and every lock, tail and controller has been given back. */
  lemma EverythingEndsAnswered(events: seq<Event>)
    ensures var s := Run(events);
      (forall r: Ticket :: !IsRunning(s, r) && !CanResume(s, r)) ==>
        (forall r: Ticket | r < |s.requests| ::
          s.requests[r].phase.Finished? && |s.requests[r].replies| == 1 && s.requests[r].replies == Owed(s.requests[r]))
        && s.busy == {} && s.tails == map[] && s.controllers == map[]
  {
    var s := Run(events);
    AlwaysSafe(events);
    if forall r: Ticket :: !IsRunning(s, r) && !CanResume(s, r) {
      forall r: Ticket | r < |s.requests| ensures s.requests[r].phase.Finished?
        && |s.requests[r].replies| == 1 && s.requests[r].replies == Owed(s.requests[r]) {
        assert RequestSafe(s, r) && !CanResume(s, r) && !IsRunning(s, r);
      }
      forall x ensures x !in s.busy && x !in s.tails {
        assert SessionSafe(s, x);
      }
      forall c ensures c !in s.controllers {
        assert CallSafe(s, c);
      }
    }
  }

  /** At every moment a waiter either can go on or waits for a run that is still in
      its tail; that run's end, normal or thrown, wakes it. */
  lemma {:induction false} TailsAreReleased(events: seq<Event>, waiter: Ticket, threw: bool)
    requires waiter < |Run(events).requests| && Run(events).requests[waiter].phase.Waiting?
    ensures var s := Run(events);
      var owner := s.requests[waiter].phase.tail;
      CanResume(s, waiter) || (InTail(s, owner) && owner != waiter && CanResume(Leave(s, owner, threw), waiter))
  {
    AlwaysSafe(events);
    assert RequestSafe(Run(events), waiter);
  }

  lemma RepliesGrow(s: State, e: Event, r: Ticket)
    requires r < |s.requests|
    ensures r < |Step(s, e).requests| && s.requests[r].replies <= Step(s, e).requests[r].replies
  {
    match e
    case Prompt(session, call, streamed) =>
    case Yield(q, event) =>
    case _ =>
  }

  lemma RefusedByHolder(s: State, e: Event, r: Ticket)
    requires Safe(s) && r < |s.requests| && r < |Step(s, e).requests|
    ensures Refusal in Step(s, e).requests[r].replies && Refusal !in s.requests[r].replies ==>
      exists q :: Holds(s, q, s.requests[r].session)
  {
    assert SessionSafe(s, s.requests[r].session);
  }

  /** A step answers a request at most once more, never takes an answer back, and
      refuses only while another request holds the session: for a prompt that has
      just arrived, one whose own result has not gone out. */
  lemma RepliesStand(s: State, e: Event, r: Ticket)
    requires Safe(s) && r < |s.requests|
    ensures r < |Step(s, e).requests| && s.requests[r].replies <= Step(s, e).requests[r].replies
    ensures |Step(s, e).requests[r].replies| <= 1
    ensures Refusal in Step(s, e).requests[r].replies && Refusal !in s.requests[r].replies ==>
      exists q :: Holds(s, q, s.requests[r].session)
  {
    RepliesGrow(s, e, r);
    RefusedByHolder(s, e, r);
    StepSafe(s, e);
    assert RequestSafe(Step(s, e), r);
  }

  lemma ArrivalRefusedOnlyBeforeTheResult(s: State, session: Session, call: CallId, streamed: bool)
    requires Safe(s)
    ensures var r := |s.requests|;
      var t := Arrive(s, session, call, streamed);
      && |t.requests| == r + 1
      && (t.requests[r].replies == [Refusal] <==> session in s.busy && session !in s.tails)
      && (t.requests[r].replies == [Refusal] ==>
          exists q: Ticket :: Holds(s, q, session) && s.requests[q].replies == [])
      && (session in s.tails ==> t.requests[r].phase == Waiting(s.tails[session]))
  {
    assert SessionSafe(s, session);
    if session in s.busy && session !in s.tails {
      var q: Ticket :| Holds(s, q, session);
      assert RequestSafe(s, q);
      assert s.requests[q].replies == [];
    }
  }

  // ---- What is recorded of each request -------------------------------------

  /** An arriving prompt is entered as what it is, behind the earlier ones, which stay as
      they are: it waits for an open tail, is refused on a busy session, or runs. */
  lemma ArrivalRecorded(s: State, session: Session, call: CallId, streamed: bool)
    ensures var t := Step(s, Prompt(session, call, streamed));
      && |t.requests| == |s.requests| + 1 && t.requests[..|s.requests|] == s.requests
      && t.tails == s.tails && (!streamed ==> t.controllers == s.controllers)
      && var q := t.requests[|s.requests|];
        && q.session == session && q.call == call && q.streamed == streamed
        && q.seen == [] && !q.aborted && !q.failed
        && (session in s.tails ==> q.phase == Waiting(s.tails[session]) && q.ending.Open?)
        && (session !in s.tails && session in s.busy ==> q.phase.Finished? && q.ending.Refused?)
        && (session !in s.tails && session !in s.busy ==>
              q.phase == Running(false) && t.busy == s.busy + {session}
              && (streamed ==> call in t.controllers && t.controllers[call] == |s.requests|))
  {
  }

  /** A woken prompt is refused if another has taken the session meanwhile, and else runs;
      one whose tail is still held is not woken. */
  lemma WokenRecorded(s: State, r: Ticket)
    requires Safe(s) && r < |s.requests| && s.requests[r].phase.Waiting?
    ensures var (t, tail) := (Step(s, Resume(r)), s.requests[r].phase.tail);
      && tail < |s.requests|
      && (!s.requests[tail].phase.Finished? ==> t == s)
      && (s.requests[tail].phase.Finished? ==>
            && |t.requests| == |s.requests|
            && if s.requests[r].session in s.busy then t.requests[r].ending.Refused? && t.requests[r].phase.Finished?
               else t.requests[r].phase == Running(false) && s.requests[r].session in t.busy)
  {
    assert RequestSafe(s, r);
  }

  /** One step's mark on the history of a request: its turn's own event or end, its own
      refusal, its own cancellation, and nothing else. */
  lemma HistoryStep(s: State, e: Event, r: Ticket)
    requires r < |s.requests|
    ensures r < |Step(s, e).requests|
    ensures var (q, p) := (s.requests[r], Step(s, e).requests[r]);
      && p.session == q.session && p.call == q.call && p.streamed == q.streamed
      && p.seen == q.seen + (if e.Yield? && e.run == r && IsRunning(s, r) then [e.event] else [])
      && (p.aborted <==> q.aborted || (e.Cancel? && e.call in s.controllers && s.controllers[e.call] == r))
      && p.ending == (if e == Exhaust(r) && IsRunning(s, r) then Exhausted
                      else if e == Throw(r) && IsRunning(s, r) then Thrown
                      else if e == Resume(r) && CanResume(s, r) && q.session in s.busy then Refused
                      else q.ending)
  {
    match e
    case Prompt(session, call, streamed) => ArrivalRecorded(s, session, call, streamed);
    case _ =>
  }

  /** The prompts of a run, in order of arrival. */
  function Prompts(events: seq<Event>): (ps: seq<Event>)
    ensures forall k | 0 <= k < |ps| :: ps[k].Prompt?
  {
    if events == [] then []
    else Prompts(events[..|events| - 1]) + if events[|events| - 1].Prompt? then [events[|events| - 1]] else []
  }

  /** What a run lets the turn of one request yield. */
  function Yields(events: seq<Event>, r: Ticket): seq<TurnEvent> {
    if events == [] then []
    else
      var last := events[|events| - 1];
      Yields(events[..|events| - 1], r) + if last.Yield? && last.run == r then [last.event] else []
  }

  /** Turns yield, end and throw only while they run. */
  ghost predicate TurnsRun(events: seq<Event>) {
    events == []
    || (var (earlier, last) := (events[..|events| - 1], events[|events| - 1]);
        TurnsRun(earlier) && TurnRuns(Run(earlier), last))
  }

  /** The requests on record are the prompts that arrived, each under its own session and
      call id and on its own transport. */
  lemma {:induction false} RequestsAreThePrompts(events: seq<Event>)
    ensures |Run(events).requests| == |Prompts(events)|
    ensures forall r: Ticket | r < |Prompts(events)| ::
      var (q, p) := (Run(events).requests[r], Prompts(events)[r]);
      p == Prompt(q.session, q.call, q.streamed)
  {
    if events != [] {
      var earlier, last := events[..|events| - 1], events[|events| - 1];
      RequestsAreThePrompts(earlier);
      if last.Prompt? {
        ArrivalRecorded(Run(earlier), last.session, last.call, last.streamed);
      } else {
        SameRequests(Run(earlier), last);
        forall r: Ticket | r < |Prompts(events)|
          ensures var q := Run(events).requests[r]; Prompts(events)[r] == Prompt(q.session, q.call, q.streamed)
        {
          HistoryStep(Run(earlier), last, r);
        }
      }
    }
  }

  lemma RequestsGrow(s: State, e: Event)
    ensures |s.requests| <= |Step(s, e).requests|
  {
    if e.Prompt? {
      ArrivalRecorded(s, e.session, e.call, e.streamed);
    } else {
      SameRequests(s, e);
    }
  }

  lemma SameRequests(s: State, e: Event)
    requires !e.Prompt?
    ensures |Step(s, e).requests| == |s.requests|
  {
  }

  lemma {:induction false} NothingBeforeArrival(events: seq<Event>, r: Ticket)
    requires TurnsRun(events) && r >= |Run(events).requests|
    ensures Yields(events, r) == [] && Throw(r) !in events && Exhaust(r) !in events
  {
    if events != [] {
      var earlier, last := events[..|events| - 1], events[|events| - 1];
      RequestsGrow(Run(earlier), last);
      NothingBeforeArrival(earlier, r);
      assert events == earlier + [last];
    }
  }

  ghost predicate TurnRecorded(q: Request, events: seq<Event>, r: Ticket) {
    && q.seen == Yields(events, r)
    && (q.ending.Thrown? <==> Throw(r) in events) && (q.ending.Exhausted? <==> Exhaust(r) in events)
  }

  ghost predicate TurnRuns(s: State, e: Event) {
    (e.Yield? ==> IsRunning(s, e.run)) && (e.Exhaust? || e.Throw? ==> IsRunning(s, e.run))
  }

  lemma YieldsPush(events: seq<Event>, e: Event, r: Ticket)
    ensures Yields(events + [e], r) == Yields(events, r) + if e.Yield? && e.run == r then [e.event] else []
  {
    assert (events + [e])[..|events|] == events;
  }

  lemma TurnGoesOn(s: State, e: Event, events: seq<Event>, r: Ticket)
    requires r < |s.requests| && RequestSafe(s, r) && TurnRuns(s, e) && TurnRecorded(s.requests[r], events, r)
    ensures r < |Step(s, e).requests| && TurnRecorded(Step(s, e).requests[r], events + [e], r)
  {
    HistoryStep(s, e, r);
    YieldsPush(events, e, r);
  }

  lemma ArrivesUnrecorded(events: seq<Event>, r: Ticket)
    requires events != [] && TurnsRun(events)
    requires |Run(events[..|events| - 1]).requests| <= r < |Run(events).requests|
    ensures TurnRecorded(Run(events).requests[r], events, r)
  {
    var earlier, last := events[..|events| - 1], events[|events| - 1];
    NothingBeforeArrival(earlier, r);
    YieldsPush(earlier, last, r);
    assert events == earlier + [last];
    if last.Prompt? {
      ArrivalRecorded(Run(earlier), last.session, last.call, last.streamed);
    } else {
      SameRequests(Run(earlier), last);
    }
  }

  /** What is on record of a turn is what the run let it do. */
  lemma {:induction false} HistoryIsTheTurn(events: seq<Event>, r: Ticket)
    requires TurnsRun(events) && r < |Run(events).requests|
    ensures TurnRecorded(Run(events).requests[r], events, r)
  {
    if events != [] {
      var earlier, last := events[..|events| - 1], events[|events| - 1];
      if r < |Run(earlier).requests| {
        AlwaysSafe(earlier);
        assert RequestSafe(Run(earlier), r);
        HistoryIsTheTurn(earlier, r);
        TurnGoesOn(Run(earlier), last, earlier, r);
        assert events == earlier + [last];
      } else {
        ArrivesUnrecorded(events, r);
      }
    }
  }

  /** Over any run: a blocking prompt is answered when its turn is over, with a failure
      exactly when the turn yielded an error or threw. */
  lemma BlockingOutcome(events: seq<Event>, r: Ticket)
    requires TurnsRun(events) && r < |Prompts(events)| && !Prompts(events)[r].streamed
    ensures r < |Run(events).requests|
    ensures var replies := Run(events).requests[r].replies;
      && (Throw(r) in events ==> replies == [Failure])
      && (Exhaust(r) in events ==> replies == if TurnError in Yields(events, r) then [Failure] else [Result])
      && (Throw(r) !in events && Exhaust(r) !in events ==> replies == [] || replies == [Refusal])
  {
    RequestsAreThePrompts(events);
    HistoryIsTheTurn(events, r);
    OwedReplies(events, r);
  }

  lemma OwedReplies(events: seq<Event>, r: Ticket)
    requires r < |Run(events).requests|
    ensures Run(events).requests[r].replies == Owed(Run(events).requests[r])
    ensures Run(events).requests[r].ending.Refused? ==> Run(events).requests[r].seen == []
  {
    AlwaysSafe(events);
    assert RequestSafe(Run(events), r);
  }

  /** A streamed one is answered with the result as soon as its turn comes to an end event,
      and otherwise when it is over, with a failure exactly when it threw. */
  lemma StreamedOutcome(events: seq<Event>, r: Ticket)
    requires TurnsRun(events) && r < |Prompts(events)| && Prompts(events)[r].streamed
    ensures r < |Run(events).requests|
    ensures var replies := Run(events).requests[r].replies;
      var terminal := TurnDone in Yields(events, r) || TurnError in Yields(events, r);
      && (terminal ==> replies == [Result])
      && (!terminal && Throw(r) in events ==> replies == [Failure])
      && (!terminal && Exhaust(r) in events ==> replies == [Result])
      && (!terminal && Throw(r) !in events && Exhaust(r) !in events ==> replies == [] || replies == [Refusal])
  {
    RequestsAreThePrompts(events);
    HistoryIsTheTurn(events, r);
    OwedReplies(events, r);
  }

  /** No blocking prompt ever has a tail or a controller. */
  lemma BlockingLeavesNoTrace(events: seq<Event>, r: Ticket)
    requires r < |Prompts(events)| && !Prompts(events)[r].streamed
    ensures var s := Run(events);
      && (forall x | x in s.tails :: s.tails[x] != r) && (forall c | c in s.controllers :: s.controllers[c] != r)
  {
    var s := Run(events);
    RequestsAreThePrompts(events);
    AlwaysSafe(events);
    forall x | x in s.tails ensures s.tails[x] != r {
      assert SessionSafe(s, x);
    }
    forall c | c in s.controllers ensures s.controllers[c] != r {
      assert CallSafe(s, c);
    }
  }

  // ---- Cancellation --------------------------------------------------------

  /** Every streamed run can be reached through its call id. */
  ghost predicate AllCancellable(s: State) {
    forall r: Ticket | Cancelable(s, r) :: s.requests[r].call in s.controllers && s.controllers[s.requests[r].call] == r
  }

  predicate Cancelable(s: State, r: Ticket) {
    IsRunning(s, r) && s.requests[r].streamed
  }

  ghost predicate DistinctCalls(s: State) {
    forall r: Ticket, q: Ticket | Cancelable(s, r) && Cancelable(s, q) && s.requests[r].call == s.requests[q].call ::
      r == q
  }

  lemma AdmitCancellable(s: State, n: Ticket)
    requires n < |s.requests| && !IsRunning(s, n)
    requires AllCancellable(s) && DistinctCalls(Admit(s, n))
    ensures AllCancellable(Admit(s, n))
  {
    var t := Admit(s, n);
    forall r: Ticket | Cancelable(t, r)
      ensures t.requests[r].call in t.controllers && t.controllers[t.requests[r].call] == r
    {
      assert Cancelable(t, n) && t.requests[n].call == t.requests[r].call ==> n == r;
      assert r != n ==> Cancelable(s, r);
    }
  }

  lemma LeaveCancellable(s: State, n: Ticket, threw: bool)
    requires IsRunning(s, n) && AllCancellable(s)
    ensures AllCancellable(Leave(s, n, threw))
  {
    var t := Leave(s, n, threw);
    assert s.requests[n].streamed ==> Cancelable(s, n);
    forall r: Ticket | Cancelable(t, r)
      ensures t.requests[r].call in t.controllers && t.controllers[t.requests[r].call] == r
    {
      assert r != n && Cancelable(s, r);
    }
  }

  /** A step that changes neither who runs nor the controllers. */
  lemma SameRunsCancellable(s: State, t: State)
    requires AllCancellable(s) && t.controllers == s.controllers && |s.requests| <= |t.requests|
    requires forall r: Ticket | Cancelable(t, r) :: Cancelable(s, r) && t.requests[r].call == s.requests[r].call
    ensures AllCancellable(t)
  {
  }

  lemma StepCancellable(s: State, e: Event)
    requires AllCancellable(s) && DistinctCalls(Step(s, e))
    ensures AllCancellable(Step(s, e))
  {
    match e
    case Prompt(session, call, streamed) =>
      var phase := if session in s.tails then Waiting(s.tails[session]) else Finished;
      var t := s.(requests := s.requests + [Request(session, call, streamed, phase, false, false, [], [], Open)]);
      SameRunsCancellable(s, t);
      if session !in s.tails {
        AdmitCancellable(t, |s.requests|);
      }
    case Resume(r) => if CanResume(s, r) { AdmitCancellable(s, r); }
    case Exhaust(r) => if IsRunning(s, r) { LeaveCancellable(s, r, false); }
    case Throw(r) => if IsRunning(s, r) { LeaveCancellable(s, r, true); }
    case _ => SameRunsCancellable(s, Step(s, e));
  }

  /** A cancellation aborts the streamed run its id is registered for, and nothing else. */
  lemma CancelAbortsOne(s: State, call: CallId, r: Ticket)
    requires Safe(s) && r < |s.requests|
    ensures var t := Step(s, Cancel(call));
      |t.requests| == |s.requests| && t.busy == s.busy && t.tails == s.tails
      && t.requests[r] == (if call in s.controllers && s.controllers[call] == r
                           then s.requests[r].(aborted := true) else s.requests[r])
    ensures call in s.controllers && s.controllers[call] == r ==> Cancelable(s, r) && s.requests[r].call == call
  {
    assert CallSafe(s, call);
  }

  /** A streamed prompt that has not been dealt with yet, running or waiting. */
  predicate Unfinished(s: State, r: Ticket) {
    r < |s.requests| && s.requests[r].streamed && !s.requests[r].phase.Finished?
  }

  /** Its call id leads to it. */
  predicate Reached(s: State, r: Ticket)
    requires r < |s.requests|
  {
    s.requests[r].call in s.controllers && s.controllers[s.requests[r].call] == r
  }

  /** A cancellation takes effect on an unfinished streamed prompt exactly when it is
      running and its controller is its own; on one still waiting for a tail it never
      does, and is forgotten unless another run has the id. */
  lemma CancelTakesEffectIff(s: State, r: Ticket)
    requires Safe(s) && Unfinished(s, r) && !s.requests[r].aborted
    ensures var t := Step(s, Cancel(s.requests[r].call));
      && |t.requests| == |s.requests|
      && (t.requests[r].aborted <==> IsRunning(s, r) && Reached(s, r))
      && (s.requests[r].call !in s.controllers ==> t == s)
  {
    assert CallSafe(s, s.requests[r].call);
  }

  ghost predicate AllReached(s: State) {
    forall r: Ticket | Unfinished(s, r) :: Reached(s, r)
  }

  /** No streamed prompt is waiting for another's tail. */
  ghost predicate NoneWaits(s: State) {
    forall r: Ticket | Unfinished(s, r) :: IsRunning(s, r)
  }

  /** Throughout a run every unfinished streamed prompt can be cancelled exactly if none
      of them ever waits for a tail and no two are ever under way with one call id. */
  lemma {:induction false} AlwaysReachedIff(events: seq<Event>)
    ensures (forall n | 0 <= n <= |events| :: AllReached(Run(events[..n])))
      <==> (forall n | 0 <= n <= |events| :: NoneWaits(Run(events[..n])) && DistinctCalls(Run(events[..n])))
  {
    forall n | 0 <= n <= |events|
      ensures AllReached(Run(events[..n])) <==> AllCancellable(Run(events[..n])) && NoneWaits(Run(events[..n]))
    {
      ReachedAtOnce(events[..n]);
    }
    CancellableIffDistinct(events);
    assert (forall n | 0 <= n <= |events| :: AllReached(Run(events[..n]))) <==>
      (forall n | 0 <= n <= |events| :: AllCancellable(Run(events[..n])))
      && (forall n | 0 <= n <= |events| :: NoneWaits(Run(events[..n])));
  }

  lemma ReachedAtOnce(events: seq<Event>)
    ensures var s := Run(events); AllReached(s) <==> AllCancellable(s) && NoneWaits(s)
  {
    var s := Run(events);
    AlwaysSafe(events);
    forall r: Ticket | Unfinished(s, r) && Reached(s, r) ensures IsRunning(s, r) {
      assert CallSafe(s, s.requests[r].call);
    }
    forall r: Ticket | Cancelable(s, r) ensures Unfinished(s, r) {
    }
  }

  /** Throughout a run every streamed prompt that is running stays cancellable until its
      turn has drained, exactly if no two of them ever run with one call id. */
  lemma {:induction false} CancellableIffDistinct(events: seq<Event>)
    ensures (forall n | 0 <= n <= |events| :: AllCancellable(Run(events[..n])))
      <==> (forall n | 0 <= n <= |events| :: DistinctCalls(Run(events[..n])))
  {
    if forall n | 0 <= n <= |events| :: DistinctCalls(Run(events[..n])) {
      forall n | 0 <= n <= |events| ensures AllCancellable(Run(events[..n])) {
        CancellableAt(events, n);
      }
    }
    forall n | 0 <= n <= |events| && AllCancellable(Run(events[..n])) ensures DistinctCalls(Run(events[..n])) {
    }
  }

  lemma {:induction false} CancellableAt(events: seq<Event>, k: nat)
    requires k <= |events|
    requires forall n | 0 <= n <= |events| :: DistinctCalls(Run(events[..n]))
    ensures AllCancellable(Run(events[..k]))
  {
    if k == 0 {
      assert events[..0] == [];
    } else {
      CancellableAt(events, k - 1);
      PrefixSteps(events, k);
      assert DistinctCalls(Run(events[..k]));
      StepCancellable(Run(events[..k - 1]), events[k - 1]);
    }
  }

  lemma PrefixSteps(events: seq<Event>, k: nat)
    requires 0 < k <= |events|
    ensures Run(events[..k]) == Step(Run(events[..k - 1]), events[k - 1])
  {
    assert events[..k][..k - 1] == events[..k - 1];
  }

  /** Two prompts under one id on different sessions: the first to end takes the
      other's controller with it, and cancelling then reaches nobody. */
  lemma ReusedIdLosesCancellation(c: CallId, x: Session, y: Session)
    requires x != y
    ensures var s := Step(Step(Step(INITIAL, Prompt(x, c, true)), Prompt(y, c, true)), Exhaust(0));
      IsRunning(s, 1) && s.requests[1].call == c && Step(s, Cancel(c)) == s
  {
    var a := Step(INITIAL, Prompt(x, c, true));
    assert a.requests == [Request(x, c, true, Running(false), false, false, [], [], Open)];
    var b := Step(a, Prompt(y, c, true));
    assert b.requests[1] == Request(y, c, true, Running(false), false, false, [], [], Open);
  }

  /** A prompt that waits for the tail of the one before it: its cancellation is accepted
      and lost, and it runs to its end all the same. */
  lemma WaitingPromptLosesCancellation(c: CallId, e: CallId, x: Session)
    requires c != e
    ensures var s := Step(Step(Step(INITIAL, Prompt(x, c, true)), Yield(0, TurnDone)), Prompt(x, e, true));
      && Unfinished(s, 1) && s.requests[1].phase == Waiting(0) && s.requests[1].call == e
      && AllCancellable(s) && DistinctCalls(s) && Step(s, Cancel(e)) == s
      && var t := Step(Step(s, Exhaust(0)), Resume(1)); IsRunning(t, 1) && !t.requests[1].aborted
  {
    var a := Step(INITIAL, Prompt(x, c, true));
    assert a.requests == [Request(x, c, true, Running(false), false, false, [], [], Open)];
    var b := Step(a, Yield(0, TurnDone));
    assert b.requests[0] == Request(x, c, true, Running(true), false, false, [Result], [TurnDone], Open);
    assert b.requests == [b.requests[0]];
    var s := Step(b, Prompt(x, e, true));
    assert s.requests == b.requests + [Request(x, e, true, Waiting(0), false, false, [], [], Open)];
    var u := Step(s, Exhaust(0));
    assert u.requests[1] == s.requests[1] && u.requests[0].phase == Finished && u.busy == {};
  }

  // ---- The server ----------------------------------------------------------

  class AcpServer {
    var busySessions: set<Session>
    var sessionTails: map<Session, Ticket>
    var abortControllers: map<CallId, Ticket>
    var requests: seq<Request>

    function Contents(): State
      reads this
    {
      State(requests, busySessions, sessionTails, abortControllers)
    }

    constructor ()
      ensures Contents() == INITIAL
    {
      busySessions, sessionTails, abortControllers, requests := {}, map[], map[], [];
    }

    /** From the arrival of a prompt to its first await. */
    method ReceivePrompt(session: Session, call: CallId, streamed: bool)
      modifies this
      ensures Contents() == Step(old(Contents()), Prompt(session, call, streamed))
    {
      var r := |requests|;
      if session in sessionTails {
        var phase := Waiting(sessionTails[session]);
        requests := requests + [Request(session, call, streamed, phase, false, false, [], [], Open)];
      } else {
        requests := requests + [Request(session, call, streamed, Finished, false, false, [], [], Open)];
        Begin(r);
      }
    }

    method Wake(r: Ticket)
      requires CanResume(Contents(), r)
      modifies this
      ensures Contents() == Step(old(Contents()), Resume(r))
    {
      Begin(r);
    }

    method Begin(r: Ticket)
      requires r < |requests|
      modifies this
      ensures Contents() == Admit(old(Contents()), r)
    {
      var q := requests[r];
      if q.session in busySessions {
        requests := requests[r := q.(phase := Finished, replies := q.replies + [Refusal], ending := Refused)];
        return;
      }
      if q.streamed {
        abortControllers := abortControllers[q.call := r];
      }
      busySessions := busySessions + {q.session};
      requests := requests[r := q.(phase := Running(false))];
    }

    /** One iteration of the loop over the turn's events. */
    method HandleEvent(r: Ticket, e: TurnEvent)
      requires IsRunning(Contents(), r)
      modifies this
      ensures Contents() == Step(old(Contents()), Yield(r, e))
    {
      var q := requests[r].(seen := requests[r].seen + [e]);
      requests := requests[r := q];
      if !q.streamed {
        if e.TurnError? {
          requests := requests[r := q.(failed := true)];
        }
        return;
      }
      if q.phase.answered {
        return;
      }
      if e.TurnDone? || e.TurnError? {
        requests := requests[r := q.(phase := Running(true), replies := q.replies + [Result])];
        sessionTails := sessionTails[q.session := r];
      }
    }

    /** The code after the loop, its catch and its finally. */
    method FinishRun(r: Ticket, threw: bool)
      requires IsRunning(Contents(), r)
      modifies this
      ensures Contents() == Step(old(Contents()), if threw then Throw(r) else Exhaust(r))
    {
      var q := requests[r];
      var replies := q.replies;
      assert q.replies + [] == q.replies;
      if !q.phase.answered {
        replies := replies + if threw || q.failed then [Failure] else [Result];
      }
      if q.streamed {
        abortControllers := abortControllers - {q.call};
        sessionTails := sessionTails - {q.session};
      }
      busySessions := busySessions - {q.session};
      var ending := if threw then Thrown else Exhausted;
      requests := requests[r := q.(phase := Finished, replies := replies, ending := ending)];
    }

    /** A cancel request is always answered `ok`, whether it reached a run or not. */
    method HandleCancel(call: CallId) returns (reply: Reply)
      requires Safe(Contents())
      modifies this`requests
      ensures Contents() == Step(old(Contents()), Cancel(call)) && reply == Result
    {
      assert CallSafe(Contents(), call);
      if call in abortControllers {
        var r := abortControllers[call];
        requests := requests[r := requests[r].(aborted := true)];
      }
      reply := Result;
    }
  }
}

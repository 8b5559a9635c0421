/** The poll's run/stop discipline: one reconcile at a time, none after a stop. */
module ReloadRunner {

  /** `active` is the reconcile in flight, `begun` how many were ever started, and
      `waiters` the stops still awaiting the reconcile that was active when they came. */
  datatype State = State(active: bool, stopped: bool, begun: nat, ended: nat, waiters: nat, resolved: nat)

  datatype Event = Trigger | Finish | Stop

  const IDLE := State(false, false, 0, 0, 0, 0)

  function Step(s: State, e: Event): State {
    match e
    case Trigger => if s.stopped || s.active then s else s.(active := true, begun := s.begun + 1)
    case Finish =>
      if s.active
      then s.(active := false, ended := s.ended + 1, waiters := 0, resolved := s.resolved + s.waiters)
      else s
    case Stop =>
      if s.active then s.(stopped := true, waiters := s.waiters + 1)
      else s.(stopped := true, resolved := s.resolved + 1)
  }

  function Run(s: State, events: seq<Event>): State
    decreases |events|
  {
    if events == [] then s else Run(Step(s, events[0]), events[1..])
  }

  function Stops(events: seq<Event>): nat {
    if events == [] then 0 else (if events[0].Stop? then 1 else 0) + Stops(events[1..])
  }

  /** At most one reconcile is in flight, and a resolved stop means none is or will be. */
  ghost predicate Sound(s: State) {
    s.begun == s.ended + (if s.active then 1 else 0)
    && (s.resolved > 0 ==> s.stopped && !s.active)
    && (s.waiters > 0 ==> s.active && s.stopped)
  }

  lemma {:induction false} RunSound(s: State, events: seq<Event>)
    requires Sound(s)
    ensures Sound(Run(s, events))
    ensures s.stopped ==> Run(s, events).stopped && Run(s, events).begun == s.begun
    ensures Run(s, events).waiters + Run(s, events).resolved == s.waiters + s.resolved + Stops(events)
    decreases |events|
  {
    if events != [] {
      RunSound(Step(s, events[0]), events[1..]);
    }
  }

  /** From a fresh runner, wherever a stop falls in the run: nothing starts after it,
      every stop is accounted for, and once the reconcile in flight has finished
      all of them have resolved. */
  lemma StopLatches(before: seq<Event>, after: seq<Event>)
    ensures var s := Run(Run(IDLE, before), [Stop]);
      && Sound(Run(s, after)) && Run(s, after).begun == s.begun
      && Run(s, after).waiters + Run(s, after).resolved == Stops(before) + 1 + Stops(after)
      && (!Run(s, after).active ==> Run(s, after).resolved == Stops(before) + 1 + Stops(after))
  {
    RunSound(IDLE, before);
    RunSound(Run(IDLE, before), [Stop]);
    assert [Stop][1..] == [];
    assert Run(Run(IDLE, before), [Stop]) == Step(Run(IDLE, before), Stop);
    RunSound(Run(Run(IDLE, before), [Stop]), after);
  }

  /** A trigger starts a reconcile exactly when none is active and no stop came; the end of
      one frees the runner; a stop resolves at once exactly when none is active. */
  lemma StepEffects(s: State)
    ensures Step(s, Trigger) ==
      if s.active || s.stopped then s else State(true, false, s.begun + 1, s.ended, s.waiters, s.resolved)
    ensures s.active ==>
      Step(s, Finish) == State(false, s.stopped, s.begun, s.ended + 1, 0, s.resolved + s.waiters)
    ensures var t := Step(s, Stop);
      && t.stopped && t.active == s.active && t.begun == s.begun && t.ended == s.ended
      && t.resolved == s.resolved + (if s.active then 0 else 1) && t.waiters == s.waiters + if s.active then 1 else 0
  {
  }

  /** So until a stop every trigger that finds the runner idle starts one reconcile, and none
      is lost to an earlier failure. */
  lemma {:induction false} TriggersStart(n: nat)
    ensures var s := Run(IDLE, Rounds(n)); !s.active && !s.stopped && s.begun == n && s.ended == n
  {
    RoundsCount(IDLE, n);
  }

  /** Trigger and finish, `n` times. */
  function Rounds(n: nat): seq<Event> {
    if n == 0 then [] else [Trigger, Finish] + Rounds(n - 1)
  }

  lemma {:induction false} RoundsCount(s: State, n: nat)
    requires !s.active && !s.stopped
    ensures var t := Run(s, Rounds(n)); !t.active && !t.stopped && t.begun == s.begun + n && t.ended == s.ended + n
    decreases n
  {
    if n > 0 {
      var events := Rounds(n);
      assert events[1..][1..] == Rounds(n - 1);
      assert events[0] == Trigger && events[1..][0] == Finish;
      var t := Step(Step(s, Trigger), Finish);
      StepEffects(s);
      StepEffects(Step(s, Trigger));
      assert Run(s, events) == Run(Step(s, Trigger), events[1..]) == Run(t, Rounds(n - 1));
      RoundsCount(t, n - 1);
    }
  }

  class Runner {
    var active: bool
    var stopped: bool
    var begun: nat
    var ended: nat
    var waiters: nat
    var resolved: nat

    function Contents(): State
      reads this
    {
      State(active, stopped, begun, ended, waiters, resolved)
    }

    method TriggerReload()
      modifies this
      ensures Contents() == Step(old(Contents()), Trigger)
    {
      if stopped || active {
        return;
      }
      active := true;
      begun := begun + 1;
    }

    /** The reconcile settled, resolved or rejected; its stops go on. */
    method Settle()
      requires active
      modifies this
      ensures Contents() == Step(old(Contents()), Finish)
    {
      active := false;
      ended := ended + 1;
      resolved := resolved + waiters;
      waiters := 0;
    }

    method StopReloads()
      modifies this
      ensures Contents() == Step(old(Contents()), Stop)
    {
      stopped := true;
      if active {
        waiters := waiters + 1;
      } else {
        resolved := resolved + 1;
      }
    }
  }
}

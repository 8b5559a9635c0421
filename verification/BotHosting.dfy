/** Hot-adding, replacing and retiring one bot while the process runs: which of
    its instances is registered, started, wired and released, whatever step fails. */
module BotHosting {

  datatype Option<+T> = None | Some(value: T)

  /** Instances are numbered in the order they are prepared. */
  type Instance = nat

  /** How a retirement ends: done; refused because the bot is still busy, which then
      stays as it is but admits nothing new; or deregistered with a `stop()` that threw, its transport possibly
      still up. */
  datatype Removal = Removed | Quarantined | StopThrew(stillUp: bool)

  datatype Start = Started | NeverStarted | StartedThenThrew

  /** Which steps of one hot-add work (`true` for success). */
  datatype CommitFaults = CommitFaults(
    register: bool, wire: bool, start: Start, undo: bool, deregister: Removal)

  datatype SwapFaults = SwapFaults(
    prepare: bool, retire: Removal, commit: CommitFaults, teardown: bool,
    rebuild: bool, recommit: CommitFaults, reteardown: bool)

  /** One poll: what the file says of this bot, and which steps work. */
  datatype Visit = Visit(next: Option<nat>, faults: SwapFaults)

  datatype State = State(
    registered: Option<Instance>,  // the routing-table entry of this bot key
    running: set<Instance>,        // transports started and not stopped
    wired: set<Instance>,          // app-level registrations
    slot: Option<Instance>,        // whose teardown handle the wiring registry holds
    retiring: bool,                // the key admits no new inbound
    versions: seq<nat>,            // the configuration each instance was built from
    released: multiset<Instance>,  // runtimes handed to the release step
    torn: multiset<Instance>,      // teardown handles taken and run
    threw: set<Instance>,          // those that threw, leaving their runtime behind
    applied: Option<nat>,          // the version the ledger records as running
    moments: seq<set<Instance>>)   // what was running after every start and stop

  const START := State(None, {}, {}, None, false, [], multiset{}, multiset{}, {}, None, [])

  /** A process cold-booted with one version of the bot, or without it. A bot whose
      transport did not start is registered, wired and on record all the same. */
  function Boot(version: Option<nat>, up: bool): State {
    if version.None? then START
    else
      var s := START.(registered := Some(0), wired := {0}, slot := Some(0), versions := [version.value],
                      applied := version);
      if up then s.(running := {0}, moments := [{0}]) else s
  }

  // ---- Steps ---------------------------------------------------------------

  function Seen(s: State): State {
    s.(moments := s.moments + [s.running])
  }

  /** Deregister whatever holds the key and stop its transport. A busy bot is marked as
      retiring instead, until a later retirement goes through. */
  function Remove(s: State, how: Removal): (State, bool) {
    if s.registered.None? then (s, true)
    else
      var off := s.(registered := None, retiring := false);
      var gone := off.(running := s.running - {s.registered.value});
      match how
      case Quarantined => (s.(retiring := true), false)
      case Removed => (Seen(gone), true)
      case StopThrew(stillUp) => (Seen(if stillUp then off else gone), false)
  }

  function Release(s: State, i: Instance): State {
    s.(released := s.released + multiset{i})
  }

  /** The undos, in reverse order, each guarded on its own; the release last. */
  function RollBack(s: State, i: Instance, f: CommitFaults): State {
    var a := if f.wire && f.undo then s.(wired := s.wired - {i}) else s;
    Release(Remove(a, f.deregister).0, i)
  }

  function Up(s: State, i: Instance, start: Start): State {
    if start.NeverStarted? then s else Seen(s.(running := s.running + {i}))
  }

  /** Register, wire and start a prepared instance; registering is refused while the
      key is taken. */
  function CommitHotAdd(s: State, i: Instance, f: CommitFaults): (State, bool) {
    if s.registered.Some? || !f.register then (Release(s, i), false)
    else
      var a := s.(registered := Some(i));
      if !f.wire then (RollBack(a, i, f), false)
      else
        var b := Up(a.(wired := a.wired + {i}), i, f.start);
        if f.start.Started? then (b, true) else (RollBack(b, i, f), false)
  }

  /** A teardown handle runs; when it throws, its runtime is not released. */
  function TakeDown(s: State, i: Instance, works: bool): State {
    if works then s.(torn := s.torn + multiset{i}, wired := s.wired - {i})
    else s.(torn := s.torn + multiset{i}, threw := s.threw + {i})
  }

  /** Put the new teardown handle in the slot, then run the displaced one. */
  function ReplaceWiring(s: State, i: Instance, teardown: bool): (State, bool) {
    if s.slot.None? then (s.(slot := Some(i)), true)
    else (TakeDown(s.(slot := Some(i)), s.slot.value, teardown), teardown)
  }

  /** A swap's commit: the hot-add, then the takeover of the wiring slot. */
  function CommitAndTakeOver(s: State, i: Instance, f: CommitFaults, teardown: bool): (State, bool) {
    var (a, done) := CommitHotAdd(s, i, f);
    if done then ReplaceWiring(a, i, teardown) else (a, false)
  }

  function Prepare(s: State, v: nat): State {
    s.(versions := s.versions + [v])
  }

  /** The rollback: a fresh instance of the recorded version, through the same commit. */
  function Restore(s: State, f: SwapFaults): State {
    if s.applied.None? || !f.rebuild then s
    else CommitAndTakeOver(Prepare(s, s.applied.value), |s.versions|, f.recommit, f.reteardown).0
  }

  /** With the key vacant: commit the replacement, or restore the recorded version. */
  function Exchange(s: State, p: Instance, f: SwapFaults): (State, bool) {
    var (a, ok) := CommitAndTakeOver(s, p, f.commit, f.teardown);
    if ok then (a, true) else (Restore(a, f), false)
  }

  /** Replace the live bot. The old one goes down only after the replacement was
      built, and a failed replacement is answered by building the recorded version
      afresh. */
  function SwapBotLive(s: State, v: nat, f: SwapFaults): (State, bool) {
    if !f.prepare then (s, false)
    else
      var p := |s.versions|;
      var (a, gone) := Remove(Prepare(s, v), f.retire);
      if gone then Exchange(a, p, f) else (Release(a, p), false)
  }

  /** Add a bot the ledger does not record. */
  function AddBotLive(s: State, v: nat, f: SwapFaults): (State, bool) {
    if !f.prepare then (s, false)
    else
      var p := |s.versions|;
      var (a, ok) := CommitHotAdd(Prepare(s, v), p, f.commit);
      if ok then (a.(slot := Some(p)), true) else (a, false)
  }

  /** Transport first; the wiring only once the transport is really gone. */
  function RetireBotFully(s: State, f: SwapFaults): (State, bool) {
    var (a, gone) := Remove(s, f.retire);
    if !gone then (a, false)
    else if a.slot.None? then (a, true)
    else (TakeDown(a.(slot := None), a.slot.value, f.teardown), f.teardown)
  }

  function Reconcile(s: State, next: Option<nat>, f: SwapFaults): (State, bool) {
    if next.None? then RetireBotFully(s, f)
    else if s.applied.None? then AddBotLive(s, next.value, f)
    else SwapBotLive(s, next.value, f)
  }

  /** What the ledger and the file disagree on is reconciled, and marked only when it
      returned. */
  function Poll(s: State, visit: Visit): State {
    if s.applied == visit.next then s
    else
      var (t, ok) := Reconcile(s, visit.next, visit.faults);
      if ok then t.(applied := visit.next) else t
  }

  /** A cold-booted transport that failed to start is started by a background retry,
      unless its bot was retired meanwhile. */
  predicate Dormant(s: State) {
    s.registered.Some? && s.slot == s.registered && s.registered.value !in s.running
  }

  function Recover(s: State): State {
    if Dormant(s) then Seen(s.(running := s.running + {s.registered.value})) else s
  }

  datatype Happening = Polled(visit: Visit) | Recovered

  function After(s: State, h: Happening): State {
    if h.Polled? then Poll(s, h.visit) else Recover(s)
  }

  function Run(boot: State, events: seq<Happening>): State {
    if events == [] then boot else After(Run(boot, events[..|events| - 1]), events[|events| - 1])
  }

  lemma RunStep(boot: State, events: seq<Happening>, n: nat)
    requires n < |events|
    ensures Run(boot, events[..n + 1]) == After(Run(boot, events[..n]), events[n])
  {
    assert events[..n + 1][..n] == events[..n];
  }

  // ---- Guards on the faults -----------------------------------------------

  /** Every step of the transaction itself succeeds. */
  predicate Works(f: CommitFaults) {
    f.register && f.wire && f.start.Started?
  }

  /** The start step is reached and brings the transport up. */
  predicate Begins(f: CommitFaults) {
    f.register && f.wire && !f.start.NeverStarted?
  }

  /** The transport came up before its start was reported as failed. */
  predicate HalfStarted(f: CommitFaults) {
    f.register && f.wire && f.start.StartedThenThrew?
  }

  /** The hot-add fails and its rollback leaves the key vacant. */
  predicate TakenBack(f: CommitFaults) {
    !Works(f) && !(f.register && f.deregister.Quarantined?)
  }

  /** The transport came up, its start was reported as failed, and it cannot be retired. */
  predicate Strands(f: CommitFaults) {
    HalfStarted(f) && f.deregister.Quarantined?
  }

  /** The same, but deregistered, with a `stop()` that threw and left it up. */
  predicate Leaks(f: CommitFaults) {
    HalfStarted(f) && f.deregister == StopThrew(true)
  }

  /** The retirement leaves the key vacant and returns. */
  predicate Clears(s: State, f: SwapFaults) {
    s.registered.None? || f.retire.Removed?
  }

  predicate Stops(how: Removal) {
    how.Removed? || how == StopThrew(false)
  }

  // ---- Fates ---------------------------------------------------------------

  function Entry(s: State): set<Instance> {
    if s.registered.Some? then {s.registered.value} else {}
  }

  /** Transports up that nothing refers to any more. */
  function Leaked(s: State): set<Instance> {
    s.running - Entry(s)
  }

  /** In the routing table, wired, its teardown handle held ... */
  predicate Hosted(s: State, i: Instance) {
    s.registered == Some(i) && i in s.wired && s.slot == Some(i)
  }

  /** ... and fully up: its transport running, new inbound admitted. */
  predicate Live(s: State, i: Instance) {
    Hosted(s, i) && i in s.running && !s.retiring
  }

  /** How often the runtime was released, was torn down, or is held by a handle. */
  function Fate(s: State, i: Instance): nat {
    s.released[i] + s.torn[i] + if s.slot == Some(i) then 1 else 0
  }

  /** Prepared, and nothing done with it yet. */
  predicate Fresh(s: State, i: Instance) {
    i < |s.versions| && Fate(s, i) == 0 && i !in s.running && i !in s.wired && s.registered != Some(i)
  }

  predicate Known(s: State, i: Instance) {
    i < |s.versions|
  }

  ghost predicate InstanceSafe(s: State, ready: set<Instance>, i: Instance) {
    && (i in ready ==> Fresh(s, i))
    && Fate(s, i) == (if Known(s, i) && i !in ready then 1 else 0)
    && (i in s.running || i in s.wired || s.registered == Some(i) ==> Known(s, i))
    && (s.registered == Some(i) && s.released[i] == 0 ==> Hosted(s, i))
    && (i in s.threw ==> s.torn[i] > 0)
    && (s.slot == Some(i) ==> i in s.wired)
  }

  /** All instances but the ready ones have one fate; what is running was recorded; what
      has not come up yet is on record and alone. */
  ghost predicate Safe(s: State, ready: set<Instance>) {
    && (forall i: Instance :: InstanceSafe(s, ready, i))
    && (s.running == {} || s.running in s.moments)
    && (s.retiring ==> s.registered.Some?)
    && (Dormant(s) ==> s.running == {} && Known(s, s.registered.value)
                       && s.applied == Some(s.versions[s.registered.value]))
  }

  /** So an addition never overwrites a teardown handle nobody has run. */
  predicate SlotOnRecord(s: State) {
    s.applied.None? ==> s.slot.None?
  }

  // ---- What each step keeps ------------------------------------------------

  lemma RemoveSafe(s: State, how: Removal, ready: set<Instance>)
    requires Safe(s, ready)
    ensures Safe(Remove(s, how).0, ready)
  {
    var t := Remove(s, how).0;
    forall i: Instance ensures InstanceSafe(t, ready, i) {
      assert InstanceSafe(s, ready, i);
    }
  }

  lemma PrepareSafe(s: State, v: nat)
    requires Safe(s, {})
    ensures Safe(Prepare(s, v), {|s.versions|})
  {
    var t := Prepare(s, v);
    forall i: Instance ensures InstanceSafe(t, {|s.versions|}, i) {
      assert InstanceSafe(s, {}, i);
    }
  }

  lemma ReleaseSafe(s: State, i: Instance)
    requires Safe(s, {i})
    ensures Safe(Release(s, i), {})
  {
    var t := Release(s, i);
    forall k: Instance ensures InstanceSafe(t, {}, k) {
      assert InstanceSafe(s, {i}, k);
    }
  }

  lemma RollBackOutcome(s: State, i: Instance, f: CommitFaults)
    requires s.registered == Some(i)
    ensures var t := RollBack(s, i, f);
      t == s.(registered := if f.deregister.Quarantined? then Some(i) else None,
              running := s.running - if Stops(f.deregister) then {i} else {},
              wired := s.wired - if f.wire && f.undo then {i} else {},
              retiring := f.deregister.Quarantined?,
              released := s.released + multiset{i},
              moments := s.moments + if f.deregister.Quarantined? then [] else [t.running])
  {
    assert s.wired - {} == s.wired && s.running - {} == s.running;
  }

  /** What a hot-add on a vacant key leaves: all of it in place, or exactly what a failing
      undo could not take back, the runtime released. */
  function HotAdded(s: State, i: Instance, f: CommitFaults): State {
    var running := s.running + if Works(f) || Strands(f) || Leaks(f) then {i} else {};
    s.(registered := if Works(f) || f.deregister.Quarantined? then Some(i) else None,
       running := running,
       wired := s.wired + if Works(f) || (f.wire && !f.undo) then {i} else {},
       retiring := if Works(f) then s.retiring else f.deregister.Quarantined?,
       released := s.released + if Works(f) then multiset{} else multiset{i},
       moments := s.moments + (if Begins(f) then [s.running + {i}] else [])
                  + if Works(f) || f.deregister.Quarantined? then [] else [running])
  }

  lemma UnwiredRollsBack(s: State, i: Instance, f: CommitFaults)
    requires i !in s.running && i !in s.wired && s.registered.None? && f.register && !f.wire
    ensures CommitHotAdd(s, i, f) == (HotAdded(s, i, f), false)
  {
    var t, h := CommitHotAdd(s, i, f).0, HotAdded(s, i, f);
    RollBackOutcome(s.(registered := Some(i)), i, f);
    assert t.running == h.running && t.wired == h.wired && t.released == h.released && t.moments == h.moments;
  }

  lemma UnstartedRollsBack(s: State, i: Instance, f: CommitFaults)
    requires i !in s.running && i !in s.wired && s.registered.None? && f.register && f.wire && !f.start.Started?
    ensures CommitHotAdd(s, i, f) == (HotAdded(s, i, f), false)
  {
    var a := s.(registered := Some(i), wired := s.wired + {i});
    var t, h := CommitHotAdd(s, i, f).0, HotAdded(s, i, f);
    RollBackOutcome(Up(a, i, f.start), i, f);
    assert t.running == h.running && t.wired == h.wired && t.released == h.released && t.moments == h.moments;
  }

  /** All of it is in place, or the key's holder is untouched, or what is left behind
      is exactly what a failing undo could not take back; the runtime is released
      exactly when the hot-add fails. */
  lemma HotAddOutcome(s: State, i: Instance, f: CommitFaults)
    requires i !in s.running && i !in s.wired
    ensures var (t, ok) := CommitHotAdd(s, i, f);
      && (ok <==> s.registered.None? && Works(f))
      && t == if s.registered.Some? || !f.register then Release(s, i) else HotAdded(s, i, f)
  {
    if s.registered.None? && f.register {
      if !f.wire {
        UnwiredRollsBack(s, i, f);
      } else if !f.start.Started? {
        UnstartedRollsBack(s, i, f);
      }
    }
  }

  lemma HotAddSafe(s: State, i: Instance, f: CommitFaults)
    requires Safe(s, {i}) && !CommitHotAdd(s, i, f).1
    ensures Safe(CommitHotAdd(s, i, f).0, {})
  {
    assert InstanceSafe(s, {i}, i);
    HotAddOutcome(s, i, f);
    var t := CommitHotAdd(s, i, f).0;
    forall k: Instance ensures InstanceSafe(t, {}, k) {
      assert InstanceSafe(s, {i}, k);
    }
  }

  lemma TakeOverSafe(s: State, i: Instance, f: CommitFaults, teardown: bool)
    requires Safe(s, {i})
    ensures Safe(CommitAndTakeOver(s, i, f, teardown).0, {})
    ensures CommitHotAdd(s, i, f).1 ==> Live(CommitAndTakeOver(s, i, f, teardown).0, i)
  {
    assert InstanceSafe(s, {i}, i);
    HotAddOutcome(s, i, f);
    if CommitHotAdd(s, i, f).1 {
      var t := CommitAndTakeOver(s, i, f, teardown).0;
      forall k: Instance ensures InstanceSafe(t, {}, k) {
        assert InstanceSafe(s, {i}, k);
      }
    } else {
      HotAddSafe(s, i, f);
    }
  }

  /** What a commit of a swap leaves, in every case. */
  lemma TakeOverOutcome(s: State, i: Instance, f: CommitFaults, teardown: bool)
    requires Safe(s, {i})
    ensures var (t, ok) := CommitAndTakeOver(s, i, f, teardown);
      && t.versions == s.versions && t.applied == s.applied
      && (ok <==> s.registered.None? && Works(f) && (s.slot.None? || teardown))
      && (s.registered.Some? ==> t == Release(s, i))
      && (s.registered.None? ==>
            && t.registered == (if Works(f) || (f.register && f.deregister.Quarantined?) then Some(i) else None)
            && t.running == s.running + (if Works(f) || Strands(f) || Leaks(f) then {i} else {})
            && t.slot == (if Works(f) then Some(i) else s.slot)
            && t.retiring == (!Works(f) && f.register && f.deregister.Quarantined?)
            && (Works(f) <==> Live(t, i))
            && t.released == s.released + if Works(f) then multiset{} else multiset{i})
  {
    assert InstanceSafe(s, {i}, i);
    HotAddOutcome(s, i, f);
    TakeOverSafe(s, i, f, teardown);
  }

  /** A failed hot-add whose wiring could not be undone. */
  predicate StaysWired(f: CommitFaults) {
    f.register && f.wire && !Works(f) && !f.undo
  }

  /** Which handle a commit runs, and whose registrations it leaves: the displaced handle
      exactly when the hot-add worked, its registrations going just when it returns. */
  lemma TakeOverTearsDown(s: State, i: Instance, f: CommitFaults, teardown: bool)
    requires Safe(s, {i}) && s.registered.None?
    ensures var t := CommitAndTakeOver(s, i, f, teardown).0;
      if Works(f) then
        && t.slot == Some(i)
        && t.torn == s.torn + (if s.slot.Some? then multiset{s.slot.value} else multiset{})
        && t.wired == (s.wired - if s.slot.Some? && teardown then {s.slot.value} else {}) + {i}
      else
        && t.slot == s.slot && t.torn == s.torn
        && t.wired == s.wired + if StaysWired(f) then {i} else {}
  {
    assert InstanceSafe(s, {i}, i);
    HotAddOutcome(s, i, f);
  }

  lemma RestoreSafe(s: State, f: SwapFaults)
    requires Safe(s, {})
    ensures Safe(Restore(s, f), {})
  {
    if s.applied.Some? && f.rebuild {
      PrepareSafe(s, s.applied.value);
      TakeOverSafe(Prepare(s, s.applied.value), |s.versions|, f.recommit, f.reteardown);
    }
  }

  lemma ExchangeSafe(s: State, p: Instance, f: SwapFaults)
    requires Safe(s, {p})
    ensures Safe(Exchange(s, p, f).0, {})
  {
    TakeOverSafe(s, p, f.commit, f.teardown);
    RestoreSafe(CommitAndTakeOver(s, p, f.commit, f.teardown).0, f);
  }

  lemma SwapSafe(s: State, v: nat, f: SwapFaults)
    requires Safe(s, {})
    ensures Safe(SwapBotLive(s, v, f).0, {})
  {
    if f.prepare {
      var p, b := |s.versions|, Prepare(s, v);
      PrepareSafe(s, v);
      RemoveSafe(b, f.retire, {p});
      var (a, gone) := Remove(b, f.retire);
      if gone {
        ExchangeSafe(a, p, f);
      } else {
        ReleaseSafe(a, p);
      }
    }
  }

  /** On an empty slot an addition is a swap's commit. */
  lemma AddTakesOver(s: State, v: nat, f: SwapFaults)
    requires Safe(s, {}) && s.slot.None? && f.prepare
    ensures AddBotLive(s, v, f) == CommitAndTakeOver(Prepare(s, v), |s.versions|, f.commit, f.teardown)
    ensures Safe(Prepare(s, v), {|s.versions|}) && Safe(AddBotLive(s, v, f).0, {})
  {
    PrepareSafe(s, v);
    assert InstanceSafe(Prepare(s, v), {|s.versions|}, |s.versions|);
    HotAddOutcome(Prepare(s, v), |s.versions|, f.commit);
    TakeOverSafe(Prepare(s, v), |s.versions|, f.commit, f.teardown);
  }

  lemma RetireSafe(s: State, f: SwapFaults)
    requires Safe(s, {})
    ensures Safe(RetireBotFully(s, f).0, {})
  {
    RemoveSafe(s, f.retire, {});
    var (a, gone) := Remove(s, f.retire);
    var t := RetireBotFully(s, f).0;
    if gone {
      forall i: Instance ensures InstanceSafe(t, {}, i) {
        assert InstanceSafe(a, {}, i);
      }
    }
  }

  lemma ReconcileSafe(s: State, next: Option<nat>, f: SwapFaults)
    requires Safe(s, {}) && SlotOnRecord(s)
    ensures Safe(Reconcile(s, next, f).0, {})
  {
    if next.None? {
      RetireSafe(s, f);
    } else if s.applied.Some? {
      SwapSafe(s, next.value, f);
    } else if f.prepare {
      AddTakesOver(s, next.value, f);
    }
  }

  lemma MarkSafe(s: State, next: Option<nat>)
    requires Safe(s, {}) && !Dormant(s)
    ensures Safe(s.(applied := next), {})
  {
    forall i: Instance ensures InstanceSafe(s.(applied := next), {}, i) {
      assert InstanceSafe(s, {}, i);
    }
  }

  /** What a reconcile that returned leaves has come up, or is gone. */
  lemma ReturnedIsAwake(s: State, next: Option<nat>, f: SwapFaults)
    requires Safe(s, {}) && SlotOnRecord(s) && Reconcile(s, next, f).1
    ensures !Dormant(Reconcile(s, next, f).0)
  {
    if next.Some? {
      if s.applied.Some? {
        SwapOutcome(s, next.value, f);
      } else {
        AddServes(s, next.value, f);
      }
    }
  }

  lemma PollSafe(s: State, visit: Visit)
    requires Safe(s, {}) && SlotOnRecord(s)
    ensures Safe(Poll(s, visit), {})
  {
    if s.applied != visit.next {
      var (t, ok) := Reconcile(s, visit.next, visit.faults);
      ReconcileSafe(s, visit.next, visit.faults);
      if ok {
        ReturnedIsAwake(s, visit.next, visit.faults);
        MarkSafe(t, visit.next);
      }
    }
  }

  // ---- Outcomes ------------------------------------------------------------

  /** Which instance holds the key after a rollback, and which version it was built from. */
  lemma RestoreOutcome(s: State, f: SwapFaults)
    requires Safe(s, {}) && s.applied.Some?
    ensures var (t, r) := (Restore(s, f), |s.versions|);
      && t.applied == s.applied && s.versions <= t.versions
      && (s.registered.Some? || !f.rebuild ==>
            t.registered == s.registered && t.running == s.running && t.slot == s.slot && t.wired == s.wired
            && t.retiring == s.retiring)
      && (f.rebuild ==> t.versions == s.versions + [s.applied.value])
      && (f.rebuild && s.registered.None? ==>
            && t.registered == (if TakenBack(f.recommit) then None else Some(r))
            && t.running ==
                 s.running + (if Works(f.recommit) || Strands(f.recommit) || Leaks(f.recommit) then {r} else {})
            && t.slot == (if Works(f.recommit) then Some(r) else s.slot)
            && t.retiring == (!Works(f.recommit) && !TakenBack(f.recommit)))
      && (f.rebuild ==> (Live(t, r) <==> s.registered.None? && Works(f.recommit)))
      && (f.rebuild ==> t.released[r] == if Live(t, r) then 0 else 1)
  {
    if f.rebuild {
      PrepareSafe(s, s.applied.value);
      assert InstanceSafe(s, {}, |s.versions|);
      TakeOverOutcome(Prepare(s, s.applied.value), |s.versions|, f.recommit, f.reteardown);
    }
  }

  /** A rollback releases no instance but its own. */
  lemma RestoreKeeps(s: State, f: SwapFaults, i: Instance)
    requires Safe(s, {}) && s.applied.Some? && i < |s.versions|
    ensures Restore(s, f).released[i] == s.released[i]
    ensures s.registered.Some? ==> (Live(Restore(s, f), i) <==> Live(s, i))
    ensures s.registered.None? ==> !Live(Restore(s, f), i)
  {
    if f.rebuild {
      PrepareSafe(s, s.applied.value);
      TakeOverOutcome(Prepare(s, s.applied.value), |s.versions|, f.recommit, f.reteardown);
    }
  }

  lemma ExchangeOutcome(s: State, p: Instance, f: SwapFaults)
    requires Safe(s, {p}) && s.applied.Some? && s.registered.None? && |s.versions| == p + 1
    ensures var (t, ok) := Exchange(s, p, f);
      && t.applied == s.applied && s.versions <= t.versions
      && (ok <==> Live(t, p) && (s.slot.None? || f.teardown))
      && (Live(t, p) <==> Works(f.commit))
      && t.released[p] == (if Live(t, p) then 0 else 1)
  {
    assert InstanceSafe(s, {p}, p);
    TakeOverOutcome(s, p, f.commit, f.teardown);
    TakeOverSafe(s, p, f.commit, f.teardown);
    var (a, ok) := CommitAndTakeOver(s, p, f.commit, f.teardown);
    if !ok {
      assert InstanceSafe(a, {}, p);
      RestoreOutcome(a, f);
      RestoreKeeps(a, f, p);
    }
  }

  /** The second instance of a swap, if it was prepared, was built from the version on
      record, is up exactly when it should be, and is released when it is not. */
  predicate RebuildFits(t: State, r: Instance, recorded: nat, up: bool) {
    && (r < |t.versions| ==> t.versions[r] == recorded && t.released[r] == if Live(t, r) then 0 else 1)
    && (r < |t.versions| && Live(t, r) <==> up)
  }

  lemma ExchangeRebuilds(s: State, p: Instance, f: SwapFaults)
    requires Safe(s, {p}) && s.applied.Some? && s.registered.None? && |s.versions| == p + 1
    ensures RebuildFits(Exchange(s, p, f).0, p + 1, s.applied.value,
                        TakenBack(f.commit) && f.rebuild && Works(f.recommit))
  {
    TakeOverOutcome(s, p, f.commit, f.teardown);
    TakeOverSafe(s, p, f.commit, f.teardown);
    var (a, ok) := CommitAndTakeOver(s, p, f.commit, f.teardown);
    if !ok {
      assert InstanceSafe(a, {}, p + 1);
      RestoreOutcome(a, f);
    }
  }

  /** The replacement prepared by a swap is up exactly when the key was vacated and its
      commit worked, and is released exactly when it is not; the swap returns normally
      exactly when it is up and the outgoing wiring came down. */
  lemma SwapOutcome(s: State, v: nat, f: SwapFaults)
    requires Safe(s, {}) && s.applied.Some?
    ensures var (t, ok) := SwapBotLive(s, v, f);
      var p := |s.versions|;
      && t.applied == s.applied && s.versions <= t.versions
      && (ok <==> f.prepare && Live(t, p) && (s.slot.None? || f.teardown))
      && (f.prepare ==>
            && p < |t.versions| && t.versions[p] == v
            && (Live(t, p) <==> Clears(s, f) && Works(f.commit))
            && t.released[p] == if Live(t, p) then 0 else 1)
  {
    assert InstanceSafe(s, {}, |s.versions|);
    if f.prepare {
      var p, b := |s.versions|, Prepare(s, v);
      PrepareSafe(s, v);
      RemoveSafe(b, f.retire, {p});
      var (a, gone) := Remove(b, f.retire);
      if gone {
        ExchangeOutcome(a, p, f);
      }
    }
  }

  /** With the retirement done a swap is the exchange on a vacant key. */
  lemma Vacated(s: State, v: nat, f: SwapFaults)
    requires Safe(s, {}) && f.prepare && Clears(s, f)
    ensures var a := Remove(Prepare(s, v), f.retire).0;
      && SwapBotLive(s, v, f) == Exchange(a, |s.versions|, f)
      && Safe(a, {|s.versions|}) && a.registered.None? && a.slot == s.slot && a.threw == s.threw
      && a.applied == s.applied && a.versions == s.versions + [v] && a.running == Leaked(s)
  {
    PrepareSafe(s, v);
    RemoveSafe(Prepare(s, v), f.retire, {|s.versions|});
  }

  lemma UnclearedRebuildsNone(s: State, v: nat, f: SwapFaults)
    requires !f.prepare || !Clears(s, f)
    ensures |SwapBotLive(s, v, f).0.versions| <= |s.versions| + 1
  {
  }

  lemma ClearedRebuilds(s: State, v: nat, f: SwapFaults)
    requires Safe(s, {}) && s.applied.Some? && f.prepare && Clears(s, f)
    ensures RebuildFits(SwapBotLive(s, v, f).0, |s.versions| + 1, s.applied.value,
                        TakenBack(f.commit) && f.rebuild && Works(f.recommit))
  {
    var a := Remove(Prepare(s, v), f.retire).0;
    var t := Exchange(a, |s.versions|, f).0;
    assert t == SwapBotLive(s, v, f).0 by {
      Vacated(s, v, f);
    }
    assert RebuildFits(t, |s.versions| + 1, s.applied.value, TakenBack(f.commit) && f.rebuild && Works(f.recommit)) by {
      Vacated(s, v, f);
      ExchangeRebuilds(a, |s.versions|, f);
    }
  }

  /** A replacement that was taken back is answered by a live rebuild of the recorded
      version exactly when that can be had; a rebuild that is not live is released. */
  lemma SwapRebuilds(s: State, v: nat, f: SwapFaults)
    requires Safe(s, {}) && s.applied.Some?
    ensures RebuildFits(SwapBotLive(s, v, f).0, |s.versions| + 1, s.applied.value,
                        f.prepare && Clears(s, f) && TakenBack(f.commit) && f.rebuild && Works(f.recommit))
  {
    if f.prepare && Clears(s, f) {
      ClearedRebuilds(s, v, f);
    } else {
      UnclearedRebuildsNone(s, v, f);
    }
  }

  /** Without a replacement to offer nothing changes. With the retirement refused the old
      bot keeps its routing entry, transport, wiring and handle, but admits nothing new. */
  lemma RefusedSwapKeepsOld(s: State, v: nat, f: SwapFaults)
    requires !f.prepare || (s.registered.Some? && f.retire.Quarantined?)
    ensures SwapBotLive(s, v, f) ==
      (if f.prepare then Release(Prepare(s, v).(retiring := true), |s.versions|) else s, false)
  {
  }

  /** A removal is reported exactly when the transport went and its teardown, if any,
      returned. Once the transport went the handle is taken and run, once, and the
      registrations go just when it returns; nothing is released behind its back. Refused,
      a removal leaves everything in place but admits nothing new; with a `stop()` that
      threw, it leaves the wiring and its handle. */
  lemma RetireOutcome(s: State, f: SwapFaults)
    ensures var (t, ok) := RetireBotFully(s, f);
      && (ok <==> Clears(s, f) && (s.slot.None? || f.teardown))
      && t.released == s.released && t.versions == s.versions && t.applied == s.applied
      && (Clears(s, f) ==>
            && t.registered.None? && t.slot.None?
            && t.torn == s.torn + (if s.slot.Some? then multiset{s.slot.value} else multiset{})
            && t.wired == s.wired - (if s.slot.Some? && f.teardown then {s.slot.value} else {})
            && t.threw == s.threw + (if s.slot.Some? && !f.teardown then {s.slot.value} else {}))
      && (s.registered.Some? && f.retire.Quarantined? ==> t == s.(retiring := true))
      && (s.registered.Some? && f.retire.StopThrew? ==>
            t.registered.None? && !t.retiring && t.slot == s.slot && t.wired == s.wired && t.torn == s.torn)
  {
  }

  // ---- The record and what runs --------------------------------------------

  /** The version whose transport is up, holds the key and has its inbound admitted. */
  function Served(s: State): Option<nat> {
    if s.registered.Some? && s.registered.value in s.running && !s.retiring && Known(s, s.registered.value)
    then Some(s.versions[s.registered.value]) else None
  }

  /** What serves this bot's traffic was built from the version on record ... */
  predicate Honest(s: State) {
    Served(s).Some? ==> s.applied == Served(s)
  }

  /** ... and the version on record is being served. */
  predicate Fulfilled(s: State) {
    s.applied.Some? ==> s.applied == Served(s)
  }

  /** Who serves once the key was vacated, the replacement prepared as `p`. */
  lemma ExchangeServes(s: State, p: Instance, f: SwapFaults)
    requires Safe(s, {p}) && s.applied.Some? && s.registered.None? && |s.versions| == p + 1
    ensures var t := Exchange(s, p, f).0;
      Served(t) ==
        if Works(f.commit) then Some(s.versions[p])
        else if TakenBack(f.commit) && f.rebuild && Works(f.recommit) then s.applied
        else None
  {
    assert InstanceSafe(s, {p}, p) && InstanceSafe(s, {p}, p + 1);
    TakeOverOutcome(s, p, f.commit, f.teardown);
    TakeOverSafe(s, p, f.commit, f.teardown);
    var (a, ok) := CommitAndTakeOver(s, p, f.commit, f.teardown);
    if !ok {
      assert InstanceSafe(a, {}, p + 1);
      RestoreOutcome(a, f);
    }
  }

  lemma SwapServes(s: State, v: nat, f: SwapFaults)
    requires Safe(s, {}) && s.applied.Some?
    ensures Served(SwapBotLive(s, v, f).0) ==
      if !f.prepare then Served(s)
      else if !Clears(s, f) then None
      else if Works(f.commit) then Some(v)
      else if TakenBack(f.commit) && f.rebuild && Works(f.recommit) then s.applied
      else None
  {
    assert InstanceSafe(s, {}, |s.versions|);
    if f.prepare {
      PrepareSafe(s, v);
      RemoveSafe(Prepare(s, v), f.retire, {|s.versions|});
      var (a, gone) := Remove(Prepare(s, v), f.retire);
      if gone {
        ExchangeServes(a, |s.versions|, f);
      }
    }
  }

  lemma AddServes(s: State, v: nat, f: SwapFaults)
    requires Safe(s, {}) && s.slot.None?
    ensures var (t, ok) := AddBotLive(s, v, f);
      && (ok <==> f.prepare && s.registered.None? && Works(f.commit))
      && (ok ==> Live(t, |s.versions|))
      && (!ok ==> t.slot.None?)
      && Served(t) == (if ok then Some(v) else Served(s))
  {
    assert InstanceSafe(s, {}, |s.versions|);
    if f.prepare {
      AddTakesOver(s, v, f);
      TakeOverOutcome(Prepare(s, v), |s.versions|, f.commit, f.teardown);
    }
  }

  /** Whether a poll leaves an honest record: a guard on what it starts from and on
      which steps work. */
  predicate KeepsHonest(s: State, visit: Visit) {
    var f := visit.faults;
    if s.applied == visit.next then Honest(s)
    else if visit.next.None? then true
    else if s.applied.None? then (f.prepare && s.registered.None?) || Honest(s)
    else if !f.prepare then Honest(s)
    else Clears(s, f) && Works(f.commit) ==> s.slot.None? || f.teardown
  }

  /** What serves is what is recorded after a poll exactly when its guard holds. */
  lemma HonestIff(s: State, visit: Visit)
    requires Safe(s, {}) && SlotOnRecord(s)
    ensures Honest(Poll(s, visit)) <==> KeepsHonest(s, visit)
  {
    var f := visit.faults;
    if s.applied != visit.next {
      if visit.next.None? {
      } else if s.applied.None? {
        AddServes(s, visit.next.value, f);
      } else {
        SwapServes(s, visit.next.value, f);
        SwapOutcome(s, visit.next.value, f);
      }
    }
  }

  predicate KeepsFulfilled(s: State, visit: Visit) {
    var f := visit.faults;
    if s.applied == visit.next then Fulfilled(s)
    else if s.applied.None? then true
    else if visit.next.None? then Clears(s, f) && (s.slot.None? || f.teardown)
    else if !f.prepare then Fulfilled(s)
    else
      && Clears(s, f)
      && ((Works(f.commit) && (s.slot.None? || f.teardown))
          || (TakenBack(f.commit) && f.rebuild && Works(f.recommit)))
  }

  /** The ledger names only what is served after a poll exactly when its guard holds. */
  lemma FulfilledIff(s: State, visit: Visit)
    requires Safe(s, {}) && SlotOnRecord(s)
    ensures Fulfilled(Poll(s, visit)) <==> KeepsFulfilled(s, visit)
  {
    var f := visit.faults;
    if s.applied != visit.next && visit.next.Some? {
      if s.applied.None? {
        AddServes(s, visit.next.value, f);
      } else {
        SwapServes(s, visit.next.value, f);
        SwapOutcome(s, visit.next.value, f);
      }
    }
  }

  /** A late start keeps every record honest, and completes the one of its bot unless that
      is being retired. */
  lemma RecoverOutcome(s: State)
    requires Safe(s, {})
    ensures Honest(Recover(s)) <==> Honest(s)
    ensures Fulfilled(Recover(s)) <==> Fulfilled(s) || (Dormant(s) && !s.retiring)
    ensures Solo(Recover(s)) <==> Solo(s)
    ensures Leaked(Recover(s)) == Leaked(s) && Tidy(Recover(s)) == Tidy(s)
  {
    if Dormant(s) {
      var i := s.registered.value;
      assert s.running + {i} == {i};
      SoloGrows([{i}], s, Recover(s));
    }
  }

  lemma SlotKept(s: State, visit: Visit)
    requires Safe(s, {}) && SlotOnRecord(s)
    ensures SlotOnRecord(Poll(s, visit))
  {
    if s.applied != visit.next && visit.next.Some? {
      if s.applied.None? {
        AddServes(s, visit.next.value, visit.faults);
      } else {
        SwapOutcome(s, visit.next.value, visit.faults);
      }
    }
  }

  // ---- What becomes of every runtime ---------------------------------------

  /** Every prepared runtime is hosted or was let go of: none is kept by the handle of a
      bot that is gone, none was left behind by a teardown that threw. */
  predicate Tidy(s: State) {
    s.threw == {} && (s.slot.Some? ==> s.registered == s.slot)
  }

  /** Each runtime is hosted, or its handle is held by a bot that is gone, or it was
      released once, or its teardown ran once, throwing or not: exactly one of these. */
  lemma OneFate(s: State, i: Instance)
    requires Safe(s, {}) && Known(s, i)
    ensures Hosted(s, i) <==> s.slot == Some(i) && s.registered == Some(i)
    ensures s.slot == Some(i) ==> s.released[i] == 0 && s.torn[i] == 0
    ensures s.slot != Some(i) ==> s.released[i] + s.torn[i] == 1
    ensures i in s.threw ==> s.torn[i] == 1
    ensures Tidy(s) ==> (Hosted(s, i) || s.released[i] == 1 || (s.torn[i] == 1 && i !in s.threw))
  {
    assert InstanceSafe(s, {}, i);
  }

  lemma RestoreTidies(s: State, f: SwapFaults)
    requires Safe(s, {}) && s.applied.Some? && s.registered.None? && s.threw == {}
    ensures Tidy(Restore(s, f)) <==> s.slot.None? || (f.rebuild && Works(f.recommit) && f.reteardown)
  {
    assert InstanceSafe(s, {}, |s.versions|);
    if f.rebuild {
      PrepareSafe(s, s.applied.value);
      TakeOverThrows(Prepare(s, s.applied.value), |s.versions|, f.recommit, f.reteardown);
      TakeOverOutcome(Prepare(s, s.applied.value), |s.versions|, f.recommit, f.reteardown);
    }
  }

  lemma TakeOverThrows(s: State, i: Instance, f: CommitFaults, teardown: bool)
    requires Safe(s, {i})
    ensures CommitAndTakeOver(s, i, f, teardown).0.threw ==
      s.threw + if s.registered.None? && Works(f) && s.slot.Some? && !teardown then {s.slot.value} else {}
  {
    assert InstanceSafe(s, {i}, i);
    HotAddOutcome(s, i, f);
  }

  lemma ExchangeTidies(s: State, p: Instance, f: SwapFaults)
    requires Safe(s, {p}) && s.applied.Some? && s.registered.None? && s.threw == {}
    ensures Tidy(Exchange(s, p, f).0) <==>
      s.slot.None?
      || (Works(f.commit) && f.teardown)
      || (TakenBack(f.commit) && f.rebuild && Works(f.recommit) && f.reteardown)
  {
    assert InstanceSafe(s, {p}, p);
    TakeOverOutcome(s, p, f.commit, f.teardown);
    TakeOverThrows(s, p, f.commit, f.teardown);
    TakeOverSafe(s, p, f.commit, f.teardown);
    var (a, ok) := CommitAndTakeOver(s, p, f.commit, f.teardown);
    if !ok && a.registered.None? {
      RestoreTidies(a, f);
    } else if !ok && f.rebuild {
      PrepareSafe(a, a.applied.value);
      TakeOverOutcome(Prepare(a, a.applied.value), |a.versions|, f.recommit, f.reteardown);
    }
  }

  /** Whether a poll that starts with no teardown having thrown leaves everything tidy. */
  predicate KeepsTidy(s: State, visit: Visit) {
    var f := visit.faults;
    if s.applied == visit.next then Tidy(s)
    else if visit.next.None? then
      s.slot.None? || (if Clears(s, f) then f.teardown else f.retire.Quarantined? && Tidy(s))
    else if s.applied.None? then true
    else if !f.prepare then Tidy(s)
    else
      || s.slot.None?
      || (if !Clears(s, f) then f.retire.Quarantined? && Tidy(s)
          else (Works(f.commit) && f.teardown)
               || (TakenBack(f.commit) && f.rebuild && Works(f.recommit) && f.reteardown))
  }

  lemma AddTidies(s: State, v: nat, f: SwapFaults)
    requires Safe(s, {}) && s.slot.None? && s.threw == {}
    ensures Tidy(AddBotLive(s, v, f).0)
  {
    if f.prepare {
      AddTakesOver(s, v, f);
      TakeOverThrows(Prepare(s, v), |s.versions|, f.commit, f.teardown);
      TakeOverOutcome(Prepare(s, v), |s.versions|, f.commit, f.teardown);
    }
  }

  lemma SwapTidies(s: State, v: nat, f: SwapFaults)
    requires Safe(s, {}) && s.applied.Some? && s.applied != Some(v) && s.threw == {}
    ensures Tidy(SwapBotLive(s, v, f).0) <==> KeepsTidy(s, Visit(Some(v), f))
  {
    if f.prepare {
      PrepareSafe(s, v);
      RemoveSafe(Prepare(s, v), f.retire, {|s.versions|});
      var (a, gone) := Remove(Prepare(s, v), f.retire);
      if gone {
        ExchangeTidies(a, |s.versions|, f);
      }
    }
  }

  /** After a poll every runtime is hosted or let go of exactly when its guard holds and
      no earlier teardown threw. */
  lemma TidyIff(s: State, visit: Visit)
    requires Safe(s, {}) && SlotOnRecord(s)
    ensures Tidy(Poll(s, visit)) <==> s.threw == {} && KeepsTidy(s, visit)
  {
    ThrewGrows(s, visit);
    var f := visit.faults;
    if s.threw == {} && s.applied != visit.next && visit.next.Some? {
      if s.applied.None? {
        AddTidies(s, visit.next.value, f);
      } else {
        SwapTidies(s, visit.next.value, f);
      }
    }
  }

  lemma ExchangeThrows(s: State, p: Instance, f: SwapFaults)
    requires Safe(s, {p})
    ensures s.threw <= Exchange(s, p, f).0.threw
  {
    TakeOverThrows(s, p, f.commit, f.teardown);
    TakeOverSafe(s, p, f.commit, f.teardown);
    var (a, ok) := CommitAndTakeOver(s, p, f.commit, f.teardown);
    if !ok && a.applied.Some? && f.rebuild {
      PrepareSafe(a, a.applied.value);
      TakeOverThrows(Prepare(a, a.applied.value), |a.versions|, f.recommit, f.reteardown);
    }
  }

  lemma AddThrows(s: State, v: nat, f: SwapFaults)
    requires Safe(s, {}) && s.slot.None?
    ensures s.threw <= AddBotLive(s, v, f).0.threw
  {
    if f.prepare {
      AddTakesOver(s, v, f);
      TakeOverThrows(Prepare(s, v), |s.versions|, f.commit, f.teardown);
    }
  }

  lemma SwapThrows(s: State, v: nat, f: SwapFaults)
    requires Safe(s, {})
    ensures s.threw <= SwapBotLive(s, v, f).0.threw
  {
    if f.prepare {
      PrepareSafe(s, v);
      RemoveSafe(Prepare(s, v), f.retire, {|s.versions|});
      var (a, gone) := Remove(Prepare(s, v), f.retire);
      if gone {
        ExchangeThrows(a, |s.versions|, f);
      }
    }
  }

  /** A teardown that threw is never undone. */
  lemma ThrewGrows(s: State, visit: Visit)
    requires Safe(s, {}) && SlotOnRecord(s)
    ensures s.threw <= Poll(s, visit).threw
  {
    if s.applied != visit.next && visit.next.Some? {
      if s.applied.None? {
        AddThrows(s, visit.next.value, visit.faults);
      } else {
        SwapThrows(s, visit.next.value, visit.faults);
      }
    }
  }

  // ---- What stays registered -----------------------------------------------

  /** App-level registrations no handle can undo any more. */
  function Stray(s: State): set<Instance> {
    s.wired - if s.slot.Some? then {s.slot.value} else {}
  }

  /** A commit on this state leaves some: an undo or the displaced teardown fails. */
  predicate CommitStrays(s: State, f: CommitFaults, teardown: bool) {
    s.registered.None? && (StaysWired(f) || (Works(f) && s.slot.Some? && !teardown))
  }

  lemma RolledBackStrays(s: State, i: Instance, f: CommitFaults, teardown: bool)
    requires Safe(s, {i}) && s.registered.None? && !Works(f)
    ensures Stray(CommitAndTakeOver(s, i, f, teardown).0) == Stray(s) + if StaysWired(f) then {i} else {}
  {
    assert InstanceSafe(s, {i}, i);
    TakeOverTearsDown(s, i, f, teardown);
  }

  lemma TakenOverStrays(s: State, i: Instance, f: CommitFaults, teardown: bool)
    requires Safe(s, {i}) && s.registered.None? && Works(f)
    ensures Stray(CommitAndTakeOver(s, i, f, teardown).0) ==
      Stray(s) + if s.slot.Some? && !teardown then {s.slot.value} else {}
  {
    assert InstanceSafe(s, {i}, i);
    TakeOverTearsDown(s, i, f, teardown);
    if s.slot.Some? {
      assert InstanceSafe(s, {i}, s.slot.value);
    }
  }

  lemma TakeOverStrays(s: State, i: Instance, f: CommitFaults, teardown: bool)
    requires Safe(s, {i})
    ensures Stray(CommitAndTakeOver(s, i, f, teardown).0) == {} <==> Stray(s) == {} && !CommitStrays(s, f, teardown)
  {
    if s.registered.Some? {
      assert CommitAndTakeOver(s, i, f, teardown).0 == Release(s, i);
    } else if Works(f) {
      TakenOverStrays(s, i, f, teardown);
    } else {
      RolledBackStrays(s, i, f, teardown);
    }
  }

  lemma RestoreStrays(s: State, f: SwapFaults)
    requires Safe(s, {}) && s.applied.Some?
    ensures Stray(Restore(s, f)) == {} <==>
      Stray(s) == {} && !(f.rebuild && CommitStrays(s, f.recommit, f.reteardown))
  {
    if f.rebuild {
      PrepareSafe(s, s.applied.value);
      TakeOverStrays(Prepare(s, s.applied.value), |s.versions|, f.recommit, f.reteardown);
    }
  }

  lemma ExchangeStrays(s: State, p: Instance, f: SwapFaults)
    requires Safe(s, {p}) && s.applied.Some? && s.registered.None?
    ensures Stray(Exchange(s, p, f).0) == {} <==>
      && Stray(s) == {} && !CommitStrays(s, f.commit, f.teardown)
      && !(TakenBack(f.commit) && f.rebuild && CommitStrays(s, f.recommit, f.reteardown))
  {
    TakeOverStrays(s, p, f.commit, f.teardown);
    TakeOverOutcome(s, p, f.commit, f.teardown);
    TakeOverSafe(s, p, f.commit, f.teardown);
    var (a, ok) := CommitAndTakeOver(s, p, f.commit, f.teardown);
    if !ok {
      RestoreStrays(a, f);
    }
  }

  /** Whether a poll leaves registrations behind: a reached undo or teardown fails. */
  predicate Litters(s: State, visit: Visit) {
    var f := visit.faults;
    && s.applied != visit.next
    && if visit.next.None? then Clears(s, f) && s.slot.Some? && !f.teardown
       else if s.applied.None? then f.prepare && s.registered.None? && StaysWired(f.commit)
       else f.prepare && Clears(s, f)
            && (StaysWired(f.commit) || (Works(f.commit) && s.slot.Some? && !f.teardown)
                || (TakenBack(f.commit) && f.rebuild
                    && (StaysWired(f.recommit) || (Works(f.recommit) && s.slot.Some? && !f.reteardown))))
  }

  lemma SwapStrays(s: State, v: nat, f: SwapFaults)
    requires Safe(s, {}) && s.applied.Some? && s.applied != Some(v)
    ensures Stray(SwapBotLive(s, v, f).0) == {} <==> Stray(s) == {} && !Litters(s, Visit(Some(v), f))
  {
    if f.prepare && Clears(s, f) {
      var a := Remove(Prepare(s, v), f.retire).0;
      Vacated(s, v, f);
      assert Stray(a) == Stray(s);
      ExchangeStrays(a, |s.versions|, f);
    }
  }

  /** What is wired is the bot whose handle is held, and nothing else, after a poll exactly
      when it was before and no reached undo or teardown fails. */
  lemma StrayIff(s: State, visit: Visit)
    requires Safe(s, {}) && SlotOnRecord(s)
    ensures Stray(Poll(s, visit)) == {} <==> Stray(s) == {} && !Litters(s, visit)
  {
    var f := visit.faults;
    if s.applied != visit.next {
      if visit.next.None? {
        RetireOutcome(s, f);
        if s.slot.Some? {
          assert InstanceSafe(s, {}, s.slot.value);
          assert !f.teardown ==> s.slot.value in s.wired;
        }
      } else if s.applied.Some? {
        SwapStrays(s, visit.next.value, f);
      } else if f.prepare {
        AddTakesOver(s, visit.next.value, f);
        TakeOverStrays(Prepare(s, visit.next.value), |s.versions|, f.commit, f.teardown);
      }
    }
  }

  lemma PollKeepsReleased(s: State, visit: Visit, i: Instance)
    requires Safe(s, {}) && SlotOnRecord(s) && Known(s, i)
    ensures Poll(s, visit).released[i] == s.released[i] && Known(Poll(s, visit), i)
  {
    var f := visit.faults;
    if s.applied != visit.next {
      if visit.next.None? {
        RetireOutcome(s, f);
      } else if s.applied.Some? {
        SwapKeepsReleased(s, visit.next.value, f, i);
      } else if f.prepare {
        AddTakesOver(s, visit.next.value, f);
        TakeOverOutcome(Prepare(s, visit.next.value), |s.versions|, f.commit, f.teardown);
      }
    }
  }

  lemma FateIsOne(s: State, i: Instance)
    requires Safe(s, {}) && Known(s, i)
    ensures Fate(s, i) == 1
  {
    assert InstanceSafe(s, {}, i);
  }

  /** A poll releases no instance but those it prepared: what it found hosted is only ever
      let go of by running its handle. */
  lemma OldOnesAreTornDown(s: State, visit: Visit, i: Instance)
    requires Safe(s, {}) && SlotOnRecord(s) && Known(s, i)
    ensures var t := Poll(s, visit);
      && t.released[i] == s.released[i]
      && t.torn[i] + (if t.slot == Some(i) then 1 else 0) == s.torn[i] + if s.slot == Some(i) then 1 else 0
  {
    PollKeepsReleased(s, visit, i);
    PollSafe(s, visit);
    FateIsOne(s, i);
    FateIsOne(Poll(s, visit), i);
  }

  lemma SwapKeepsReleased(s: State, v: nat, f: SwapFaults, i: Instance)
    requires Safe(s, {}) && s.applied.Some? && Known(s, i)
    ensures SwapBotLive(s, v, f).0.released[i] == s.released[i]
    ensures Known(SwapBotLive(s, v, f).0, i)
  {
    if f.prepare && Clears(s, f) {
      Vacated(s, v, f);
      ExchangeKeepsReleased(Remove(Prepare(s, v), f.retire).0, |s.versions|, f, i);
    }
  }

  lemma ExchangeKeepsReleased(s: State, p: Instance, f: SwapFaults, i: Instance)
    requires Safe(s, {p}) && s.applied.Some? && s.registered.None? && Known(s, i) && i != p
    ensures Exchange(s, p, f).0.released[i] == s.released[i] && Known(Exchange(s, p, f).0, i)
  {
    TakeOverOutcome(s, p, f.commit, f.teardown);
    TakeOverSafe(s, p, f.commit, f.teardown);
    var (a, ok) := CommitAndTakeOver(s, p, f.commit, f.teardown);
    if !ok {
      RestoreKeeps(a, f, i);
      RestoreOutcome(a, f);
    }
  }

  // ---- Two transports at once ----------------------------------------------

  ghost predicate AtMostOne(m: set<Instance>) {
    forall i, j :: i in m && j in m ==> i == j
  }

  /** Never two transports up, at any step so far. */
  ghost predicate Solo(s: State) {
    forall m | m in s.moments :: AtMostOne(m)
  }

  lemma SoloGrows(a: seq<set<Instance>>, s: State, t: State)
    requires t.moments == s.moments + a
    ensures Solo(t) <==> Solo(s) && forall m | m in a :: AtMostOne(m)
  {
    forall m | m in a ensures m in t.moments {
      var k :| 0 <= k < |a| && a[k] == m;
      assert t.moments[|s.moments| + k] == m;
    }
    forall m | m in s.moments ensures m in t.moments {
      var k :| 0 <= k < |s.moments| && s.moments[k] == m;
      assert t.moments[k] == m;
    }
  }

  /** What a hot-add adds to the history. */
  function Steps(s: State, i: Instance, f: CommitFaults): seq<set<Instance>> {
    if s.registered.Some? || !f.register then []
    else
      (if Begins(f) then [s.running + {i}] else [])
      + if Works(f) || f.deregister.Quarantined? then []
        else [s.running + if Leaks(f) then {i} else {}]
  }

  lemma TakeOverSteps(s: State, i: Instance, f: CommitFaults, teardown: bool)
    requires Safe(s, {i})
    ensures CommitAndTakeOver(s, i, f, teardown).0.moments == s.moments + Steps(s, i, f)
  {
    assert InstanceSafe(s, {i}, i);
    HotAddOutcome(s, i, f);
    assert s.moments + [] == s.moments;
  }

  /** A second transport comes up exactly when one starts while another is running. */
  lemma TakeOverSolo(s: State, i: Instance, f: CommitFaults, teardown: bool)
    requires Safe(s, {i})
    ensures Solo(CommitAndTakeOver(s, i, f, teardown).0)
      <==> Solo(s) && (s.registered.None? && Begins(f) ==> s.running == {})
  {
    assert InstanceSafe(s, {i}, i);
    TakeOverSteps(s, i, f, teardown);
    var added := Steps(s, i, f);
    SoloGrows(added, s, CommitAndTakeOver(s, i, f, teardown).0);
    if s.registered.None? && Begins(f) {
      assert added[0] == s.running + {i};
      if s.running != {} {
        var k :| k in s.running;
        assert k in s.running + {i} && i in s.running + {i};
        assert !AtMostOne(added[0]);
      }
    }
  }

  lemma RestoreSolo(s: State, f: SwapFaults)
    requires Safe(s, {}) && s.applied.Some?
    ensures Solo(Restore(s, f))
      <==> Solo(s) && (f.rebuild && s.registered.None? && Begins(f.recommit) ==> s.running == {})
  {
    if f.rebuild {
      PrepareSafe(s, s.applied.value);
      TakeOverSolo(Prepare(s, s.applied.value), |s.versions|, f.recommit, f.reteardown);
    }
  }

  lemma ExchangeSolo(s: State, p: Instance, f: SwapFaults)
    requires Safe(s, {p}) && s.applied.Some? && s.registered.None?
    ensures Solo(Exchange(s, p, f).0) <==>
      && Solo(s)
      && (Begins(f.commit) ==> s.running == {})
      && (TakenBack(f.commit) && f.rebuild && Begins(f.recommit) ==> s.running == {} && !Leaks(f.commit))
  {
    assert InstanceSafe(s, {p}, p);
    TakeOverSolo(s, p, f.commit, f.teardown);
    TakeOverOutcome(s, p, f.commit, f.teardown);
    TakeOverSafe(s, p, f.commit, f.teardown);
    var (a, ok) := CommitAndTakeOver(s, p, f.commit, f.teardown);
    if !ok {
      RestoreSolo(a, f);
    }
  }

  /** Whether a poll brings a second transport up: one is started while one that an
      earlier `stop()` left behind is up. */
  predicate Overlaps(s: State, visit: Visit) {
    var f, left := visit.faults, Leaked(s) != {};
    && s.applied != visit.next && visit.next.Some? && f.prepare
    && if s.applied.None? then s.registered.None? && Begins(f.commit) && left
       else Clears(s, f)
            && ((Begins(f.commit) && left)
                || (TakenBack(f.commit) && f.rebuild && Begins(f.recommit) && (left || Leaks(f.commit))))
  }

  lemma RemoveSolo(s: State, how: Removal, ready: set<Instance>)
    requires Safe(s, ready)
    ensures Solo(Remove(s, how).0) <==> Solo(s)
    ensures s.registered.None? || how.Removed? ==> Remove(s, how).0.running == Leaked(s)
  {
    var t := Remove(s, how).0;
    assert s.registered.None? || how.Quarantined? ==> t.moments == s.moments + [];
    SoloGrows(if s.registered.None? || how.Quarantined? then [] else [t.running], s, t);
    assert t.running <= s.running;
  }

  lemma SwapSolo(s: State, v: nat, f: SwapFaults)
    requires Safe(s, {}) && s.applied.Some? && s.applied != Some(v)
    ensures Solo(SwapBotLive(s, v, f).0) <==> Solo(s) && !Overlaps(s, Visit(Some(v), f))
  {
    if f.prepare {
      PrepareSafe(s, v);
      RemoveSafe(Prepare(s, v), f.retire, {|s.versions|});
      RemoveSolo(Prepare(s, v), f.retire, {|s.versions|});
      var (a, gone) := Remove(Prepare(s, v), f.retire);
      if gone {
        ExchangeSolo(a, |s.versions|, f);
      }
    }
  }

  lemma AddSolo(s: State, v: nat, f: SwapFaults)
    requires Safe(s, {}) && s.slot.None?
    ensures Solo(AddBotLive(s, v, f).0)
      <==> Solo(s) && !(f.prepare && s.registered.None? && Begins(f.commit) && Leaked(s) != {})
  {
    if f.prepare {
      AddTakesOver(s, v, f);
      TakeOverSolo(Prepare(s, v), |s.versions|, f.commit, f.teardown);
    }
  }

  /** A poll brings two transports up at once exactly when its guard fails. */
  lemma OverlapIff(s: State, visit: Visit)
    requires Safe(s, {}) && SlotOnRecord(s)
    ensures Solo(Poll(s, visit)) <==> Solo(s) && !Overlaps(s, visit)
  {
    if s.applied != visit.next {
      if visit.next.None? {
        RemoveSolo(s, visit.faults.retire, {});
      } else if s.applied.None? {
        AddSolo(s, visit.next.value, visit.faults);
      } else {
        SwapSolo(s, visit.next.value, visit.faults);
      }
    }
  }

  /** Whether a poll leaves a transport up that nothing refers to. */
  predicate Abandons(s: State, visit: Visit) {
    var f := visit.faults;
    var stops := s.registered.Some? && s.registered.value in s.running && f.retire == StopThrew(true);
    && s.applied != visit.next
    && if visit.next.None? then stops
       else if s.applied.None? then f.prepare && s.registered.None? && Leaks(f.commit)
       else f.prepare
            && (stops
                || (Clears(s, f) && (Leaks(f.commit) || (TakenBack(f.commit) && f.rebuild && Leaks(f.recommit)))))
  }

  lemma TakeOverLeaks(s: State, i: Instance, f: CommitFaults, teardown: bool)
    requires Safe(s, {i})
    ensures Leaked(CommitAndTakeOver(s, i, f, teardown).0) ==
      Leaked(s) + if s.registered.None? && Leaks(f) then {i} else {}
  {
    assert InstanceSafe(s, {i}, i);
    TakeOverOutcome(s, i, f, teardown);
  }

  lemma RestoreLeaks(s: State, f: SwapFaults)
    requires Safe(s, {}) && s.applied.Some?
    ensures Leaked(Restore(s, f)) ==
      Leaked(s) + if s.registered.None? && f.rebuild && Leaks(f.recommit) then {|s.versions|} else {}
  {
    if f.rebuild {
      PrepareSafe(s, s.applied.value);
      TakeOverLeaks(Prepare(s, s.applied.value), |s.versions|, f.recommit, f.reteardown);
    }
  }

  lemma ExchangeLeaks(s: State, p: Instance, f: SwapFaults)
    requires Safe(s, {p}) && s.applied.Some? && s.registered.None?
    ensures Leaked(Exchange(s, p, f).0) == {} <==>
      s.running == {} && !Leaks(f.commit) && !(TakenBack(f.commit) && f.rebuild && Leaks(f.recommit))
  {
    TakeOverLeaks(s, p, f.commit, f.teardown);
    TakeOverOutcome(s, p, f.commit, f.teardown);
    TakeOverSafe(s, p, f.commit, f.teardown);
    var (a, ok) := CommitAndTakeOver(s, p, f.commit, f.teardown);
    assert Leaked(s) == s.running;
    if !ok {
      RestoreLeaks(a, f);
    }
  }

  lemma SwapLeaks(s: State, v: nat, f: SwapFaults)
    requires Safe(s, {}) && s.applied.Some? && s.applied != Some(v)
    ensures Leaked(SwapBotLive(s, v, f).0) == {} <==> Leaked(s) == {} && !Abandons(s, Visit(Some(v), f))
  {
    if f.prepare {
      PrepareSafe(s, v);
      RemoveSafe(Prepare(s, v), f.retire, {|s.versions|});
      var (a, gone) := Remove(Prepare(s, v), f.retire);
      if gone {
        assert a.running == Leaked(s);
        ExchangeLeaks(a, |s.versions|, f);
      } else {
        RemoveLeaks(Prepare(s, v), f.retire);
      }
    }
  }

  lemma RemoveLeaks(s: State, how: Removal)
    ensures Leaked(Remove(s, how).0) ==
      Leaked(s) + if how == StopThrew(true) then Entry(s) * s.running else {}
  {
  }

  /** Nothing is left up unreferred to exactly when nothing was and the guard fails. */
  lemma LeakIff(s: State, visit: Visit)
    requires Safe(s, {}) && SlotOnRecord(s)
    ensures Leaked(Poll(s, visit)) == {} <==> Leaked(s) == {} && !Abandons(s, visit)
  {
    var f := visit.faults;
    if s.applied != visit.next {
      if visit.next.None? {
        RemoveLeaks(s, f.retire);
      } else if s.applied.Some? {
        SwapLeaks(s, visit.next.value, f);
      } else if f.prepare {
        AddTakesOver(s, visit.next.value, f);
        TakeOverLeaks(Prepare(s, visit.next.value), |s.versions|, f.commit, f.teardown);
      }
    }
  }

  // ---- Whole runs ----------------------------------------------------------

  lemma RecoverSafe(s: State)
    requires Safe(s, {}) && SlotOnRecord(s)
    ensures Safe(Recover(s), {}) && SlotOnRecord(Recover(s))
  {
    var t := Recover(s);
    forall i: Instance ensures InstanceSafe(t, {}, i) {
      assert InstanceSafe(s, {}, i);
    }
    if Dormant(s) {
      assert t.moments[|s.moments|] == t.running;
    }
  }

  lemma BootSafe(version: Option<nat>, up: bool)
    ensures var s := Boot(version, up);
      Safe(s, {}) && SlotOnRecord(s) && Solo(s) && Leaked(s) == {} && Stray(s) == {} && Tidy(s) && Honest(s)
    ensures Fulfilled(Boot(version, up)) <==> version.None? || up
  {
    var s := Boot(version, up);
    forall i: Instance ensures InstanceSafe(s, {}, i) {
    }
    if s != START && up {
      assert s.moments[0] == s.running;
    }
  }

  lemma {:induction false} RunSafe(boot: State, events: seq<Happening>)
    requires Safe(boot, {}) && SlotOnRecord(boot)
    ensures Safe(Run(boot, events), {}) && SlotOnRecord(Run(boot, events))
  {
    if events != [] {
      var before, last := Run(boot, events[..|events| - 1]), events[|events| - 1];
      RunSafe(boot, events[..|events| - 1]);
      if last.Polled? {
        PollSafe(before, last.visit);
        SlotKept(before, last.visit);
      } else {
        RecoverSafe(before);
      }
    }
  }

  /** No poll of a run starts a transport while another was left behind. */
  predicate NoneOverlaps(boot: State, events: seq<Happening>) {
    events == []
    || (var n := |events| - 1;
        NoneOverlaps(boot, events[..n])
        && (events[n].Polled? ==> !Overlaps(Run(boot, events[..n]), events[n].visit)))
  }

  /** Over any run from any cold boot, late starts included: never two transports up, at
      any step, exactly under that guard. */
  lemma {:induction false} RunSoloIff(version: Option<nat>, up: bool, events: seq<Happening>)
    ensures Solo(Run(Boot(version, up), events)) <==> NoneOverlaps(Boot(version, up), events)
  {
    var boot := Boot(version, up);
    BootSafe(version, up);
    if events != [] {
      var n := |events| - 1;
      RunSafe(boot, events[..n]);
      RunSoloIff(version, up, events[..n]);
      if events[n].Polled? {
        OverlapIff(Run(boot, events[..n]), events[n].visit);
      } else {
        RecoverOutcome(Run(boot, events[..n]));
      }
    }
  }

  /** None of the steps of a poll is a `stop()` that throws and leaves its transport up. */
  predicate StopsClean(f: SwapFaults) {
    f.retire != StopThrew(true) && f.commit.deregister != StopThrew(true) && f.recommit.deregister != StopThrew(true)
  }

  /** So two transports take a `stop()` that threw. */
  lemma {:induction false} CleanStopsNeverOverlap(version: Option<nat>, up: bool, events: seq<Happening>)
    requires forall e | e in events && e.Polled? :: StopsClean(e.visit.faults)
    ensures var s := Run(Boot(version, up), events); Leaked(s) == {} && Solo(s) && AtMostOne(s.running)
  {
    var boot := Boot(version, up);
    BootSafe(version, up);
    if events != [] {
      var n := |events| - 1;
      RunSafe(boot, events[..n]);
      CleanStopsNeverOverlap(version, up, events[..n]);
      if events[n].Polled? {
        LeakIff(Run(boot, events[..n]), events[n].visit);
        OverlapIff(Run(boot, events[..n]), events[n].visit);
      } else {
        RecoverOutcome(Run(boot, events[..n]));
      }
    }
    assert Run(boot, events).running <= Entry(Run(boot, events));
  }

  /** With no outgoing teardown failing, what serves is what is recorded, throughout. */
  lemma {:induction false} HonestThroughout(version: Option<nat>, up: bool, events: seq<Happening>)
    requires forall e | e in events && e.Polled? :: e.visit.faults.teardown
    ensures Honest(Run(Boot(version, up), events))
  {
    var boot := Boot(version, up);
    BootSafe(version, up);
    if events != [] {
      var n := |events| - 1;
      RunSafe(boot, events[..n]);
      HonestThroughout(version, up, events[..n]);
      if events[n].Polled? {
        HonestIff(Run(boot, events[..n]), events[n].visit);
      } else {
        RecoverOutcome(Run(boot, events[..n]));
      }
    }
  }

  predicate UndosWork(f: SwapFaults) {
    f.commit.undo && f.recommit.undo && f.teardown && f.reteardown
  }

  /** With every undo and teardown working, nothing is registered, throughout, but the bot
      whose handle is held. */
  lemma {:induction false} NothingStaysWired(version: Option<nat>, up: bool, events: seq<Happening>)
    requires forall e | e in events && e.Polled? :: UndosWork(e.visit.faults)
    ensures Stray(Run(Boot(version, up), events)) == {}
  {
    var boot := Boot(version, up);
    BootSafe(version, up);
    if events != [] {
      var n := |events| - 1;
      RunSafe(boot, events[..n]);
      NothingStaysWired(version, up, events[..n]);
      if events[n].Polled? {
        StrayIff(Run(boot, events[..n]), events[n].visit);
      }
    }
  }

  // ---- Runs that go wrong --------------------------------------------------

  const SMOOTH := CommitFaults(true, true, Started, true, Removed)

  const REFUSED := CommitFaults(true, true, NeverStarted, true, Removed)

  const STUCK := CommitFaults(true, true, StartedThenThrew, true, Quarantined)

  const FINE := SwapFaults(true, Removed, SMOOTH, true, true, SMOOTH, true)

  /** The state of a process serving version 1. */
  function Serving(): State {
    Boot(Some(1), true)
  }

  /** A retirement refused because the bot is busy, and the old file put back: the bot is
      registered, running and wired, its version is on record and no retry is owed,
      whatever steps would work, and it drops everything it is sent. */
  lemma RefusedThenReverted(f: SwapFaults)
    ensures var s := Poll(Serving(), Visit(Some(2), FINE.(retire := Quarantined)));
      && Hosted(s, 0) && s.running == {0} && s.applied == Some(1)
      && s.retiring && Served(s) == None && !Fulfilled(s)
      && Poll(s, Visit(Some(1), f)) == s
  {
  }

  /** A failed replacement whose rebuild fails too leaves the ledger naming a bot that is
      not running, its teardown handle still held; putting the old file back then owes
      no retry, whatever steps would work. */
  lemma StaleAfterRevert(f: SwapFaults)
    ensures var s := Poll(Serving(), Visit(Some(2), FINE.(commit := REFUSED, recommit := REFUSED)));
      && s.applied == Some(1) && s.registered.None? && s.running == {} && s.slot == Some(0)
      && !Fulfilled(s) && !Tidy(s)
      && Poll(s, Visit(Some(1), f)) == s
  {
  }

  /** A replacement that is live although the swap threw: the outgoing teardown failed,
      the ledger keeps the old version and its runtime is left behind. */
  lemma LiveYetThrew()
    ensures var f := FINE.(teardown := false);
      var (t, ok) := SwapBotLive(Serving(), 2, f);
      && !ok && Live(t, 1) && Served(t) == Some(2) && 0 in t.threw
      && Poll(Serving(), Visit(Some(2), f)) == t && t.applied == Some(1) && !Honest(t)
  {
  }

  /** A removal whose teardown throws is not recorded, though nothing runs. */
  lemma RemovedYetRecorded()
    ensures var s := Poll(Serving(), Visit(None, FINE.(teardown := false)));
      s.applied == Some(1) && s.registered.None? && s.running == {} && s.threw == {0}
  {
  }

  /** A `stop()` that threw with its transport still up, and the next version beside it. */
  lemma Overlap()
    ensures var stopThrew := Visit(None, FINE.(retire := StopThrew(true)));
      var s := Poll(Poll(Serving(), stopThrew), Visit(Some(2), FINE));
      s.running == {0, 1} && !Solo(s)
  {
    var s := Poll(Serving(), Visit(None, FINE.(retire := StopThrew(true))));
    assert s == Serving().(registered := None, moments := [{0}, {0}]);
    var t := Poll(s, Visit(Some(2), FINE));
    assert t.running == {0, 1};
    assert t.moments[|t.moments| - 1] == t.running;
    assert 0 in t.running && 1 in t.running && !AtMostOne(t.running);
  }

  /** A half-started instance holds the key and is being retired, and the ledger knows of
      nothing. */
  predicate Stranded(s: State) {
    s.applied.None? && s.registered == Some(0) && s.running == {0} && s.slot.None? && s.retiring
  }

  lemma StrandedStays(s: State, e: Happening)
    requires Stranded(s)
    ensures Stranded(After(s, e))
  {
  }

  /** A hot-add whose transport came up, whose start was then reported as failed and
      whose retirement was refused holds the key through anything that happens later:
      nothing answers under it and nothing can be added. */
  lemma {:induction false} StrandedAddition(later: seq<Happening>)
    ensures var s := Run(START, [Polled(Visit(Some(1), FINE.(commit := STUCK)))] + later);
      Stranded(s) && Served(s) == None
  {
    var events := [Polled(Visit(Some(1), FINE.(commit := STUCK)))] + later;
    var n := |events| - 1;
    if later == [] {
      assert events[..n] == [];
      assert Stranded(Poll(START, events[0].visit));
    } else {
      assert events[..n] == [Polled(Visit(Some(1), FINE.(commit := STUCK)))] + later[..n - 1];
      StrandedAddition(later[..n - 1]);
      StrandedStays(Run(START, events[..n]), events[n]);
    }
  }

  // ---- The host in place ---------------------------------------------------

  class BotHost {
    var registered: Option<Instance>
    var running: set<Instance>
    var wired: set<Instance>
    var slot: Option<Instance>
    var retiring: bool
    var versions: seq<nat>
    var applied: Option<nat>
    ghost var released: multiset<Instance>
    ghost var torn: multiset<Instance>
    ghost var threw: set<Instance>
    ghost var moments: seq<set<Instance>>

    ghost function Contents(): State
      reads this
    {
      State(registered, running, wired, slot, retiring, versions, released, torn, threw, applied, moments)
    }

    /** A cold boot, with or without the bot, whose transport starts or does not. */
    constructor (version: Option<nat>, up: bool)
      ensures Contents() == Boot(version, up)
    {
      registered, running, wired, slot, retiring := None, {}, {}, None, false;
      versions, applied := [], None;
      released, torn, threw, moments := multiset{}, multiset{}, {}, [];
      if version.Some? {
        registered, wired, slot, versions, applied := Some(0), {0}, Some(0), [version.value], version;
        if up {
          running, moments := {0}, [{0}];
        }
      }
    }

    /** The background retry of a cold-booted transport comes through. */
    method RetryStart()
      modifies this
      ensures Contents() == Recover(old(Contents()))
    {
      if registered.Some? && slot == registered && registered.value !in running {
        running := running + {registered.value};
        moments := moments + [running];
      }
    }

    /** The key admits nothing new from here on; a busy bot is left like that, an idle one
        is deregistered, and then stopped. */
    method RemoveAdapter(how: Removal) returns (ok: bool)
      modifies this
      ensures (Contents(), ok) == Remove(old(Contents()), how)
    {
      if registered.None? {
        return true;
      }
      retiring := true;
      if how.Quarantined? {
        return false;
      }
      retiring := false;
      var i := registered.value;
      registered := None;
      if how != StopThrew(true) {
        running := running - {i};
      }
      moments := moments + [running];
      ok := how.Removed?;
    }

    /** The undos, in reverse order, each guarded on its own. */
    method Undo(i: Instance, f: CommitFaults)
      modifies this
      ensures Contents() == RollBack(old(Contents()), i, f)
    {
      if f.wire && f.undo {
        wired := wired - {i};
      }
      var removed := RemoveAdapter(f.deregister);
      released := released + multiset{i};
    }

    method HotAdd(i: Instance, f: CommitFaults) returns (ok: bool)
      modifies this
      ensures (Contents(), ok) == CommitHotAdd(old(Contents()), i, f)
    {
      if registered.Some? || !f.register {
        released := released + multiset{i};
        return false;
      }
      registered := Some(i);
      if !f.wire {
        Undo(i, f);
        return false;
      }
      wired := wired + {i};
      if !f.start.NeverStarted? {
        running := running + {i};
        moments := moments + [running];
      }
      if !f.start.Started? {
        Undo(i, f);
        return false;
      }
      return true;
    }

    /** The slot is taken before the displaced handle runs. */
    method TakeSlot(i: Instance, teardown: bool) returns (ok: bool)
      modifies this
      ensures (Contents(), ok) == ReplaceWiring(old(Contents()), i, teardown)
    {
      var outgoing := slot;
      slot := Some(i);
      if outgoing.None? {
        return true;
      }
      RunTeardown(outgoing.value, teardown);
      ok := teardown;
    }

    method RunTeardown(i: Instance, works: bool)
      modifies this
      ensures Contents() == TakeDown(old(Contents()), i, works)
    {
      torn := torn + multiset{i};
      if works {
        wired := wired - {i};
      } else {
        threw := threw + {i};
      }
    }

    method Commit(i: Instance, f: CommitFaults, teardown: bool) returns (ok: bool)
      modifies this
      ensures (Contents(), ok) == CommitAndTakeOver(old(Contents()), i, f, teardown)
    {
      ok := HotAdd(i, f);
      if ok {
        ok := TakeSlot(i, teardown);
      }
    }

    method RebuildPrevious(f: SwapFaults)
      modifies this
      ensures Contents() == Restore(old(Contents()), f)
    {
      if applied.Some? && f.rebuild {
        var r := |versions|;
        versions := versions + [applied.value];
        var restored := Commit(r, f.recommit, f.reteardown);
      }
    }

    method Swap(v: nat, f: SwapFaults) returns (ok: bool)
      modifies this
      ensures (Contents(), ok) == SwapBotLive(old(Contents()), v, f)
    {
      if !f.prepare {
        return false;
      }
      var p := |versions|;
      versions := versions + [v];
      var gone := RemoveAdapter(f.retire);
      if !gone {
        released := released + multiset{p};
        return false;
      }
      ok := Commit(p, f.commit, f.teardown);
      if !ok {
        RebuildPrevious(f);
      }
    }

    method Add(v: nat, f: SwapFaults) returns (ok: bool)
      modifies this
      ensures (Contents(), ok) == AddBotLive(old(Contents()), v, f)
    {
      if !f.prepare {
        return false;
      }
      var p := |versions|;
      versions := versions + [v];
      ok := HotAdd(p, f.commit);
      if ok {
        slot := Some(p);
      }
    }

    method Retire(f: SwapFaults) returns (ok: bool)
      modifies this
      ensures (Contents(), ok) == RetireBotFully(old(Contents()), f)
    {
      ok := RemoveAdapter(f.retire);
      if ok && slot.Some? {
        var teardown := slot.value;
        slot := None;
        RunTeardown(teardown, f.teardown);
        ok := f.teardown;
      }
    }

    method PollOnce(visit: Visit)
      modifies this
      ensures Contents() == Poll(old(Contents()), visit)
    {
      if applied == visit.next {
        return;
      }
      var ok;
      if visit.next.None? {
        ok := Retire(visit.faults);
      } else if applied.None? {
        ok := Add(visit.next.value, visit.faults);
      } else {
        ok := Swap(visit.next.value, visit.faults);
      }
      if ok {
        applied := visit.next;
      }
    }

    method Happen(e: Happening)
      modifies this
      ensures Contents() == After(old(Contents()), e)
    {
      if e.Polled? {
        PollOnce(e.visit);
      } else {
        RetryStart();
      }
    }

    /** Anything that happens to a process that has just started. */
    method HappenAll(version: Option<nat>, up: bool, events: seq<Happening>)
      requires Contents() == Boot(version, up)
      modifies this
      ensures Contents() == Run(Boot(version, up), events)
    {
      for n := 0 to |events|
        invariant Contents() == Run(Boot(version, up), events[..n])
      {
        Happen(events[n]);
        RunStep(Boot(version, up), events, n);
      }
      assert events[..|events|] == events;
    }
  }
}

/** The record of what is actually running, the plan of what is still owed, and
    the reconcile pass that moves one towards the other. */
module ReloadLedger {
  import opened JsText
  import opened CanonicalJson
  import opened ConfigUnits

  datatype Kind = BotUnit | WebhookUnit

  /** The name `kind:id` a slice is filed under; no kind name contains a colon, so
      the pair and the text determine each other. */
  datatype SliceKey = SliceKey(kind: Kind, id: string)

  /** The ledger as a value. */
  datatype Ledger = Ledger(bots: map<string, Text>, webhooks: map<string, Text>, slices: map<SliceKey, Config>) {
    function Units(kind: Kind): map<string, Text> {
      if kind.BotUnit? then bots else webhooks
    }
  }

  function UnitsOf(d: Derive, c: Config, kind: Kind): map<string, Text> {
    if kind.BotUnit? then Bots(d, c) else Webhooks(c)
  }

  function SliceOf(d: Derive, c: Config, key: SliceKey): Option<Config> {
    if key.kind.BotUnit? then SliceForBot(d, c, key.id) else SliceForWebhook(c, key.id)
  }

  // ---- Plans ---------------------------------------------------------------

  datatype Section = Section(added: set<string>, removed: set<string>, changed: set<string>) {
    predicate Empty() {
      added == {} && removed == {} && changed == {}
    }

    function All(): set<string> {
      added + removed + changed
    }
  }

  function Diff(previous: map<string, Text>, next: map<string, Text>): Section {
    Section(
      set k | k in next && k !in previous,
      set k | k in previous && k !in next,
      set k | k in next && k in previous && previous[k] != next[k])
  }

  /** The two loops over the keyed fingerprints, in whatever order they are kept. */
  method DiffKeyed(previous: map<string, Text>, next: map<string, Text>) returns (section: Section)
    ensures section == Diff(previous, next)
  {
    var added, removed, changed := {}, {}, {};
    var todo := next.Keys;
    while todo != {}
      invariant todo <= next.Keys
      invariant forall k :: k in added <==> k in next && k !in todo && k !in previous
      invariant forall k :: k in changed <==> k in next && k !in todo && k in previous && previous[k] != next[k]
      decreases |todo|
    {
      var key :| key in todo;
      if key !in previous {
        added := added + {key};
      } else if previous[key] != next[key] {
        changed := changed + {key};
      }
      todo := todo - {key};
    }
    todo := previous.Keys;
    while todo != {}
      invariant todo <= previous.Keys
      invariant forall k :: k in removed <==> k in previous && k !in todo && k !in next
      decreases |todo|
    {
      var key :| key in todo;
      if key !in next {
        removed := removed + {key};
      }
      todo := todo - {key};
    }
    section := Section(added, removed, changed);
  }

  /** A unit is added when only the file has it, removed when only the ledger has it, and
      changed when both have it in different versions. */
  lemma PlanSaysWhich(previous: map<string, Text>, next: map<string, Text>, id: string)
    ensures var plan := Diff(previous, next);
      && (id in plan.added <==> id in next && id !in previous)
      && (id in plan.removed <==> id in previous && id !in next)
      && (id in plan.changed <==> id in previous && id in next && previous[id] != next[id])
  {
  }

  /** Nothing is owed exactly when the two sides agree. */
  lemma EmptyPlanMeansEqual(previous: map<string, Text>, next: map<string, Text>)
    ensures Diff(previous, next).Empty() <==> previous == next
  {
    var section := Diff(previous, next);
    if section.Empty() {
      forall k ensures k in previous <==> k in next {
        assert k !in section.added && k !in section.removed;
      }
      forall k | k in previous ensures previous[k] == next[k] {
        assert k !in section.changed;
      }
    }
  }

  /** Whether a retry is owed: some unit is not running as the file has it. */
  predicate ReconcilePending(d: Derive, l: Ledger, next: Config) {
    !Diff(l.bots, Bots(d, next)).Empty() || !Diff(l.webhooks, Webhooks(next)).Empty()
  }

  lemma PendingIffBehind(d: Derive, l: Ledger, next: Config)
    ensures ReconcilePending(d, l, next) <==> l.bots != Bots(d, next) || l.webhooks != Webhooks(next)
  {
    EmptyPlanMeansEqual(l.bots, Bots(d, next));
    EmptyPlanMeansEqual(l.webhooks, Webhooks(next));
  }

  // ---- Marking -------------------------------------------------------------

  /** The two halves of the record of one unit, set or cleared together. */
  function SetUnit(l: Ledger, key: SliceKey, fp: Option<Text>, slice: Option<Config>): Ledger {
    if key.kind.BotUnit?
    then Ledger(Put(l.bots, key.id, fp), l.webhooks, Put(l.slices, key, slice))
    else Ledger(l.bots, Put(l.webhooks, key.id, fp), Put(l.slices, key, slice))
  }

  function Put<K, V>(m: map<K, V>, k: K, v: Option<V>): map<K, V> {
    if v.Some? then m[k := v.value] else m - {k}
  }

  function Get<K, V>(m: map<K, V>, k: K): Option<V> {
    if k in m then Some(m[k]) else None
  }

  function Applied(d: Derive, l: Ledger, source: Config, kind: Kind, id: string): Ledger {
    SetUnit(l, SliceKey(kind, id), Get(UnitsOf(d, source, kind), id), SliceOf(d, source, SliceKey(kind, id)))
  }

  function Retired(l: Ledger, kind: Kind, id: string): Ledger {
    SetUnit(l, SliceKey(kind, id), None, None)
  }

  /** Ledger and rollback slices name the same units, and every slice describes
      exactly its own unit at the version the ledger records. */
  ghost predicate Truthful(d: Derive, l: Ledger) {
    TruthfulBy(Describes(d), l)
  }

  ghost function Describes(d: Derive): (Config, SliceKey, Text) -> bool {
    (c, key, fp) => OneUnit(d, c, key, fp)
  }

  ghost predicate TruthfulBy(describes: (Config, SliceKey, Text) -> bool, l: Ledger) {
    forall key :: UnitTruthful(describes, l, key)
  }

  ghost predicate UnitTruthful(describes: (Config, SliceKey, Text) -> bool, l: Ledger, key: SliceKey) {
    (key in l.slices <==> key.id in l.Units(key.kind))
    && (key in l.slices ==> describes(l.slices[key], key, l.Units(key.kind)[key.id]))
  }

  /** The configuration describes this unit, at this version, and nothing else. */
  ghost predicate OneUnit(d: Derive, c: Config, key: SliceKey, fp: Text) {
    UnitsOf(d, c, key.kind) == map[key.id := fp]
    && UnitsOf(d, c, if key.kind.BotUnit? then WebhookUnit else BotUnit) == map[]
  }

  /** The slice of a unit carries the fingerprint it is enumerated with: of several bots
      deriving one key, the first and the last are entered alike. */
  ghost predicate Agrees(d: Derive, c: Config, key: SliceKey) {
    key.kind.BotUnit? && key.id in Bots(d, c) ==> SlicedFingerprint(d, c, key.id) == Bots(d, c)[key.id]
  }

  ghost predicate AllAgree(d: Derive, c: Config) {
    forall key :: Agrees(d, c, key)
  }

  lemma DistinctBotsAgree(d: Derive, c: Config)
    requires DistinctBots(d, c)
    ensures AllAgree(d, c)
  {
    forall key ensures Agrees(d, c, key) {
      if key.kind.BotUnit? && key.id in Bots(d, c) {
        SliceAgrees(d, c, key.id);
      }
    }
  }

  lemma SliceIsOneUnit(d: Derive, c: Config, key: SliceKey)
    ensures SliceOf(d, c, key).Some? <==> key.id in UnitsOf(d, c, key.kind)
    ensures SliceOf(d, c, key).Some? ==>
      (OneUnit(d, SliceOf(d, c, key).value, key, UnitsOf(d, c, key.kind)[key.id]) <==> Agrees(d, c, key))
  {
    if key.kind.BotUnit? {
      BotSliceIsOneUnit(d, c, key.id);
    } else {
      WebhookSliceAgrees(d, c, key.id);
    }
  }

  lemma BotSliceIsOneUnit(d: Derive, c: Config, id: string)
    ensures SliceForBot(d, c, id).Some? <==> id in Bots(d, c)
    ensures id in Bots(d, c) ==>
      (OneUnit(d, SliceForBot(d, c, id).value, SliceKey(BotUnit, id), Bots(d, c)[id])
       <==> SlicedFingerprint(d, c, id) == Bots(d, c)[id])
  {
    SliceIsOneBot(d, c, id);
    if id in Bots(d, c) {
      assert map[id := SlicedFingerprint(d, c, id)][id] == SlicedFingerprint(d, c, id);
    }
  }

  /** Setting one unit decides about that unit alone. */
  lemma SetUnitTruthful(describes: (Config, SliceKey, Text) -> bool, l: Ledger, key: SliceKey,
                        fp: Option<Text>, slice: Option<Config>, k: SliceKey)
    ensures k != key ==> (UnitTruthful(describes, SetUnit(l, key, fp, slice), k) <==> UnitTruthful(describes, l, k))
    ensures UnitTruthful(describes, SetUnit(l, key, fp, slice), key) <==>
      (fp.Some? <==> slice.Some?) && (slice.Some? && fp.Some? ==> describes(slice.value, key, fp.value))
  {
  }

  /** A unit's record is truthful after its mark exactly when its slice agrees with its
      fingerprint; the marks of other units are not affected. */
  lemma AppliedTruthfulIff(d: Derive, l: Ledger, source: Config, kind: Kind, id: string, k: SliceKey)
    ensures UnitTruthful(Describes(d), Applied(d, l, source, kind, id), k) <==>
      if k == SliceKey(kind, id) then Agrees(d, source, k) else UnitTruthful(Describes(d), l, k)
  {
    var key := SliceKey(kind, id);
    SliceIsOneUnit(d, source, key);
    SetUnitTruthful(Describes(d), l, key, Get(UnitsOf(d, source, kind), id), SliceOf(d, source, key), k);
  }

  lemma AppliedTruthful(d: Derive, l: Ledger, source: Config, kind: Kind, id: string)
    requires Truthful(d, l) && Agrees(d, source, SliceKey(kind, id))
    ensures Truthful(d, Applied(d, l, source, kind, id))
  {
    forall k ensures UnitTruthful(Describes(d), Applied(d, l, source, kind, id), k) {
      AppliedTruthfulIff(d, l, source, kind, id, k);
      assert UnitTruthful(Describes(d), l, k);
    }
  }

  lemma RetiredTruthfulIff(d: Derive, l: Ledger, kind: Kind, id: string, k: SliceKey)
    ensures UnitTruthful(Describes(d), Retired(l, kind, id), k) <==>
      k == SliceKey(kind, id) || UnitTruthful(Describes(d), l, k)
  {
    SetUnitTruthful(Describes(d), l, SliceKey(kind, id), None, None, k);
  }

  lemma RetiredTruthful(d: Derive, l: Ledger, kind: Kind, id: string)
    requires Truthful(d, l)
    ensures Truthful(d, Retired(l, kind, id))
  {
    forall k ensures UnitTruthful(Describes(d), Retired(l, kind, id), k) {
      RetiredTruthfulIff(d, l, kind, id, k);
      assert UnitTruthful(Describes(d), l, k);
    }
  }

  lemma SetUnitProgress(l: Ledger, key: SliceKey, slice: Option<Config>, wanted: map<string, Text>)
    ensures Progress(l.Units(key.kind), SetUnit(l, key, Get(wanted, key.id), slice).Units(key.kind), wanted, {key.id})
    ensures forall other :: other != key.kind ==>
      SetUnit(l, key, Get(wanted, key.id), slice).Units(other) == l.Units(other)
  {
  }

  /** What a mark leaves on record: its unit as the file has it, or gone, together with
      the slice it would be rebuilt from; no other unit is touched. */
  lemma MarksOneUnit(d: Derive, l: Ledger, source: Config, kind: Kind, id: string, key: SliceKey)
    ensures var (a, r) := (Applied(d, l, source, kind, id), Retired(l, kind, id));
      if key == SliceKey(kind, id) then
        && Get(a.Units(kind), id) == Get(UnitsOf(d, source, kind), id)
        && Get(a.slices, key) == SliceOf(d, source, key)
        && id !in r.Units(kind) && key !in r.slices
      else
        && Get(a.Units(key.kind), key.id) == Get(l.Units(key.kind), key.id) == Get(r.Units(key.kind), key.id)
        && Get(a.slices, key) == Get(l.slices, key) == Get(r.slices, key)
  {
  }

  // ---- Runs ----------------------------------------------------------------

  /** The ledger of a process that has just booted from `c`. */
  function BootLedger(d: Derive, c: Config): Ledger {
    Ledger(Bots(d, c), Webhooks(c),
      map key: SliceKey | key in UnitKeys(d, c) && SliceOf(d, c, key).Some?
        :: SliceOf(d, c, key).value)
  }

  function UnitKeys(d: Derive, c: Config): set<SliceKey> {
    KindKeys(d, c, BotUnit) + KindKeys(d, c, WebhookUnit)
  }

  function KindKeys(d: Derive, c: Config, kind: Kind): set<SliceKey> {
    set id | id in UnitsOf(d, c, kind) :: SliceKey(kind, id)
  }

  lemma BootSlices(d: Derive, c: Config, slices: map<SliceKey, Config>)
    requires forall key :: key in slices <==>
      (key in KindKeys(d, c, BotUnit) || key in KindKeys(d, c, WebhookUnit)) && SliceOf(d, c, key).Some?
    requires forall key | key in slices :: slices[key] == SliceOf(d, c, key).value
    ensures slices == BootLedger(d, c).slices
  {
    assert UnitKeys(d, c) == KindKeys(d, c, BotUnit) + KindKeys(d, c, WebhookUnit);
  }

  lemma BootTruthfulIff(d: Derive, c: Config, key: SliceKey)
    ensures UnitTruthful(Describes(d), BootLedger(d, c), key) <==> Agrees(d, c, key)
  {
    SliceIsOneUnit(d, c, key);
    assert key in UnitKeys(d, c) <==> key.id in UnitsOf(d, c, key.kind);
  }

  /** Nothing is owed right after a boot, whatever the file. */
  lemma BootOwesNothing(d: Derive, c: Config)
    ensures !ReconcilePending(d, BootLedger(d, c), c)
  {
    PendingIffBehind(d, BootLedger(d, c), c);
  }

  /** One unit's reconcile that returned. */
  datatype Event = WentLive(source: Config, kind: Kind, id: string) | WentDown(kind: Kind, id: string)

  function After(d: Derive, l: Ledger, events: seq<Event>): Ledger {
    if events == [] then l
    else
      var before := After(d, l, events[..|events| - 1]);
      match events[|events| - 1]
      case WentLive(source, kind, id) => Applied(d, before, source, kind, id)
      case WentDown(kind, id) => Retired(before, kind, id)
  }

  /** What the unit was last set from, a boot or a mark, enters it unambiguously. */
  ghost predicate LastAgrees(d: Derive, boot: Config, events: seq<Event>, key: SliceKey) {
    if events == [] then Agrees(d, boot, key)
    else
      match events[|events| - 1]
      case WentLive(source, kind, id) =>
        if SliceKey(kind, id) == key then Agrees(d, source, key)
        else LastAgrees(d, boot, events[..|events| - 1], key)
      case WentDown(kind, id) => SliceKey(kind, id) == key || LastAgrees(d, boot, events[..|events| - 1], key)
  }

  /** Whatever succeeds, in whatever order and from whichever versions of the file: a unit
      can be rebuilt at exactly the version recorded for it if and only if the version it
      was last set from enters it unambiguously. */
  lemma {:induction false} UnitTruthfulIff(d: Derive, boot: Config, events: seq<Event>, key: SliceKey)
    ensures UnitTruthful(Describes(d), After(d, BootLedger(d, boot), events), key)
      <==> LastAgrees(d, boot, events, key)
  {
    if events == [] {
      BootTruthfulIff(d, boot, key);
    } else {
      var earlier := events[..|events| - 1];
      var before := After(d, BootLedger(d, boot), earlier);
      UnitTruthfulIff(d, boot, earlier, key);
      match events[|events| - 1]
      case WentLive(source, kind, id) => AppliedTruthfulIff(d, before, source, kind, id, key);
      case WentDown(kind, id) => RetiredTruthfulIff(d, before, kind, id, key);
    }
  }

  /** So the whole ledger is, always, when no file has two bots of one platform and key. */
  lemma {:induction false} LedgerAlwaysTruthful(d: Derive, boot: Config, events: seq<Event>)
    requires DistinctBots(d, boot)
    requires forall e | e in events && e.WentLive? :: DistinctBots(d, e.source)
    ensures Truthful(d, After(d, BootLedger(d, boot), events))
  {
    forall key ensures UnitTruthful(Describes(d), After(d, BootLedger(d, boot), events), key) {
      UnitTruthfulIff(d, boot, events, key);
      DistinctLastAgrees(d, boot, events, key);
    }
  }

  lemma {:induction false} DistinctLastAgrees(d: Derive, boot: Config, events: seq<Event>, key: SliceKey)
    requires DistinctBots(d, boot)
    requires forall e | e in events && e.WentLive? :: DistinctBots(d, e.source)
    ensures LastAgrees(d, boot, events, key)
  {
    if events == [] {
      DistinctBotsAgree(d, boot);
    } else {
      var last := events[|events| - 1];
      assert last in events;
      DistinctLastAgrees(d, boot, events[..|events| - 1], key);
      if last.WentLive? {
        DistinctBotsAgree(d, last.source);
      }
    }
  }

  /** A file with two bots of one key, entered differently, reloaded after any boot whose
      keys were distinct: the ledger records the second and would rebuild the first. */
  lemma DuplicateKeysMislead(d: Derive, boot: Config)
    requires DistinctBots(d, boot) && d.bot(FIRST) == d.bot(SECOND)
    ensures var id := Identity("telegram", d.bot(FIRST));
      var l := After(d, BootLedger(d, boot), [WentLive(Doubled(), BotUnit, id)]);
      && Truthful(d, BootLedger(d, boot))
      && id in l.bots && l.bots[id] == Fingerprint(SECOND)
      && !UnitTruthful(Describes(d), l, SliceKey(BotUnit, id))
  {
    var id := Identity("telegram", d.bot(FIRST));
    var events := [WentLive(Doubled(), BotUnit, id)];
    DuplicateKeysDisagree(d);
    LedgerAlwaysTruthful(d, boot, []);
    assert events[..0] == [];
    UnitTruthfulIff(d, boot, events, SliceKey(BotUnit, id));
    assert After(d, BootLedger(d, boot), events) == Applied(d, BootLedger(d, boot), Doubled(), BotUnit, id);
  }

  // ---- A reconcile pass ----------------------------------------------------

  /** `now` follows `source` on the finished units and `before` on all others. */
  ghost predicate Progress(
      before: map<string, Text>, now: map<string, Text>, source: map<string, Text>, done: set<string>) {
    forall id :: Follows(now, if id in done then source else before, id)
  }

  ghost predicate Follows(now: map<string, Text>, wanted: map<string, Text>, id: string) {
    (id in now <==> id in wanted) && (id in now ==> now[id] == wanted[id])
  }

  function Restrict(section: Section, ids: set<string>): Section {
    Section(section.added * ids, section.removed * ids, section.changed * ids)
  }

  /** After a pass the plan is exactly what failed. */
  lemma NextPlanIsTheFailures(before: map<string, Text>, now: map<string, Text>, source: map<string, Text>,
                              fails: set<string>)
    requires Progress(before, now, source, Diff(before, source).All() - fails)
    ensures Diff(now, source) == Restrict(Diff(before, source), fails)
  {
    var plan := Diff(before, source);
    var done := plan.All() - fails;
    forall id
      ensures id in Diff(now, source).added <==> id in plan.added * fails
      ensures id in Diff(now, source).removed <==> id in plan.removed * fails
      ensures id in Diff(now, source).changed <==> id in plan.changed * fails
    {
      assert Follows(now, if id in done then source else before, id);
      assert id in plan.All() <==> id in plan.added || id in plan.removed || id in plan.changed;
    }
  }

  lemma RestrictEmpty(section: Section, ids: set<string>)
    ensures Restrict(section, ids).Empty() <==> section.All() * ids == {}
  {
    var r := Restrict(section, ids);
    assert section.All() * ids == r.All();
    assert r.added <= r.All() && r.removed <= r.All() && r.changed <= r.All();
    assert r.Empty() <==> r.All() == {};
  }

  lemma ProgressJoins(a: map<string, Text>, b: map<string, Text>, c: map<string, Text>, source: map<string, Text>,
                      first: set<string>, second: set<string>)
    requires Progress(a, b, source, first) && Progress(b, c, source, second)
    ensures Progress(a, c, source, first + second)
  {
    forall id ensures Follows(c, if id in first + second then source else a, id) {
      assert Follows(b, if id in first then source else a, id);
      assert Follows(c, if id in second then source else b, id);
    }
  }

  datatype Operation = Removal | Change | Addition

  /** One unit's reconcile: what was tried on it, and whether it returned. */
  datatype Attempt = Attempt(op: Operation, id: string, works: bool)

  predicate TriedOne(a: Attempt, op: Operation, ids: set<string>, fails: set<string>) {
    a.op == op && a.id in ids && (a.works <==> a.id !in fails)
  }

  /** Every unit of a list is tried once, with one operation. */
  ghost predicate Tried(log: seq<Attempt>, op: Operation, ids: set<string>, fails: set<string>) {
    && (forall k | 0 <= k < |log| :: TriedOne(log[k], op, ids, fails))
    && (forall j, k :: 0 <= j < k < |log| ==> log[j].id != log[k].id)
    && |log| == |ids|
  }

  lemma TriedPush(log: seq<Attempt>, a: Attempt, ids: set<string>, todo: set<string>, fails: set<string>)
    requires a.id in todo && todo <= ids && Tried(log, a.op, ids - todo, fails) && (a.works <==> a.id !in fails)
    ensures Tried(log + [a], a.op, ids - (todo - {a.id}), fails)
  {
    assert ids - (todo - {a.id}) == (ids - todo) + {a.id};
  }

  /** Part of a list has been tried, and what returned is marked. */
  ghost predicate Midway(before: map<string, Text>, now: map<string, Text>, wanted: map<string, Text>,
                         log: seq<Attempt>, op: Operation, ids: set<string>, todo: set<string>, fails: set<string>) {
    Progress(before, now, wanted, (ids - todo) - fails) && Tried(log, op, ids - todo, fails)
  }

  lemma MidwayGoesOn(before: map<string, Text>, now: map<string, Text>, wanted: map<string, Text>,
                     log: seq<Attempt>, a: Attempt, ids: set<string>, todo: set<string>, fails: set<string>)
    requires a.id in todo && todo <= ids && Tried(log, a.op, ids - todo, fails) && (a.works <==> a.id !in fails)
    requires Progress(before, now, wanted, ((ids - todo) - fails) + if a.works then {a.id} else {})
    ensures Midway(before, now, wanted, log + [a], a.op, ids, todo - {a.id}, fails)
  {
    TriedPush(log, a, ids, todo, fails);
    assert (ids - (todo - {a.id})) - fails == ((ids - todo) - fails) + if a.works then {a.id} else {};
  }

  function Rank(op: Operation): nat {
    match op
    case Removal => 0
    case Change => 1
    case Addition => 2
  }

  /** A pass tries every unit that differs, once: removals first, then changes, then
      additions, each for what the ledger and the file make of its unit. */
  ghost predicate FitsPlan(
      log: seq<Attempt>, before: map<string, Text>, source: map<string, Text>, fails: set<string>) {
    && (forall k | 0 <= k < |log| :: FitsUnit(log[k], before, source, fails))
    && (forall j, k :: 0 <= j < k < |log| ==> log[j].id != log[k].id && Rank(log[j].op) <= Rank(log[k].op))
    && |log| == |Diff(before, source).removed| + |Diff(before, source).changed| + |Diff(before, source).added|
  }

  predicate FitsUnit(a: Attempt, before: map<string, Text>, source: map<string, Text>, fails: set<string>) {
    && (a.works <==> a.id !in fails)
    && match a.op
       case Removal => a.id in before && a.id !in source
       case Change => a.id in before && a.id in source && before[a.id] != source[a.id]
       case Addition => a.id !in before && a.id in source
  }

  lemma LogsFit(removals: seq<Attempt>, changes: seq<Attempt>, additions: seq<Attempt>,
                before: map<string, Text>, source: map<string, Text>, fails: set<string>)
    requires Tried(removals, Removal, Diff(before, source).removed, fails)
    requires Tried(changes, Change, Diff(before, source).changed, fails)
    requires Tried(additions, Addition, Diff(before, source).added, fails)
    ensures FitsPlan(removals + changes + additions, before, source, fails)
  {
    var log := removals + changes + additions;
    forall k | 0 <= k < |log| ensures FitsUnit(log[k], before, source, fails) {
      PlanSaysWhich(before, source, log[k].id);
    }
    forall j, k | 0 <= j < k < |log| ensures log[j].id != log[k].id && Rank(log[j].op) <= Rank(log[k].op) {
      PlanSaysWhich(before, source, log[j].id);
      PlanSaysWhich(before, source, log[k].id);
    }
  }

  class AppliedState {
    var bots: map<string, Text>
    var webhooks: map<string, Text>
    var slices: map<SliceKey, Config>

    function Contents(): Ledger
      reads this
    {
      Ledger(bots, webhooks, slices)
    }

    constructor (d: Derive, config: Config)
      ensures Contents() == BootLedger(d, config)
    {
      bots, webhooks, slices := Bots(d, config), Webhooks(config), map[];
      new;
      RecordAll(d, config, KindKeys(d, config, BotUnit));
      RecordAll(d, config, KindKeys(d, config, WebhookUnit));
      BootSlices(d, config, slices);
    }

    method RecordAll(d: Derive, source: Config, keys: set<SliceKey>)
      modifies this`slices
      ensures forall key :: key in slices <==>
        if key in keys then SliceOf(d, source, key).Some? else key in old(slices)
      ensures forall key | key in slices ::
        slices[key] == if key in keys then SliceOf(d, source, key).value else old(slices)[key]
    {
      var todo := keys;
      while todo != {}
        invariant todo <= keys
        invariant forall key :: key in slices <==>
          if key in keys - todo then SliceOf(d, source, key).Some? else key in old(slices)
        invariant forall key | key in slices ::
          slices[key] == if key in keys - todo then SliceOf(d, source, key).value else old(slices)[key]
        decreases |todo|
      {
        var key :| key in todo;
        RecordSlice(d, source, key);
        todo := todo - {key};
      }
    }

    method RecordSlice(d: Derive, source: Config, key: SliceKey)
      modifies this`slices
      ensures slices == Put(old(slices), key, SliceOf(d, source, key))
    {
      var slice := SliceOf(d, source, key);
      if slice.Some? {
        slices := slices[key := slice.value];
      } else {
        slices := slices - {key};
      }
    }

    method MarkApplied(d: Derive, source: Config, kind: Kind, id: string)
      modifies this
      ensures Contents() == Applied(d, old(Contents()), source, kind, id)
    {
      if kind.BotUnit? {
        var fingerprints := EnumerateBots(d, source);
        bots := if id in fingerprints then bots[id := fingerprints[id]] else bots - {id};
      } else {
        var fingerprints := Webhooks(source);
        webhooks := if id in fingerprints then webhooks[id := fingerprints[id]] else webhooks - {id};
      }
      RecordSlice(d, source, SliceKey(kind, id));
    }

    method MarkRetired(kind: Kind, id: string)
      modifies this
      ensures Contents() == Retired(old(Contents()), kind, id)
    {
      if kind.BotUnit? {
        bots := bots - {id};
      } else {
        webhooks := webhooks - {id};
      }
      slices := slices - {SliceKey(kind, id)};
    }

    /** One unit's reconcile that returned, and its mark. */
    method Mark(d: Derive, source: Config, kind: Kind, id: string, retire: bool, ghost wanted: map<string, Text>)
      requires wanted == UnitsOf(d, source, kind) && (retire ==> id !in wanted)
      modifies this
      ensures old(Truthful(d, Contents())) && AllAgree(d, source) ==> Truthful(d, Contents())
      ensures Progress(old(Contents()).Units(kind), Contents().Units(kind), wanted, {id})
      ensures forall other :: other != kind ==> Contents().Units(other) == old(Contents()).Units(other)
    {
      ghost var was := Contents();
      if retire {
        MarkRetired(kind, id);
        if Truthful(d, was) {
          RetiredTruthful(d, was, kind, id);
        }
        SetUnitProgress(was, SliceKey(kind, id), None, wanted);
      } else {
        MarkApplied(d, source, kind, id);
        if Truthful(d, was) && AllAgree(d, source) {
          assert Agrees(d, source, SliceKey(kind, id));
          AppliedTruthful(d, was, source, kind, id);
        }
        SetUnitProgress(was, SliceKey(kind, id), SliceOf(d, source, SliceKey(kind, id)), wanted);
      }
    }

    /** One unit of a plan: its reconcile either fails and leaves it alone, or returns and
        is marked. */
    method TryUnit(d: Derive, source: Config, kind: Kind, a: Attempt, ghost wanted: map<string, Text>,
                   ghost before: map<string, Text>, ghost done: set<string>)
      requires wanted == UnitsOf(d, source, kind) && (a.op.Removal? ==> a.id !in wanted)
      requires Progress(before, Contents().Units(kind), wanted, done)
      modifies this
      ensures old(Truthful(d, Contents())) && AllAgree(d, source) ==> Truthful(d, Contents())
      ensures Progress(before, Contents().Units(kind), wanted, done + if a.works then {a.id} else {})
      ensures forall other :: other != kind ==> Contents().Units(other) == old(Contents()).Units(other)
    {
      if a.works {
        ghost var was := Contents().Units(kind);
        Mark(d, source, kind, a.id, a.op.Removal?, wanted);
        ProgressJoins(before, was, Contents().Units(kind), wanted, done, {a.id});
      } else {
        assert done + {} == done;
      }
    }

    /** One list of a plan, its units taken in any order. */
    method ApplyList(d: Derive, source: Config, kind: Kind, ids: set<string>, fails: set<string>, op: Operation,
                     ghost wanted: map<string, Text>)
      returns (ghost log: seq<Attempt>)
      requires wanted == UnitsOf(d, source, kind)
      requires op.Removal? ==> forall id | id in ids :: id !in wanted
      modifies this
      ensures old(Truthful(d, Contents())) && AllAgree(d, source) ==> Truthful(d, Contents())
      ensures Progress(old(Contents()).Units(kind), Contents().Units(kind), wanted, ids - fails)
      ensures forall other :: other != kind ==> Contents().Units(other) == old(Contents()).Units(other)
      ensures Tried(log, op, ids, fails)
    {
      ghost var before := Contents();
      var todo := ids;
      log := [];
      assert ids - todo == {};
      while todo != {}
        invariant todo <= ids
        invariant Truthful(d, before) && AllAgree(d, source) ==> Truthful(d, Contents())
        invariant forall other :: other != kind ==> Contents().Units(other) == before.Units(other)
        invariant Midway(before.Units(kind), Contents().Units(kind), wanted, log, op, ids, todo, fails)
        decreases |todo|
      {
        var id :| id in todo;
        var a := Attempt(op, id, id !in fails);
        TryUnit(d, source, kind, a, wanted, before.Units(kind), (ids - todo) - fails);
        MidwayGoesOn(before.Units(kind), Contents().Units(kind), wanted, log, a, ids, todo, fails);
        log := log + [a];
        todo := todo - {id};
      }
      assert ids - todo == ids;
    }

    /** The three lists of a plan, removals first. */
    method ApplyPlan(d: Derive, source: Config, kind: Kind, plan: Section, fails: set<string>,
                     ghost wanted: map<string, Text>)
      returns (ghost removals: seq<Attempt>, ghost changes: seq<Attempt>, ghost additions: seq<Attempt>)
      requires wanted == UnitsOf(d, source, kind) && forall id | id in plan.removed :: id !in wanted
      modifies this
      ensures old(Truthful(d, Contents())) && AllAgree(d, source) ==> Truthful(d, Contents())
      ensures Progress(old(Contents()).Units(kind), Contents().Units(kind), wanted, plan.All() - fails)
      ensures forall other :: other != kind ==> Contents().Units(other) == old(Contents()).Units(other)
      ensures Tried(removals, Removal, plan.removed, fails) && Tried(changes, Change, plan.changed, fails)
      ensures Tried(additions, Addition, plan.added, fails)
    {
      ghost var before := Contents().Units(kind);
      removals := ApplyList(d, source, kind, plan.removed, fails, Removal, wanted);
      ghost var mid := Contents().Units(kind);
      changes := ApplyList(d, source, kind, plan.changed, fails, Change, wanted);
      ProgressJoins(before, mid, Contents().Units(kind), wanted, plan.removed - fails, plan.changed - fails);
      mid := Contents().Units(kind);
      additions := ApplyList(d, source, kind, plan.added, fails, Addition, wanted);
      ProgressJoins(before, mid, Contents().Units(kind), wanted,
                    (plan.removed - fails) + (plan.changed - fails), plan.added - fails);
      assert plan.All() - fails == (plan.removed - fails) + (plan.changed - fails) + (plan.added - fails);
    }

    /** A whole pass over one kind of unit: every unit that differs is tried once, for what
        it is. Whichever of them fail, they and only they are owed afterwards, and a retry
        is owed exactly when something planned failed. */
    method Reconcile(d: Derive, source: Config, kind: Kind, fails: set<string>) returns (ghost log: seq<Attempt>)
      modifies this
      ensures old(Truthful(d, Contents())) && AllAgree(d, source) ==> Truthful(d, Contents())
      ensures FitsPlan(log, old(Contents()).Units(kind), UnitsOf(d, source, kind), fails)
      ensures var plan := Diff(old(Contents()).Units(kind), UnitsOf(d, source, kind));
        var next := Diff(Contents().Units(kind), UnitsOf(d, source, kind));
        && next == Restrict(plan, fails)
        && (next.Empty() <==> plan.All() * fails == {})
      ensures forall other :: other != kind ==> Contents().Units(other) == old(Contents()).Units(other)
    {
      ghost var before := Contents().Units(kind);
      var wanted := UnitsOf(d, source, kind);
      var plan := DiffKeyed(if kind.BotUnit? then bots else webhooks, wanted);
      ghost var removals, changes, additions := ApplyPlan(d, source, kind, plan, fails, wanted);
      NextPlanIsTheFailures(before, Contents().Units(kind), wanted, fails);
      RestrictEmpty(plan, fails);
      LogsFit(removals, changes, additions, before, wanted, fails);
      log := removals + changes + additions;
    }

    /** A whole poll, bots and then webhook routes. */
    method ReconcileAll(d: Derive, source: Config, botFails: set<string>, hookFails: set<string>)
      modifies this
      ensures old(Truthful(d, Contents())) && AllAgree(d, source) ==> Truthful(d, Contents())
      ensures var bots := Diff(old(Contents()).bots, Bots(d, source));
        var hooks := Diff(old(Contents()).webhooks, Webhooks(source));
        && Diff(Contents().bots, Bots(d, source)) == Restrict(bots, botFails)
        && Diff(Contents().webhooks, Webhooks(source)) == Restrict(hooks, hookFails)
        && (ReconcilePending(d, Contents(), source) <==> bots.All() * botFails != {} || hooks.All() * hookFails != {})
    {
      ghost var was := Contents();
      ghost var botLog := Reconcile(d, source, BotUnit, botFails);
      ghost var mid := Contents();
      assert mid.Units(WebhookUnit) == was.Units(WebhookUnit);
      ghost var hookLog := Reconcile(d, source, WebhookUnit, hookFails);
      assert Contents().Units(BotUnit) == mid.Units(BotUnit);
    }
  }
}

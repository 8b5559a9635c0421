/** The per-bot teardown handles: every displaced handle is run, once, however
    replacements and (possibly overlapping, possibly rejected) retirements interleave. */
module BotWiring {

  type Handle = nat

  /** `waiting` counts the retirements of each bot whose transport has not answered;
      handles are numbered as they are handed over, so each is a distinct closure. */
  datatype State = State(
    registry: map<string, Handle>,
    started: multiset<Handle>,
    issued: nat,
    waiting: multiset<string>)

  datatype Event =
    | Replace(key: string)
    | BeginRetire(key: string)
    | TransportGone(key: string)
    | TransportRefused(key: string)

  const EMPTY := State(map[], multiset{}, 0, multiset{})

  /** The handle in a slot, as the collection of teardowns its removal starts. */
  function Displaced(s: State, key: string): multiset<Handle> {
    if key in s.registry then multiset{s.registry[key]} else multiset{}
  }

  /** Each event is one stretch of code without an await. */
  function Step(s: State, e: Event): State {
    match e
    case Replace(key) =>
      s.(registry := s.registry[key := s.issued], started := s.started + Displaced(s, key), issued := s.issued + 1)
    case BeginRetire(key) => s.(waiting := s.waiting + multiset{key})
    case TransportGone(key) =>
      if key in s.waiting then
        s.(registry := s.registry - {key}, started := s.started + Displaced(s, key),
           waiting := s.waiting - multiset{key})
      else s
    case TransportRefused(key) => s.(waiting := s.waiting - multiset{key})
  }

  function Run(s: State, events: seq<Event>): State {
    if events == [] then s else Step(Run(s, events[..|events| - 1]), events[|events| - 1])
  }

  /** A handle is held in one slot and has not run, or is in no slot and ran once. */
  ghost predicate ExactlyOnce(s: State) {
    && (forall key | key in s.registry :: s.registry[key] < s.issued)
    && (forall k1, k2 | k1 in s.registry && k2 in s.registry && s.registry[k1] == s.registry[k2] :: k1 == k2)
    && (forall h: Handle | h >= s.issued :: s.started[h] == 0)
    && (forall h: Handle | h < s.issued :: s.started[h] == if h in s.registry.Values then 0 else 1)
  }

  lemma StepExactlyOnce(s: State, e: Event)
    requires ExactlyOnce(s)
    ensures ExactlyOnce(Step(s, e))
  {
    match e
    case Replace(key) => SlotChanges(s, Step(s, e), key);
    case TransportGone(key) =>
      if key in s.waiting {
        SlotChanges(s, Step(s, e), key);
      }
    case _ =>
  }

  /** One slot gives up its handle, which is started, and holds a new one or none. */
  lemma SlotChanges(s: State, t: State, key: string)
    requires ExactlyOnce(s)
    requires t.registry - {key} == s.registry - {key} && t.started == s.started + Displaced(s, key)
    requires key in t.registry ==> t.registry[key] == s.issued
    requires t.issued == s.issued + if key in t.registry then 1 else 0
    ensures ExactlyOnce(t)
  {
    forall k | k in t.registry && k != key ensures k in s.registry && s.registry[k] == t.registry[k] {
      assert k in t.registry - {key};
      assert k in s.registry - {key};
    }
    forall h: Handle | h < t.issued ensures t.started[h] == if h in t.registry.Values then 0 else 1 {
      Holders(s, t, key, h);
      if h == s.issued {
        assert key in t.registry;
      }
    }
  }

  /** After only `key`'s slot changed, a handle sits in a slot just when it is the
      new one there or it sat in another slot before. */
  lemma Holders(s: State, t: State, key: string, h: Handle)
    requires t.registry - {key} == s.registry - {key}
    requires forall k1, k2 | k1 in s.registry && k2 in s.registry && s.registry[k1] == s.registry[k2] :: k1 == k2
    ensures h in t.registry.Values <==>
      (key in t.registry && t.registry[key] == h)
      || (h in s.registry.Values && !(key in s.registry && s.registry[key] == h))
  {
    if h in s.registry.Values && !(key in s.registry && s.registry[key] == h) {
      var k :| k in s.registry && s.registry[k] == h;
      assert k in s.registry - {key};
      assert k in t.registry && t.registry[k] == h;
    }
    if h in t.registry.Values && !(key in t.registry && t.registry[key] == h) {
      var k :| k in t.registry && t.registry[k] == h;
      assert k in t.registry - {key};
      assert k in s.registry && s.registry[k] == h;
    }
  }

  /** Over every interleaving: no teardown runs twice, none runs while its bot still
      holds it, and none that was displaced is forgotten. */
  lemma {:induction false} TeardownsRunOnce(events: seq<Event>)
    ensures ExactlyOnce(Run(EMPTY, events))
  {
    if events != [] {
      TeardownsRunOnce(events[..|events| - 1]);
      StepExactlyOnce(Run(EMPTY, events[..|events| - 1]), events[|events| - 1]);
    }
  }

  /** A replacement takes the slot with a new handle and starts the one it displaces; other
      bots keep theirs. */
  lemma ReplacementTakesSlot(s: State, key: string, other: string)
    ensures var t := Step(s, Replace(key));
      && key in t.registry && t.registry[key] == s.issued && t.issued == s.issued + 1
      && t.started == s.started + (if key in s.registry then multiset{s.registry[key]} else multiset{})
      && t.waiting == s.waiting
      && (other != key ==> (other in t.registry <==> other in s.registry)
                           && (other in s.registry ==> t.registry[other] == s.registry[other]))
  {
  }

  /** A retirement whose transport went empties the slot and starts its handle; one that is
      not under way does nothing, and beginning one only waits. */
  lemma RetirementRunsHandle(s: State, key: string, other: string)
    ensures var (t, w) := (Step(s, TransportGone(key)), Step(s, BeginRetire(key)));
      && (key !in s.waiting ==> t == s)
      && (key in s.waiting ==>
            && key !in t.registry && t.issued == s.issued && t.waiting == s.waiting - multiset{key}
            && t.started == s.started + (if key in s.registry then multiset{s.registry[key]} else multiset{})
            && (other != key ==> (other in t.registry <==> other in s.registry)
                                 && (other in s.registry ==> t.registry[other] == s.registry[other])))
      && w == s.(waiting := s.waiting + multiset{key})
  {
  }

  /** A refused retirement keeps the bot fully wired. */
  lemma RefusalKeepsWiring(s: State, key: string)
    ensures var t := Step(Step(s, BeginRetire(key)), TransportRefused(key));
      t.registry == s.registry && t.started == s.started && t.waiting == s.waiting
  {
  }

  class WiringRegistry {
    var registry: map<string, Handle>
    var started: multiset<Handle>
    var issued: nat
    var waiting: multiset<string>

    function Contents(): State
      reads this
    {
      State(registry, started, issued, waiting)
    }

    /** The displaced handle is taken and started in the same stretch. */
    method ReplaceBotWiring(key: string)
      modifies this
      ensures Contents() == Step(old(Contents()), Replace(key))
    {
      var outgoing := Displaced(Contents(), key);
      registry := registry[key := issued];
      issued := issued + 1;
      started := started + outgoing;
    }

    method BeginRetireBot(key: string)
      modifies this`waiting
      ensures Contents() == Step(old(Contents()), BeginRetire(key))
    {
      waiting := waiting + multiset{key};
    }

    /** What a retirement does once its transport has answered. */
    method FinishRetireBot(key: string, gone: bool)
      requires key in waiting
      modifies this
      ensures Contents() == Step(old(Contents()), if gone then TransportGone(key) else TransportRefused(key))
    {
      waiting := waiting - multiset{key};
      if gone {
        var teardown := Displaced(Contents(), key);
        registry := registry - {key};
        started := started + teardown;
      }
    }
  }
}

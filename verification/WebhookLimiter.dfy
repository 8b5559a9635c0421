/** The webhook server's two token buckets: one per hook, spent by authenticated
    requests, and one per hook and caller address, spent by bearer failures. */
module WebhookLimiter {

  datatype Option<+T> = None | Some(value: T)

  datatype Bucket = Bucket(tokens: int, lastRefill: int, lockedUntil: int)

  const REFILL_MS := 60_000

  const MAX_PRE_AUTH_BUCKETS := 10_000

  /** `max` tokens, and a lockout of `lockoutMs` once they run out. */
  datatype Limits = Limits(max: int, lockoutMs: int)

  function CeilSeconds(ms: int): int {
    -((-ms) / 1000)
  }

  lemma CeilSecondsIsLeast(ms: int, k: int)
    ensures CeilSeconds(ms) * 1000 >= ms
    ensures k * 1000 >= ms ==> k >= CeilSeconds(ms)
  {
  }

  // ---- One bucket ----------------------------------------------------------

  function Min(a: int, b: int): int {
    if a < b then a else b
  }

  function Refilled(b: Bucket, l: Limits, now: int): Bucket {
    var elapsed := now - b.lastRefill;
    if elapsed >= REFILL_MS
    then b.(tokens := Min(l.max, b.tokens + elapsed / REFILL_MS), lastRefill := now)
    else b
  }

  /** The bucket afterwards, and the seconds to wait when the request is refused. */
  function Consume(b: Bucket, l: Limits, now: int): (Bucket, Option<int>) {
    if now < b.lockedUntil then (b, Some(CeilSeconds(b.lockedUntil - now)))
    else
      var r := Refilled(b, l, now);
      if r.tokens <= 0 then (r.(lockedUntil := now + l.lockoutMs), Some(CeilSeconds(l.lockoutMs)))
      else (r.(tokens := r.tokens - 1), None)
  }

  function FreshBucket(l: Limits, now: int): Bucket {
    Bucket(l.max, now, 0)
  }

  /** Credit: what a bucket can still admit up to time `now`. */
  function Credit(b: Bucket, now: int): int {
    b.tokens + (now - b.lastRefill) / REFILL_MS
  }

  ghost predicate Sane(b: Bucket, l: Limits, now: int) {
    0 <= b.tokens <= l.max && b.lastRefill <= now
  }

  lemma DivSums(x: int, y: int)
    requires x >= 0 && y >= 0
    ensures x / REFILL_MS + y / REFILL_MS <= (x + y) / REFILL_MS
  {
  }

  /** A request costs its admission out of the credit, whenever that is counted. */
  lemma ConsumeSpendsCredit(b: Bucket, l: Limits, now: int, later: int)
    requires l.max > 0 && Sane(b, l, now) && now <= later
    ensures var (c, refused) := Consume(b, l, now);
      Sane(c, l, now) && Credit(c, later) + (if refused.None? then 1 else 0) <= Credit(b, later)
  {
    var elapsed := now - b.lastRefill;
    DivSums(elapsed, later - now);
    assert elapsed + (later - now) == later - b.lastRefill;
  }

  /** A refusal names the least whole number of seconds that reaches the unlock time,
      and until then the bucket is left exactly as it is. */
  lemma RefusalIsExact(b: Bucket, l: Limits, now: int, k: int)
    ensures var (c, refused) := Consume(b, l, now);
      refused.Some? ==>
        && now + refused.value * 1000 >= c.lockedUntil
        && (now + k * 1000 >= c.lockedUntil ==> k >= refused.value)
        && (forall t {:trigger Consume(c, l, t)} :: now <= t < c.lockedUntil ==>
              Consume(c, l, t) == (c, Some(CeilSeconds(c.lockedUntil - t))))
  {
    var (c, refused) := Consume(b, l, now);
    CeilSecondsIsLeast(c.lockedUntil - now, k);
  }

  /** The first request at or after the unlock time goes through exactly when a full
      minute has passed since the last refill; a lockout of a minute or more
      guarantees it. */
  lemma RecoversIff(b: Bucket, l: Limits, now: int, then_: int)
    requires l.max > 0 && Sane(b, l, now) && now >= b.lockedUntil && Consume(b, l, now).1.Some?
    requires then_ >= Consume(b, l, now).0.lockedUntil && then_ >= now
    ensures var c := Consume(b, l, now).0;
      && (Consume(c, l, then_).1.None? <==> then_ - c.lastRefill >= REFILL_MS)
      && (l.lockoutMs >= REFILL_MS ==> Consume(c, l, then_).1.None?)
  {
  }

  /** A bucket that runs out is locked for exactly the configured time. */
  lemma LockoutAsConfigured(b: Bucket, l: Limits, now: int)
    requires b.lockedUntil <= now
    ensures var (c, refused) := Consume(b, l, now);
      && (refused.Some? ==> c.lockedUntil == now + l.lockoutMs)
      && (refused.None? ==> c.lockedUntil == b.lockedUntil)
  {
  }

  /** A refill starts the minute anew, so what is left of a started minute is lost: a bucket
      that runs empty after it admits nobody for the whole minute that follows. */
  lemma RefillStartsAnew(b: Bucket, l: Limits, now: int, t: int)
    requires b.lockedUntil <= now
    ensures var c := Consume(b, l, now).0;
      && c.lastRefill == (if now - b.lastRefill >= 60_000 then now else b.lastRefill)
      && (now - b.lastRefill >= 60_000 && c.tokens <= 0 && now <= t < now + 60_000 ==> Consume(c, l, t).1.Some?)
  {
  }

  /** The bucket and the number of admissions after requests at the given times. */
  function Spent(b: Bucket, l: Limits, times: seq<int>): (Bucket, nat)
    decreases |times|
  {
    if times == [] then (b, 0)
    else
      var (c, refused) := Consume(b, l, times[0]);
      var (d, n) := Spent(c, l, times[1..]);
      (d, n + if refused.None? then 1 else 0)
  }

  ghost predicate Rising(times: seq<int>, from: int) {
    times == [] || (from <= times[0] && Rising(times[1..], times[0]))
  }

  /** An unlocked bucket refuses nobody while it has tokens: as many requests as it
      holds all go through, however close together, and with no refill in between
      that is all of them. */
  lemma {:induction false} TokensAreHonoured(b: Bucket, l: Limits, times: seq<int>, from: int)
    requires Sane(b, l, from) && b.lockedUntil <= from && Rising(times, from)
    ensures |times| <= b.tokens ==> Spent(b, l, times).1 == |times|
    ensures |times| > b.tokens && times[|times| - 1] - b.lastRefill < REFILL_MS && l.lockoutMs >= REFILL_MS ==>
      Spent(b, l, times).1 == b.tokens
    decreases |times|
  {
    if times != [] {
      var c := Consume(b, l, times[0]).0;
      var rest := times[1..];
      RisingEnds(times, from);
      if b.tokens > 0 {
        assert Refilled(b, l, times[0]).tokens > 0;
        TokensAreHonoured(c, l, rest, times[0]);
      } else if times[|times| - 1] - b.lastRefill < REFILL_MS && l.lockoutMs >= REFILL_MS {
        LockedOut(c, l, rest, times[0]);
      }
    }
  }

  /** The same instant, over and over. */
  function Burst(now: int, n: nat): seq<int> {
    if n == 0 then [] else [now] + Burst(now, n - 1)
  }

  /** Of any number of requests at one instant an unlocked bucket admits exactly as many as
      it holds, one more for every full minute since the last refill included, but never
      more than its maximum after a refill. */
  lemma {:induction false} BurstIsExact(b: Bucket, l: Limits, now: int, n: nat)
    requires l.max > 0 && Sane(b, l, now) && b.lockedUntil <= now
    ensures var minutes := (now - b.lastRefill) / 60_000;
      var held := if b.tokens + minutes < l.max then b.tokens + minutes else l.max;
      Spent(b, l, Burst(now, n)).1 == if n < held then n else held
    decreases n
  {
    if n > 0 {
      var (c, refused) := Consume(b, l, now);
      assert Burst(now, n)[1..] == Burst(now, n - 1);
      if refused.None? {
        BurstIsExact(c, l, now, n - 1);
      } else if l.lockoutMs > 0 {
        BurstRefused(c, l, now, n - 1);
      } else {
        EmptyRefuses(c, l, now, n - 1);
      }
    }
  }

  lemma {:induction false} BurstRefused(b: Bucket, l: Limits, now: int, n: nat)
    requires now < b.lockedUntil
    ensures Spent(b, l, Burst(now, n)).1 == 0
  {
    if n > 0 {
      assert Burst(now, n)[1..] == Burst(now, n - 1);
      BurstRefused(b, l, now, n - 1);
    }
  }

  lemma {:induction false} EmptyRefuses(b: Bucket, l: Limits, now: int, n: nat)
    requires b.tokens <= 0 && 0 <= now - b.lastRefill < REFILL_MS
    ensures Spent(b, l, Burst(now, n)).1 == 0
    decreases n
  {
    if n > 0 {
      assert Burst(now, n)[1..] == Burst(now, n - 1);
      EmptyRefuses(Consume(b, l, now).0, l, now, n - 1);
    }
  }

  /** So a new bucket admits exactly its maximum at once. */
  lemma FreshAdmitsMaximum(l: Limits, now: int, n: nat)
    requires l.max > 0 && now >= 0
    ensures Spent(FreshBucket(l, now), l, Burst(now, n)).1 == if n < l.max then n else l.max
  {
    BurstIsExact(FreshBucket(l, now), l, now, n);
  }

  lemma {:induction false} RisingEnds(times: seq<int>, from: int)
    requires times != [] && Rising(times, from)
    ensures forall k | 0 <= k < |times| :: from <= times[k] <= times[|times| - 1]
  {
    if |times| > 1 {
      RisingEnds(times[1..], times[0]);
    }
  }

  lemma {:induction false} LockedOut(b: Bucket, l: Limits, times: seq<int>, from: int)
    requires Rising(times, from) && (times != [] ==> times[|times| - 1] < b.lockedUntil)
    ensures Spent(b, l, times) == (b, 0)
    decreases |times|
  {
    if times != [] {
      RisingEnds(times, from);
      LockedOut(b, l, times[1..], times[0]);
    }
  }

  // ---- The server ----------------------------------------------------------

  datatype Source = Source(hook: string, address: string)

  /** A request, with the two clock readings its handling takes. */
  datatype Request = Request(source: Source, authorized: bool, checkedAt: int, spentAt: int)

  datatype Decision = Admitted | Unauthorized | RateLimited(retryAfter: int) | UnknownHook

  datatype Server = Server(rate: map<string, Bucket>, preAuth: map<Source, Bucket>)

  /** Hooks by id, with the limits of those that have any. */
  type Hooks = map<string, Option<Limits>>

  ghost predicate ValidHooks(hooks: Hooks) {
    forall h | h in hooks && hooks[h].Some? :: hooks[h].value.max > 0
  }

  function Lookup<K>(buckets: map<K, Bucket>, key: K, l: Limits, now: int): Bucket {
    if key in buckets then buckets[key] else FreshBucket(l, now)
  }

  /** Past the size limit every entry that is not locked is dropped. */
  function Pruned(buckets: map<Source, Bucket>, now: int): map<Source, Bucket> {
    if |buckets| <= MAX_PRE_AUTH_BUCKETS then buckets
    else map key | key in buckets && now < buckets[key].lockedUntil :: buckets[key]
  }

  /** The unlock time the pre-auth check reads; 0 when there is no bucket. */
  function LockedUntil(s: Server, source: Source): int {
    if source in s.preAuth then s.preAuth[source].lockedUntil else 0
  }

  function Handle(hooks: Hooks, s: Server, r: Request): (Server, Decision) {
    var hook := r.source.hook;
    if hook !in hooks then (s, UnknownHook)
    else if hooks[hook].None? then (s, if r.authorized then Admitted else Unauthorized)
    else if r.checkedAt < LockedUntil(s, r.source) then
      // A locked source is refused before its bearer is looked at.
      (s, RateLimited(CeilSeconds(LockedUntil(s, r.source) - r.checkedAt)))
    else if !r.authorized then
      var kept := Pruned(s.preAuth, r.spentAt);
      var l := hooks[hook].value;
      var (b, refused) := Consume(Lookup(kept, r.source, l, r.spentAt), l, r.spentAt);
      (s.(preAuth := kept[r.source := b]), if refused.Some? then RateLimited(refused.value) else Unauthorized)
    else
      var l := hooks[hook].value;
      var (b, refused) := Consume(Lookup(s.rate, hook, l, r.spentAt), l, r.spentAt);
      (s.(rate := s.rate[hook := b]), if refused.Some? then RateLimited(refused.value) else Admitted)
  }

  // ---- Traces --------------------------------------------------------------

  function After(hooks: Hooks, s: Server, trace: seq<Request>): Server
    decreases |trace|
  {
    if trace == [] then s else After(hooks, Handle(hooks, s, trace[0]).0, trace[1..])
  }

  function Decisions(hooks: Hooks, s: Server, trace: seq<Request>): (ds: seq<Decision>)
    ensures |ds| == |trace|
    decreases |trace|
  {
    if trace == [] then []
    else
      var (t, d) := Handle(hooks, s, trace[0]);
      [d] + Decisions(hooks, t, trace[1..])
  }

  /** The clock never goes back. */
  ghost predicate Orderly(trace: seq<Request>, from: int, until: int) {
    if trace == [] then from <= until
    else from <= trace[0].checkedAt <= trace[0].spentAt && Orderly(trace[1..], trace[0].spentAt, until)
  }

  lemma {:induction false} OrderlyEnds(trace: seq<Request>, from: int, until: int)
    requires Orderly(trace, from, until)
    ensures from <= until
    ensures forall k | 0 <= k < |trace| :: from <= trace[k].checkedAt <= trace[k].spentAt <= until
  {
    if trace != [] {
      OrderlyEnds(trace[1..], trace[0].spentAt, until);
    }
  }

  /** Every request, on every hook: only a right bearer on a known hook is admitted, and a
      hook without limits answers by the bearer alone and keeps no state. */
  lemma HandleDecides(hooks: Hooks, s: Server, r: Request)
    ensures var (t, d) := Handle(hooks, s, r);
      && (d.UnknownHook? <==> r.source.hook !in hooks)
      && (d.Admitted? ==> r.source.hook in hooks && r.authorized)
      && (d.Unauthorized? ==> r.source.hook in hooks && !r.authorized)
      && (r.source.hook !in hooks ==> t == s)
      && (r.source.hook in hooks && hooks[r.source.hook].None? ==>
            t == s && (d.Admitted? <==> r.authorized) && (d.Unauthorized? <==> !r.authorized))
  {
  }

  /** An authenticated request on a limited hook goes through exactly when its source is
      not locked and the hook's bucket is new, or is not locked either and has a token or
      a full minute behind it. */
  lemma AdmittedIff(hooks: Hooks, s: Server, r: Request)
    requires ValidHooks(hooks) && r.source.hook in hooks && hooks[r.source.hook].Some? && r.authorized
    requires 0 <= r.checkedAt <= r.spentAt && forall h | h in s.rate :: s.rate[h].tokens >= 0
    ensures Handle(hooks, s, r).1.Admitted? <==>
      && (r.source in s.preAuth ==> s.preAuth[r.source].lockedUntil <= r.checkedAt)
      && (r.source.hook in s.rate ==>
            var b := s.rate[r.source.hook];
            b.lockedUntil <= r.spentAt && (b.tokens > 0 || r.spentAt - b.lastRefill >= 60_000))
  {
    if r.source.hook in s.rate {
      var b := s.rate[r.source.hook];
      assert r.spentAt - b.lastRefill >= 60_000 ==> (r.spentAt - b.lastRefill) / REFILL_MS >= 1;
    }
  }

  /** A request changes no bucket but that of its hook, when it is authenticated, or of its
      source, when it is not; other sources can only be forgotten, and only unlocked ones. */
  lemma HandleKeeps(hooks: Hooks, s: Server, r: Request)
    ensures var t := Handle(hooks, s, r).0;
      && (forall h | h != r.source.hook || !r.authorized :: h in t.rate <==> h in s.rate)
      && (forall h | h in s.rate && (h != r.source.hook || !r.authorized) :: t.rate[h] == s.rate[h])
      && (r.authorized ==> t.preAuth == s.preAuth)
      && (forall x | x in t.preAuth && x != r.source :: x in s.preAuth && t.preAuth[x] == s.preAuth[x])
      && (forall x | x in s.preAuth && x !in t.preAuth ::
            |s.preAuth| > 10_000 && s.preAuth[x].lockedUntil <= r.spentAt)
  {
  }

  /** What is spent on a limited hook is spent by its own limits. */
  lemma SpentByItsLimits(hooks: Hooks, s: Server, r: Request)
    requires r.source.hook in hooks && hooks[r.source.hook].Some? && LockedUntil(s, r.source) <= r.checkedAt
    ensures var (t, l) := (Handle(hooks, s, r).0, hooks[r.source.hook].value);
      if r.authorized then
        r.source.hook in t.rate
        && t.rate[r.source.hook] == Consume(Lookup(s.rate, r.source.hook, l, r.spentAt), l, r.spentAt).0
      else
        r.source in t.preAuth
        && t.preAuth[r.source] ==
             Consume(if r.source in s.preAuth && (|s.preAuth| <= 10_000 || r.spentAt < s.preAuth[r.source].lockedUntil)
                     then s.preAuth[r.source] else Bucket(l.max, r.spentAt, 0), l, r.spentAt).0
  {
  }

  /** How many of a hook's authenticated requests go through. */
  function Admissions(hooks: Hooks, s: Server, trace: seq<Request>, hook: string): nat
    decreases |trace|
  {
    if trace == [] then 0
    else
      var (t, d) := Handle(hooks, s, trace[0]);
      (if trace[0].source.hook == hook && d.Admitted? then 1 else 0) + Admissions(hooks, t, trace[1..], hook)
  }

  /** Whatever else is going on, a hook admits no more than its bucket's credit: for a
      new bucket its maximum and one more for every full minute. */
  lemma {:induction false} AdmissionsBounded(
      hooks: Hooks, s: Server, trace: seq<Request>, hook: string, from: int, until: int)
    requires ValidHooks(hooks) && hook in hooks && hooks[hook].Some?
    requires Orderly(trace, from, until)
    requires Sane(Lookup(s.rate, hook, hooks[hook].value, from), hooks[hook].value, from)
    ensures Admissions(hooks, s, trace, hook) <= Credit(Lookup(s.rate, hook, hooks[hook].value, from), until)
    decreases |trace|
  {
    OrderlyEnds(trace, from, until);
    var l := hooks[hook].value;
    var b := Lookup(s.rate, hook, l, from);
    if trace == [] {
      DivSums(until - b.lastRefill, 0);
    } else {
      var r := trace[0];
      var t := Handle(hooks, s, r).0;
      LaterIsPoorer(s.rate, hook, l, from, r.spentAt, until);
      if r.source.hook == hook {
        ConsumeSpendsCredit(Lookup(s.rate, hook, l, r.spentAt), l, r.spentAt, until);
      }
      AdmissionsBounded(hooks, t, trace[1..], hook, r.spentAt, until);
    }
  }

  /** Waiting before a bucket is first needed only costs credit. */
  lemma LaterIsPoorer<K>(buckets: map<K, Bucket>, key: K, l: Limits, from: int, now: int, until: int)
    requires from <= now <= until && Sane(Lookup(buckets, key, l, from), l, from)
    ensures Sane(Lookup(buckets, key, l, now), l, now)
    ensures Credit(Lookup(buckets, key, l, now), until) <= Credit(Lookup(buckets, key, l, from), until)
  {
  }

  /** How many of a source's guesses have their bearer evaluated. */
  function Guesses(hooks: Hooks, s: Server, trace: seq<Request>, source: Source): nat
    decreases |trace|
  {
    if trace == [] then 0
    else
      var (t, d) := Handle(hooks, s, trace[0]);
      (if trace[0].source == source && d.Unauthorized? then 1 else 0) + Guesses(hooks, t, trace[1..], source)
  }

  /** A request with a wrong bearer has it evaluated exactly when its source is not locked
      and either holds a token, a refill included, or is forgotten just then because the
      table is over its limit. */
  lemma GuessEvaluatedIff(hooks: Hooks, s: Server, r: Request)
    requires ValidHooks(hooks) && r.source.hook in hooks && hooks[r.source.hook].Some?
    requires !r.authorized && 0 <= r.checkedAt <= r.spentAt
    ensures var l := hooks[r.source.hook].value;
      Handle(hooks, s, r).1 == Unauthorized <==>
        && LockedUntil(s, r.source) <= r.checkedAt
        && (r.source in s.preAuth && |s.preAuth| <= MAX_PRE_AUTH_BUCKETS ==>
              Refilled(s.preAuth[r.source], l, r.spentAt).tokens > 0)
  {
    var l := hooks[r.source.hook].value;
    if LockedUntil(s, r.source) <= r.checkedAt {
      var kept := Pruned(s.preAuth, r.spentAt);
      var b := Lookup(kept, r.source, l, r.spentAt);
      assert r.source in s.preAuth && |s.preAuth| > MAX_PRE_AUTH_BUCKETS ==> r.source !in kept;
      assert b == FreshBucket(l, r.spentAt) ==> Refilled(b, l, r.spentAt) == b;
    }
  }

  /** The request makes the server drop the source's bucket. */
  predicate Forgets(hooks: Hooks, s: Server, r: Request, source: Source) {
    && r.source.hook in hooks && hooks[r.source.hook].Some?
    && LockedUntil(s, r.source) <= r.checkedAt && !r.authorized
    && source in s.preAuth && source !in Pruned(s.preAuth, r.spentAt)
  }

  /** What a source regains by being forgotten: `max` each time. */
  function Refunds(hooks: Hooks, s: Server, trace: seq<Request>, source: Source, max: int): int
    decreases |trace|
  {
    if trace == [] then 0
    else
      (if Forgets(hooks, s, trace[0], source) then max else 0)
      + Refunds(hooks, Handle(hooks, s, trace[0]).0, trace[1..], source, max)
  }

  /** A source dropped, and perhaps entered afresh, holds at most `max` more. */
  lemma ForgottenRegains(b: Bucket, l: Limits, now: int, until: int)
    requires Sane(b, l, now) && now <= until
    ensures Credit(FreshBucket(l, now), until) <= Credit(b, until) + l.max
  {
  }

  /** One request costs a source's evaluated guess out of its credit, refunded when it
      is forgotten. */
  lemma GuessStep(hooks: Hooks, s: Server, r: Request, source: Source, until: int)
    requires ValidHooks(hooks) && source.hook in hooks && hooks[source.hook].Some?
    requires r.spentAt <= until
    requires Sane(Lookup(s.preAuth, source, hooks[source.hook].value, r.spentAt), hooks[source.hook].value, r.spentAt)
    ensures var (l, (t, d)) := (hooks[source.hook].value, Handle(hooks, s, r));
      && Sane(Lookup(t.preAuth, source, l, r.spentAt), l, r.spentAt)
      && Credit(Lookup(t.preAuth, source, l, r.spentAt), until)
         + (if r.source == source && d.Unauthorized? then 1 else 0)
         <= Credit(Lookup(s.preAuth, source, l, r.spentAt), until)
            + if Forgets(hooks, s, r, source) then l.max else 0
  {
    var l := hooks[source.hook].value;
    var b := Lookup(s.preAuth, source, l, r.spentAt);
    ForgottenRegains(b, l, r.spentAt, until);
    ConsumeSpendsCredit(Lookup(Pruned(s.preAuth, r.spentAt), source, l, r.spentAt), l, r.spentAt, until);
  }

  /** In any trace a source has at most as many guesses evaluated as its bucket has credit
      and `max` more for each time the server forgets it: the admissions' bound exactly
      while it is never forgotten. */
  lemma {:induction false} GuessesBounded(
      hooks: Hooks, s: Server, trace: seq<Request>, source: Source, from: int, until: int)
    requires ValidHooks(hooks) && source.hook in hooks && hooks[source.hook].Some?
    requires Orderly(trace, from, until)
    requires Sane(Lookup(s.preAuth, source, hooks[source.hook].value, from), hooks[source.hook].value, from)
    ensures var l := hooks[source.hook].value;
      Guesses(hooks, s, trace, source)
        <= Credit(Lookup(s.preAuth, source, l, from), until) + Refunds(hooks, s, trace, source, l.max)
    decreases |trace|
  {
    OrderlyEnds(trace, from, until);
    var l := hooks[source.hook].value;
    if trace == [] {
      DivSums(until - Lookup(s.preAuth, source, l, from).lastRefill, 0);
    } else {
      var r := trace[0];
      LaterIsPoorer(s.preAuth, source, l, from, r.spentAt, until);
      GuessStep(hooks, s, r, source, until);
      GuessesBounded(hooks, Handle(hooks, s, r).0, trace[1..], source, r.spentAt, until);
    }
  }

  // ---- A flood that wins a guess back ---------------------------------------

  const ONE_GUESS: Hooks := map["h" := Some(Limits(1, 600_000))]

  /** One source among arbitrarily many. */
  function Caller(i: nat): Source {
    Source("h", seq(i, _ => 'a'))
  }

  lemma CallersDiffer(i: nat, j: nat)
    requires i != j
    ensures Caller(i) != Caller(j)
  {
    assert |Caller(i).address| != |Caller(j).address|;
  }

  function Guess(i: nat): Request {
    Request(Caller(i), false, 0, 0)
  }

  /** One guess from each of `n` sources, all at one instant. */
  function Flood(n: nat): seq<Request> {
    if n == 0 then [] else Flood(n - 1) + [Guess(n - 1)]
  }

  /** The table that leaves: every source out of guesses, none locked. */
  function Crowd(n: nat): map<Source, Bucket> {
    if n == 0 then map[] else Crowd(n - 1)[Caller(n - 1) := Bucket(0, 0, 0)]
  }

  lemma {:induction false} CrowdSize(n: nat)
    ensures |Crowd(n)| == n
    ensures forall i: nat :: Caller(i) in Crowd(n) <==> i < n
    ensures forall k | k in Crowd(n) :: Crowd(n)[k] == Bucket(0, 0, 0)
  {
    if n > 0 {
      CrowdSize(n - 1);
      forall i: nat ensures Caller(i) in Crowd(n) <==> i < n {
        if i != n - 1 {
          CallersDiffer(i, n - 1);
        }
      }
    }
  }

  lemma {:induction false} OneMore(hooks: Hooks, s: Server, trace: seq<Request>, r: Request, source: Source)
    ensures var t := After(hooks, s, trace);
      && After(hooks, s, trace + [r]) == Handle(hooks, t, r).0
      && Guesses(hooks, s, trace + [r], source) ==
         Guesses(hooks, s, trace, source) + if r.source == source && Handle(hooks, t, r).1.Unauthorized? then 1 else 0
    decreases |trace|
  {
    if trace == [] {
      assert trace + [r] == [r];
    } else {
      assert (trace + [r])[1..] == trace[1..] + [r];
      OneMore(hooks, Handle(hooks, s, trace[0]).0, trace[1..], r, source);
    }
  }

  lemma {:induction false} FloodFills(n: nat)
    requires n <= MAX_PRE_AUTH_BUCKETS + 1
    ensures After(ONE_GUESS, Server(map[], map[]), Flood(n)) == Server(map[], Crowd(n))
    ensures Guesses(ONE_GUESS, Server(map[], map[]), Flood(n), Caller(0)) == if n == 0 then 0 else 1
  {
    if n > 0 {
      var start := Server(map[], map[]);
      FloodFills(n - 1);
      CrowdSize(n - 1);
      OneMore(ONE_GUESS, start, Flood(n - 1), Guess(n - 1), Caller(0));
      if n > 1 {
        CallersDiffer(n - 1, 0);
      }
    }
  }

  /** From an empty table, with one guess allowed, a source guesses twice at one instant
      once enough others have guessed in between; its credit was one. */
  lemma FloodWinsAGuess(n: nat)
    requires n == MAX_PRE_AUTH_BUCKETS + 1
    ensures var start := Server(map[], map[]);
      && Guesses(ONE_GUESS, start, Flood(n) + [Guess(0)], Caller(0)) == 2
      && Credit(Lookup(start.preAuth, Caller(0), Limits(1, 600_000), 0), 0) == 1
  {
    FloodFills(n);
    OneMore(ONE_GUESS, Server(map[], map[]), Flood(n), Guess(0), Caller(0));
    CrowdForgives(n);
  }

  lemma CrowdForgives(n: nat)
    requires n == MAX_PRE_AUTH_BUCKETS + 1
    ensures Handle(ONE_GUESS, Server(map[], Crowd(n)), Guess(0)).1 == Unauthorized
  {
    CrowdSize(n);
    GuessEvaluatedIff(ONE_GUESS, Server(map[], Crowd(n)), Guess(0));
  }

  // ---- The two classes of traffic ------------------------------------------

  function Authenticated(trace: seq<Request>): seq<Request> {
    if trace == [] then []
    else (if trace[0].authorized then [trace[0]] else []) + Authenticated(trace[1..])
  }

  /** The decisions on the authenticated requests of a trace. */
  function OwnerDecisions(hooks: Hooks, s: Server, trace: seq<Request>): seq<Decision>
    decreases |trace|
  {
    if trace == [] then []
    else
      var (t, d) := Handle(hooks, s, trace[0]);
      (if trace[0].authorized then [d] else []) + OwnerDecisions(hooks, t, trace[1..])
  }

  /** Authenticated senders and failing guessers come from different addresses. */
  ghost predicate Separate(trace: seq<Request>) {
    forall i, j :: 0 <= i < |trace| && 0 <= j < |trace| && trace[i].authorized && !trace[j].authorized ==>
      trace[i].source != trace[j].source
  }

  ghost predicate Unknown(s: Server, trace: seq<Request>) {
    forall i | 0 <= i < |trace| && trace[i].authorized :: trace[i].source !in s.preAuth
  }

  /** One request of a separate trace: an authenticated one is decided alike, and a
      failing one leaves the hooks' buckets and the other senders' state alone. */
  lemma OneRequest(hooks: Hooks, s: Server, quiet: Server, trace: seq<Request>)
    requires trace != [] && Separate(trace) && Unknown(s, trace) && Unknown(quiet, trace) && s.rate == quiet.rate
    ensures Separate(trace[1..]) && Unknown(Handle(hooks, s, trace[0]).0, trace[1..]) && Unknown(quiet, trace[1..])
    ensures trace[0].authorized ==>
      var (t, d) := Handle(hooks, s, trace[0]);
      var (q, e) := Handle(hooks, quiet, trace[0]);
      d == e && t.rate == q.rate && Unknown(q, trace[1..])
    ensures !trace[0].authorized ==> Handle(hooks, s, trace[0]).0.rate == s.rate
  {
    var t := Handle(hooks, s, trace[0]).0;
    assert forall i :: 0 <= i < |trace[1..]| ==> trace[1..][i] == trace[i + 1];
    forall i | 0 <= i < |trace[1..]| && trace[1..][i].authorized ensures trace[1..][i].source !in t.preAuth {
      assert trace[i + 1].source !in s.preAuth;
      assert !trace[0].authorized ==> trace[i + 1].source != trace[0].source;
    }
  }

  /** No amount of failing traffic from other addresses changes a single decision
      on the authenticated requests: erasing it all gives the same answers. */
  lemma {:induction false} GuessingIsInvisible(hooks: Hooks, s: Server, quiet: Server, trace: seq<Request>)
    requires Separate(trace) && Unknown(s, trace) && Unknown(quiet, trace) && s.rate == quiet.rate
    ensures OwnerDecisions(hooks, s, trace) == Decisions(hooks, quiet, Authenticated(trace))
    decreases |trace|
  {
    if trace != [] {
      var t := Handle(hooks, s, trace[0]).0;
      OneRequest(hooks, s, quiet, trace);
      if trace[0].authorized {
        GuessingIsInvisible(hooks, t, Handle(hooks, quiet, trace[0]).0, trace[1..]);
        assert Authenticated(trace)[1..] == Authenticated(trace[1..]);
      } else {
        GuessingIsInvisible(hooks, t, quiet, trace[1..]);
        assert Authenticated(trace) == Authenticated(trace[1..]);
        assert OwnerDecisions(hooks, s, trace) == OwnerDecisions(hooks, t, trace[1..]);
      }
    }
  }

  /** A locked source stays refused until its unlock time, whatever other traffic,
      further guesses and pruning happen meanwhile, and is told when to come back. */
  lemma {:induction false} LockedStaysRefused(hooks: Hooks, s: Server, trace: seq<Request>, source: Source)
    requires source.hook in hooks && hooks[source.hook].Some? && source in s.preAuth
    requires forall k | 0 <= k < |trace| :: trace[k].checkedAt <= trace[k].spentAt < s.preAuth[source].lockedUntil
    ensures source in After(hooks, s, trace).preAuth && After(hooks, s, trace).preAuth[source] == s.preAuth[source]
    ensures forall k | 0 <= k < |trace| && trace[k].source == source ::
      Decisions(hooks, s, trace)[k] == RateLimited(CeilSeconds(s.preAuth[source].lockedUntil - trace[k].checkedAt))
    decreases |trace|
  {
    if trace != [] {
      var t := Handle(hooks, s, trace[0]).0;
      assert source in t.preAuth && t.preAuth[source] == s.preAuth[source];
      assert forall i :: 0 <= i < |trace[1..]| ==> trace[1..][i] == trace[i + 1];
      LockedStaysRefused(hooks, t, trace[1..], source);
      forall k | 0 <= k < |trace| && trace[k].source == source
        ensures Decisions(hooks, s, trace)[k]
             == RateLimited(CeilSeconds(s.preAuth[source].lockedUntil - trace[k].checkedAt))
      {
        if k > 0 {
          assert Decisions(hooks, s, trace)[k] == Decisions(hooks, t, trace[1..])[k - 1];
          assert trace[1..][k - 1].source == source;
        }
      }
    }
  }

  // ---- The tables in place -------------------------------------------------

  class BucketTable<K(==)> {
    var buckets: map<K, Bucket>

    constructor ()
      ensures buckets == map[]
    {
      buckets := map[];
    }

    method ConsumeRateLimitToken(key: K, maxTokens: int, lockoutMs: int, now: int) returns (retryAfter: Option<int>)
      modifies this
      ensures var l := Limits(maxTokens, lockoutMs);
        var (b, refused) := Consume(Lookup(old(buckets), key, l, now), l, now);
        retryAfter == refused && buckets == old(buckets)[key := b]
    {
      if key !in buckets {
        buckets := buckets[key := Bucket(maxTokens, now, 0)];
      }
      var bucket := buckets[key];
      if now < bucket.lockedUntil {
        return Some(CeilSeconds(bucket.lockedUntil - now));
      }
      var elapsed := now - bucket.lastRefill;
      if elapsed >= REFILL_MS {
        var refills := elapsed / REFILL_MS;
        bucket := bucket.(tokens := Min(maxTokens, bucket.tokens + refills), lastRefill := now);
        buckets := buckets[key := bucket];
      }
      if bucket.tokens <= 0 {
        buckets := buckets[key := bucket.(lockedUntil := now + lockoutMs)];
        return Some(CeilSeconds(lockoutMs));
      }
      buckets := buckets[key := bucket.(tokens := bucket.tokens - 1)];
      return None;
    }
  }

  class WebhookServer {
    const hooks: Hooks
    const rateBuckets: BucketTable<string>
    const preAuthBuckets: BucketTable<Source>

    function Contents(): Server
      reads rateBuckets, preAuthBuckets
    {
      Server(rateBuckets.buckets, preAuthBuckets.buckets)
    }

    constructor (hooks: Hooks)
      ensures this.hooks == hooks && Contents() == Server(map[], map[])
      ensures fresh(rateBuckets) && fresh(preAuthBuckets)
    {
      this.hooks := hooks;
      rateBuckets := new BucketTable<string>();
      preAuthBuckets := new BucketTable<Source>();
    }

    /** Deletes while iterating; the iteration may meet the keys in any order. */
    method PrunePreAuthBuckets(now: int)
      modifies preAuthBuckets
      ensures preAuthBuckets.buckets == Pruned(old(preAuthBuckets.buckets), now)
    {
      var buckets := preAuthBuckets.buckets;
      if |buckets| <= MAX_PRE_AUTH_BUCKETS {
        return;
      }
      var todo := buckets.Keys;
      while todo != {}
        invariant todo <= buckets.Keys
        invariant preAuthBuckets.buckets.Keys <= buckets.Keys
        invariant forall key | key in buckets ::
          key in preAuthBuckets.buckets <==> key in todo || now < buckets[key].lockedUntil
        invariant forall key | key in preAuthBuckets.buckets :: preAuthBuckets.buckets[key] == buckets[key]
        decreases |todo|
      {
        var key :| key in todo;
        if now >= buckets[key].lockedUntil {
          preAuthBuckets.buckets := preAuthBuckets.buckets - {key};
        }
        todo := todo - {key};
      }
    }

    /** The admission part of a request's handling. */
    method Admission(r: Request) returns (d: Decision)
      modifies rateBuckets, preAuthBuckets
      ensures (Contents(), d) == Handle(hooks, old(Contents()), r)
    {
      var hook := r.source.hook;
      if hook !in hooks {
        return UnknownHook;
      }
      var limited := hooks[hook].Some?;
      if limited {
        var lockedUntil := LockedUntil(Contents(), r.source);
        if r.checkedAt < lockedUntil {
          return RateLimited(CeilSeconds(lockedUntil - r.checkedAt));
        }
      }
      if !r.authorized {
        if limited {
          var l := hooks[hook].value;
          PrunePreAuthBuckets(r.spentAt);
          var retryAfter := preAuthBuckets.ConsumeRateLimitToken(r.source, l.max, l.lockoutMs, r.spentAt);
          if retryAfter.Some? {
            return RateLimited(retryAfter.value);
          }
        }
        return Unauthorized;
      }
      if limited {
        var l := hooks[hook].value;
        var retryAfter := rateBuckets.ConsumeRateLimitToken(hook, l.max, l.lockoutMs, r.spentAt);
        if retryAfter.Some? {
          return RateLimited(retryAfter.value);
        }
      }
      return Admitted;
    }
  }
}

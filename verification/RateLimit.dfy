/**
 The fixed-window rate limiter: a Redis counter per client, method and path,
 whose INCR and EXPIRE are separate steps that other requests may come between.
 */
module RateLimit {
  import opened Domain

  // ------------------------------------------------------------- Redis counter

  /** A live key: its count and, once EXPIRE has been sent, when it goes away. */
  datatype Counter = Counter(count: nat, expiresAt: Option<Time>)

  predicate Live(c: Option<Counter>, now: Time) {
    c.Some? && (c.value.expiresAt.Some? ==> now < c.value.expiresAt.value)
  }

  /** `INCR`: a missing or expired key starts again from zero without an expiry. */
  function Incremented(c: Option<Counter>, now: Time): Counter {
    if Live(c, now) then c.value.(count := c.value.count + 1) else Counter(1, None)
  }

  /** `EXPIRE`: no effect on a missing or expired key. */
  function Expiring(c: Option<Counter>, window: Time, now: Time): Option<Counter> {
    if Live(c, now) then Some(c.value.(expiresAt := Some(now + window))) else c
  }

  // --------------------------------------------------------------------- guard

  /** What the guard looks at of a request; `route` is the matched route pattern. */
  datatype HttpRequest = HttpRequest(ip: Option<string>, verb: string, route: Option<string>, path: string)

  type Key = string

  /** `rate-limit:<identifier>:<method>:<path>`. */
  function KeyOf(request: HttpRequest): Key {
    var identifier := if request.ip.Some? then request.ip.value else "unknown-ip";
    var path := if request.route.Some? then request.route.value else request.path;
    "rate-limit:" + identifier + ":" + request.verb + ":" + path
  }

  function CounterAt(counters: map<Key, Counter>, key: Key): Option<Counter> {
    if key in counters then Some(counters[key]) else None
  }

  /** One call of the guard. */
  datatype Call = Call(isPublic: bool, request: HttpRequest, at: Time)

  /** What a call alone does to the counters: arrival, and expiry if it opened the key. */
  function Guarded(counters: map<Key, Counter>, call: Call, window: Time): map<Key, Counter> {
    if call.isPublic then counters
    else
      var key := KeyOf(call.request);
      var counted := Incremented(CounterAt(counters, key), call.at);
      counters[key := if counted.count == 1 then counted.(expiresAt := Some(call.at + window)) else counted]
  }

  class RedisService {
    var counters: map<Key, Counter>

    constructor ()
      ensures counters == map[]
    {
      counters := map[];
    }

    method Incr(key: Key, now: Time) returns (count: nat)
      modifies this
      ensures counters == old(counters)[key := Incremented(CounterAt(old(counters), key), now)]
      ensures count == counters[key].count
    {
      var next := if key in counters && (counters[key].expiresAt.Some? ==> now < counters[key].expiresAt.value)
                  then counters[key].(count := counters[key].count + 1) else Counter(1, None);
      counters := counters[key := next];
      count := next.count;
    }

    method Expire(key: Key, seconds: Time, now: Time)
      modifies this
      ensures key in old(counters) && Live(Some(old(counters)[key]), now)
              ==> counters == old(counters)[key := old(counters)[key].(expiresAt := Some(now + seconds))]
      ensures !(key in old(counters) && Live(Some(old(counters)[key]), now)) ==> counters == old(counters)
    {
      if key in counters && (counters[key].expiresAt.Some? ==> now < counters[key].expiresAt.value) {
        counters := counters[key := counters[key].(expiresAt := Some(now + seconds))];
      }
    }
  }

  class RedisRateLimitGuard {
    const redis: RedisService
    const maxRequests: nat
    const windowSeconds: Time

    constructor (redis: RedisService, maxRequests: nat, windowSeconds: Time)
      ensures this.redis == redis && this.maxRequests == maxRequests && this.windowSeconds == windowSeconds
    {
      this.redis, this.maxRequests, this.windowSeconds := redis, maxRequests, windowSeconds;
    }

    /** False stands for the 429 exception. */
    method CanActivate(isPublic: bool, request: HttpRequest, now: Time) returns (admitted: bool)
      modifies redis
      ensures isPublic ==> admitted && redis.counters == old(redis.counters)
      ensures redis.counters == Guarded(old(redis.counters), Call(isPublic, request, now), windowSeconds)
      ensures !isPublic ==> KeyOf(request) in redis.counters
                            && admitted == (redis.counters[KeyOf(request)].count <= maxRequests)
    {
      if isPublic { return true; }
      var key := KeyOf(request);
      var count := redis.Incr(key, now);
      if count == 1 {
        redis.Expire(key, windowSeconds, now);
      }
      admitted := !(count > maxRequests);
    }
  }

  // ------------------------------------------------- one key under concurrency

  /** One counted request: when its INCR ran, in which lifetime of the key, and what it returned. */
  datatype Arrival = Arrival(at: Time, life: nat, count: nat)

  /** `opening` holds the requests whose INCR returned 1 and whose EXPIRE is still to come. */
  datatype State = State(counter: Option<Counter>, now: Time, life: nat, opening: seq<nat>, log: seq<Arrival>)

  const IDLE := State(None, 0, 0, [], [])

  function Bare(counter: Option<Counter>, now: Time): State {
    State(counter, now, 0, [], [])
  }

  /** `LoseExpire`: the client or Redis fails between INCR and EXPIRE. */
  datatype Step = Wait(duration: Time) | Arrive | SendExpire | LoseExpire

  function Do(s: State, step: Step, window: Time): State {
    match step
    case Wait(duration) => s.(now := s.now + duration)
    case Arrive =>
      var life := if Live(s.counter, s.now) then s.life else s.life + 1;
      var counter := Incremented(s.counter, s.now);
      s.(counter := Some(counter), life := life, log := s.log + [Arrival(s.now, life, counter.count)],
         opening := if counter.count == 1 then s.opening + [life] else s.opening)
    case SendExpire =>
      if s.opening == [] then s
      else s.(counter := Expiring(s.counter, window, s.now), opening := s.opening[1..])
    case LoseExpire =>
      if s.opening == [] then s else s.(opening := s.opening[1..])
  }

  function DoAll(s: State, steps: seq<Step>, window: Time): State {
    if steps == [] then s else Do(DoAll(s, steps[..|steps| - 1], window), steps[|steps| - 1], window)
  }

  function Run(steps: seq<Step>, window: Time): State {
    DoAll(IDLE, steps, window)
  }

  /** Alone, a call takes the machine's arrival on its key and, when it opened the key, the machine's expiry. */
  lemma CallIsTheMachines(counters: map<Key, Counter>, call: Call, window: Time)
    requires !call.isPublic
    ensures var key, after := KeyOf(call.request), Guarded(counters, call, window);
      var arrived := Do(Bare(CounterAt(counters, key), call.at), Arrive, window);
      && key in after && after[key].count == arrived.log[0].count
      && Some(after[key]) == (if arrived.opening != [] then Do(arrived, SendExpire, window) else arrived).counter
      && forall other :: other != key ==> CounterAt(after, other) == CounterAt(counters, other)
  {
  }

  // ----------------------------------------------------------------- invariant

  /** Within a lifetime counts are 1, 2, 3, ... */
  predicate Counted(log: seq<Arrival>, k: nat)
    requires k < |log|
  {
    && 1 <= log[k].count <= k + 1
    && First(log, k).life == log[k].life && First(log, k).count == 1
  }

  /** The arrival that opened the lifetime of arrival `k`. */
  function First(log: seq<Arrival>, k: nat): Arrival
    requires k < |log| && 1 <= log[k].count <= k + 1
  {
    log[k + 1 - log[k].count]
  }

  /** A later lifetime starts at least a window after an earlier one did. */
  predicate Later(a: Arrival, b: Arrival, window: Time) {
    && a.at <= b.at && a.life <= b.life
    && (a.life == b.life ==> a.count < b.count)
    && (a.life < b.life ==> Ended(a, b.at, window))
  }

  /** By time `t` the lifetime of `a` is over; a window of zero ends it at once. */
  predicate Ended(a: Arrival, t: Time, window: Time) {
    (window >= 1 ==> a.at < t) && (a.count == 1 ==> a.at + window <= t)
  }

  predicate Ordered(log: seq<Arrival>, window: Time) {
    forall k, m :: 0 <= k < m < |log| ==> Later(log[k], log[m], window)
  }

  predicate AllCounted(log: seq<Arrival>) {
    forall k :: 0 <= k < |log| ==> Counted(log, k)
  }

  predicate AllEnded(log: seq<Arrival>, t: Time, window: Time) {
    forall k :: 0 <= k < |log| ==> Ended(log[k], t, window)
  }

  /** The counter repeats the last arrival; an expiry time lies beyond everything counted so far. */
  predicate CounterInv(s: State, window: Time) {
    if s.counter.None? then s.log == [] && s.life == 0
    else
      && s.log != [] && s.log[|s.log| - 1].life == s.life && s.log[|s.log| - 1].count == s.counter.value.count
      && s.log[|s.log| - 1].at <= s.now && s.counter.value.count >= 1
      && (s.counter.value.expiresAt.Some? ==> AllEnded(s.log, s.counter.value.expiresAt.value, window))
  }

  predicate OpeningInv(s: State) {
    && |s.opening| <= 1
    && (s.opening != [] ==> s.counter.Some? && s.counter.value.expiresAt.None?)
  }

  predicate WindowInv(s: State, window: Time) {
    Ordered(s.log, window) && AllCounted(s.log) && CounterInv(s, window) && OpeningInv(s)
  }

  lemma ArriveKeepsOrder(s: State, s': State, window: Time)
    requires Ordered(s.log, window) && CounterInv(s, window) && s' == Do(s, Arrive, window)
    ensures Ordered(s'.log, window)
  {
    var n := |s.log|;
    forall k | 0 <= k < n
      ensures Later(s.log[k], s'.log[n], window)
    {
      assert k < n - 1 ==> Later(s.log[k], s.log[n - 1], window);
      if !Live(s.counter, s.now) { assert Ended(s.log[k], s.counter.value.expiresAt.value, window); }
    }
  }

  lemma ArriveKeepsCounts(s: State, s': State, window: Time)
    requires AllCounted(s.log) && CounterInv(s, window) && s' == Do(s, Arrive, window)
    ensures AllCounted(s'.log)
  {
    var n := |s.log|;
    forall k | 0 <= k <= n
      ensures Counted(s'.log, k)
    {
      if k < n { assert Counted(s.log, k); } else if n > 0 { assert Counted(s.log, n - 1); }
    }
  }

  lemma ArriveKeepsCounter(s: State, s': State, window: Time)
    requires CounterInv(s, window) && OpeningInv(s) && s' == Do(s, Arrive, window)
    ensures CounterInv(s', window) && OpeningInv(s')
  {
    if Live(s.counter, s.now) && s.counter.value.expiresAt.Some? {
      forall k | 0 <= k < |s'.log|
        ensures Ended(s'.log[k], s.counter.value.expiresAt.value, window)
      {
        assert k < |s.log| ==> Ended(s.log[k], s.counter.value.expiresAt.value, window);
      }
    }
  }

  lemma StepKeepsWindow(s: State, step: Step, window: Time, s': State)
    requires WindowInv(s, window) && s' == Do(s, step, window)
    ensures WindowInv(s', window)
  {
    match step
    case Wait(_) =>
    case Arrive =>
      ArriveKeepsOrder(s, s', window);
      ArriveKeepsCounts(s, s', window);
      ArriveKeepsCounter(s, s', window);
    case SendExpire =>
      if s.opening != [] { ExpireKeepsCounter(s, s', window); }
    case LoseExpire =>
  }

  lemma ExpireKeepsCounter(s: State, s': State, window: Time)
    requires WindowInv(s, window) && s.opening != [] && s' == Do(s, SendExpire, window)
    ensures CounterInv(s', window)
  {
    forall k | 0 <= k < |s.log|
      ensures Ended(s.log[k], s.now + window, window)
    {
      assert k < |s.log| - 1 ==> Later(s.log[k], s.log[|s.log| - 1], window);
    }
  }

  lemma {:induction false} RunsKeepWindow(steps: seq<Step>, window: Time)
    ensures WindowInv(Run(steps, window), window)
  {
    if steps != [] {
      RunsKeepWindow(steps[..|steps| - 1], window);
      StepKeepsWindow(Run(steps[..|steps| - 1], window), steps[|steps| - 1], window, Run(steps, window));
    }
  }

  // ------------------------------------------------------------- main results

  predicate Admitted(a: Arrival, max: nat) {
    a.count <= max
  }

  /** The admitted requests of one lifetime. */
  function AdmittedInLife(log: seq<Arrival>, life: nat, max: nat): set<nat> {
    set k | 0 <= k < |log| && log[k].life == life && Admitted(log[k], max)
  }

  /** The admitted requests whose INCR ran in the closed interval of `window` units from `from`. */
  function AdmittedFrom(log: seq<Arrival>, from: Time, window: Time, max: nat): set<nat> {
    set k | 0 <= k < |log| && from <= log[k].at <= from + window && Admitted(log[k], max)
  }

  /** Distinct arrivals of one lifetime have distinct counts. */
  lemma {:induction false} CountsBound(log: seq<Arrival>, window: Time, ks: set<nat>, life: nat, low: nat, max: nat)
    requires Ordered(log, window) && low <= max
    requires forall k :: k in ks ==> k < |log| && log[k].life == life && low < log[k].count <= max
    ensures |ks| <= max - low
    decreases max
  {
    if ks != {} {
      var k :| k in ks;
      if exists m :: m in ks && log[m].count == max {
        var m :| m in ks && log[m].count == max;
        forall i | i in ks - {m} ensures log[i].count <= max - 1 {
          assert i < m ==> Later(log[i], log[m], window);
        }
        CountsBound(log, window, ks - {m}, life, low, max - 1);
        assert |ks - {m}| == |ks| - 1;
      } else {
        CountsBound(log, window, ks, life, low, max - 1);
      }
    }
  }

  /** No run admits more than the maximum in one lifetime of the key. */
  lemma LifetimeAdmitsAtMostMax(steps: seq<Step>, window: Time, life: nat, max: nat)
    ensures |AdmittedInLife(Run(steps, window).log, life, max)| <= max
  {
    RunsKeepWindow(steps, window);
    LifeBound(Run(steps, window).log, window, AdmittedInLife(Run(steps, window).log, life, max), life, max);
  }

  lemma LifeBound(log: seq<Arrival>, window: Time, ks: set<nat>, life: nat, max: nat)
    requires Ordered(log, window) && AllCounted(log)
    requires forall k :: k in ks ==> k < |log| && log[k].life == life && Admitted(log[k], max)
    ensures |ks| <= max
  {
    forall k | k in ks ensures 0 < log[k].count { assert Counted(log, k); }
    CountsBound(log, window, ks, life, 0, max);
  }

  /** Arrivals two lifetimes apart are more than a window apart. */
  lemma TwoLivesApart(log: seq<Arrival>, window: Time, a: nat, b: nat, c: nat)
    requires window >= 1 && Ordered(log, window) && AllCounted(log) && a < |log| && b < |log| && c < |log|
    requires log[a].life < log[b].life < log[c].life
    ensures log[a].at + window < log[c].at
  {
    assert Counted(log, b);
    var f := b + 1 - log[b].count;
    assert Later(log[a], log[f], window) && Later(log[f], log[c], window);
  }

  /** No run admits more than twice the maximum in any interval as long as the window, ends included. */
  lemma IntervalAdmitsAtMostTwiceMax(steps: seq<Step>, window: Time, from: Time, max: nat)
    requires window >= 1
    ensures |AdmittedFrom(Run(steps, window).log, from, window, max)| <= 2 * max
  {
    var log := Run(steps, window).log;
    var ks := AdmittedFrom(log, from, window, max);
    RunsKeepWindow(steps, window);
    if ks != {} {
      EarliestLife(log, ks);
      var a :| a in ks && forall k :: k in ks ==> log[a].life <= log[k].life;
      var first := set k | k in ks && log[k].life == log[a].life;
      LifeBound(log, window, first, log[a].life, max);
      LaterLifeBound(log, window, from, ks - first, a, max);
      assert ks == first + (ks - first);
    }
  }

  lemma LaterLifeBound(log: seq<Arrival>, window: Time, from: Time, ks: set<nat>, a: nat, max: nat)
    requires window >= 1 && Ordered(log, window) && AllCounted(log) && a < |log| && from <= log[a].at
    requires forall k :: k in ks ==>
      k < |log| && Admitted(log[k], max) && log[k].at <= from + window && log[a].life < log[k].life
    ensures |ks| <= max
  {
    if ks != {} {
      var b :| b in ks;
      forall c | c in ks ensures log[c].life == log[b].life {
        if log[b].life < log[c].life { TwoLivesApart(log, window, a, b, c); }
        if log[c].life < log[b].life { TwoLivesApart(log, window, a, c, b); }
      }
      LifeBound(log, window, ks, log[b].life, max);
    }
  }

  lemma {:induction false} EarliestLife(log: seq<Arrival>, ks: set<nat>)
    requires ks != {} && forall k :: k in ks ==> k < |log|
    ensures exists a :: a in ks && forall k :: k in ks ==> log[a].life <= log[k].life
  {
    var k :| k in ks;
    if ks == {k} {
      assert forall m :: m in ks ==> log[k].life <= log[m].life;
    } else {
      EarliestLife(log, ks - {k});
      var a :| a in ks - {k} && forall m :: m in ks - {k} ==> log[a].life <= log[m].life;
      var best := if log[k].life < log[a].life then k else a;
      assert best in ks && forall m :: m in ks ==> log[best].life <= log[m].life;
    }
  }

  function Burst(n: nat): seq<Step> {
    seq(n, _ => Arrive)
  }

  /** Requests that find the key live are counted one after another. */
  lemma {:induction false} BurstCounts(s: State, n: nat, window: Time)
    requires Live(s.counter, s.now) && s.counter.value.count >= 1
    ensures var s' := DoAll(s, Burst(n), window);
      && s' == s.(counter := Some(s.counter.value.(count := s.counter.value.count + n)), log := s'.log)
      && |s'.log| == |s.log| + n && s.log <= s'.log
      && forall k :: |s.log| <= k < |s'.log| ==>
           s'.log[k] == Arrival(s.now, s.life, s.counter.value.count + k - |s.log| + 1)
  {
    if n > 0 {
      assert Burst(n)[..n - 1] == Burst(n - 1) && Burst(n)[n - 1] == Arrive;
      BurstCounts(s, n - 1, window);
    }
  }

  lemma {:induction false} DoneInTwo(s: State, steps: seq<Step>, more: seq<Step>, window: Time)
    ensures DoAll(s, steps + more, window) == DoAll(DoAll(s, steps, window), more, window)
  {
    if more == [] {
      assert steps + more == steps;
    } else {
      assert (steps + more)[..|steps + more| - 1] == steps + more[..|more| - 1];
      DoneInTwo(s, steps, more[..|more| - 1], window);
    }
  }

  lemma DoOne(s: State, a: Step, window: Time)
    ensures DoAll(s, [a], window) == Do(s, a, window)
  {
    assert [a][..0] == [];
  }

  lemma {:induction false} DoTwo(s: State, a: Step, b: Step, window: Time)
    ensures DoAll(s, [a, b], window) == Do(Do(s, a, window), b, window)
  {
    assert [a, b][..1] == [a];
    DoOne(s, a, window);
  }

  lemma {:induction false} AllAdmitted(log: seq<Arrival>, window: Time, max: nat)
    requires forall k :: 0 <= k < |log| ==> log[k].at <= window && Admitted(log[k], max)
    ensures |AdmittedFrom(log, 0, window, max)| == |log|
  {
    if log != [] {
      var n := |log| - 1;
      AllAdmitted(log[..n], window, max);
      assert AdmittedFrom(log, 0, window, max) == AdmittedFrom(log[..n], 0, window, max) + {n};
    }
  }

  /** A lifetime opened and used up at once, `n + 1` requests in all. */
  function Filling(n: nat): seq<Step> {
    [Arrive, SendExpire] + Burst(n)
  }

  lemma FillsOneLife(s: State, n: nat, window: Time, s': State)
    requires window >= 1 && !Live(s.counter, s.now) && s.opening == [] && s' == DoAll(s, Filling(n), window)
    ensures s'.now == s.now && s'.opening == [] && s'.counter == Some(Counter(n + 1, Some(s.now + window)))
    ensures |s'.log| == |s.log| + n + 1 && s.log <= s'.log
    ensures forall k :: |s.log| <= k < |s'.log| ==> s'.log[k].at == s.now && s'.log[k].count <= n + 1
  {
    DoTwo(s, Arrive, SendExpire, window);
    DoneInTwo(s, [Arrive, SendExpire], Burst(n), window);
    BurstCounts(DoAll(s, [Arrive, SendExpire], window), n, window);
  }

  lemma FillsAgain(s: State, s': State, s'': State, n: nat, window: Time)
    requires window >= 1 && s'' == DoAll(s', Filling(n), window)
    requires s'.log == s.log && s'.now == s.now + window && s'.opening == [] && !Live(s'.counter, s'.now)
    requires s.now == 0 && |s.log| == n + 1 && forall k :: 0 <= k <= n ==> s.log[k].at == 0 && s.log[k].count <= n + 1
    ensures |AdmittedFrom(s''.log, 0, window, n + 1)| == 2 * (n + 1)
  {
    FillsOneLife(s', n, window, s'');
    AllAdmitted(s''.log, window, n + 1);
  }

  /** The limit is reached: one full lifetime, and another as soon as the key expires. */
  lemma TwiceMaxIsReached(window: Time, max: nat) returns (steps: seq<Step>)
    requires window >= 1
    ensures |AdmittedFrom(Run(steps, window).log, 0, window, max)| == 2 * max
  {
    if max == 0 {
      steps := [];
      AllAdmitted(Run(steps, window).log, window, max);
    } else {
      var fill := Filling(max - 1);
      var s := DoAll(IDLE, fill, window);
      FillsOneLife(IDLE, max - 1, window, s);
      var s' := DoAll(s, [Wait(window)], window);
      DoOne(s, Wait(window), window);
      FillsAgain(s, s', DoAll(s', fill, window), max - 1, window);
      DoneInTwo(IDLE, fill, [Wait(window)], window);
      DoneInTwo(IDLE, fill + [Wait(window)], fill, window);
      steps := fill + [Wait(window)] + fill;
    }
  }

  /** `n` requests at one instant, each of which opens a lifetime that is over at once. */
  function Churn(n: nat): seq<Step> {
    if n == 0 then [] else Churn(n - 1) + [Arrive, SendExpire]
  }

  lemma {:induction false} ChurnAdmits(n: nat, s: State)
    requires s == Run(Churn(n), 0)
    ensures s.now == 0 && s.opening == [] && !Live(s.counter, 0) && |s.log| == n
    ensures forall k :: 0 <= k < n ==> s.log[k].at == 0 && s.log[k].count == 1
  {
    if n > 0 {
      var before := Run(Churn(n - 1), 0);
      ChurnAdmits(n - 1, before);
      DoneInTwo(IDLE, Churn(n - 1), [Arrive, SendExpire], 0);
      DoTwo(before, Arrive, SendExpire, 0);
    }
  }

  /** Every run keeps the interval bound. */
  ghost predicate BoundHolds(window: Time, max: nat) {
    forall steps, from :: |AdmittedFrom(Run(steps, window).log, from, window, max)| <= 2 * max
  }

  /** The interval bound holds exactly for a window of at least one, or a maximum of zero. */
  lemma {:induction false} BoundNeedsAWindow(window: Time, max: nat)
    ensures BoundHolds(window, max) <==> window >= 1 || max == 0
  {
    if window >= 1 || max == 0 {
      forall steps, from ensures |AdmittedFrom(Run(steps, window).log, from, window, max)| <= 2 * max {
        if window >= 1 {
          IntervalAdmitsAtMostTwiceMax(steps, window, from, max);
        } else {
          NoneWithinZero(steps, window, from);
        }
      }
    } else {
      var log := Run(Churn(2 * max + 1), 0).log;
      ChurnAdmits(2 * max + 1, Run(Churn(2 * max + 1), 0));
      AllAdmitted(log, 0, max);
      assert |AdmittedFrom(Run(Churn(2 * max + 1), window).log, 0, window, max)| > 2 * max;
    }
  }

  lemma NoneWithinZero(steps: seq<Step>, window: Time, from: Time)
    ensures AdmittedFrom(Run(steps, window).log, from, window, 0) == {}
  {
    var log := Run(steps, window).log;
    RunsKeepWindow(steps, window);
    forall k | 0 <= k < |log| ensures !Admitted(log[k], 0) { assert Counted(log, k); }
  }

  /** Once a lifetime's expiry is set, nothing moves it; only an arrival after it starts another lifetime. */
  lemma ExpiryIsFixed(steps: seq<Step>, step: Step, window: Time)
    requires Run(steps, window).counter.Some? && Run(steps, window).counter.value.expiresAt.Some?
    ensures var s, s' := Run(steps, window), Do(Run(steps, window), step, window);
      && (s'.life != s.life <==> step.Arrive? && s.now >= s.counter.value.expiresAt.value)
      && (s'.life == s.life ==> s'.counter.Some? && s'.counter.value.expiresAt == s.counter.value.expiresAt)
  {
    RunsKeepWindow(steps, window);
  }

  /** The first request's EXPIRE was lost: nothing will ever set one. */
  predicate Stuck(s: State) {
    s.counter.Some? && s.counter.value.expiresAt.None? && s.opening == []
  }

  /** Requests admitted after the first `n`. */
  function AdmittedAfter(log: seq<Arrival>, n: nat, max: nat): set<nat> {
    set k | n <= k < |log| && Admitted(log[k], max)
  }

  lemma {:induction false} StuckForGood(steps: seq<Step>, more: seq<Step>, window: Time)
    requires Stuck(Run(steps, window))
    ensures var s, s' := Run(steps, window), Run(steps + more, window);
      && Stuck(s') && s'.life == s.life && s.log <= s'.log && s'.counter.value.count >= s.counter.value.count
      && forall k :: |s.log| <= k < |s'.log| ==> s'.log[k].life == s.life && s'.log[k].count > s.counter.value.count
  {
    if more == [] {
      assert steps + more == steps;
    } else {
      var all := steps + more;
      assert all[..|all| - 1] == steps + more[..|more| - 1];
      RunsKeepWindow(all[..|all| - 1], window);
      StuckForGood(steps, more[..|more| - 1], window);
    }
  }

  /** A key whose EXPIRE was lost never ends: all runs from there on admit only what is left of its maximum. */
  lemma {:induction false} LostExpireEndsAdmission(steps: seq<Step>, more: seq<Step>, window: Time, max: nat)
    requires Stuck(Run(steps, window))
    ensures var count, log := Run(steps, window).counter.value.count, Run(steps + more, window).log;
      |AdmittedAfter(log, |Run(steps, window).log|, max)| <= if count <= max then max - count else 0
  {
    var s, log := Run(steps, window), Run(steps + more, window).log;
    var ks := AdmittedAfter(log, |s.log|, max);
    StuckForGood(steps, more, window);
    RunsKeepWindow(steps + more, window);
    if s.counter.value.count <= max {
      CountsBound(log, window, ks, s.life, s.counter.value.count, max);
    } else {
      assert ks == {};
    }
  }

  /** Unless its EXPIRE was lost, a key can always still come to an end and start afresh. */
  lemma {:induction false} UnstuckCanRestart(s: State, window: Time) returns (more: seq<Step>)
    requires WindowInv(s, window) && s.counter.Some? && !Stuck(s)
    ensures DoAll(s, more, window).life == s.life + 1
  {
    if s.opening != [] {
      var sent := Do(s, SendExpire, window);
      more := [SendExpire] + [Wait(window), Arrive];
      DoneInTwo(s, [SendExpire], [Wait(window), Arrive], window);
      DoOne(s, SendExpire, window);
      DoTwo(sent, Wait(window), Arrive, window);
    } else {
      more := [Wait(s.counter.value.expiresAt.value), Arrive];
      DoTwo(s, Wait(s.counter.value.expiresAt.value), Arrive, window);
    }
  }

  /** A reached key never ends if and only if the EXPIRE after its first request was lost. */
  lemma {:induction false} NeverEndsExactlyWhenStuck(steps: seq<Step>, window: Time)
    requires Run(steps, window).counter.Some?
    ensures Stuck(Run(steps, window)) <==> forall more :: Run(steps + more, window).life == Run(steps, window).life
  {
    if Stuck(Run(steps, window)) {
      forall more ensures Run(steps + more, window).life == Run(steps, window).life {
        StuckForGood(steps, more, window);
      }
    } else {
      RunsKeepWindow(steps, window);
      var more := UnstuckCanRestart(Run(steps, window), window);
      DoneInTwo(IDLE, steps, more, window);
      assert Run(steps + more, window).life != Run(steps, window).life;
    }
  }

  /** A key gets there when the first request's EXPIRE fails. */
  lemma {:induction false} ExpireCanBeLost(window: Time)
    ensures Stuck(Run([Arrive, LoseExpire], window))
  {
    DoTwo(IDLE, Arrive, LoseExpire, window);
  }
}

/**
 * The client request layer's shared state (`api-utils.ts`): a TTL cache keyed
 * by strings, a map of in-flight reads used for de-duplication, and a FIFO
 * queue that lets at most six requests run at once. Each operation is a pure
 * function over the state it touches; the class `RequestLayer` holds the four
 * module-level variables and its methods update them as the source does.
 *
 * Time (`Date.now()`) is a parameter. Promises, request functions and queued
 * `execute` closures are opaque identifiers (`nat`); the asynchronous parts
 * become explicit events: a queued task starts, a running task settles.
 */
module ApiUtils {
  import opened Common
  import opened Strings

  /** `MAX_CONCURRENT_REQUESTS`. */
  const MaxConcurrentRequests: int := 6
  /** The default `ttl` of `setCache`, in milliseconds. */
  const DefaultTtl: int := 30000

  /** One cache slot: the data, when it was stored, and how long it stays fresh. */
  datatype CacheEntry<D> = CacheEntry(data: D, timestamp: int, ttl: int)

  type Cache<D> = map<string, CacheEntry<D>>

  /** The expiry test of `getCached`: strictly more than `ttl` milliseconds have passed. */
  predicate Expired<D>(e: CacheEntry<D>, now: int)
  {
    now - e.timestamp > e.ttl
  }

  /**
   * `getCached(key)` at time `now`: the data of a fresh entry, or `None`; an
   * expired entry is deleted on the way. The second component is the new cache.
   */
  function Lookup<D>(c: Cache<D>, key: string, now: int): (Option<D>, Cache<D>)
  {
    if key !in c then (None, c)
    else if Expired(c[key], now) then (None, c - {key})
    else (Some(c[key].data), c)
  }

  /** `setCache(key, data, ttl)` at time `now`. */
  function Store<D>(c: Cache<D>, key: string, data: D, now: int, ttl: int): Cache<D>
  {
    c[key := CacheEntry(data, now, ttl)]
  }

  /**
   * `clearCache(pattern)`: a truthy (non-empty) pattern drops the keys that
   * contain it; an absent or empty pattern empties the cache.
   */
  function Clear<D>(c: Cache<D>, pattern: Option<string>): Cache<D>
  {
    if pattern.Some? && pattern.value != "" then
      map k | k in c && !Includes(k, pattern.value) :: c[k]
    else
      map[]
  }

  /** A lookup right after a store hits exactly while no more than `ttl` ms have passed. */
  lemma StoreThenLookup<D>(c: Cache<D>, key: string, data: D, stored: int, ttl: int, now: int)
    ensures Lookup(Store(c, key, data, stored, ttl), key, now).0 ==
            (if now - stored <= ttl then Some(data) else None)
  {
  }

  /**
   * A lookup answers from the entry under its own key only, and changes no
   * other key: at most it deletes its own, expired, entry.
   */
  lemma LookupFrame<D>(c: Cache<D>, key: string, now: int)
    ensures var (r, c') := Lookup(c, key, now);
      (r.Some? <==> key in c && !Expired(c[key], now)) &&
      (r.Some? ==> r.value == c[key].data) &&
      (forall k :: k != key ==> (k in c' <==> k in c) && (k in c ==> c'[k] == c[k])) &&
      (key in c' <==> r.Some?)
  {
  }

  /** An entry that has expired stays expired: a later lookup cannot revive it. */
  lemma ExpiredStaysExpired<D>(e: CacheEntry<D>, now: int, later: int)
    requires Expired(e, now) && now <= later
    ensures Expired(e, later)
  {
  }

  /** Storing overwrites: only the latest store under a key is visible. */
  lemma StoreOverwrites<D>(c: Cache<D>, key: string, d1: D, t1: int, l1: int, d2: D, t2: int, l2: int)
    ensures Store(Store(c, key, d1, t1, l1), key, d2, t2, l2) == Store(c, key, d2, t2, l2)
  {
  }

  /**
   * Pattern invalidation removes exactly the keys containing a non-empty
   * pattern and keeps every other entry as it was.
   */
  lemma ClearPatternExact<D>(c: Cache<D>, p: string, k: string)
    requires p != ""
    ensures k in Clear(c, Some(p)) <==> k in c && !Includes(k, p)
    ensures k in Clear(c, Some(p)) ==> Clear(c, Some(p))[k] == c[k]
  {
  }

  /** Without a pattern, or with the empty one, everything is dropped. */
  lemma ClearAllEmpties<D>(c: Cache<D>, p: Option<string>)
    requires p.None? || p.value == ""
    ensures Clear(c, p) == map[]
  {
  }

  /** After invalidating a family, no lookup of a key in that family hits. */
  lemma ClearThenLookupMisses<D>(c: Cache<D>, p: string, key: string, now: int)
    requires Includes(key, p)
    ensures Lookup(Clear(c, Some(p)), key, now).0 == None
  {
    if p == "" {
      ClearAllEmpties(c, Some(p));
    } else {
      ClearPatternExact(c, p, key);
    }
  }

  /** The request slots: `activeRequestCount` and the FIFO `requestQueue` of waiting tasks. */
  datatype Slots = Slots(active: int, waiting: seq<nat>)

  /**
   * The queue's invariant: never more than six running requests, none
   * counted negative, and nobody waits while a slot is free.
   */
  predicate SlotsValid(q: Slots)
  {
    0 <= q.active <= MaxConcurrentRequests && (|q.waiting| > 0 ==> q.active == MaxConcurrentRequests)
  }

  /** `queueRequest`: start at once while a slot is free, otherwise wait at the back; `true` when started. */
  function Submit(q: Slots, task: nat): (Slots, bool)
  {
    if q.active < MaxConcurrentRequests then (Slots(q.active + 1, q.waiting), true)
    else (Slots(q.active, q.waiting + [task]), false)
  }

  /** `processQueue`: admit the head of the queue when a slot is free. */
  function AdmitNext(q: Slots): (Slots, Option<nat>)
  {
    if q.active >= MaxConcurrentRequests || |q.waiting| == 0 then (q, None)
    else (Slots(q.active + 1, q.waiting[1..]), Some(q.waiting[0]))
  }

  /** The `finally` of a running task, whatever its outcome: free the slot, then `processQueue`. */
  function Settle(q: Slots): (Slots, Option<nat>)
  {
    AdmitNext(Slots(q.active - 1, q.waiting))
  }

  /** A task starts at once exactly when a slot is free, and is never lost. */
  lemma SubmitRule(q: Slots, task: nat)
    requires SlotsValid(q)
    ensures var (q', started) := Submit(q, task);
      (started <==> q.active < MaxConcurrentRequests) &&
      (started ==> q'.waiting == q.waiting == [] && q'.active == q.active + 1) &&
      (!started ==> q'.waiting == q.waiting + [task] && q'.active == q.active)
  {
  }

  lemma SubmitKeepsValid(q: Slots, task: nat)
    requires SlotsValid(q)
    ensures SlotsValid(Submit(q, task).0)
  {
  }

  /**
   * When a running task settles the oldest waiter takes its slot, if there is
   * one; the count of running tasks drops only when nobody waits.
   */
  lemma SettleRule(q: Slots)
    requires SlotsValid(q) && q.active >= 1
    ensures var (q', admitted) := Settle(q);
      SlotsValid(q') &&
      (|q.waiting| > 0 ==> admitted == Some(q.waiting[0]) && q'.waiting == q.waiting[1..] && q'.active == q.active) &&
      (|q.waiting| == 0 ==> admitted.None? && q'.waiting == [] && q'.active == q.active - 1)
  {
  }

  /** An event of the queue: a new request is submitted, or a running one settles. */
  datatype QueueEvent = Request(task: nat) | Finish

  function Step(q: Slots, e: QueueEvent): (Slots, seq<nat>)
  {
    match e
    case Request(t) => var (q', started) := Submit(q, t); (q', if started then [t] else [])
    case Finish => var (q', admitted) := Settle(q); (q', if admitted.Some? then [admitted.value] else [])
  }

  /** Only running tasks settle: every `Finish` happens while some task runs. */
  ghost predicate Balanced(q: Slots, es: seq<QueueEvent>)
    decreases |es|
  {
    es == [] || ((es[0].Finish? ==> q.active >= 1) && Balanced(Step(q, es[0]).0, es[1..]))
  }

  /** The slots after a run of events, and the tasks started along the way, in order. */
  function Run(q: Slots, es: seq<QueueEvent>): (Slots, seq<nat>)
    decreases |es|
  {
    if es == [] then (q, [])
    else
      var first := Step(q, es[0]);
      var rest := Run(first.0, es[1..]);
      (rest.0, first.1 + rest.1)
  }

  /** The task an event submits, if it is a request. */
  function SubmittedBy(e: QueueEvent): seq<nat>
  {
    if e.Request? then [e.task] else []
  }

  /** The tasks submitted by a run of events, in order. */
  function Submitted(es: seq<QueueEvent>): seq<nat>
    decreases |es|
  {
    if es == [] then [] else SubmittedBy(es[0]) + Submitted(es[1..])
  }

  /** One event keeps the invariant, and started-then-waiting grows by exactly what it submits. */
  lemma StepIsFifo(q: Slots, e: QueueEvent)
    requires SlotsValid(q) && (e.Finish? ==> q.active >= 1)
    ensures SlotsValid(Step(q, e).0)
    ensures Step(q, e).1 + Step(q, e).0.waiting == q.waiting + SubmittedBy(e)
  {
    match e {
      case Request(t) => SubmitRule(q, t);
      case Finish => SettleRule(q);
    }
  }

  /**
   * FIFO and the bound together: along any run of events the invariant holds,
   * and the tasks started, followed by those still waiting, are exactly the
   * tasks that were waiting or submitted, in submission order.
   */
  lemma {:induction false} RunIsFifo(q: Slots, es: seq<QueueEvent>)
    requires SlotsValid(q) && Balanced(q, es)
    ensures SlotsValid(Run(q, es).0)
    ensures Run(q, es).1 + Run(q, es).0.waiting == q.waiting + Submitted(es)
    decreases |es|
  {
    if es != [] {
      var first := Step(q, es[0]);
      StepIsFifo(q, es[0]);
      assert Balanced(first.0, es[1..]);
      RunIsFifo(first.0, es[1..]);
      var rest := Run(first.0, es[1..]);
      assert Run(q, es) == (rest.0, first.1 + rest.1);
      calc {
        Run(q, es).1 + Run(q, es).0.waiting;
        (first.1 + rest.1) + rest.0.waiting;
        { AppendAssoc(first.1, rest.1, rest.0.waiting); }
        first.1 + (rest.1 + rest.0.waiting);
        first.1 + (first.0.waiting + Submitted(es[1..]));
        { AppendAssoc(first.1, first.0.waiting, Submitted(es[1..])); }
        (first.1 + first.0.waiting) + Submitted(es[1..]);
        (q.waiting + SubmittedBy(es[0])) + Submitted(es[1..]);
        { AppendAssoc(q.waiting, SubmittedBy(es[0]), Submitted(es[1..])); }
        q.waiting + Submitted(es);
      }
    }
  }

  /**
   * `deduplicateRequest(key, requestFn)`, given the promise identifier a new
   * request would get: a key already in flight answers with its registered
   * promise and runs nothing (`false`); otherwise the new promise is
   * registered under the key and the request is to be queued (`true`).
   */
  function Dedup(inflight: map<string, nat>, key: string, newPromise: nat): (nat, map<string, nat>, bool)
  {
    if key in inflight then (inflight[key], inflight, false)
    else (newPromise, inflight[key := newPromise], true)
  }

  /** The `.finally` of a de-duplicated promise: the key is no longer in flight. */
  function Release(inflight: map<string, nat>, key: string): map<string, nat>
  {
    inflight - {key}
  }

  /**
   * Two reads of one key before it settles share one promise and one
   * request: the second neither runs a request nor changes the map.
   */
  lemma DedupJoins(inflight: map<string, nat>, key: string, promise1: nat, promise2: nat)
    ensures var (p1, m1, run1) := Dedup(inflight, key, promise1);
      var (p2, m2, run2) := Dedup(m1, key, promise2);
      p2 == p1 && m2 == m1 && !run2 && (run1 <==> key !in inflight)
  {
  }

  /** The registered promise is the one returned, and other keys are untouched. */
  lemma DedupRegisters(inflight: map<string, nat>, key: string, newPromise: nat)
    ensures var (p, m, _) := Dedup(inflight, key, newPromise);
      key in m && m[key] == p &&
      (forall k :: k != key ==> (k in m <==> k in inflight) && (k in m ==> m[k] == inflight[k]))
  {
  }

  /** Once the promise settles, the next read of the key starts a new request. */
  lemma ReleaseThenDedupRuns(inflight: map<string, nat>, key: string, newPromise: nat)
    ensures var (p, _, run) := Dedup(Release(inflight, key), key, newPromise);
      run && p == newPromise
  {
  }

  /** The whole state of the layer as one value: cache, in-flight reads and request slots. */
  datatype Layer<D> = Layer(cache: Cache<D>, inflight: map<string, nat>, slots: Slots)

  /** The four module-level variables of `api-utils.ts`. */
  class RequestLayer<D> {
    var cache: Cache<D>
    var activeRequests: map<string, nat>
    var activeRequestCount: int
    var requestQueue: seq<nat>

    ghost predicate Valid()
      reads this
    {
      SlotsValid(Slots(activeRequestCount, requestQueue))
    }

    /** The four variables as one value. */
    function Snapshot(): Layer<D>
      reads this
    {
      Layer(cache, activeRequests, Slots(activeRequestCount, requestQueue))
    }

    constructor()
      ensures Valid()
      ensures cache == map[] && activeRequests == map[] && activeRequestCount == 0 && requestQueue == []
    {
      cache := map[];
      activeRequests := map[];
      activeRequestCount := 0;
      requestQueue := [];
    }

    method GetCached(key: string, now: int) returns (r: Option<D>)
      modifies this
      ensures (r, cache) == Lookup(old(cache), key, now)
      ensures activeRequests == old(activeRequests) && activeRequestCount == old(activeRequestCount)
      ensures requestQueue == old(requestQueue)
    {
      if key !in cache {
        return None;
      }
      var cached := cache[key];
      if now - cached.timestamp > cached.ttl {
        cache := cache - {key};
        return None;
      }
      return Some(cached.data);
    }

    method SetCache(key: string, data: D, now: int, ttl: int := DefaultTtl)
      modifies this
      ensures cache == Store(old(cache), key, data, now, ttl)
      ensures activeRequests == old(activeRequests) && activeRequestCount == old(activeRequestCount)
      ensures requestQueue == old(requestQueue)
    {
      cache := cache[key := CacheEntry(data, now, ttl)];
    }

    /** Deletes the matching keys one at a time, as the `for ... of cache.keys()` loop does. */
    method ClearCache(pattern: Option<string>)
      modifies this
      ensures cache == Clear(old(cache), pattern)
      ensures activeRequests == old(activeRequests) && activeRequestCount == old(activeRequestCount)
      ensures requestQueue == old(requestQueue)
    {
      if pattern.Some? && pattern.value != "" {
        var p := pattern.value;
        var keys := cache.Keys;
        while keys != {}
          invariant keys <= old(cache).Keys
          invariant cache == map k | k in old(cache) && (k in keys || !Includes(k, p)) :: old(cache)[k]
          invariant activeRequests == old(activeRequests) && activeRequestCount == old(activeRequestCount)
          invariant requestQueue == old(requestQueue)
          decreases keys
        {
          var k :| k in keys;
          if Includes(k, p) {
            cache := cache - {k};
          }
          keys := keys - {k};
        }
      } else {
        cache := map[];
      }
    }

    /** `processQueue`; returns the task it admitted, if any. */
    method ProcessQueue() returns (admitted: Option<nat>)
      modifies this
      ensures (Slots(activeRequestCount, requestQueue), admitted) ==
              AdmitNext(Slots(old(activeRequestCount), old(requestQueue)))
      ensures cache == old(cache) && activeRequests == old(activeRequests)
    {
      if activeRequestCount >= MaxConcurrentRequests || |requestQueue| == 0 {
        return None;
      }
      var next := requestQueue[0];
      requestQueue := requestQueue[1..];
      activeRequestCount := activeRequestCount + 1;
      return Some(next);
    }

    /** `queueRequest(task)`: `started` tells whether `execute` ran at once. */
    method QueueRequest(task: nat) returns (started: bool)
      requires Valid()
      modifies this
      ensures Valid()
      ensures (Slots(activeRequestCount, requestQueue), started) ==
              Submit(Slots(old(activeRequestCount), old(requestQueue)), task)
      ensures cache == old(cache) && activeRequests == old(activeRequests)
    {
      if activeRequestCount < MaxConcurrentRequests {
        activeRequestCount := activeRequestCount + 1;
        started := true;
      } else {
        requestQueue := requestQueue + [task];
        started := false;
      }
      SubmitKeepsValid(Slots(old(activeRequestCount), old(requestQueue)), task);
    }

    /** The `finally` block of a running `execute`, on success and on failure alike. */
    method FinishTask() returns (admitted: Option<nat>)
      requires Valid() && activeRequestCount >= 1
      modifies this
      ensures Valid()
      ensures (Slots(activeRequestCount, requestQueue), admitted) ==
              Settle(Slots(old(activeRequestCount), old(requestQueue)))
      ensures cache == old(cache) && activeRequests == old(activeRequests)
    {
      activeRequestCount := activeRequestCount - 1;
      admitted := ProcessQueue();
      SettleRule(Slots(old(activeRequestCount), old(requestQueue)));
    }

    /**
     * `deduplicateRequest(key, requestFn)`: `newPromise` names the promise a new
     * request would get and `task` its queued work. `ran` tells whether the
     * request was handed to `queueRequest`, `started` whether it runs already.
     */
    method DeduplicateRequest(key: string, newPromise: nat, task: nat) returns (promise: nat, ran: bool, started: bool)
      requires Valid()
      modifies this
      ensures Valid()
      ensures (promise, activeRequests, ran) == Dedup(old(activeRequests), key, newPromise)
      ensures ran ==> (Slots(activeRequestCount, requestQueue), started) ==
                      Submit(Slots(old(activeRequestCount), old(requestQueue)), task)
      ensures !ran ==> !started && activeRequestCount == old(activeRequestCount) && requestQueue == old(requestQueue)
      ensures cache == old(cache)
    {
      if key in activeRequests {
        return activeRequests[key], false, false;
      }
      started := QueueRequest(task);
      activeRequests := activeRequests[key := newPromise];
      return newPromise, true, started;
    }

    /** The `.finally` handler of a de-duplicated promise. */
    method ReleaseKey(key: string)
      modifies this
      ensures activeRequests == Release(old(activeRequests), key)
      ensures cache == old(cache) && activeRequestCount == old(activeRequestCount)
      ensures requestQueue == old(requestQueue)
    {
      activeRequests := activeRequests - {key};
    }
  }

  /** A pending `setTimeout` of `debounce`: the arguments it will deliver and when. */
  datatype Timer<A> = Timer(args: A, due: int)

  /** One call of the debounced function: the pending timer is replaced by a new one. */
  function DebounceCall<A>(pending: Option<Timer<A>>, args: A, now: int, wait: int): Option<Timer<A>>
  {
    Some(Timer(args, now + wait))
  }

  /** The clock reaching `now`: a due timer fires, delivering its arguments, and is cleared. */
  function DebounceTick<A>(pending: Option<Timer<A>>, now: int): (Option<Timer<A>>, Option<A>)
  {
    if pending.Some? && pending.value.due <= now then (None, Some(pending.value.args)) else (pending, None)
  }

  /** A burst of calls, each with its arguments and time, with no timer firing in between. */
  function DebounceCalls<A>(pending: Option<Timer<A>>, calls: seq<(A, int)>, wait: int): Option<Timer<A>>
    decreases |calls|
  {
    if calls == [] then pending
    else DebounceCalls(DebounceCall(pending, calls[0].0, calls[0].1, wait), calls[1..], wait)
  }

  /**
   * Only the last call counts: after a burst, the one pending timer carries
   * the last call's arguments and is due `wait` ms after that call.
   */
  lemma {:induction false} DebounceLastWins<A>(pending: Option<Timer<A>>, calls: seq<(A, int)>, wait: int)
    requires calls != []
    ensures DebounceCalls(pending, calls, wait) ==
            Some(Timer(calls[|calls| - 1].0, calls[|calls| - 1].1 + wait))
    decreases |calls|
  {
    if |calls| > 1 {
      DebounceLastWins(DebounceCall(pending, calls[0].0, calls[0].1, wait), calls[1..], wait);
    }
  }

  /**
   * The pending timer delivers nothing before it is due, and delivers its
   * arguments exactly once from then on.
   */
  lemma DebounceDelivery<A>(t: Timer<A>, now: int, later: int)
    ensures DebounceTick(Some(t), now).1 == (if now >= t.due then Some(t.args) else None)
    ensures now >= t.due ==> DebounceTick(DebounceTick(Some(t), now).0, later).1 == None
  {
  }

  /** The closure state of one `debounce(func, wait)`: its `timeout` variable. */
  class Debouncer<A> {
    const wait: int
    var timeout: Option<Timer<A>>

    constructor(wait: int)
      ensures this.wait == wait && timeout.None?
    {
      this.wait := wait;
      timeout := None;
    }

    /** `executedFunction(...args)` at time `now`: clear the pending timer and schedule a new one. */
    method Invoke(args: A, now: int)
      modifies this
      ensures timeout == DebounceCall(old(timeout), args, now, wait)
    {
      timeout := Some(Timer(args, now + wait));
    }

    /** The clock reaches `now`; `delivered` holds the arguments `func` is called with, if the timer fired. */
    method Advance(now: int) returns (delivered: Option<A>)
      modifies this
      ensures (timeout, delivered) == DebounceTick(old(timeout), now)
    {
      if timeout.Some? && timeout.value.due <= now {
        delivered := Some(timeout.value.args);
        timeout := None;
      } else {
        delivered := None;
      }
    }
  }
}

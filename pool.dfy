/**
 * The pool engine of strategies/base.js together with the overrides and event
 * handlers of strategies/simple.js and strategies/limit.js.
 *
 * Every asynchronous operation of the source is a chain of short synchronous
 * segments separated by provider calls. Each segment is one method here; the
 * provider's answer (the created handle, the liveness verdict, the outcome of
 * the caller's work) is a parameter of the method that runs when it arrives.
 * Waiters are identified by tickets: the source's queue holds Promise resolve
 * functions, each one new, so a ticket is drawn from a counter.
 *
 * The JavaScript prototype chain Limit -> Simple -> Base is one class whose
 * `strategy` constant selects the overrides, and `emit` is a direct call of
 * the handler the strategy's constructor registered for that event.
 */
module ConnectionPool {
  import opened Strategies

  /** An opaque provider resource; the engine only compares handles. */
  type Handle = nat

  /** The identity of a pending acquisition, in arrival order. */
  type Waiter = nat

  /** What the synchronous part of `_getConnection` leaves behind. */
  datatype Acquire =
    | Probing(handle: Handle)   // shifted off the idle pool, liveness probe pending
    | Waiting(ticket: Waiter)   // enrolled at the back of the queue

  /** The provider's answer to `isLive`. */
  datatype LiveAnswer = Live | NotLive | ProbeFailed

  /** How the acquisition continues once `isLive` has answered. */
  datatype Probed =
    | Got(handle: Handle)       // the acquisition resolves with the handle
    | Retried(next: Acquire)    // the handle was discarded and `_getConnection` ran again
    | Rejected                  // the probe's error propagates

  /**
   * Where `_addConnection` puts a released or created handle: the idle pool,
   * or the resolver of waiter `ticket`, called with `handle`.
   */
  datatype Delivery = Pooled | HandedTo(ticket: Waiter, handle: Handle)

  /** What `expand` returns synchronously. */
  datatype ExpandStart =
    | ReturnedUndefined         // Limit at `max`: no promise at all (limit.js:46-50)
    | Resolved                  // destroyed pool: an already resolved promise
    | Creating                  // provider `create` in flight

  /** What `shrink` returns synchronously. */
  datatype ShrinkStart = Skipped | Shrinking(acquire: Acquire)

  /** What `use` returns synchronously. */
  datatype UseStart = DestroyedError | Acquiring(acquire: Acquire)

  /** How the caller's unit of work (or `unwrap` before it) settled. */
  datatype WorkOutcome = Succeeded | Threw(fatal: bool)

  datatype Option<T> = None | Some(value: T)

  /**
   * `this.lowWaterMark || 0` is read while the Limit constructor runs, before
   * anything could set `lowWaterMark`, so the mark is always 0.
   */
  const LowWaterMark := 0

  ghost predicate Distinct(s: seq<Handle>) {
    forall i, j :: 0 <= i < j < |s| ==> s[i] != s[j]
  }

  ghost predicate Ascending(s: seq<Waiter>) {
    forall i, j :: 0 <= i < j < |s| ==> s[i] < s[j]
  }

  ghost function Elements(s: seq<Handle>): set<Handle> {
    set x | x in s
  }

  /** The tickets `from`, `from + 1`, ..., `from + n - 1`. */
  function Tickets(from: nat, n: nat): (r: seq<Waiter>)
    ensures |r| == n
  {
    if n == 0 then [] else Tickets(from, n - 1) + [from + n - 1]
  }

  /** How many of the idle handles `p` the first `i` shrinks of `destroy` take. */
  function Drained(p: seq<Handle>, i: nat): (k: nat)
    ensures k <= |p| && k <= i && (k == i || k == |p|)
  {
    if i < |p| then i else |p|
  }

  /**
   * What the first `n` shrinks of `destroy` acquire from idle handles `p`
   * with `next` the first free ticket: the idle handles oldest first, then
   * new waiters.
   */
  function DrainStarts(p: seq<Handle>, next: nat, n: nat): (r: seq<Acquire>)
    ensures |r| == n
  {
    if n == 0 then []
    else DrainStarts(p, next, n - 1)
         + [if n - 1 < |p| then Probing(p[n - 1]) else Waiting(next + (n - 1 - |p|))]
  }

  /**
   * The idle handles, owned handles, queue and next ticket of a pool whose
   * idle handles, owned handles, queue and next ticket were `p`, `h`, `q`
   * and `next` before `destroy` issued `i` shrinks.
   */
  ghost predicate DrainedTo(p: seq<Handle>, h: set<Handle>, q: seq<Waiter>, next: nat, i: nat,
                            pool: seq<Handle>, held: set<Handle>, queue: seq<Waiter>, nextWaiter: nat)
  {
    var k := Drained(p, i);
    && pool == p[k..] && held == h + Elements(p[..k])
    && queue == q + Tickets(next, i - k) && nextWaiter == next + (i - k)
  }

  /** Before its first shrink `destroy` has drained nothing. */
  lemma DrainStart(p: seq<Handle>, h: set<Handle>, q: seq<Waiter>, next: nat)
    ensures DrainedTo(p, h, q, next, 0, p, h, q, next) && DrainStarts(p, next, 0) == []
  {
    assert p[..0] == [] && p[0..] == p;
    assert q + Tickets(next, 0) == q;
  }

  /**
   * One more shrink of `destroy`: its acquisition takes the oldest idle
   * handle if there is one and otherwise enrolls the next ticket.
   */
  lemma DrainStep(p: seq<Handle>, h: set<Handle>, q: seq<Waiter>, next: nat, i: nat,
                  pool: seq<Handle>, held: set<Handle>, queue: seq<Waiter>, nextWaiter: nat,
                  a: Acquire,
                  pool': seq<Handle>, held': set<Handle>, queue': seq<Waiter>, nextWaiter': nat)
    requires DrainedTo(p, h, q, next, i, pool, held, queue, nextWaiter)
    requires pool != [] ==>
      a == Probing(pool[0]) && pool' == pool[1..] && queue' == queue
      && held' == held + {pool[0]} && nextWaiter' == nextWaiter
    requires pool == [] ==>
      a == Waiting(nextWaiter) && pool' == [] && queue' == queue + [nextWaiter]
      && held' == held && nextWaiter' == nextWaiter + 1
    ensures DrainedTo(p, h, q, next, i + 1, pool', held', queue', nextWaiter')
    ensures DrainStarts(p, next, i + 1) == DrainStarts(p, next, i) + [a]
  {
    if i < |p| {
      assert p[..i + 1] == p[..i] + [p[i]];
      assert Elements(p[..i + 1]) == Elements(p[..i]) + {p[i]};
    }
  }

  /**
   * Without a positive, finite `idleTime` Limit installs no timer handlers,
   * and Simple and Base have none: no timer is ever pending, so `tryShrink`
   * never runs and the pool never reclaims idle handles on its own.
   */
  lemma NoTimerWithoutIdleTime(p: Pool)
    requires p.Valid() && !TimerInstalled(p.strategy)
    ensures !p.timerArmed && p.strayTimers == 0
  {
  }

  class Pool {
    const strategy: Strategy

    /** Resources counted as part of the pool: idle, checked out or being created. */
    var poolSize: int
    /** Idle handles, oldest first. */
    var pool: seq<Handle>
    /** Pending acquisitions, oldest first. */
    var queue: seq<Waiter>
    var destroyed: bool
    /** The ticket the next enrolled waiter receives. */
    var nextWaiter: Waiter

    /** Limit's closure variable `timeout` refers to a timer that has not fired or been cleared. */
    var timerArmed: bool
    /** Earlier timers that `timeout` no longer refers to but that will still fire. */
    var strayTimers: nat

    /** Provider `create` calls in flight. */
    ghost var creating: nat
    /** Handles owned by an operation: being probed, checked out, or handed to a waiter. */
    ghost var held: set<Handle>
    /** Handles passed to provider `destroy`. */
    ghost var retired: set<Handle>
    /** `shrink` operations that have decremented `poolSize` and not yet finished. */
    ghost var shrinking: nat

    /**
     * The object invariant. The counter equation is the pool's accounting:
     * every unit of `poolSize` is an idle handle, a handle some operation
     * owns or a creation in flight, less the shrinks that have already
     * discounted the resource they are about to destroy.
     */
    ghost predicate Valid()
      reads this
    {
      && Distinct(pool)
      && (forall i :: 0 <= i < |pool| ==> pool[i] !in held && pool[i] !in retired)
      && held !! retired
      && Ascending(queue)
      && (forall i :: 0 <= i < |queue| ==> queue[i] < nextWaiter)
      && (queue != [] ==> pool == [])
      && poolSize + shrinking == |pool| + |held| + creating
      && (!TimerInstalled(strategy) ==> !timerArmed && strayTimers == 0)
    }

    /**
     * The effect of the synchronous part of `_getConnection`, started from a
     * state whose `poolSize` is `size0` and whose `held` is `held0` and whose
     * other fields are those of `old`.
     */
    twostate predicate Acquired(a: Acquire, size0: int, held0: set<Handle>)
      reads this
    {
      if old(pool) != [] then
        && a == Probing(old(pool)[0])
        && pool == old(pool)[1..] && queue == old(queue)
        && held == held0 + {old(pool)[0]}
        && poolSize == size0 && creating == old(creating) && nextWaiter == old(nextWaiter)
      else
        && a == Waiting(old(nextWaiter))
        && pool == [] && queue == old(queue) + [old(nextWaiter)]
        && nextWaiter == old(nextWaiter) + 1 && held == held0
        && var grows := EnqueueTriggersCreate(strategy, size0, old(destroyed));
           poolSize == size0 + (if grows then 1 else 0)
           && creating == old(creating) + (if grows then 1 else 0)
    }

    /**
     * The effect of `_addConnection(c)` where `held0` are the handles owned
     * just before: the longest-waiting caller receives `c`, or `c` joins the
     * back of the idle pool when nobody waits.
     */
    twostate predicate Released(c: Handle, d: Delivery, held0: set<Handle>)
      reads this
    {
      if old(queue) != [] then
        d == HandedTo(old(queue)[0], c) && queue == old(queue)[1..] && pool == old(pool) && held == held0
      else
        d == Pooled && queue == [] && pool == old(pool) + [c] && held == held0 - {c}
    }

    twostate predicate SameTimers()
      reads this
    {
      timerArmed == old(timerArmed) && strayTimers == old(strayTimers)
    }

    /**
     * `new BaseStrategy`, `new SimpleStrategy` or `new LimitStrategy`. The
     * Limit constructor calls its guarded `expand` `min` times, and because
     * each call raises `poolSize` synchronously the pool counts
     * `min(min, max)` resources (all still being created) once it returns.
     */
    constructor (strategy: Strategy)
      ensures Valid() && this.strategy == strategy
      ensures poolSize == PrewarmSize(strategy) && creating == PrewarmSize(strategy)
      ensures pool == [] && queue == [] && !destroyed && nextWaiter == 0
      ensures held == {} && retired == {} && shrinking == 0
      ensures !timerArmed && strayTimers == 0
    {
      this.strategy := strategy;
      poolSize, pool, queue, destroyed, nextWaiter := 0, [], [], false, 0;
      timerArmed, strayTimers := false, 0;
      creating, held, retired, shrinking := 0, {}, {}, 0;
      new;
      if strategy.Limit? {
        var i := 0;
        while i < strategy.min
          invariant 0 <= i <= strategy.min
          invariant Valid()
          invariant poolSize == MinBound(i, strategy.max) && creating == poolSize
          invariant pool == [] && queue == [] && !destroyed && nextWaiter == 0
          invariant held == {} && retired == {} && shrinking == 0
          invariant !timerArmed && strayTimers == 0
        {
          var _ := Expand();
          i := i + 1;
        }
      }
    }

    /** `_addConnection` (base.js:70-77): hand `c` to the head waiter, or pool it. */
    method AddConnection(c: Handle) returns (d: Delivery)
      requires Valid() && c in held
      modifies this
      ensures Valid()
      ensures Released(c, d, old(held))
      ensures poolSize == old(poolSize) && destroyed == old(destroyed) && nextWaiter == old(nextWaiter)
      ensures creating == old(creating) && retired == old(retired) && shrinking == old(shrinking)
      ensures SameTimers()
    {
      if queue != [] {
        d := HandedTo(queue[0], c);
        queue := queue[1..];
      } else {
        pool := pool + [c];
        held := held - {c};
        d := Pooled;
      }
    }

    /**
     * The synchronous part of `_getConnection` (base.js:79-101). With idle
     * handles the oldest is shifted off and its liveness probe starts. With
     * none, the 'queue-push' event runs first (base.js:97), which for Simple
     * and Limit expands the pool, and then the waiter is pushed (base.js:98).
     */
    method GetConnection() returns (a: Acquire)
      requires Valid()
      modifies this
      ensures Valid()
      ensures Acquired(a, old(poolSize), old(held))
      ensures destroyed == old(destroyed) && retired == old(retired) && shrinking == old(shrinking)
      ensures SameTimers()
    {
      if pool != [] {
        var c := pool[0];
        pool := pool[1..];
        held := held + {c};
        a := Probing(c);
      } else {
        var ticket := nextWaiter;
        OnQueuePush();
        queue := queue + [ticket];
        nextWaiter := nextWaiter + 1;
        a := Waiting(ticket);
      }
    }

    /**
     * The 'queue-push' handler that simple.js:8-10 registers. The source
     * calls `self.expand()` with `self` undeclared, which throws; this is the
     * intended `this.expand()`, dispatched to Limit's guard when the policy is
     * Limit. The as-written behaviour is in module AsWritten.
     */
    method OnQueuePush()
      requires Valid()
      modifies this
      ensures Valid()
      ensures var grows := EnqueueTriggersCreate(strategy, old(poolSize), old(destroyed));
              poolSize == old(poolSize) + (if grows then 1 else 0)
              && creating == old(creating) + (if grows then 1 else 0)
      ensures pool == old(pool) && queue == old(queue) && destroyed == old(destroyed)
      ensures nextWaiter == old(nextWaiter) && held == old(held) && retired == old(retired)
      ensures shrinking == old(shrinking) && SameTimers()
    {
      if ExpandsOnQueuePush(strategy) {
        var _ := Expand();
      }
    }

    /**
     * The continuation of `_getConnection` once `isLive(c)` has answered
     * (base.js:82-94). A live handle is the result. A dead one is discounted,
     * destroyed and the acquisition starts over synchronously. A failed probe
     * is discounted, destroyed and its error propagates (it is not retried).
     */
    method IsLiveResolved(c: Handle, answer: LiveAnswer) returns (p: Probed)
      requires Valid() && c in held
      modifies this
      ensures Valid()
      ensures answer == Live ==> p == Got(c) && unchanged(this)
      ensures answer == NotLive ==>
        && p.Retried? && Acquired(p.next, old(poolSize) - 1, old(held) - {c})
        && retired == old(retired) + {c}
      ensures answer == ProbeFailed ==>
        && p == Rejected && poolSize == old(poolSize) - 1
        && held == old(held) - {c} && retired == old(retired) + {c}
        && pool == old(pool) && queue == old(queue)
        && creating == old(creating) && nextWaiter == old(nextWaiter)
      ensures destroyed == old(destroyed) && shrinking == old(shrinking) && SameTimers()
    {
      if answer == Live {
        p := Got(c);
      } else {
        poolSize := poolSize - 1;
        held := held - {c};
        retired := retired + {c};
        if answer == NotLive {
          var next := GetConnection();
          p := Retried(next);
        } else {
          p := Rejected;
        }
      }
    }

    /**
     * `expand` as the policy sees it: Limit's override (limit.js:46-50) calls
     * the base only while `poolSize < max` and otherwise returns `undefined`;
     * the other policies use the base directly. From a size within `max` the
     * pool stays within `max`.
     */
    method Expand() returns (r: ExpandStart)
      requires Valid()
      modifies this
      ensures Valid()
      ensures !ExpandProceeds(strategy, old(poolSize)) ==> r == ReturnedUndefined && unchanged(this)
      ensures ExpandProceeds(strategy, old(poolSize)) && old(destroyed) ==> r == Resolved && unchanged(this)
      ensures ExpandProceeds(strategy, old(poolSize)) && !old(destroyed) ==>
        r == Creating && poolSize == old(poolSize) + 1 && creating == old(creating) + 1
      ensures strategy.Limit? && AtMost(old(poolSize), strategy.max) ==> AtMost(poolSize, strategy.max)
      ensures pool == old(pool) && queue == old(queue) && destroyed == old(destroyed)
      ensures nextWaiter == old(nextWaiter) && held == old(held) && retired == old(retired)
      ensures shrinking == old(shrinking) && SameTimers()
    {
      if ExpandProceeds(strategy, poolSize) {
        r := ExpandBase();
      } else {
        r := ReturnedUndefined;
      }
    }

    /**
     * The synchronous part of the base `expand` (base.js:103-107): nothing on
     * a destroyed pool, otherwise count the resource before asking the
     * provider to create it.
     */
    method ExpandBase() returns (r: ExpandStart)
      requires Valid()
      modifies this
      ensures Valid()
      ensures old(destroyed) ==> r == Resolved && unchanged(this)
      ensures !old(destroyed) ==> r == Creating && poolSize == old(poolSize) + 1 && creating == old(creating) + 1
      ensures pool == old(pool) && queue == old(queue) && destroyed == old(destroyed)
      ensures nextWaiter == old(nextWaiter) && held == old(held) && retired == old(retired)
      ensures shrinking == old(shrinking) && SameTimers()
    {
      if destroyed {
        r := Resolved;
      } else {
        poolSize := poolSize + 1;
        creating := creating + 1;
        r := Creating;
      }
    }

    /**
     * `create` resolved with a new handle `h` (base.js:107-108): it goes
     * through `_addConnection`, so a waiting caller gets it first. This runs
     * even if the pool was destroyed meanwhile.
     */
    method CreateResolved(h: Handle) returns (d: Delivery)
      requires Valid() && creating > 0
      requires h !in held && h !in retired && h !in pool
      modifies this
      ensures Valid()
      ensures Released(h, d, old(held) + {h})
      ensures poolSize == old(poolSize) && creating == old(creating) - 1
      ensures destroyed == old(destroyed) && nextWaiter == old(nextWaiter)
      ensures retired == old(retired) && shrinking == old(shrinking) && SameTimers()
    {
      creating := creating - 1;
      held := held + {h};
      d := AddConnection(h);
    }

    /**
     * `create` rejected (base.js:109-112): the optimistic increment is
     * undone, so a failed `expand` leaves `poolSize` where it started.
     */
    method CreateRejected()
      requires Valid() && creating > 0
      modifies this
      ensures Valid()
      ensures poolSize == old(poolSize) - 1 && creating == old(creating) - 1
      ensures pool == old(pool) && queue == old(queue) && destroyed == old(destroyed)
      ensures nextWaiter == old(nextWaiter) && held == old(held) && retired == old(retired)
      ensures shrinking == old(shrinking) && SameTimers()
    {
      poolSize := poolSize - 1;
      creating := creating - 1;
    }

    /**
     * `shrink` as the policy sees it: Limit's override (limit.js:55-59) calls
     * the base only if `poolSize > min` or the pool is destroyed, and
     * otherwise returns `undefined`. While the pool is active a Limit pool at
     * or above `min` stays at or above `min`.
     */
    method Shrink() returns (r: ShrinkStart)
      requires Valid()
      modifies this
      ensures Valid()
      ensures !ShrinkProceeds(strategy, old(poolSize), old(destroyed)) ==> r == Skipped && unchanged(this)
      ensures ShrinkProceeds(strategy, old(poolSize), old(destroyed)) ==>
        && r.Shrinking? && shrinking == old(shrinking) + 1
        && Acquired(r.acquire, old(poolSize) - 1, old(held))
      ensures strategy.Limit? && !old(destroyed) && old(poolSize) >= strategy.min ==> poolSize >= strategy.min
      ensures destroyed == old(destroyed) && retired == old(retired) && SameTimers()
    {
      if ShrinkProceeds(strategy, poolSize, destroyed) {
        var a := ShrinkBase();
        r := Shrinking(a);
      } else {
        r := Skipped;
      }
    }

    /**
     * The synchronous part of the base `shrink` (base.js:114-117): discount
     * one resource, then acquire one through `_getConnection` to destroy it.
     */
    method ShrinkBase() returns (a: Acquire)
      requires Valid()
      modifies this
      ensures Valid()
      ensures shrinking == old(shrinking) + 1
      ensures Acquired(a, old(poolSize) - 1, old(held))
      ensures destroyed == old(destroyed) && retired == old(retired) && SameTimers()
    {
      poolSize := poolSize - 1;
      shrinking := shrinking + 1;
      a := GetConnection();
    }

    /**
     * The shrink's acquisition resolved with `c` (base.js:117-118): `c` is
     * destroyed and, being retired, can never re-enter the idle pool.
     */
    method ShrinkAcquired(c: Handle)
      requires Valid() && c in held && shrinking > 0
      modifies this
      ensures Valid()
      ensures held == old(held) - {c} && retired == old(retired) + {c}
      ensures shrinking == old(shrinking) - 1 && poolSize == old(poolSize)
      ensures pool == old(pool) && queue == old(queue) && destroyed == old(destroyed)
      ensures nextWaiter == old(nextWaiter) && creating == old(creating) && SameTimers()
    {
      held := held - {c};
      retired := retired + {c};
      shrinking := shrinking - 1;
    }

    /** The shrink's acquisition rejected (base.js:119-122): the discount is undone. */
    method ShrinkAcquireRejected()
      requires Valid() && shrinking > 0
      modifies this
      ensures Valid()
      ensures poolSize == old(poolSize) + 1 && shrinking == old(shrinking) - 1
      ensures pool == old(pool) && queue == old(queue) && destroyed == old(destroyed)
      ensures nextWaiter == old(nextWaiter) && held == old(held) && retired == old(retired)
      ensures creating == old(creating) && SameTimers()
    {
      poolSize := poolSize + 1;
      shrinking := shrinking - 1;
    }

    /**
     * `destroy` (base.js:125-131): mark the pool destroyed, then call the
     * policy's `shrink` while `poolSize` is non-zero. Every call proceeds (a
     * destroyed pool passes Limit's guard) and discounts one resource
     * synchronously, so there are exactly `poolSize` calls and the count ends
     * at 0. The first calls take idle handles, oldest first; the rest wait,
     * and the expansion Simple would trigger for them is a no-op.
     */
    method Destroy() returns (starts: seq<Acquire>)
      requires Valid() && poolSize >= 0
      modifies this
      ensures Valid() && destroyed && poolSize == 0
      ensures starts == DrainStarts(old(pool), old(nextWaiter), old(poolSize))
      ensures shrinking == old(shrinking) + old(poolSize)
      ensures DrainedTo(old(pool), old(held), old(queue), old(nextWaiter), old(poolSize),
                        pool, held, queue, nextWaiter)
      ensures creating == old(creating) && retired == old(retired) && SameTimers()
    {
      ghost var n, pool0, held0, queue0, next0 := poolSize, pool, held, queue, nextWaiter;
      destroyed := true;
      starts := [];
      DrainStart(pool0, held0, queue0, next0);
      while poolSize != 0
        invariant Valid() && destroyed
        invariant 0 <= poolSize == n - |starts|
        invariant shrinking == old(shrinking) + |starts|
        invariant starts == DrainStarts(pool0, next0, |starts|)
        invariant DrainedTo(pool0, held0, queue0, next0, |starts|, pool, held, queue, nextWaiter)
        invariant creating == old(creating) && retired == old(retired)
        invariant timerArmed == old(timerArmed) && strayTimers == old(strayTimers)
        decreases poolSize
      {
        var a := DrainOne(pool0, held0, queue0, next0, |starts|);
        starts := starts + [a];
      }
    }

    /**
     * One iteration of the loop in `destroy`: a shrink on the destroyed pool,
     * after `i` earlier ones that started from idle handles `p`, owned
     * handles `h`, queue `q` and next ticket `next`.
     */
    method DrainOne(ghost p: seq<Handle>, ghost h: set<Handle>, ghost q: seq<Waiter>,
                    ghost next: nat, ghost i: nat) returns (a: Acquire)
      requires Valid() && destroyed
      requires DrainedTo(p, h, q, next, i, pool, held, queue, nextWaiter)
      modifies this
      ensures Valid() && destroyed && poolSize == old(poolSize) - 1
      ensures shrinking == old(shrinking) + 1
      ensures DrainedTo(p, h, q, next, i + 1, pool, held, queue, nextWaiter)
      ensures DrainStarts(p, next, i + 1) == DrainStarts(p, next, i) + [a]
      ensures creating == old(creating) && retired == old(retired) && SameTimers()
    {
      ghost var poolB, heldB, queueB, nextB := pool, held, queue, nextWaiter;
      // A destroyed pool passes the 'shrink' guard whatever its strategy.
      DestroyedAlwaysShrinks(strategy, poolSize);
      var r := Shrink();
      a := r.acquire;
      DrainStep(p, h, q, next, i, poolB, heldB, queueB, nextB, a, pool, held, queue, nextWaiter);
    }

    /**
     * The synchronous part of `use` (base.js:133-141): a destroyed pool
     * rejects and nothing changes; otherwise one resource is acquired.
     */
    method Use() returns (r: UseStart)
      requires Valid()
      modifies this
      ensures Valid()
      ensures old(destroyed) ==> r == DestroyedError && unchanged(this)
      ensures !old(destroyed) ==> r.Acquiring? && Acquired(r.acquire, old(poolSize), old(held))
      ensures destroyed == old(destroyed) && retired == old(retired) && shrinking == old(shrinking)
      ensures SameTimers()
    {
      if destroyed {
        r := DestroyedError;
      } else {
        var a := GetConnection();
        r := Acquiring(a);
      }
    }

    /**
     * The use's acquisition resolved with `c` (base.js:141-144):
     * 'begin-transaction' is emitted before `unwrap(c)` and the work run.
     */
    method UseAcquired(c: Handle)
      requires Valid() && c in held
      modifies this
      ensures Valid()
      ensures timerArmed == (old(timerArmed) && !(TimerInstalled(strategy) && |old(pool)| <= LowWaterMark))
      ensures poolSize == old(poolSize) && pool == old(pool) && queue == old(queue)
      ensures destroyed == old(destroyed) && nextWaiter == old(nextWaiter) && strayTimers == old(strayTimers)
      ensures creating == old(creating) && held == old(held) && retired == old(retired)
      ensures shrinking == old(shrinking)
    {
      OnBeginTransaction();
    }

    /**
     * The use settled (base.js:145-158): after `unwrap` or the work `fn`
     * resolved or threw. 'end-transaction' is emitted in every case. A fatal
     * error discounts and destroys the handle; success and a non-fatal error
     * both release it through `_addConnection` with `poolSize` unchanged.
     */
    method UseSettled(c: Handle, outcome: WorkOutcome) returns (d: Option<Delivery>)
      requires Valid() && c in held
      modifies this
      ensures Valid()
      ensures outcome == Threw(true) ==>
        && d == None && poolSize == old(poolSize) - 1
        && held == old(held) - {c} && retired == old(retired) + {c}
        && pool == old(pool) && queue == old(queue)
      ensures outcome != Threw(true) ==>
        && d.Some? && Released(c, d.value, old(held))
        && poolSize == old(poolSize) && retired == old(retired)
      ensures TimerInstalled(strategy) ==>
        timerArmed && strayTimers == old(strayTimers) + (if old(timerArmed) then 1 else 0)
      ensures !TimerInstalled(strategy) ==> SameTimers()
      ensures destroyed == old(destroyed) && nextWaiter == old(nextWaiter)
      ensures creating == old(creating) && shrinking == old(shrinking)
    {
      OnEndTransaction();
      if outcome == Threw(true) {
        poolSize := poolSize - 1;
        held := held - {c};
        retired := retired + {c};
        d := None;
      } else {
        var delivery := AddConnection(c);
        d := Some(delivery);
      }
    }

    /**
     * The use's error handler reached from a rejected acquisition (an
     * `isLive` failure), where the source's `c` is still `undefined`
     * (base.js:149-157). Corrected here to emit 'end-transaction' and let the
     * error propagate without touching the pool; the source instead releases
     * or destroys `undefined` (see module AsWritten).
     */
    method UseAcquireRejected()
      requires Valid()
      modifies this
      ensures Valid()
      ensures TimerInstalled(strategy) ==>
        timerArmed && strayTimers == old(strayTimers) + (if old(timerArmed) then 1 else 0)
      ensures !TimerInstalled(strategy) ==> SameTimers()
      ensures poolSize == old(poolSize) && pool == old(pool) && queue == old(queue)
      ensures destroyed == old(destroyed) && nextWaiter == old(nextWaiter)
      ensures creating == old(creating) && held == old(held) && retired == old(retired)
      ensures shrinking == old(shrinking)
    {
      OnEndTransaction();
    }

    /**
     * Limit's 'begin-transaction' handler (limit.js:30-34): cancel the timer
     * `timeout` refers to when no more than `LowWaterMark` handles are idle.
     */
    method OnBeginTransaction()
      requires Valid()
      modifies this
      ensures Valid()
      ensures timerArmed == (old(timerArmed) && !(TimerInstalled(strategy) && |old(pool)| <= LowWaterMark))
      ensures poolSize == old(poolSize) && pool == old(pool) && queue == old(queue)
      ensures destroyed == old(destroyed) && nextWaiter == old(nextWaiter) && strayTimers == old(strayTimers)
      ensures creating == old(creating) && held == old(held) && retired == old(retired)
      ensures shrinking == old(shrinking)
    {
      if TimerInstalled(strategy) && |pool| <= LowWaterMark {
        timerArmed := false;
      }
    }

    /** Limit's 'end-transaction' handler (limit.js:35-37): always start a timer. */
    method OnEndTransaction()
      requires Valid()
      modifies this
      ensures Valid()
      ensures TimerInstalled(strategy) ==>
        timerArmed && strayTimers == old(strayTimers) + (if old(timerArmed) then 1 else 0)
      ensures !TimerInstalled(strategy) ==> SameTimers()
      ensures poolSize == old(poolSize) && pool == old(pool) && queue == old(queue)
      ensures destroyed == old(destroyed) && nextWaiter == old(nextWaiter)
      ensures creating == old(creating) && held == old(held) && retired == old(retired)
      ensures shrinking == old(shrinking)
    {
      if TimerInstalled(strategy) {
        StartTimer();
      }
    }

    /**
     * `timeout = setTimeout(tryShrink, idleTime)`: a new timer starts and
     * `timeout` refers to it; one it referred to before keeps running.
     */
    method StartTimer()
      requires Valid() && TimerInstalled(strategy)
      modifies this
      ensures Valid()
      ensures timerArmed && strayTimers == old(strayTimers) + (if old(timerArmed) then 1 else 0)
      ensures poolSize == old(poolSize) && pool == old(pool) && queue == old(queue)
      ensures destroyed == old(destroyed) && nextWaiter == old(nextWaiter)
      ensures creating == old(creating) && held == old(held) && retired == old(retired)
      ensures shrinking == old(shrinking)
    {
      if timerArmed {
        strayTimers := strayTimers + 1;
      }
      timerArmed := true;
    }

    /**
     * A pending timer fires and runs `tryShrink` (limit.js:22-29): the one
     * `timeout` refers to when `fromLatest`, otherwise a stray one. It
     * shrinks through the policy only when a handle is idle, and starts a new
     * timer only if a handle is still idle afterwards. At `min` the guarded
     * shrink is skipped and the timer keeps restarting.
     */
    method TryShrink(fromLatest: bool) returns (r: Option<ShrinkStart>)
      requires Valid()
      requires if fromLatest then timerArmed else strayTimers > 0
      modifies this
      ensures Valid()
      ensures old(pool) == [] ==>
        && r == None && poolSize == old(poolSize) && pool == [] && queue == old(queue)
        && nextWaiter == old(nextWaiter) && held == old(held) && shrinking == old(shrinking)
        && creating == old(creating)
      ensures old(pool) != [] && !ShrinkProceeds(strategy, old(poolSize), old(destroyed)) ==>
        && r == Some(Skipped) && poolSize == old(poolSize) && pool == old(pool) && queue == old(queue)
        && nextWaiter == old(nextWaiter) && held == old(held) && shrinking == old(shrinking)
        && creating == old(creating)
      ensures old(pool) != [] && ShrinkProceeds(strategy, old(poolSize), old(destroyed)) ==>
        && r == Some(Shrinking(Probing(old(pool)[0])))
        && poolSize == old(poolSize) - 1 && pool == old(pool)[1..] && queue == old(queue)
        && nextWaiter == old(nextWaiter) && held == old(held) + {old(pool)[0]}
        && shrinking == old(shrinking) + 1 && creating == old(creating)
      ensures var stillArmed := !fromLatest && old(timerArmed);
        && timerArmed == (pool != [] || stillArmed)
        && strayTimers == old(strayTimers) - (if fromLatest then 0 else 1)
                          + (if pool != [] && stillArmed then 1 else 0)
      ensures destroyed == old(destroyed) && retired == old(retired)
    {
      if fromLatest {
        timerArmed := false;
      } else {
        strayTimers := strayTimers - 1;
      }
      r := None;
      if pool != [] {
        var s := Shrink();
        r := Some(s);
      }
      if pool != [] {
        StartTimer();
      }
    }
  }
}

/**
 * The sizing policies layered on the pool engine (strategies/simple.js and
 * strategies/limit.js), reduced to the values they are configured with and
 * the guards their overrides of `expand` and `shrink` evaluate.
 *
 * The engine class in module ConnectionPool consults these definitions where
 * the JavaScript prototype chain would dispatch to an override or to an event
 * handler registered by a policy constructor.
 */
module Strategies {

  /** An upper bound on the pool size: a number, or JavaScript's `Infinity`. */
  datatype Bound = Finite(n: nat) | Infinity

  /** The `idleTime` option, already converted to milliseconds. */
  datatype Duration = Unset | Millis(ms: nat) | Forever

  /**
   * The options object handed to the Limit constructor. For `min` and `max`
   * the value 0 stands both for "not given" and for the falsy number 0, which
   * the constructor cannot tell apart (`options.max || Infinity`).
   */
  datatype LimitOptions = LimitOptions(min: nat, max: nat, idleTime: Duration)

  /**
   * The three policies: the bare engine (base.js), demand-driven growth
   * (simple.js) and the bounded policy with idle reclamation (limit.js).
   */
  datatype Strategy =
    | Base
    | Simple
    | Limit(min: nat, max: Bound, idleTime: Duration)

  predicate Below(x: int, b: Bound) {
    b.Infinity? || x < b.n
  }

  predicate AtMost(x: int, b: Bound) {
    b.Infinity? || x <= b.n
  }

  /** The smaller of a count and a bound. */
  function MinBound(k: nat, b: Bound): (r: nat)
    ensures r <= k && AtMost(r, b)
    ensures r == k || (b.Finite? && r == b.n)
  {
    if b.Finite? && b.n < k then b.n else k
  }

  /**
   * `idleTime && idleTime !== Infinity` (limit.js:16): whether the timer
   * handlers are registered. An absent, zero or infinite idle time installs
   * none; any positive finite one does.
   */
  predicate TimerEnabled(d: Duration): (r: bool)
    ensures d.Unset? || d.Forever? || d == Millis(0) ==> !r
    ensures d.Millis? && d.ms > 0 ==> r
  {
    d.Millis? && d.ms > 0
  }

  /**
   * The fields the Limit constructor derives from its options: `max` defaults
   * to `Infinity` and `min` to 0 when the option is falsy.
   */
  function Configure(o: LimitOptions): (s: Strategy)
    ensures s.Limit? && s.min == o.min && s.idleTime == o.idleTime
    ensures s.max.Infinity? <==> o.max == 0
    ensures s.max.Finite? ==> s.max.n == o.max
  {
    Limit(o.min, if o.max == 0 then Infinity else Finite(o.max), o.idleTime)
  }

  /** Whether the policy's constructor installed the idle-timer handlers. */
  predicate TimerInstalled(s: Strategy) {
    s.Limit? && TimerEnabled(s.idleTime)
  }

  /**
   * Limit's `expand` delegates to the base only while `poolSize < max`
   * (limit.js:47): exactly when counting one more resource stays within
   * `max`. Base and Simple never refuse.
   */
  predicate ExpandProceeds(s: Strategy, poolSize: int): (r: bool)
    ensures !s.Limit? ==> r
    ensures s.Limit? ==> (r <==> AtMost(poolSize + 1, s.max))
  {
    !s.Limit? || Below(poolSize, s.max)
  }

  /**
   * Limit's `shrink` delegates only if `poolSize > min` or the pool is
   * destroyed (limit.js:56): on an active pool, exactly when discounting one
   * resource stays at or above `min`. Base and Simple never refuse.
   */
  predicate ShrinkProceeds(s: Strategy, poolSize: int, destroyed: bool): (r: bool)
    ensures !s.Limit? || destroyed ==> r
    ensures s.Limit? && !destroyed ==> (r <==> poolSize - 1 >= s.min)
  {
    !s.Limit? || poolSize > s.min || destroyed
  }

  /** Simple, and Limit through it, register a 'queue-push' handler that expands. */
  predicate ExpandsOnQueuePush(s: Strategy) {
    !s.Base?
  }

  /**
   * Whether a waiter being enqueued makes a creation start synchronously: the
   * handler runs, the (possibly guarded) `expand` proceeds, and the base
   * `expand` finds the pool not destroyed.
   */
  predicate EnqueueTriggersCreate(s: Strategy, poolSize: int, destroyed: bool) {
    ExpandsOnQueuePush(s) && ExpandProceeds(s, poolSize) && !destroyed
  }

  /** The pool size right after construction: Limit pre-warms `min` times. */
  function PrewarmSize(s: Strategy): nat {
    if s.Limit? then MinBound(s.min, s.max) else 0
  }

  /** A falsy `max` (absent or 0) leaves the pool unbounded; any other value bounds it. */
  lemma FalsyMaxIsUnbounded(o: LimitOptions, size: int)
    ensures o.max == 0 ==> ExpandProceeds(Configure(o), size)
    ensures o.max > 0 ==> (ExpandProceeds(Configure(o), size) <==> size < o.max)
  {
  }

  /**
   * Once the pool is destroyed every policy's `shrink` proceeds, so `destroy`
   * can drain a Limit pool below `min`.
   */
  lemma DestroyedAlwaysShrinks(s: Strategy, size: int)
    ensures ShrinkProceeds(s, size, true)
  {
  }
}

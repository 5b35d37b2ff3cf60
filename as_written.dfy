/**
 * Two paths of the engine as the JavaScript is written, where it differs
 * from the behaviour module ConnectionPool models. They are stated over a
 * snapshot of the engine's four fields in which an idle entry may be
 * `undefined`, because that is what the source ends up storing.
 *
 * 1. simple.js:9 calls `self.expand()`, but simple.js never declares `self`;
 *    under 'use strict' that is a ReferenceError. The handler runs inside the
 *    Promise executor of base.js:96-99 (the emit on line 97 precedes the push
 *    on line 98), so the acquisition rejects and the waiter is never queued.
 *    `use` then takes its error path with `c` still undefined.
 * 2. The error handler of `use` (base.js:149-157) also runs for rejected
 *    acquisitions, when `c` is undefined: a non-fatal error releases
 *    `undefined` into the pool, a fatal one discounts a second time.
 */
module AsWritten {
  import opened Strategies

  /** A value the source can store in `pool`. */
  datatype Entry = Handle(id: nat) | Undefined

  datatype Snapshot = Snapshot(poolSize: int, pool: seq<Entry>, queue: seq<nat>, destroyed: bool)

  /** `_addConnection(c)` (base.js:70-77) for whatever value `c` holds. */
  function AddConnection(s: Snapshot, c: Entry): (r: Snapshot)
    ensures r.poolSize == s.poolSize && r.destroyed == s.destroyed
    ensures s.queue != [] ==> r.queue == s.queue[1..] && r.pool == s.pool
    ensures s.queue == [] ==> r.queue == [] && r.pool == s.pool + [c]
    // Either way one more value is idle or one fewer waiter is waiting.
    ensures |r.pool| - |r.queue| == |s.pool| - |s.queue| + 1
  {
    if s.queue != [] then s.(queue := s.queue[1..]) else s.(pool := s.pool + [c])
  }

  /** The error handler of `use` (base.js:149-157) with `c` undefined. */
  function UseErrorWithoutHandle(s: Snapshot, fatal: bool): (r: Snapshot)
    ensures fatal ==> r == s.(poolSize := s.poolSize - 1)
    ensures !fatal ==> r.poolSize == s.poolSize && r.destroyed == s.destroyed
    ensures !fatal && s.queue == [] ==> r.pool == s.pool + [Undefined] && r.queue == []
    ensures !fatal && s.queue != [] ==> r.pool == s.pool && r.queue == s.queue[1..]
  {
    if fatal then s.(poolSize := s.poolSize - 1) else AddConnection(s, Undefined)
  }

  /**
   * `_getConnection` on an empty idle pool (base.js:95-99): under Simple and
   * Limit the 'queue-push' handler throws before the push and the promise
   * rejects; under Base the waiter is pushed. The flag says whether it rejected.
   */
  function EnqueueOnEmpty(s: Snapshot, strategy: Strategy, ticket: nat): (r: (Snapshot, bool))
    ensures r.1 <==> ExpandsOnQueuePush(strategy)
    ensures r.1 ==> r.0 == s
    ensures !r.1 ==> r.0 == s.(queue := s.queue + [ticket])
  {
    if ExpandsOnQueuePush(strategy) then (s, true) else (s.(queue := s.queue + [ticket]), false)
  }

  /**
   * `use` (base.js:133-158) when no handle is idle: a rejected acquisition
   * goes to the error handler with a ReferenceError, which has no `fatal`.
   */
  function UseOnEmptyPool(s: Snapshot, strategy: Strategy, ticket: nat): (r: Snapshot)
    requires s.pool == []
    // No strategy expands: the count never changes.
    ensures r.poolSize == s.poolSize && r.destroyed == s.destroyed
    ensures !ExpandsOnQueuePush(strategy) ==> r == s.(queue := s.queue + [ticket])
    ensures ExpandsOnQueuePush(strategy) && s.queue != [] ==> r.queue == s.queue[1..] && r.pool == s.pool
  {
    var (s1, rejected) := EnqueueOnEmpty(s, strategy, ticket);
    if rejected then UseErrorWithoutHandle(s1, false) else s1
  }

  /**
   * `use` whose oldest idle handle fails its `isLive` probe with an error
   * whose `fatal` flag is `fatal`: `_getConnection` discounts and destroys
   * the handle (base.js:81, 90-93), then the use's error handler runs.
   */
  function UseProbeError(s: Snapshot, fatal: bool): (r: Snapshot)
    requires s.pool != []
    ensures fatal ==> r.poolSize == s.poolSize - 2 && r.pool == s.pool[1..] && r.queue == s.queue
    ensures !fatal ==> r.poolSize == s.poolSize - 1
    ensures !fatal && s.queue != [] ==> r.pool == s.pool[1..] && r.queue == s.queue[1..]
  {
    UseErrorWithoutHandle(s.(poolSize := s.poolSize - 1, pool := s.pool[1..]), fatal)
  }

  /**
   * Defect 1: on a Simple or Limit pool with nothing idle and nobody
   * waiting, `use` never enqueues a waiter and never expands; instead
   * `undefined` joins the idle pool without being counted.
   */
  lemma UseOnEmptySimplePoolStoresUndefined(s: Snapshot, strategy: Strategy, ticket: nat)
    requires ExpandsOnQueuePush(strategy) && s.pool == [] && s.queue == []
    ensures UseOnEmptyPool(s, strategy, ticket) == s.(pool := [Undefined])
  {
  }

  /**
   * Concretely: a fresh Simple pool. The first `use` leaves one idle entry,
   * `undefined`, with `poolSize` still 0.
   */
  lemma FreshSimplePoolFirstUse()
    ensures var r := UseOnEmptyPool(Snapshot(0, [], [], false), Simple, 0);
      r.poolSize == 0 && r.pool == [Undefined] && r.queue == [] && |r.pool| > r.poolSize
  {
    UseOnEmptySimplePoolStoresUndefined(Snapshot(0, [], [], false), Simple, 0);
  }

  /**
   * Defect 2: a non-fatal probe error during `use`, with nobody waiting,
   * replaces the probed handle by `undefined` at the back of the idle pool
   * while `poolSize` drops by one; a fatal one drops `poolSize` by two.
   */
  lemma UseProbeErrorMiscounts(s: Snapshot, fatal: bool)
    requires s.pool != [] && s.queue == []
    ensures !fatal ==> UseProbeError(s, fatal) == s.(poolSize := s.poolSize - 1, pool := s.pool[1..] + [Undefined])
    ensures fatal ==> UseProbeError(s, fatal) == s.(poolSize := s.poolSize - 2, pool := s.pool[1..])
  {
  }

  /**
   * Concretely: one idle handle counted once. After a non-fatal probe error
   * the pool holds one entry, `undefined`, and counts none.
   */
  lemma OneHandleProbeError()
    ensures UseProbeError(Snapshot(1, [Handle(0)], [], false), false) == Snapshot(0, [Undefined], [], false)
  {
    UseProbeErrorMiscounts(Snapshot(1, [Handle(0)], [], false), false);
  }
}

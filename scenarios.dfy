/**
 * Runs of the model that follow the repository's tests, and a bounded-pool
 * run `{min: 1, max: 2, idleTime: 50}` that no repository test covers,
 * step by step. Each provider answer (the created
 * handle, the liveness verdict, the work's outcome) is chosen as the test's
 * mock provider would give it, and each ensures clause is what the test
 * observes. Their proofs use only the contracts of the model's methods.
 */
module Scenarios {
  import opened Strategies
  import opened ConnectionPool
  import opened MySql

  /** `poolStatus` in test/index.js: total size, idle count, waiter count. */
  function StatusOf(p: Pool): (int, int, int)
    reads p
  {
    (p.poolSize, |p.pool|, |p.queue|)
  }

  /**
   * A quiescent Base pool: no shrink pending, nothing destroyed, no resource
   * retired, nothing being created, and the given size, idle handles,
   * waiters, owned handles and next ticket.
   */
  ghost predicate BaseAt(p: Pool, size: int, pool: seq<Handle>, queue: seq<Waiter>,
                         held: set<Handle>, nextWaiter: nat)
    reads p
  {
    && p.Valid() && p.strategy == Base && !p.destroyed
    && p.shrinking == 0 && p.retired == {} && p.creating == 0
    && p.poolSize == size && p.pool == pool && p.queue == queue
    && p.held == held && p.nextWaiter == nextWaiter
  }

  /** `pool.expand()` on a new Base pool, resolved with handle 0. */
  method BaseExpanded() returns (p: Pool, initial: (int, int, int), e: ExpandStart)
    ensures fresh(p) && BaseAt(p, 1, [0], [], {}, 0)
    ensures initial == (0, 0, 0) && e == Creating
  {
    p := new Pool(Base);
    initial := StatusOf(p);
    e := p.Expand();
    var _ := p.CreateResolved(0);
  }

  /** The outer `use`: the idle handle 0 is shifted off and, without `isLive`, handed over. */
  method BaseOuterUse(p: Pool) returns (got: Handle)
    requires BaseAt(p, 1, [0], [], {}, 0)
    modifies p
    ensures BaseAt(p, 1, [], [], {0}, 0) && got == 0
  {
    var outer := p.Use();
    var probed := p.IsLiveResolved(outer.acquire.handle, Live);
    got := probed.handle;
    p.UseAcquired(got);
  }

  /** Inside the outer work, `next` and `final` both find nothing idle and wait. */
  method BaseNestedUses(p: Pool) returns (next: UseStart, final: UseStart)
    requires BaseAt(p, 1, [], [], {0}, 0)
    modifies p
    ensures BaseAt(p, 1, [], [0, 1], {0}, 2)
    ensures next == Acquiring(Waiting(0)) && final == Acquiring(Waiting(1))
  {
    next := p.Use();
    final := p.Use();
  }

  /**
   * The outer work returns: the handle `c` it used goes to `next`, the first
   * waiter, and `next`'s work starts.
   */
  method BaseOuterReturns(p: Pool, c: Handle) returns (released: Option<Delivery>)
    requires BaseAt(p, 1, [], [0, 1], {c}, 2)
    modifies p
    ensures BaseAt(p, 1, [], [1], {c}, 2) && released == Some(HandedTo(0, c))
  {
    released := p.UseSettled(c, Succeeded);
    p.UseAcquired(c);
  }

  /** Inside `next`'s work, `expand` creates handle 1, which goes straight to `final`. */
  method BaseExpandForFinal(p: Pool) returns (e: ExpandStart, delivery: Delivery)
    requires BaseAt(p, 1, [], [1], {0}, 2)
    modifies p
    ensures BaseAt(p, 2, [], [], {0, 1}, 2) && e == Creating && delivery == HandedTo(1, 1)
  {
    e := p.Expand();
    delivery := p.CreateResolved(1);
    p.UseAcquired(1);
  }

  /** `final` settles, then `next`, whose work returned `final`: both handles are idle again. */
  method BaseBothSettle(p: Pool)
    requires BaseAt(p, 2, [], [], {0, 1}, 2)
    modifies p
    ensures BaseAt(p, 2, [1, 0], [], {}, 2)
  {
    var _ := p.UseSettled(1, Succeeded);
    var _ := p.UseSettled(0, Succeeded);
  }

  /** Two shrinks: each takes the oldest idle handle and destroys it. */
  method BaseDrain(p: Pool) returns (s1: ShrinkStart, s2: ShrinkStart)
    requires BaseAt(p, 2, [1, 0], [], {}, 2)
    modifies p
    ensures p.Valid() && p.poolSize == 0 && p.pool == [] && p.queue == []
    ensures p.retired == {0, 1} && p.held == {} && p.shrinking == 0
    ensures s1 == Shrinking(Probing(1)) && s2 == Shrinking(Probing(0))
  {
    s1 := p.Shrink();
    s2 := p.Shrink();
    var _ := p.IsLiveResolved(1, Live);
    p.ShrinkAcquired(1);
    var _ := p.IsLiveResolved(0, Live);
    p.ShrinkAcquired(0);
  }

  /**
   * test/index.js:67-128 on a Base pool whose provider only creates, with
   * ids from 0: the `poolStatus` checks in the order the test makes them,
   * the handles the three uses receive, and that both `expand` calls ask
   * the provider to create (the test's `id === 2`).
   */
  method BaseExpandUseShrink() returns (trace: seq<(int, int, int)>, received: seq<Handle>,
                                        expands: seq<ExpandStart>)
    ensures trace == [(0, 0, 0), (1, 1, 0), (1, 0, 0), (1, 0, 2), (1, 0, 1), (2, 0, 0), (0, 0, 0)]
    ensures received == [0, 0, 1]
    ensures expands == [Creating, Creating]
  {
    var p, initial, e1 := BaseExpanded();
    trace := [initial, StatusOf(p)];
    var first := BaseOuterUse(p);
    trace := trace + [StatusOf(p)];
    var next, final := BaseNestedUses(p);
    trace := trace + [StatusOf(p)];
    var released := BaseOuterReturns(p, first);
    trace := trace + [StatusOf(p)];
    var e2, delivery := BaseExpandForFinal(p);
    trace := trace + [StatusOf(p)];
    // Each waiting use receives the handle delivered to its own ticket.
    assert released.value.ticket == next.acquire.ticket && delivery.ticket == final.acquire.ticket;
    received := [first, released.value.handle, delivery.handle];
    expands := [e1, e2];
    BaseBothSettle(p);
    var _, _ := BaseDrain(p);
    trace := trace + [StatusOf(p)];
  }

  /**
   * A Simple pool with nothing idle: enrolling the waiter expands first, so
   * `poolSize` is 1 while the caller waits, and the created handle goes to
   * that waiter rather than to the idle pool.
   */
  method SimpleWaiterTriggersExpand() returns (start: UseStart, waiting: (int, int, int),
                                               delivery: Delivery, after: (int, int, int))
    ensures start == Acquiring(Waiting(0)) && waiting == (1, 0, 1)
    ensures delivery == HandedTo(0, 0) && after == (1, 0, 0)
  {
    var p := new Pool(Simple);
    start := p.Use();
    waiting := StatusOf(p);
    delivery := p.CreateResolved(0);
    after := StatusOf(p);
  }

  /** A Simple pool whose one resource, handle 7, is checked out by a `use`. */
  method SimpleCheckedOut() returns (p: Pool)
    ensures fresh(p) && p.Valid() && p.strategy == Simple && !p.destroyed
    ensures p.poolSize == 1 && p.pool == [] && p.queue == [] && p.held == {7}
    ensures p.creating == 0 && p.shrinking == 0 && p.retired == {} && p.nextWaiter == 0
  {
    p := new Pool(Simple);
    var _ := p.Expand();
    var _ := p.CreateResolved(7);
    var _ := p.Use();
    var _ := p.IsLiveResolved(7, Live);
    p.UseAcquired(7);
  }

  /**
   * `destroy` on that pool issues one shrink, which finds nothing idle and
   * waits; the expansion its enrolment triggers is a no-op.
   */
  method SimpleDestroyed(p: Pool) returns (shrinks: seq<Acquire>)
    requires p.Valid() && p.strategy == Simple && !p.destroyed
    requires p.poolSize == 1 && p.pool == [] && p.queue == [] && p.held == {7}
    requires p.creating == 0 && p.shrinking == 0 && p.retired == {} && p.nextWaiter == 0
    modifies p
    ensures p.Valid() && p.destroyed
    ensures p.poolSize == 0 && p.pool == [] && p.queue == [0] && p.held == {7}
    ensures p.creating == 0 && p.shrinking == 1 && p.retired == {}
    ensures shrinks == [Waiting(0)]
  {
    shrinks := p.Destroy();
    assert Drained([], 1) == 0 && Tickets(0, 1) == [0];
  }

  /**
   * Destroying a Simple pool whose only handle is checked out: one shrink is
   * issued and waits, a later `use` rejects without touching anything, and
   * the release of the checked-out handle goes to the shrink, which
   * destroys it.
   */
  method DestroyWhileCheckedOut() returns (shrinks: seq<Acquire>, destroyedStatus: (int, int, int),
                                           late: UseStart, released: Option<Delivery>, final: (int, int, int))
    ensures shrinks == [Waiting(0)] && destroyedStatus == (0, 0, 1)
    ensures late == DestroyedError
    ensures released == Some(HandedTo(0, 7)) && final == (0, 0, 0)
  {
    var p := SimpleCheckedOut();
    shrinks := SimpleDestroyed(p);
    destroyedStatus := StatusOf(p);
    late := p.Use();
    released := p.UseSettled(7, Succeeded);
    p.ShrinkAcquired(7);
    final := StatusOf(p);
  }

  /** The policy `new LimitStrategy(provider, {min: 1, max: 2, idleTime: 50})` builds. */
  const Bounded := Configure(LimitOptions(1, 2, Millis(50)))

  /**
   * A quiescent pool under `Bounded`: no shrink pending, nothing being
   * created, nothing destroyed, and the given counters, collections and
   * timer state.
   */
  ghost predicate BoundedAt(p: Pool, size: int, pool: seq<Handle>, queue: seq<Waiter>, held: set<Handle>,
                            nextWaiter: nat, retired: set<Handle>, armed: bool, strays: nat)
    reads p
  {
    && p.Valid() && p.strategy == Bounded && !p.destroyed
    && p.shrinking == 0 && p.creating == 0
    && p.poolSize == size && p.pool == pool && p.queue == queue && p.held == held
    && p.nextWaiter == nextWaiter && p.retired == retired
    && p.timerArmed == armed && p.strayTimers == strays
  }

  /** Construction pre-warms one resource, which the provider then creates as handle 0. */
  method BoundedPrewarmed() returns (p: Pool, prewarmed: (int, int, int))
    ensures fresh(p) && BoundedAt(p, 1, [0], [], {}, 0, {}, false, 0)
    ensures prewarmed == (1, 0, 0)
  {
    p := new Pool(Bounded);
    prewarmed := StatusOf(p);
    var _ := p.CreateResolved(0);
  }

  /**
   * An outer `use` takes handle 0; a nested `use` finds nothing idle, and
   * its enrolment expands the pool to `max`; the new handle 1 goes to it.
   */
  method BoundedGrow(p: Pool) returns (grown: (int, int, int))
    requires BoundedAt(p, 1, [0], [], {}, 0, {}, false, 0)
    modifies p
    ensures BoundedAt(p, 2, [], [], {0, 1}, 1, {}, false, 0)
    ensures grown == (2, 0, 1)
  {
    var _ := p.Use();
    var _ := p.IsLiveResolved(0, Live);
    p.UseAcquired(0);
    var _ := p.Use();
    grown := StatusOf(p);
    var _ := p.CreateResolved(1);
    p.UseAcquired(1);
  }

  /**
   * Both uses settle, inner first. Each end of a transaction starts a
   * timer, so the first one's timer is no longer the one `timeout` names.
   */
  method BoundedSettle(p: Pool) returns (settled: (int, int, int))
    requires BoundedAt(p, 2, [], [], {0, 1}, 1, {}, false, 0)
    modifies p
    ensures BoundedAt(p, 2, [1, 0], [], {}, 1, {}, true, 1)
    ensures settled == (2, 2, 0)
  {
    var _ := p.UseSettled(1, Succeeded);
    var _ := p.UseSettled(0, Succeeded);
    settled := StatusOf(p);
  }

  /**
   * The earlier timer fires: above `min`, the oldest idle handle 1 is
   * shrunk away, and since handle 0 is still idle a timer starts again.
   */
  method BoundedReclaim(p: Pool) returns (first: Option<ShrinkStart>, reclaimed: (int, int, int))
    requires BoundedAt(p, 2, [1, 0], [], {}, 1, {}, true, 1)
    modifies p
    ensures BoundedAt(p, 1, [0], [], {}, 1, {1}, true, 1)
    ensures first == Some(Shrinking(Probing(1))) && reclaimed == (1, 1, 0)
  {
    first := p.TryShrink(false);
    var _ := p.IsLiveResolved(1, Live);
    p.ShrinkAcquired(1);
    reclaimed := StatusOf(p);
  }

  /**
   * A bounded pool `{min: 1, max: 2, idleTime: 50}`: pre-warmed to one
   * resource, grown to two by a nested use, and after both uses settle the
   * idle timer reclaims exactly one handle. At `min` the timer keeps
   * restarting but skips the shrink, so the pool stays at one resource.
   */
  method BoundedIdleReclaim() returns (prewarmed: (int, int, int), grown: (int, int, int),
                                       settled: (int, int, int), reclaimed: (int, int, int),
                                       atMin: Option<ShrinkStart>, final: (int, int, int), rearmed: bool)
    ensures prewarmed == (1, 0, 0) && grown == (2, 0, 1) && settled == (2, 2, 0)
    ensures reclaimed == (1, 1, 0)
    ensures atMin == Some(Skipped) && final == (1, 1, 0) && rearmed
  {
    var p;
    p, prewarmed := BoundedPrewarmed();
    grown := BoundedGrow(p);
    settled := BoundedSettle(p);
    var first;
    first, reclaimed := BoundedReclaim(p);
    // The second 'end-transaction' timer, a stray since the reclaim re-armed
    // `timeout`, is due first; it fires at `min`.
    atMin := p.TryShrink(false);
    final := StatusOf(p);
    rearmed := p.timerArmed;
  }

  /**
   * `min` is not an invariant: on an active pool `{min: 1}` at one resource,
   * a use whose work fails fatally discounts its handle (base.js:152) and
   * no guard stops it, so the pool ends below `min`.
   */
  method FatalErrorDropsBelowMin() returns (min: nat, status: (int, int, int))
    ensures min == 1 && status == (0, 0, 0)
  {
    var p := new Pool(Limit(1, Infinity, Unset));
    var _ := p.CreateResolved(0);
    var _ := p.Use();
    var _ := p.IsLiveResolved(0, Live);
    p.UseAcquired(0);
    var _ := p.UseSettled(0, Threw(true));
    min, status := p.strategy.min, StatusOf(p);
  }

  /** The pool `{max: 1}`: no pre-warm, no timers. */
  const SingleMax := Limit(0, Finite(1), Unset)

  /** A live pool under `SingleMax` with the given counters and collections. */
  ghost predicate SingleMaxAt(p: Pool, size: int, pool: seq<Handle>, queue: seq<Waiter>, held: set<Handle>,
                              nextWaiter: nat, retired: set<Handle>, creating: nat, shrinking: nat)
    reads p
  {
    && p.Valid() && p.strategy == SingleMax && !p.destroyed
    && p.poolSize == size && p.pool == pool && p.queue == queue && p.held == held
    && p.nextWaiter == nextWaiter && p.retired == retired
    && p.creating == creating && p.shrinking == shrinking
  }

  /**
   * One resource is created and pooled; a shrink takes it, its probe fails,
   * and `_getConnection` discounts it a second time (base.js:91).
   */
  method SingleMaxDipped() returns (p: Pool)
    ensures fresh(p) && SingleMaxAt(p, -1, [], [], {}, 0, {0}, 0, 1)
  {
    p := new Pool(SingleMax);
    var _ := p.Expand();
    var _ := p.CreateResolved(0);
    var _ := p.Shrink();
    var _ := p.IsLiveResolved(0, ProbeFailed);
  }

  /**
   * Two uses enrol while the count is below zero; each 'queue-push'
   * expansion passes `poolSize < max`. Then the shrink's rejection handler
   * gives its discount back (base.js:120).
   */
  method SingleMaxEnrolled(p: Pool)
    requires SingleMaxAt(p, -1, [], [], {}, 0, {0}, 0, 1)
    modifies p
    ensures SingleMaxAt(p, 2, [], [0, 1], {}, 2, {0}, 2, 0)
  {
    var _ := p.Use();
    var _ := p.Use();
    p.ShrinkAcquireRejected();
  }

  /**
   * `max` is not an invariant either. On a pool `{max: 1}` a shrink whose
   * probe fails is discounted twice until its rejection handler gives one
   * back. Expansions in between pass the guard from below, so two
   * creations start; both resources end up counted and in use.
   */
  method ProbeFailureOvershootsMax() returns (max: Bound, status: (int, int, int), handed: seq<Delivery>)
    ensures max == Finite(1) && status == (2, 0, 0)
    ensures handed == [HandedTo(0, 1), HandedTo(1, 2)]
  {
    var p := SingleMaxDipped();
    SingleMaxEnrolled(p);
    var first := p.CreateResolved(1);
    var second := p.CreateResolved(2);
    max, status, handed := p.strategy.max, StatusOf(p), [first, second];
  }

  /**
   * test/index.js:17-63 on the MySQL provider with configurations a, b, c.
   * Three creates use c, b, a in that order (the test's `=` assertions check
   * nothing about this) and leave the list as it was. After `destroy` on the
   * first, a fatal error on the second and a non-fatal one on the third,
   * only the third is live and unwraps.
   */
  method MySqlProviderRun() returns (used: seq<Config>, configsAfter: seq<Config>,
                                     liveBefore: seq<bool>, liveAfter: seq<bool>,
                                     unwrapAfter: seq<Result<RawConnection>>)
    ensures used == [Settings(2), Settings(1), Settings(0)]
    ensures configsAfter == [Settings(0), Settings(1), Settings(2)]
    ensures liveBefore == [true, true, true] && liveAfter == [false, false, true]
    ensures unwrapAfter == [Err(NotConnected), Err(NotConnected), Ok(Raw(Settings(0)))]
  {
    var provider := new MySqlSource(List([Settings(0), Settings(1), Settings(2)]));
    var c0 := provider.Create();
    var c1 := provider.Create();
    var c2 := provider.Create();
    used := [c0.config, c1.config, c2.config];
    configsAfter := provider.configs;

    var _ := c0.OnConnect(false);
    var _ := c1.OnConnect(false);
    var _ := c2.OnConnect(false);
    var l0 := provider.IsLive(c0);
    var l1 := provider.IsLive(c1);
    var l2 := provider.IsLive(c2);
    liveBefore := [l0, l1, l2];

    provider.Destroy(c0);
    c1.OnError(true);
    c2.OnError(false);
    l0 := provider.IsLive(c0);
    l1 := provider.IsLive(c1);
    l2 := provider.IsLive(c2);
    liveAfter := [l0, l1, l2];
    var u0 := provider.Unwrap(c0);
    var u1 := provider.Unwrap(c1);
    var u2 := provider.Unwrap(c2);
    unwrapAfter := [u0, u1, u2];
  }
}

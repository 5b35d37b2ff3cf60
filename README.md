# connection-pool, modelled in Dafny

A model of the connection-pool library's core. It covers the pool engine of
`strategies/base.js` and the two sizing policies layered on it:
`strategies/simple.js` grows the pool on demand, and `strategies/limit.js`
bounds it between `min` and `max` and reclaims idle resources on a timer.
It also covers the MySQL provider of `providers/mysql.js`.

Modules:

- `Strategies` (strategies.dfy): the three policies as a datatype, the
  constructor's option defaulting (`max || Infinity`, `min || 0`), and the
  guards of Limit's `expand` and `shrink` overrides.
- `ConnectionPool` (pool.dfy): class `Pool`, holding the engine's fields
  `poolSize`, `pool` (idle handles, oldest first), `queue` (waiters, oldest
  first) and `destroyed`, plus Limit's timer state.
  - Each asynchronous operation of the source is split at its provider
    calls into synchronous segments, one method per segment. The provider's
    answer is a parameter of the method that runs when the answer arrives.
  - The prototype chain Limit -> Simple -> Base becomes one class whose
    `strategy` constant selects the overrides.
  - An emitted event is a direct call of the handler the policy registered.
  - Ghost fields record handles that some operation owns (`held`), handles
    already destroyed (`retired`), creations in flight (`creating`) and
    shrinks that have discounted a resource but not yet destroyed it
    (`shrinking`).
  - The object invariant `Valid()` holds the pool's accounting:
    `poolSize + shrinking == |pool| + |held| + creating`. It also says idle
    handles are distinct and never owned or destroyed, waiters are in
    arrival order, and nobody waits while a handle is idle. Every method
    preserves it.
- `MySql` (mysql.dfy): `MySqlSource`, which rotates its configuration list on
  each `create`, and `MySqlConnection`, whose `connected` flag decides
  `unwrap` and `isLive`.
- `AsWritten` (as_written.dfy): the two paths where the JavaScript as written
  differs from what the engine evidently intends (see Findings).
- `Scenarios` (scenarios.dfy): the repository's test scenarios, and
  bounded-pool runs (such as `{min: 1, max: 2, idleTime: 50}`) that no
  repository test covers. Each is replayed step by step against the
  methods' contracts.

Notes on the behaviour modelled:

- When `isLive` itself fails (base.js:90-94), the handle is discounted and
  destroyed and the error propagates to the caller. A reader might expect a
  failed probe to count as "not live" and the acquisition to restart; the
  code does neither, and the model follows the code.
- Limit's `expand` at `max` returns `undefined`, not a promise
  (limit.js:46-50). That is `ExpandStart.ReturnedUndefined`.
- `new LimitStrategy` reads `this.lowWaterMark` before anything could set
  it, so the mark is always 0 (`LowWaterMark`).
- Each 'end-transaction' overwrites `timeout` with a new timer without
  clearing the old one, which keeps running. The model counts those timers
  in `strayTimers`; `timerArmed` says whether `timeout` still names a
  pending timer.
- `|pool| <= poolSize` is not an invariant of the code. A shrink whose probe
  failed has discounted a resource before its rejection handler adds it
  back, so the idle count can briefly exceed `poolSize`. The model proves
  the exact accounting equation instead.
- Neither of Limit's bounds is an invariant either. Limit's guards
  (limit.js:47, limit.js:56) only check before a single `expand` or
  `shrink`, and `Pool.Expand` and `Pool.Shrink` prove only that one
  guarded call keeps the pool within its bound.
  - Below `min`: a use whose work fails fatally discounts without a guard
    (base.js:152). On `{min: 1}` at one resource this leaves 0
    (`Scenarios.FatalErrorDropsBelowMin`). A not-live probe, a failed
    probe or a failed create does the same.
  - Above `max`: a shrink whose probe fails is discounted twice
    (base.js:91) until its rejection handler gives one back (base.js:120).
    On `{max: 1}`, two uses that enrol in between both pass the `expand`
    guard. The pool ends with two resources, both in use
    (`Scenarios.ProbeFailureOvershootsMax`).

## Model

| member | source | states |
|---|---|---|
| `Strategies.Configure` | strategies/limit.js:9-10 | `max` becomes Infinity exactly when the option is falsy, and otherwise keeps its value; `min` and `idleTime` are kept |
| `Strategies.MinBound` | strategies/limit.js:11-13 | the pre-warm count is at most `min`, within `max`, and equal to one of them |
| `Strategies.TimerEnabled` | strategies/limit.js:16 | timers are installed exactly for a positive finite `idleTime`; an unset, zero or infinite one installs none |
| `Strategies.ExpandProceeds` | strategies/limit.js:47 | Simple and Base always expand; Limit expands exactly when one more resource stays within `max` |
| `Strategies.ShrinkProceeds` | strategies/limit.js:56 | Simple, Base and any destroyed pool always shrink; an active Limit pool shrinks exactly when one fewer resource stays at or above `min` |
| `Strategies.FalsyMaxIsUnbounded` | strategies/limit.js:46-50 | follows by unfolding `Configure` and `ExpandProceeds`: with a falsy `max` every `expand` proceeds; otherwise it proceeds exactly while `poolSize < max` |
| `Strategies.DestroyedAlwaysShrinks` | strategies/limit.js:55-59 | follows by unfolding `ShrinkProceeds`: on a destroyed pool every policy's `shrink` proceeds, whatever `min` is; `destroy`'s drain loop relies on it at each step |
| `ConnectionPool.DrainStep` | strategies/base.js:114-117 | one more shrink during `destroy` takes the next-oldest idle handle if one is left, otherwise enrols the next ticket; this extends the drained prefix and the list of started acquisitions by one |
| `ConnectionPool.Pool.constructor` | strategies/limit.js:7-13 | a new pool is empty and valid; a Limit pool already counts `min(min, max)` resources, all being created |
| `ConnectionPool.Pool.AddConnection` | strategies/base.js:70-77 | the longest waiter receives the handle if anyone waits, otherwise the handle joins the back of the idle pool; `poolSize` is unchanged |
| `ConnectionPool.Pool.GetConnection` | strategies/base.js:79-101 | takes the oldest idle handle if there is one; otherwise enrols a new waiter at the back of the queue, after the 'queue-push' expansion has counted a creation for Simple and Limit |
| `ConnectionPool.Pool.OnQueuePush` | strategies/simple.js:8-10 | Simple and Limit start one creation when a waiter enrols, if the guarded `expand` proceeds on a live pool; nothing else changes |
| `ConnectionPool.Pool.IsLiveResolved` | strategies/base.js:82-94 | a live handle is the result; a dead one is discounted and destroyed and the acquisition restarts on the rest of the pool; a failed probe is discounted and destroyed and the error propagates |
| `ConnectionPool.Pool.Expand` | strategies/limit.js:46-50 | at `max` the call returns `undefined` and changes nothing; below `max` it behaves like the base `expand`; one call from within `max` stays within `max` |
| `ConnectionPool.Pool.ExpandBase` | strategies/base.js:103-106 | a destroyed pool is left unchanged; otherwise `poolSize` counts the new resource before the provider is asked for it |
| `ConnectionPool.Pool.CreateResolved` | strategies/base.js:107-108 | the created handle goes to the longest waiter, or is pooled if nobody waits; `poolSize` already counted it |
| `ConnectionPool.Pool.CreateRejected` | strategies/base.js:109-112 | a failed creation gives back its count, so `poolSize` returns to where it was before `expand` |
| `ConnectionPool.Pool.Shrink` | strategies/limit.js:55-59 | at or below `min` an active Limit pool skips the shrink and changes nothing; otherwise the base shrink runs; one call on an active Limit pool at or above `min` stays there |
| `ConnectionPool.Pool.ShrinkBase` | strategies/base.js:114-117 | one resource is discounted, then one is acquired in order to destroy it |
| `ConnectionPool.Pool.ShrinkAcquired` | strategies/base.js:117-118 | the acquired handle is destroyed and can never be idle again; the counts balance |
| `ConnectionPool.Pool.ShrinkAcquireRejected` | strategies/base.js:119-122 | a failed shrink gives back its discount |
| `ConnectionPool.Pool.Destroy` | strategies/base.js:125-131 | the pool is destroyed and `poolSize` ends at exactly 0 after `poolSize` shrinks; these take the idle handles oldest first, and the rest enrol consecutive tickets |
| `ConnectionPool.Pool.Use` | strategies/base.js:133-141 | a destroyed pool rejects and nothing changes; otherwise one acquisition starts |
| `ConnectionPool.Pool.UseAcquired` | strategies/base.js:141-144 | 'begin-transaction' cancels the latest idle timer when no handle is idle; nothing else changes |
| `ConnectionPool.Pool.UseSettled` | strategies/base.js:145-158 | a fatal error discounts and destroys the handle; success or a non-fatal error releases it to the longest waiter or to the idle pool; under Limit with an idle time a timer starts in every case |
| `ConnectionPool.Pool.UseAcquireRejected` | strategies/base.js:149-157 | a use whose acquisition failed starts the idle timer and leaves pool, queue and counts untouched (corrected behaviour, see Findings) |
| `ConnectionPool.Pool.OnBeginTransaction` | strategies/limit.js:30-34 | the latest timer is cancelled exactly when the policy has timers and at most `LowWaterMark` handles are idle |
| `ConnectionPool.Pool.OnEndTransaction` | strategies/limit.js:35-37 | with timers installed a new timer always starts; a timer it replaces keeps running |
| `ConnectionPool.Pool.StartTimer` | strategies/limit.js:27 | `timeout` names a new pending timer; the one it named before becomes a stray that still fires |
| `ConnectionPool.NoTimerWithoutIdleTime` | strategies/limit.js:16 | the timer conjunct of `Valid()`, spelled out: with `idleTime` falsy or Infinity, or under Simple or Base, no timer is pending in any valid state, so the pool never reclaims on its own |
| `ConnectionPool.Pool.TryShrink` | strategies/limit.js:22-29 | a firing timer shrinks through the policy only when a handle is idle, and starts a new timer exactly when a handle is still idle afterwards |
| `MySql.PopUnshift` | providers/mysql.js:18-19 | the last configuration moves to the front and the length is kept; on an empty list `pop` gives `undefined`, which becomes the only element |
| `MySql.Rotated` | providers/mysql.js:17-21 | any number of creates keep a non-empty list's length; an empty list becomes `[undefined]` at the first create and stays so |
| `MySql.RotationKeepsConfigs` | providers/mysql.js:18-19 | one `create` keeps the list's length and its configurations, and moves the last one to the front |
| `MySql.RotatedClosedForm` | providers/mysql.js:17-21 | after `k` creates the last `k` configurations, in order, have moved to the front |
| `MySql.FullCycleRestoresOrder` | providers/mysql.js:17-21 | as many creates as configurations restore the list |
| `MySql.CreatesUseConfigsBackwards` | providers/mysql.js:17-21 | the `k`-th create uses the configuration `k` places from the end of the original list |
| `MySql.MySqlConnection.constructor` | providers/mysql.js:52-55 | a new connection is made from its configuration and is not connected |
| `MySql.MySqlConnection.OnConnect` | providers/mysql.js:56-62 | a connect error rejects `ready` and leaves the connection unconnected; success connects it and resolves with the connection |
| `MySql.MySqlConnection.OnError` | providers/mysql.js:63-67 | a fatal error on a connected connection destroys it; any other error changes nothing |
| `MySql.MySqlConnection.Destroy` | providers/mysql.js:73-78 | the connection is unconnected and closed, even if closing throws |
| `MySql.MySqlConnection.Unwrap` | providers/mysql.js:85-90 | the raw connection exactly when connected, otherwise the not-connected error |
| `MySql.MySqlConnection.IsLive` | providers/mysql.js:97-99 | live exactly when connected |
| `MySql.MySqlSource.constructor` | providers/mysql.js:7-10 | an array is kept as the list; anything else becomes a one-element list |
| `MySql.MySqlSource.Create` | providers/mysql.js:17-21 | the list is rotated, the new connection uses its new first element (the old last one), and it starts unconnected; an empty list becomes `[undefined]` |
| `MySql.MySqlSource.Destroy` | providers/mysql.js:28-30 | delegates to the connection, which ends unconnected and closed |
| `MySql.MySqlSource.Unwrap` | providers/mysql.js:38-40 | delegates to the connection's `unwrap` |
| `MySql.MySqlSource.IsLive` | providers/mysql.js:48-50 | delegates to the connection's `isLive` |
| `AsWritten.AddConnection` | strategies/base.js:70-77 | as written for any value `c`: the longest waiter is served if anyone waits, otherwise `c` joins the idle pool; `poolSize` is unchanged, and idle-minus-waiting grows by one |
| `AsWritten.UseErrorWithoutHandle` | strategies/base.js:149-157 | with `c` undefined, a fatal error discounts once more and changes nothing else; a non-fatal one hands `undefined` to the longest waiter or pools it, without counting it |
| `AsWritten.EnqueueOnEmpty` | strategies/base.js:95-99 | the acquisition rejects, leaving everything as it was, exactly when the policy handles 'queue-push' (simple.js:9 throws); under Base the ticket joins the back of the queue |
| `AsWritten.UseOnEmptyPool` | strategies/base.js:133-158 | `use` on an empty idle pool never changes `poolSize`; under Base it only enqueues, and under Simple or Limit with waiters it hands `undefined` to the longest one |
| `AsWritten.UseProbeError` | strategies/base.js:81-93 | a failed probe during `use` discounts twice if fatal, dropping the probed handle; if not, it discounts once, and with waiters it hands `undefined` to the longest one |
| `AsWritten.UseOnEmptySimplePoolStoresUndefined` | strategies/simple.js:8-10 | as written, `use` on an empty Simple or Limit pool enrols nobody and creates nothing; `undefined` joins the idle pool uncounted |
| `AsWritten.FreshSimplePoolFirstUse` | strategies/simple.js:9 | the first `use` of a new Simple pool leaves one idle entry, `undefined`, with `poolSize` 0 |
| `AsWritten.UseProbeErrorMiscounts` | strategies/base.js:149-157 | as written, a failed probe during `use` puts `undefined` at the back of the idle pool (non-fatal) or discounts a second time (fatal) |
| `AsWritten.OneHandleProbeError` | strategies/base.js:149-157 | as written, a pool with one counted idle handle ends with one idle `undefined` and a count of 0 |
| `Scenarios.BaseExpandUseShrink` | test/index.js:68-128 | the test's seven `poolStatus` checks, the handles 0, 0, 1 its three uses receive, and its two creations |
| `Scenarios.SimpleWaiterTriggersExpand` | strategies/simple.js:8-10 | a waiter on an empty Simple pool makes `poolSize` 1 while it waits, and the created handle goes to that waiter |
| `Scenarios.DestroyWhileCheckedOut` | strategies/base.js:125-131 | destroying a pool whose only handle is checked out leaves one waiting shrink; later uses reject; the handle's release is handed to that shrink |
| `Scenarios.BoundedIdleReclaim` | strategies/limit.js:7-39 | `{min: 1, max: 2, idleTime: 50}` pre-warms one resource, grows to two under nesting, reclaims one once idle, then keeps its timer running at `min` without shrinking |
| `Scenarios.FatalErrorDropsBelowMin` | strategies/base.js:151-153 | an active Limit pool `{min: 1}` at one resource ends at 0 after a use whose work fails fatally: `min` is not kept |
| `Scenarios.ProbeFailureOvershootsMax` | strategies/base.js:114-122 | on a Limit pool `{max: 1}`, a shrink whose probe fails, two uses enrolled before its rejection handler runs, and the two creations leave `poolSize` 2, nothing idle, both new handles handed to the waiters: `max` is not kept |
| `Scenarios.MySqlProviderRun` | test/index.js:17-62 | three creates use the configurations last first and restore the list; after `destroy`, a fatal error and a non-fatal error only the third connection is live and unwraps |

## Left out

- Promise scheduling and the event loop. The order in which pending
  continuations run is chosen by whoever calls the methods.
- EventEmitter. Events with no registered handler ('expand', 'shrink',
  'destroy', 'use', 'queue-shift') are dropped. The rest are direct calls.
- Timer durations. The `ms` parser and `setTimeout`'s delay are not
  modelled: when a timer fires is the caller's choice (`TryShrink`). The
  `idleTime` option is taken as already converted.
- The provider wrappers (`_provider_create` and the others, base.js:18-68).
  Turning a thrown exception into a rejected promise is folded into the
  rejected-continuation methods.
- Fire-and-forget `destroy` calls on the provider. Their outcome is ignored
  by the source, and the model records only that the handle is retired.
- The `unwrap` step of `use` and the caller's `fn`. Together they are the
  `WorkOutcome` parameter of `UseSettled`.
- The `timeout` parameter of `use`, because the source never reads it.
- The `mysql` library. A raw connection is identified by its configuration,
  and `connect`'s outcome is a parameter.
- Option values other than non-negative integers, such as negative,
  fractional or non-numeric `min`/`max`.
- `ConnectionPool.Pool.Destroy`: requires `poolSize >= 0`. From a negative
  `poolSize` the source loops forever, since `while (this.poolSize)` never
  reaches 0 while each `shrink` decrements. A Base pool can reach a negative
  size by calling `shrink` with nothing to shrink.
- `ConnectionPool.Pool.IsLiveResolved`: a failed probe is neither treated
  as "not live" nor retried, because the code (base.js:90-94) rethrows the
  error after destroying the handle.
- `ConnectionPool.Pool.UseSettled`: per-caller ownership is not modelled.
  `held` records only that some operation owns a handle, so the model does
  not stop a caller that never acquired `c` from releasing or destroying a
  handle another operation holds; neither does the source.
- `MySql.MySqlSource.constructor`: keeps a copy of the list. The source keeps
  the caller's own array (mysql.js:9) and `create` rotates it in place
  (mysql.js:18-19), so the caller, and any other source built from the same
  array, sees every rotation. The model does not capture that aliasing.
- `ConnectionPool.Pool.OnQueuePush`: states the evidently intended
  `this.expand()`. The source's `self.expand()` is modelled separately in
  module `AsWritten` (see Findings).

## Findings

| source | as written | input that shows it | evidently intended | confidence | as-written member | corrected member |
|---|---|---|---|---|---|---|
| strategies/simple.js:9 | the 'queue-push' handler calls `self.expand()`, but `self` is not declared in simple.js; in strict mode that throws a ReferenceError inside the Promise executor of base.js:96-99 before the waiter is pushed, so the acquisition rejects and `use`'s error handler releases `undefined` | `use` on a new Simple pool: `UseOnEmptyPool(Snapshot(0, [], [], false), Simple, 0)` gives pool `[undefined]`, size 0 | `this.expand()`: the waiter is enrolled and one creation starts | high, not executed | `AsWritten.FreshSimplePoolFirstUse` | `ConnectionPool.Pool.OnQueuePush` |
| strategies/base.js:149-157 | the error handler of `use` also runs when the acquisition itself failed, with `c` still `undefined`: a non-fatal error pools `undefined`, a fatal one discounts `poolSize` a second time | one idle handle whose `isLive` rejects: `UseProbeError(Snapshot(1, [Handle(0)], [], false), false)` gives pool `[undefined]`, size 0 | a failed acquisition only emits 'end-transaction' and rethrows | high, not executed | `AsWritten.OneHandleProbeError` | `ConnectionPool.Pool.UseAcquireRejected` |

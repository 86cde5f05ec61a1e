/** Host programs run against each build's configuration of the engine,
    with what each observably does. */
module Scenarios {
  import opened Base
  import opened Engine

  /** The host callbacks used below: 0 adds one to a number, 1 returns 0,
      2 throws 9. */
  function Callbacks(k: nat, v: Val): (r: CbResult) {
    if k == 0 then (if v.Num? then Returned(Num(v.n + 1)) else Returned(v))
    else if k == 1 then Returned(Num(0))
    else Threw(Num(9))
  }

  const Depth := 10

  /** `new SyncPromise(() => {})` under build `p`: one pending promise,
      whose setup has returned. */
  method NewPending(p: Policy) returns (e: Engine)
    ensures fresh(e) && e.policy == p && e.user == Callbacks
    ensures e.cells == [FreshCell().(setupReturned := true)] && e.aggs == [] && e.log == [] && e.reports == []
  {
    e := new Engine(p, Callbacks);
    var o := e.Construct([], None, Depth);
  }

  /** That promise, later resolved with the plain value `v`: fulfilled
      after its setup returned, so not synchronously resolved. */
  method FulfilledLater(p: Policy, v: Val) returns (e: Engine)
    requires !v.Prom?
    ensures fresh(e) && e.policy == p && e.user == Callbacks
    ensures |e.cells| == 1 && e.cells[0].state == Fulfilled && e.cells[0].value == v && !e.cells[0].sync
  {
    e := NewPending(p);
    var r := e.Resolve(0, v, Depth);
  }

  /** `then(callback 0)` on the pending promise `q` of `e`, in a build
      where the promise was not resolved inside its setup: `q` is observed
      by a new derived promise, and nothing else changes. */
  method AddThen(e: Engine, q: nat)
    requires q < |e.cells| && e.cells[q].state == Pending && !e.cells[q].sync && !e.policy.errback
    modifies e
    ensures var c, Q := |old(e.cells)|, old(e.cells)[q];
      e.cells == old(e.cells)[q := Q.(ful := Q.ful + [Settle(q, c, Some(User(0)), RejectOf(c))],
                                       rej := Q.rej + [Call(RejectOf(c))])] + [FreshCell().(setupReturned := true)]
    ensures e.aggs == old(e.aggs) && e.log == old(e.log) && e.reports == old(e.reports)
  {
    var o := e.Then(q, Some(User(0)), None, Depth);
  }

  /** `then(callback 0)` on a fresh pending promise: promise 0 is observed
      by the derived promise 1. */
  method PendingThen(p: Policy) returns (e: Engine)
    requires !p.errback
    ensures fresh(e) && e.policy == p && e.user == Callbacks
    ensures e.cells == [FreshCell().(ful := [Settle(0, 1, Some(User(0)), RejectOf(1))], rej := [Call(RejectOf(1))],
                                     setupReturned := true),
                        FreshCell().(setupReturned := true)]
    ensures e.aggs == [] && e.log == [] && e.reports == []
  {
    e := NewPending(p);
    AddThen(e, 0);
    assert [] + [Settle(0, 1, Some(User(0)), RejectOf(1))] == [Settle(0, 1, Some(User(0)), RejectOf(1))];
    assert [] + [Call(RejectOf(1))] == [Call(RejectOf(1))];
  }

  // ---- index.js ----

  /** A promise resolved inside its setup function refuses `then`. */
  method IndexThenOnSyncResolved() returns (o: Outcome)
    ensures o == Raise(Error(ThenOnSync))
  {
    var e := new Engine(IndexJs, Callbacks);
    var p := e.Construct([Res(Num(1))], None, Depth);
    o := e.Then(p.v.id, Some(User(0)), None, Depth);
  }

  /** Only the first `resolve` of a later settlement counts; the promise
      was not resolved synchronously. */
  method IndexSettleOnce() returns (c: Cell)
    ensures c.state == Fulfilled && c.value == Num(1) && c.cleared && !c.sync
  {
    var e := NewPending(IndexJs);
    var r := e.Resolve(0, Num(1), Depth);
    r := e.Resolve(0, Num(2), Depth);
    r := e.Reject(0, Num(3), Depth);
    c := e.cells[0];
  }

  /** `then` on a promise fulfilled after its setup returned runs the
      callback at once; the derived promise is then itself synchronously
      resolved, so chaining a second `then` onto it is refused. */
  method IndexChainAfterFulfilled() returns (first: Cell, second: Outcome)
    ensures first.state == Fulfilled && first.value == Num(2) && first.sync
    ensures second == Raise(Error(ThenOnSync))
  {
    var e := FulfilledLater(IndexJs, Num(1));
    var q := e.Then(0, Some(User(0)), None, Depth);
    first := e.cells[1];
    second := e.Then(1, Some(User(0)), None, Depth);
  }

  /** A callback that throws on a fulfilled parent rejects the derived
      promise, and with nobody observing it the reason leaves `then`. */
  method IndexCallbackThrowEscapes() returns (o: Outcome)
    ensures o == Raise(Num(9))
  {
    var e := FulfilledLater(IndexJs, Num(1));
    o := e.Then(0, Some(User(2)), None, Depth);
  }

  /** An unobserved rejection throws out of `reject` after setting `s` and
      `v` but before clearing `c`, so a later `resolve` still settles the
      promise again. */
  method IndexUnobservedRejectionNotFinal() returns (thrown: Outcome, during: Cell, after: Cell)
    ensures thrown == Raise(Num(1))
    ensures during.state == Rejected && during.value == Num(1) && !during.cleared
    ensures after.state == Fulfilled && after.value == Num(2) && after.cleared
  {
    var e := NewPending(IndexJs);
    thrown := e.Reject(0, Num(1), Depth);
    during := e.cells[0];
    var r := e.Resolve(0, Num(2), Depth);
    after := e.cells[0];
  }

  /** `all` over plain values resolves at once with the unchanged array. */
  method IndexAllPlain() returns (c: Cell, filled: seq<Val>)
    ensures c.state == Fulfilled && c.value == Arr(0) && c.cleared
    ensures filled == [Num(1), Num(2)]
  {
    var e := new Engine(IndexJs, Callbacks);
    var o := e.All([Num(1), Num(2)], Depth);
    c := e.cells[0];
    filled := e.aggs[0].items;
  }

  /** A `then` made while the parent is pending is settled by the parent's
      later `resolve`, through the callback; settled after its own setup
      returned, the derived promise accepts a further `then`. */
  method IndexPendingThenPropagates() returns (parent: Cell, child: Cell, next: Outcome)
    ensures parent.state == Fulfilled && parent.value == Num(1) && parent.cleared
    ensures child.state == Fulfilled && child.value == Num(2) && child.cleared && !child.sync
    ensures next == Normal(Prom(2))
  {
    var e := PendingThen(IndexJs);
    ghost var s0 := St(e.cells, e.aggs, e.log, e.reports);
    var r := e.Resolve(0, Num(1), Depth);
    PendingThenRelay(e, s0, St(e.cells, e.aggs, e.log, e.reports), r);
    parent, child := e.cells[0], e.cells[1];
    next := e.Then(1, Some(User(0)), None, Depth);
  }

  /** The relay of `IndexPendingThenPropagates`. */
  lemma PendingThenRelay(e: Engine, s: St, t: St, r: Outcome)
    requires e.policy == IndexJs && e.user == Callbacks
    requires s.cells == [FreshCell().(ful := [Settle(0, 1, Some(User(0)), RejectOf(1))], rej := [Call(RejectOf(1))], setupReturned := true),
                  FreshCell().(setupReturned := true)]
    requires e.ResolveRan(s, t, r, 0, Fulfilled, Num(1), Depth)
    ensures |t.cells| == 2
    ensures t.cells[0].state == Fulfilled && t.cells[0].value == Num(1) && t.cells[0].cleared
    ensures t.cells[1].state == Fulfilled && t.cells[1].value == Num(2) && t.cells[1].cleared && !t.cells[1].sync
  {
    e.PropagatedOne(s, t, 0, Fulfilled, Num(1), Depth, r, Settle(0, 1, Some(User(0)), RejectOf(1)), Hit(1, Fulfilled, Num(2)));
  }

  /** Rejecting a parent whose only observer is an unobserved derived
      promise rejects that promise, whose own unhandled rejection throws out
      of the parent's `forEach`: neither of them is cleared. */
  method IndexPendingThenRejectionEscapes() returns (o: Outcome, parent: Cell, child: Cell)
    ensures o == Raise(Num(1))
    ensures parent.state == Rejected && parent.value == Num(1) && !parent.cleared
    ensures child.state == Rejected && child.value == Num(1) && !child.cleared
  {
    var e := PendingThen(IndexJs);
    ghost var s0 := St(e.cells, e.aggs, e.log, e.reports);
    o := e.Reject(0, Num(1), Depth);
    PendingThenEscape(e, s0, St(e.cells, e.aggs, e.log, e.reports), o);
    parent, child := e.cells[0], e.cells[1];
  }

  /** The relay of `IndexPendingThenRejectionEscapes`. */
  lemma PendingThenEscape(e: Engine, s: St, t: St, o: Outcome)
    requires e.policy == IndexJs && e.user == Callbacks
    requires s.cells == [FreshCell().(ful := [Settle(0, 1, Some(User(0)), RejectOf(1))], rej := [Call(RejectOf(1))], setupReturned := true),
                  FreshCell().(setupReturned := true)]
    requires e.ResolveRan(s, t, o, 0, Rejected, Num(1), Depth)
    ensures |t.cells| == 2 && o == Raise(Num(1))
    ensures t.cells[0].state == Rejected && t.cells[0].value == Num(1) && !t.cells[0].cleared
    ensures t.cells[1].state == Rejected && t.cells[1].value == Num(1) && !t.cells[1].cleared
  {
    e.PropagatedOne(s, t, 0, Rejected, Num(1), Depth, o, Call(RejectOf(1)), Hit(1, Rejected, Num(1)));
  }

  /** Two `then`s made while the parent is pending are both settled by the
      parent's later `resolve`, in registration order. */
  method IndexTwoPendingThens() returns (first: Cell, second: Cell)
    ensures first.state == Fulfilled && first.value == Num(2) && first.cleared
    ensures second.state == Fulfilled && second.value == Num(2) && second.cleared
  {
    var e := PendingThen(IndexJs);
    AddThen(e, 0);
    var x0, x1 := Settle(0, 1, Some(User(0)), RejectOf(1)), Settle(0, 2, Some(User(0)), RejectOf(2));
    assert [x0] + [x1] == [x0, x1] && [Call(RejectOf(1))] + [Call(RejectOf(2))] == [Call(RejectOf(1)), Call(RejectOf(2))];
    ghost var s0 := St(e.cells, e.aggs, e.log, e.reports);
    var r := e.Resolve(0, Num(1), Depth);
    TwoThensRelay(e, s0, St(e.cells, e.aggs, e.log, e.reports), r);
    first, second := e.cells[1], e.cells[2];
  }

  /** The relay of `IndexTwoPendingThens`, from the state its two `then`s
      left. */
  lemma TwoThensRelay(e: Engine, s: St, t: St, r: Outcome)
    requires e.policy == IndexJs && e.user == Callbacks
    requires var x0, x1 := Settle(0, 1, Some(User(0)), RejectOf(1)), Settle(0, 2, Some(User(0)), RejectOf(2));
      s.cells == [FreshCell().(ful := [x0, x1], rej := [Call(RejectOf(1)), Call(RejectOf(2))], setupReturned := true),
                  FreshCell().(setupReturned := true), FreshCell().(setupReturned := true)]
    requires e.ResolveRan(s, t, r, 0, Fulfilled, Num(1), Depth)
    ensures |t.cells| == 3
    ensures t.cells[1].state == Fulfilled && t.cells[1].value == Num(2) && t.cells[1].cleared
    ensures t.cells[2].state == Fulfilled && t.cells[2].value == Num(2) && t.cells[2].cleared
  {
    var x0, x1 := Settle(0, 1, Some(User(0)), RejectOf(1)), Settle(0, 2, Some(User(0)), RejectOf(2));
    assert Listeners(s.cells[0], Fulfilled) == [x0, x1];
    e.PropagatedTwo(s, t, 0, Fulfilled, Num(1), Depth, r, x0, x1, Hit(1, Fulfilled, Num(2)), Hit(2, Fulfilled, Num(2)));
  }

  /** `resolve` with a pending promise follows it, and that promise's later
      fulfilment fulfils the follower with the same value. */
  method IndexResolveFollowsThenable() returns (c: Cell)
    ensures c.state == Fulfilled && c.value == Num(5) && c.cleared
  {
    var e := NewPending(IndexJs);
    var q := e.Construct([], None, Depth);
    var r := e.Resolve(1, Prom(0), Depth);
    assert e.cells[0].ful == [Settle(0, 2, Some(ResolveOf(1)), RejectOf(2))] && Unobserved(e.cells[1]);
    ghost var s0 := St(e.cells, e.aggs, e.log, e.reports);
    r := e.Resolve(0, Num(5), Depth);
    FollowerFulfils(e, s0, St(e.cells, e.aggs, e.log, e.reports), r);
    c := e.cells[1];
  }

  /** Where the resolution of `IndexResolveFollowsThenable` lands. */
  lemma FollowerFulfils(e: Engine, s: St, t: St, r: Outcome)
    requires e.policy == IndexJs && e.user == Callbacks
    requires |s.cells| > 2 && s.cells[0].ful == [Settle(0, 2, Some(ResolveOf(1)), RejectOf(2))] && !s.cells[0].cleared
    requires Unobserved(s.cells[1])
    requires e.ResolveRan(s, t, r, 0, Fulfilled, Num(5), Depth)
    ensures |t.cells| > 1 && t.cells[1].state == Fulfilled && t.cells[1].value == Num(5) && t.cells[1].cleared
  {
  }

  /** `resolve` with a promise that is already fulfilled settles the
      follower with that promise's value, and then throws: the promise
      `then(resolve)` returned was resolved inside its own setup function,
      and `.catch` refuses it. */
  method IndexResolveWithFulfilledThrows() returns (o: Outcome, c: Cell)
    ensures o == Raise(Error(CatchOnSync))
    ensures c.state == Fulfilled && c.value == Num(5) && c.cleared
  {
    var e := FulfilledLater(IndexJs, Num(5));
    var q := e.Construct([], None, Depth);
    ghost var s0 := St(e.cells, e.aggs, e.log, e.reports);
    o := e.Resolve(1, Prom(0), Depth);
    e.FollowFulfilledThrows(s0, 1, 0, Depth);
    c := e.cells[1];
  }

  /** A `then` on a `then` made while the first parent is pending: the
      parent's later `resolve` runs both callbacks in turn, and the last
      promise of the chain is fulfilled with the second callback's result
      on the first one's. */
  method IndexThenChainPropagates() returns (first: Cell, last: Cell)
    ensures first.state == Fulfilled && first.value == Num(1) && first.cleared
    ensures last.state == Fulfilled && last.value == Num(3) && last.cleared
  {
    var e := PendingThen(IndexJs);
    AddThen(e, 1);
    ghost var s0 := St(e.cells, e.aggs, e.log, e.reports);
    var r := e.Resolve(0, Num(1), Depth);
    ChainLands(e, s0, St(e.cells, e.aggs, e.log, e.reports), r);
    ChainRuns(e, s0, St(e.cells, e.aggs, e.log, e.reports), r);
    first, last := e.cells[0], e.cells[2];
  }

  /** The whole run of `IndexThenChainPropagates`: the first promise of
      the chain keeps the value it settled with once the rest of the chain
      has run, and is cleared. */
  lemma ChainRuns(e: Engine, s: St, t: St, r: Outcome)
    requires e.policy == IndexJs && e.user == Callbacks
    requires |s.cells| == 3 && s.cells[0].ful == [Settle(0, 1, Some(User(0)), RejectOf(1))] && !s.cells[0].cleared
    requires s.cells[1].ful == [Settle(1, 2, Some(User(0)), RejectOf(2))] && !s.cells[1].cleared
    requires s.cells[2].ful == [] && !s.cells[2].cleared
    requires Run(t, r) == e.Exec(s, ResolveCall(0, Fulfilled, Num(1)), Depth)
    ensures |t.cells| == 3 && t.cells[0] == AfterTransist(s.cells[0], Fulfilled, Num(1), IndexJs)
  {
    e.TwoHops(s, 0, 1, 2, 0, 0, Num(1), Depth);
  }

  /** Where the resolution of `IndexThenChainPropagates` lands. */
  lemma ChainLands(e: Engine, s: St, t: St, r: Outcome)
    requires e.policy == IndexJs && e.user == Callbacks
    requires |s.cells| == 3 && s.cells[0].ful == [Settle(0, 1, Some(User(0)), RejectOf(1))] && !s.cells[0].cleared
    requires s.cells[1].ful == [Settle(1, 2, Some(User(0)), RejectOf(2))] && !s.cells[1].cleared && Unobserved(s.cells[2])
    requires e.ResolveRan(s, t, r, 0, Fulfilled, Num(1), Depth)
    ensures |t.cells| > 2 && t.cells[2].state == Fulfilled && t.cells[2].value == Num(3) && t.cells[2].cleared
  {
  }

  /** `all` over a pending promise stays pending until that promise is
      fulfilled, and is then fulfilled with the (filled-in) array. */
  method IndexAllPendingFills() returns (before: Cell, after: Cell)
    ensures before.state == Pending && !before.cleared
    ensures after.state == Fulfilled && after.value == Arr(0) && after.cleared
  {
    var e := NewPending(IndexJs);
    var o := e.All([Prom(0)], Depth);
    assert e.cells[0].ful == [Settle(0, 2, Some(AllSlot(0, 0)), RejectOf(2))] && Unobserved(e.cells[1]);
    assert e.aggs == [AllAgg(1, [Prom(0)], 1)];
    before := e.cells[1];
    ghost var s0 := St(e.cells, e.aggs, e.log, e.reports);
    var r := e.Resolve(0, Num(5), Depth);
    AllFills(e, s0, St(e.cells, e.aggs, e.log, e.reports), r);
    after := e.cells[1];
  }

  /** Where the resolution of `IndexAllPendingFills` lands. */
  lemma AllFills(e: Engine, s: St, t: St, r: Outcome)
    requires e.policy == IndexJs && e.user == Callbacks
    requires |s.cells| > 2 && s.cells[0].ful == [Settle(0, 2, Some(AllSlot(0, 0)), RejectOf(2))] && !s.cells[0].cleared
    requires Unobserved(s.cells[1]) && s.aggs == [AllAgg(1, [Prom(0)], 1)]
    requires e.ResolveRan(s, t, r, 0, Fulfilled, Num(5), Depth)
    ensures |t.cells| > 1 && t.cells[1].state == Fulfilled && t.cells[1].value == Arr(0) && t.cells[1].cleared
  {
  }

  /** A rejection of a pending `all` entry reaches the aggregate through
      `entry.then(slot).catch(reject)`. Nobody observes the aggregate, so
      it is rejected with the reason but not cleared, and the reason is
      thrown out of the entry's `reject`. */
  method IndexAllEntryRejectThrows() returns (o: Outcome, agg: Cell)
    ensures o == Raise(Num(3))
    ensures agg.state == Rejected && agg.value == Num(3) && !agg.cleared
  {
    var e := NewPending(IndexJs);
    var a := e.All([Prom(0)], Depth);
    assert e.cells[0].rej == [Call(RejectOf(2))] && !e.cells[0].cleared && Unobserved(e.cells[1]);
    assert e.cells[2].rej == [Settle(2, 3, Some(RejectOf(1)), RejectOf(3))] && !e.cells[2].cleared && Unobserved(e.cells[3]);
    ghost var s0 := St(e.cells, e.aggs, e.log, e.reports);
    o := e.Reject(0, Num(3), Depth);
    e.CaughtRejectThrows(s0, 0, 2, 1, Num(3), Depth);
    agg := e.cells[1];
  }

  /** A promise resolved with a pending promise takes that promise's later
      rejection through `val.then(resolve).catch(reject)`. Nobody observes
      the follower, so it is rejected but not cleared, and the reason is
      thrown out of the followed promise's `reject`. */
  method IndexFollowRejectThrows() returns (o: Outcome, c: Cell)
    ensures o == Raise(Num(3))
    ensures c.state == Rejected && c.value == Num(3) && !c.cleared
  {
    var e := IndexFollowing();
    ghost var s0 := St(e.cells, e.aggs, e.log, e.reports);
    o := e.Reject(0, Num(3), Depth);
    e.CaughtRejectThrows(s0, 0, 2, 1, Num(3), Depth);
    c := e.cells[1];
  }

  /** Two pending promises in index.js, the second resolved with the
      first: promise 0 is observed by the promise 2 of `then(resolve)`, and
      2 by the promise 3 of `.catch(reject)`; 1 and 3 are observed by
      nobody. */
  method IndexFollowing() returns (e: Engine)
    ensures fresh(e) && e.policy == IndexJs && e.user == Callbacks && |e.cells| == 4
    ensures e.cells[0].rej == [Call(RejectOf(2))] && !e.cells[0].cleared && Unobserved(e.cells[1])
    ensures e.cells[2].rej == [Settle(2, 3, Some(RejectOf(1)), RejectOf(3))] && !e.cells[2].cleared
    ensures Unobserved(e.cells[3])
  {
    e := NewPending(IndexJs);
    var q := e.Construct([], None, Depth);
    var r := e.Resolve(1, Prom(0), Depth);
  }

  // ---- dist/sync-promise-global.js ----

  /** The global build wires the rejection of a followed promise with
      `.then(null, reject)`, so resolving with an already fulfilled promise
      settles the follower and then throws the `then` refusal. */
  method GlobalResolveWithFulfilledThrows() returns (o: Outcome, c: Cell)
    ensures o == Raise(Error(ThenOnSync))
    ensures c.state == Fulfilled && c.value == Num(5) && c.cleared
  {
    var e := FulfilledLater(GlobalJs, Num(5));
    var q := e.Construct([], None, Depth);
    ghost var s0 := St(e.cells, e.aggs, e.log, e.reports);
    o := e.Resolve(1, Prom(0), Depth);
    e.FollowFulfilledThrows(s0, 1, 0, Depth);
    c := e.cells[1];
  }

  /** The global build wires an `all` entry with `.then(null, reject)`:
      a rejection of a pending entry reaches the aggregate through that
      errback, rejects it without clearing it, and is thrown out of the
      entry's `reject`. */
  method GlobalAllEntryRejectThrows() returns (o: Outcome, agg: Cell)
    ensures o == Raise(Num(3))
    ensures agg.state == Rejected && agg.value == Num(3) && !agg.cleared
  {
    var e := NewPending(GlobalJs);
    var a := e.All([Prom(0)], Depth);
    assert e.cells[0].rej == [Call(RejectOf(2))] && !e.cells[0].cleared && Unobserved(e.cells[1]);
    assert e.cells[2].rej == [Call(RejectOf(1))] && !e.cells[2].cleared;
    ghost var s0 := St(e.cells, e.aggs, e.log, e.reports);
    o := e.Reject(0, Num(3), Depth);
    e.ErrbackRejectThrows(s0, 0, 2, 1, Num(3), Depth);
    agg := e.cells[1];
  }

  /** `catch` on a synchronously resolved promise is refused too. */
  method GlobalCatchOnSyncResolved() returns (o: Outcome)
    ensures o == Raise(Error(CatchOnSync))
  {
    var e := new Engine(GlobalJs, Callbacks);
    var p := e.Construct([Res(Num(1))], None, Depth);
    o := e.Catch(p.v.id, User(1), Depth);
  }

  /** `then` without a callback passes the value through. */
  method GlobalThenPassThrough() returns (c: Cell)
    ensures c.state == Fulfilled && c.value == Num(4)
  {
    var e := FulfilledLater(GlobalJs, Num(4));
    var q := e.Then(0, None, None, Depth);
    c := e.cells[1];
  }

  /** With an errback, a rejected parent's reason goes to the errback and
      the derived promise's own `reject` is not called: it stays pending. */
  method GlobalErrbackTakesRejection() returns (o: Outcome, c: Cell)
    ensures o == Normal(Prom(1))
    ensures c.state == Pending && !c.cleared
  {
    var e := NewPending(GlobalJs);
    var r := e.Reject(0, Num(1), Depth);
    o := e.Then(0, Some(User(0)), Some(User(1)), Depth);
    c := e.cells[1];
  }

  /** The errback also receives an exception thrown by the callback. */
  method GlobalErrbackTakesThrow() returns (o: Outcome, c: Cell)
    ensures o == Normal(Prom(1))
    ensures c.state == Pending && !c.cleared
  {
    var e := FulfilledLater(GlobalJs, Num(1));
    o := e.Then(0, Some(User(2)), Some(User(1)), Depth);
    c := e.cells[1];
  }

  /** `all` without a promise entry is a usage error. */
  method GlobalAllNeedsPromise() returns (o: Outcome)
    ensures o == Raise(Error(AtLeastOnePromise))
  {
    var e := new Engine(GlobalJs, Callbacks);
    o := e.All([Num(1), Num(2)], Depth);
  }

  /** A plain entry in `race` is a usage error. */
  method GlobalRaceNeedsPromises() returns (o: Outcome)
    ensures o == Raise(Error(MustUsePromises))
  {
    var e := new Engine(GlobalJs, Callbacks);
    o := e.Race([Num(1)], Depth);
  }

  /** A plain entry after a pending promise entry is still a usage error,
      and the promise before it has already been followed. */
  method GlobalRacePlainAfterPromise() returns (o: Outcome, followers: nat)
    ensures o == Raise(Error(MustUsePromises))
    ensures followers == 1
  {
    var e := NewPending(GlobalJs);
    assert FirstPlain([Prom(0), Num(1)]) == 1 && [Prom(0), Num(1)][..1] == [Prom(0)];
    assert [Prom(0)][..0] == [];
    o := e.Race([Prom(0), Num(1)], Depth);
    followers := |e.cells[0].ful|;
  }

  /** `race` over a pending promise is fulfilled with that promise's value
      once it is fulfilled. */
  method GlobalRaceWinnerFulfils() returns (before: Cell, after: Cell)
    ensures before.state == Pending && !before.cleared
    ensures after.state == Fulfilled && after.value == Num(5) && after.cleared
  {
    var e := NewPending(GlobalJs);
    var o := e.Race([Prom(0)], Depth);
    assert e.cells[0].ful == [Settle(0, 2, Some(RaceWin(0)), RejectOf(2))] && Unobserved(e.cells[1]);
    assert e.aggs == [RaceAgg(1, false)];
    before := e.cells[1];
    ghost var s0 := St(e.cells, e.aggs, e.log, e.reports);
    var r := e.Resolve(0, Num(5), Depth);
    RaceWins(e, s0, St(e.cells, e.aggs, e.log, e.reports), r);
    after := e.cells[1];
  }

  /** Where the resolution of `GlobalRaceWinnerFulfils` lands. */
  lemma RaceWins(e: Engine, s: St, t: St, r: Outcome)
    requires e.policy == GlobalJs && e.user == Callbacks
    requires |s.cells| > 2 && s.cells[0].ful == [Settle(0, 2, Some(RaceWin(0)), RejectOf(2))] && !s.cells[0].cleared
    requires Unobserved(s.cells[1]) && s.aggs == [RaceAgg(1, false)]
    requires e.ResolveRan(s, t, r, 0, Fulfilled, Num(5), Depth)
    ensures |t.cells| > 1 && t.cells[1].state == Fulfilled && t.cells[1].value == Num(5) && t.cells[1].cleared
  {
  }

  // ---- dist/sync-promise-amd.js ----

  /** An exception of the setup function becomes the rejection reason; with
      no rejection observer a report is scheduled and, `h` still being
      false when it runs, the reason is reported. */
  method AmdSetupThrowRejects() returns (o: Outcome, c: Cell, reported: Option<Val>)
    ensures o == Normal(Prom(0))
    ensures c.state == Rejected && c.value == Num(7) && c.cleared
    ensures reported == Some(Num(7))
  {
    var e := new Engine(AmdJs, Callbacks);
    o := e.Construct([], Some(Num(7)), Depth);
    c := e.cells[0];
    reported := e.RunCheck();
  }

  /** Without the ban, `then` on a promise resolved in its setup runs the
      callback at once. */
  method AmdThenOnSyncResolved() returns (c: Cell)
    ensures c.state == Fulfilled && c.value == Num(2) && c.cleared
  {
    var e := new Engine(AmdJs, Callbacks);
    var p := e.Construct([Res(Num(1))], None, Depth);
    var q := e.Then(0, Some(User(0)), None, Depth);
    c := e.cells[1];
  }

  /** `catch` on the rejected promise before the scheduled report runs sets `h`, so
      nothing is reported. */
  method AmdHandledSilencesReport() returns (child: Cell, reported: Option<Val>)
    ensures child.state == Fulfilled && child.value == Num(0)
    ensures reported == None
  {
    var e := new Engine(AmdJs, Callbacks);
    var p := e.StaticReject(Num(3), Depth);
    var q := e.Catch(0, User(1), Depth);
    child := e.cells[1];
    reported := e.RunCheck();
  }

  /** `SyncPromise.resolve` and `SyncPromise.reject` return a thenable as
      it is: `reject` does not reject it. */
  method AmdStaticsKeepThenable() returns (r: Outcome, j: Outcome, c: Cell)
    ensures r == Normal(Prom(0)) && j == Normal(Prom(0))
    ensures c.state == Pending
  {
    var e := NewPending(AmdJs);
    r := e.StaticResolve(Prom(0), Depth);
    j := e.StaticReject(Prom(0), Depth);
    c := e.cells[0];
  }

  /** A `catch` made while the parent is pending recovers its later
      rejection; the parent had an observer, so no report is scheduled. */
  method AmdPendingCatchRecovers() returns (child: Cell, scheduled: seq<nat>)
    ensures child.state == Fulfilled && child.value == Num(0) && child.cleared
    ensures scheduled == []
  {
    var e := NewPending(AmdJs);
    var q := e.Catch(0, User(1), Depth);
    ghost var s0 := St(e.cells, e.aggs, e.log, e.reports);
    assert |s0.cells| == 2 && s0.cells[0].rej == [Settle(0, 1, Some(User(1)), RejectOf(1))] && !s0.cells[0].cleared;
    assert Unobserved(s0.cells[1]) && s0.reports == [];
    var r := e.Reject(0, Num(3), Depth);
    CatchRecovery(e, s0, St(e.cells, e.aggs, e.log, e.reports), r);
    child, scheduled := e.cells[1], e.reports;
  }

  /** The relay of `AmdPendingCatchRecovers`. */
  lemma CatchRecovery(e: Engine, s: St, t: St, r: Outcome)
    requires e.policy == AmdJs && e.user == Callbacks
    requires |s.cells| == 2 && s.cells[0].rej == [Settle(0, 1, Some(User(1)), RejectOf(1))] && !s.cells[0].cleared
    requires Unobserved(s.cells[1]) && s.reports == []
    requires e.ResolveRan(s, t, r, 0, Rejected, Num(3), Depth)
    ensures |t.cells| == 2 && t.reports == []
    ensures t.cells[1].state == Fulfilled && t.cells[1].value == Num(0) && t.cells[1].cleared
  {
    var x := Settle(0, 1, Some(User(1)), RejectOf(1));
    e.PropagatedOne(s, t, 0, Rejected, Num(3), Depth, r, x, Hit(1, Fulfilled, Num(0)));
    assert t.cells[1] == AfterTransist(s.cells[1], Fulfilled, Num(0), e.policy);
  }

  /** A rejection passed on to a derived promise nobody observes is
      reported for that promise, not for the parent. */
  method AmdPendingThenRejectionReported() returns (scheduled: seq<nat>, reported: Option<Val>)
    ensures scheduled == [1]
    ensures reported == Some(Num(3))
  {
    var e := PendingThen(AmdJs);
    ghost var s0 := St(e.cells, e.aggs, e.log, e.reports);
    var r := e.Reject(0, Num(3), Depth);
    ThenRejectionRelay(e, s0, St(e.cells, e.aggs, e.log, e.reports), r);
    scheduled := e.reports;
    reported := e.RunCheck();
  }

  /** The relay of `AmdPendingThenRejectionReported`. */
  lemma ThenRejectionRelay(e: Engine, s: St, t: St, r: Outcome)
    requires e.policy == AmdJs && e.user == Callbacks
    requires s.cells == [FreshCell().(ful := [Settle(0, 1, Some(User(0)), RejectOf(1))], rej := [Call(RejectOf(1))], setupReturned := true),
                  FreshCell().(setupReturned := true)] && s.reports == []
    requires e.ResolveRan(s, t, r, 0, Rejected, Num(3), Depth)
    ensures |t.cells| == 2 && t.reports == [1]
    ensures t.cells[1].state == Rejected && t.cells[1].value == Num(3) && !t.cells[1].handled
  {
    e.PropagatedOne(s, t, 0, Rejected, Num(3), Depth, r, Call(RejectOf(1)), Hit(1, Rejected, Num(3)));
  }

  /** A rejecting entry of `all` rejects the aggregate with its reason: the
      entry's `reject` observer rejects the promise of `entry.then(slot)`,
      whose `catch(reject)` observer rejects the aggregate. */
  method AmdAllEntryRejects() returns (before: Cell, after: Cell)
    ensures before.state == Pending && !before.cleared
    ensures after.state == Rejected && after.value == Num(3) && after.cleared
  {
    var e := NewPending(AmdJs);
    var o := e.All([Prom(0)], Depth);
    assert e.cells[0].rej == [Call(RejectOf(2))] && !e.cells[2].cleared && e.cells[2].rej != [];
    assert e.cells[2].rej[0] == Settle(2, 3, Some(RejectOf(1)), RejectOf(3)) && Unobserved(e.cells[1]);
    before := e.cells[1];
    ghost var s0 := St(e.cells, e.aggs, e.log, e.reports);
    var r := e.Reject(0, Num(3), Depth);
    EntryRejectionLands(e, s0, St(e.cells, e.aggs, e.log, e.reports), r);
    after := e.cells[1];
  }

  /** Where a rejection relayed through promise 2 to promise 1, as in
      `AmdAllEntryRejects` and `AmdResolveFollowsRejection`, lands. */
  lemma EntryRejectionLands(e: Engine, s: St, t: St, r: Outcome)
    requires e.policy == AmdJs && e.user == Callbacks
    requires |s.cells| > 3 && s.cells[0].rej == [Call(RejectOf(2))] && !s.cells[0].cleared
    requires !s.cells[2].cleared && s.cells[2].rej != [] && s.cells[2].rej[0] == Settle(2, 3, Some(RejectOf(1)), RejectOf(3))
    requires Unobserved(s.cells[1])
    requires e.ResolveRan(s, t, r, 0, Rejected, Num(3), Depth)
    ensures |t.cells| > 1 && t.cells[1].state == Rejected && t.cells[1].value == Num(3) && t.cells[1].cleared
  {
  }

  /** `SyncPromise.all` over two pending promises that fulfil in reverse
      order: the first to fulfil only fills its own slot, leaving the other
      entry's observers as they were and the aggregate pending; the second
      fills the other slot and fulfils the aggregate with the array in input
      order. */
  method AmdAllFillsInAnyOrder() returns (waiting: seq<Reaction>, between: Cell, after: Cell, filled: seq<Val>)
    ensures waiting == [Settle(0, 3, Some(AllSlot(0, 0)), RejectOf(3))]
    ensures between.state == Pending && !between.cleared
    ensures after.state == Fulfilled && after.value == Arr(0) && after.cleared
    ensures filled == [Num(5), Num(6)]
  {
    var e := AllOfTwoPending();
    ghost var s0 := St(e.cells, e.aggs, e.log, e.reports);
    var r := e.Resolve(1, Num(6), Depth);
    FirstSlotWaits(e, s0, St(e.cells, e.aggs, e.log, e.reports), r);
    waiting, between := e.cells[0].ful, e.cells[2];
    ghost var s1 := St(e.cells, e.aggs, e.log, e.reports);
    r := e.Resolve(0, Num(5), Depth);
    LastSlotFills(e, s1, St(e.cells, e.aggs, e.log, e.reports), r);
    after, filled := e.cells[2], e.aggs[0].items;
  }

  /** `SyncPromise.all([p0, p1])` in the amd build, with `p0` and `p1`
      pending: the cells `TwoEntriesWired` describes, with the aggregate's
      promise 2 pending and observed by nobody. */
  method AllOfTwoPending() returns (e: Engine)
    ensures fresh(e) && e.policy == AmdJs && e.user == Callbacks
    ensures |e.cells| == 7 && e.aggs == [AllAgg(2, [Prom(0), Prom(1)], 2)]
    ensures e.cells[0].ful == [Settle(0, 3, Some(AllSlot(0, 0)), RejectOf(3))] && !e.cells[0].cleared
    ensures e.cells[1].ful == [Settle(1, 5, Some(AllSlot(0, 1)), RejectOf(5))] && !e.cells[1].cleared
    ensures e.cells[2] == FreshCell().(setupReturned := true) && e.cells[3] == e.Link(3, 2)
    ensures e.cells[4] == FreshCell().(setupReturned := true) && e.cells[5] == e.Link(5, 2)
    ensures e.cells[6] == FreshCell().(setupReturned := true)
  {
    e := NewPending(AmdJs);
    var p := e.Construct([], None, Depth);
    var P := FreshCell().(setupReturned := true);
    assert e.cells == [P, P] && e.cells + [FreshCell()] == [P, P, FreshCell()];
    TwoEntriesWired(e);
    assert Proms([Prom(0), Prom(1)]) == 2 && e.Followable([P, P], [Prom(0), Prom(1)]);
    ghost var c := e.WireEntries([P, P, FreshCell()], [Prom(0), Prom(1)], 0, 2, false);
    var o := e.All([Prom(0), Prom(1)], Depth);
    assert e.cells == c[2 := P];
  }

  /** What `all` does to the cells of two pending promises, 0 and 1,
      after it has made promise 2 for itself: each entry is observed by
      the `settle` closure of its slot, and the two promises of each
      entry's wiring follow. */
  lemma TwoEntriesWired(e: Engine)
    requires e.policy == AmdJs
    ensures var P := FreshCell().(setupReturned := true);
      var c := e.WireEntries([P, P, FreshCell()], [Prom(0), Prom(1)], 0, 2, false);
      |c| == 7 && c[3] == e.Link(3, 2) && c[4] == P && c[5] == e.Link(5, 2) && c[6] == P &&
      c[0].ful == [Settle(0, 3, Some(AllSlot(0, 0)), RejectOf(3))] && !c[0].cleared &&
      c[1].ful == [Settle(1, 5, Some(AllSlot(0, 1)), RejectOf(5))] && !c[1].cleared
  {
    var P := FreshCell().(setupReturned := true);
    var c, items := [P, P, FreshCell()], [Prom(0), Prom(1)];
    assert items[..0] == [] && items[..2] == items;
    e.WireEntriesProm(c, items, 0, 2, false, 0, c);
    var w := c[0 := Wire(c[0], 0, AllSlot(0, 0), 3)] + [e.Link(3, 2), P];
    e.WireEntriesProm(c, items, 0, 2, false, 1, w);
    assert [] + [Settle(0, 3, Some(AllSlot(0, 0)), RejectOf(3))] == [Settle(0, 3, Some(AllSlot(0, 0)), RejectOf(3))];
    assert [] + [Settle(1, 5, Some(AllSlot(0, 1)), RejectOf(5))] == [Settle(1, 5, Some(AllSlot(0, 1)), RejectOf(5))];
    assert items[..1] == [Prom(0)];
  }

  /** The first resolution of `AmdAllFillsInAnyOrder`: slot 1 is filled,
      and the cells of entry 0 and of the aggregate are untouched. */
  lemma FirstSlotWaits(e: Engine, s: St, t: St, r: Outcome)
    requires e.policy == AmdJs && e.user == Callbacks
    requires |s.cells| == 7 && s.aggs == [AllAgg(2, [Prom(0), Prom(1)], 2)]
    requires s.cells[1].ful == [Settle(1, 5, Some(AllSlot(0, 1)), RejectOf(5))] && !s.cells[1].cleared
    requires s.cells[5] == e.Link(5, 2) && s.cells[6] == FreshCell().(setupReturned := true)
    requires Run(t, r) == e.Exec(s, ResolveCall(1, Fulfilled, Num(6)), Depth)
    ensures r == Normal(Undefined) && |t.cells| == 7 && t.aggs == [AllAgg(2, [Prom(0), Num(6)], 1)]
    ensures forall j :: 0 <= j < 5 && j != 1 ==> t.cells[j] == s.cells[j]
  {
    e.AllEntryFulfils(s, 1, 5, 0, 1, Num(6), Depth);
    assert [Prom(0), Prom(1)][1 := Num(6)] == [Prom(0), Num(6)];
  }

  /** The second resolution of `AmdAllFillsInAnyOrder`: slot 0 is filled
      and the counter reaches zero. */
  lemma LastSlotFills(e: Engine, s: St, t: St, r: Outcome)
    requires e.policy == AmdJs && e.user == Callbacks
    requires |s.cells| == 7 && s.aggs == [AllAgg(2, [Prom(0), Num(6)], 1)]
    requires s.cells[0].ful == [Settle(0, 3, Some(AllSlot(0, 0)), RejectOf(3))] && !s.cells[0].cleared
    requires s.cells[3] == e.Link(3, 2) && s.cells[4] == FreshCell().(setupReturned := true)
    requires s.cells[2] == FreshCell().(setupReturned := true)
    requires Run(t, r) == e.Exec(s, ResolveCall(0, Fulfilled, Num(5)), Depth)
    ensures t.cells[2].state == Fulfilled && t.cells[2].value == Arr(0) && t.cells[2].cleared
    ensures t.aggs == [AllAgg(2, [Num(5), Num(6)], 0)]
  {
    e.AllEntryFulfils(s, 0, 3, 0, 0, Num(5), Depth);
    assert [Prom(0), Num(6)][0 := Num(5)] == [Num(5), Num(6)];
  }

  /** A promise resolved with a pending promise adopts that promise's later
      rejection as well. */
  method AmdResolveFollowsRejection() returns (before: Cell, after: Cell)
    ensures before.state == Pending && !before.cleared
    ensures after.state == Rejected && after.value == Num(3) && after.cleared
  {
    var e := NewPending(AmdJs);
    var q := e.Construct([], None, Depth);
    var r := e.Resolve(1, Prom(0), Depth);
    assert e.cells[0].rej == [Call(RejectOf(2))] && !e.cells[2].cleared && e.cells[2].rej != [];
    assert e.cells[2].rej[0] == Settle(2, 3, Some(RejectOf(1)), RejectOf(3)) && Unobserved(e.cells[1]);
    before := e.cells[1];
    ghost var s0 := St(e.cells, e.aggs, e.log, e.reports);
    r := e.Reject(0, Num(3), Depth);
    EntryRejectionLands(e, s0, St(e.cells, e.aggs, e.log, e.reports), r);
    after := e.cells[1];
  }
}

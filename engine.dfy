/** The settlement engine of SyncPromise: a heap of promise cells indexed by
    id, with `transist`, `resolve`, `reject`, `then`, `catch`, `all`, `race`
    and the static `resolve`/`reject`, parameterised by the build policy. */
module Engine {
  import opened Base

  /** One action of a host setup function: a call of its `resolve` or
      `reject` argument. */
  datatype Act = Res(v: Val) | Rej(v: Val)

  function ActState(a: Act): (st: State) {
    if a.Res? then Fulfilled else Rejected
  }

  /** A cell nobody observes yet and that has not been cleared. */
  predicate Unobserved(c: Cell) {
    !c.cleared && c.ful == [] && c.rej == []
  }

  /** The whole state of an engine, as a value. */
  datatype St = St(cells: seq<Cell>, aggs: seq<Agg>, log: seq<Event>, reports: seq<nat>)

  /** A state a call leaves and the outcome of the call. */
  datatype Run = Run(s: St, o: Outcome)

  /** Promises and aggregators are only ever added. */
  predicate Grows(s: St, t: St) {
    |s.cells| <= |t.cells| && |s.aggs| <= |t.aggs|
  }

  /** The re-entrant calls of the engine, with their arguments. */
  datatype Op =
    | ResolveCall(id: nat, st: State, v: Val)
    | TransistCall(id: nat, v: Val, st: State)
    | NotifyCall(id: nat, list: seq<Reaction>, v: Val)
    | ObserversCall(list: seq<Reaction>, from: nat, v: Val)
    | FireCall(x: Reaction, v: Val)
    | ApplyCall(fn: Fn, v: Val)
    | FillSlotCall(k: nat, i: nat, v: Val)
    | WinRaceCall(k: nat, v: Val)
    | RunSettleCall(parent: nat, child: nat, cb: Option<Fn>, rej: Fn)
    | TrySettleCall(parent: nat, child: nat, cb: Option<Fn>)
    | FollowCall(id: nat, q: nat, first: Fn)
    | ThenCall(p: nat, cb: Option<Fn>, eb: Option<Fn>)
    | ThenSetupCall(p: nat, child: nat, cb: Option<Fn>, rej: Fn)
    | CatchCall(p: nat, fn: Fn)
    | CatchSetupCall(p: nat, child: nat, fn: Fn)
    | FinishCall(id: nat, o0: Outcome)

  /** How deep a call sits in the engine's call structure: a call only makes
      calls of lower rank with the same fuel, or spends fuel. */
  function Rank(c: Op): (n: nat)
    ensures n <= 7
  {
    match c
    case ResolveCall(_, _, _) => 7
    case TransistCall(_, _, _) => 6
    case NotifyCall(_, _, _) => 5
    case FollowCall(_, _, _) => 5
    case ObserversCall(_, _, _) => 4
    case ThenCall(_, _, _) => 4
    case CatchCall(_, _) => 4
    case FireCall(_, _) => 3
    case ThenSetupCall(_, _, _, _) => 3
    case CatchSetupCall(_, _, _) => 3
    case FinishCall(_, _) => 3
    case RunSettleCall(_, _, _, _) => 2
    case TrySettleCall(_, _, _) => 1
    case ApplyCall(_, _) => 1
    case FillSlotCall(_, _, _) => 0
    case WinRaceCall(_, _) => 0
  }

  class Engine {
    /** Which of the three builds this engine is. */
    const policy: Policy
    /** The host's callbacks and errbacks, as functions of their argument. */
    const user: (nat, Val) -> CbResult
    /** The promises, by id. */
    var cells: seq<Cell>
    /** The closure state of each `all` and `race` call, by aggregator id. */
    var aggs: seq<Agg>
    /** Unhandled-rejection checks scheduled by the amd build, oldest first. */
    var reports: seq<nat>
    /** Every settlement and every observer invocation, in order. */
    ghost var log: seq<Event>

    constructor (policy: Policy, user: (nat, Val) -> CbResult)
      ensures this.policy == policy && this.user == user
      ensures cells == [] && aggs == [] && reports == [] && log == []
    {
      this.policy := policy;
      this.user := user;
      cells, aggs, reports, log := [], [], [], [];
    }

    /** Promises evolve stably, aggregators keep their kind, promise and
        length, and the log and the reports only grow, from `s` to `t`. */
    ghost predicate Grown(s: St, t: St) {
      Stable(s.cells, t.cells) && AggStable(s.aggs, t.aggs) && Prefix(s.log, t.log) && Prefix(s.reports, t.reports)
    }

    /** From `s` to `t`, a promise that no settlement logged after `s`
        names keeps its state and its value. */
    ghost predicate Quiet(s: St, t: St)
      requires Grown(s, t)
    {
      forall j :: 0 <= j < |s.cells| && !Names(t.log[|s.log|..], j) ==>
        t.cells[j].state == s.cells[j].state && t.cells[j].value == s.cells[j].value
    }

    /** What every operation promises of the state `t` it leaves, started
        in `s`. */
    ghost predicate Evolves(s: St, t: St) {
      Grown(s, t) && Quiet(s, t)
    }

    /** `Grown` from `c0`, `a0`, `l0`, `r0` to the current state. */
    ghost predicate Evolved(c0: seq<Cell>, a0: seq<Agg>, l0: seq<Event>, r0: seq<nat>)
      reads this
    {
      Grown(St(c0, a0, l0, r0), St(cells, aggs, log, reports))
    }

    /** Nothing happening is an evolution. */
    lemma {:induction false} EvolvesRefl(s: St)
      ensures Evolves(s, s)
    {
      assert s.log[..|s.log|] == s.log && s.reports[..|s.reports|] == s.reports;
      assert s.log[|s.log|..] == [];
    }

    /** `Evolves` is transitive. */
    lemma {:induction false} EvolvesTrans(s: St, s1: St, t: St)
      requires Evolves(s, s1) && Evolves(s1, t)
      ensures Evolves(s, t)
    {
      StableTrans(s.cells, s1.cells, t.cells);
      assert t.log[..|s.log|] == t.log[..|s1.log|][..|s.log|];
      assert t.reports[..|s.reports|] == t.reports[..|s1.reports|][..|s.reports|];
      assert t.log[|s.log|..] == s1.log[|s.log|..] + t.log[|s1.log|..];
      forall j | 0 <= j < |s.cells| && !Names(t.log[|s.log|..], j)
        ensures t.cells[j].state == s.cells[j].state && t.cells[j].value == s.cells[j].value
      {
        NamesAppend(s1.log[|s.log|..], t.log[|s1.log|..], j);
      }
    }

    /** `Evolved` is transitive. */
    lemma {:induction false} EvolvedTrans(c0: seq<Cell>, a0: seq<Agg>, l0: seq<Event>, r0: seq<nat>,
                                          c1: seq<Cell>, a1: seq<Agg>, l1: seq<Event>, r1: seq<nat>)
      requires Stable(c0, c1) && AggStable(a0, a1) && Prefix(l0, l1) && Prefix(r0, r1)
      requires Evolved(c1, a1, l1, r1)
      ensures Evolved(c0, a0, l0, r0)
    {
      StableTrans(c0, c1, cells);
      assert log[..|l0|] == log[..|l1|][..|l0|];
      assert reports[..|r0|] == reports[..|r1|][..|r0|];
    }

    /** Logging an event that settles nothing is an evolution. */
    lemma {:induction false} Noted(s: St, e: Event)
      requires !e.Transisted?
      ensures Evolves(s, s.(log := s.log + [e]))
    {
      var t := s.(log := s.log + [e]);
      assert t.log[..|s.log|] == s.log && s.reports[..|s.reports|] == s.reports;
      assert t.log[|s.log|..] == [e];
    }

    /** Changing the lists or flags of promise `j` as `CellStable` allows,
        but not its state or value, is an evolution. */
    lemma {:induction false} Retouched(s: St, j: nat, y: Cell)
      requires j < |s.cells| && CellStable(s.cells[j], y)
      requires y.state == s.cells[j].state && y.value == s.cells[j].value
      ensures Evolves(s, s.(cells := s.cells[j := y]))
    {
      assert s.log[..|s.log|] == s.log && s.reports[..|s.reports|] == s.reports;
      assert s.log[|s.log|..] == [];
    }

    /** A new pending promise is an evolution. */
    lemma {:induction false} Allocated(s: St)
      ensures Evolves(s, s.(cells := s.cells + [FreshCell()]))
    {
      assert s.log[..|s.log|] == s.log && s.reports[..|s.reports|] == s.reports;
      assert s.log[|s.log|..] == [];
    }

    /** Changing the closure state of aggregator `k` as `AggStable` allows
        is an evolution. */
    lemma {:induction false} Tallied(s: St, k: nat, a: Agg)
      requires k < |s.aggs| && AggStable(s.aggs, s.aggs[k := a])
      ensures Evolves(s, s.(aggs := s.aggs[k := a]))
    {
      assert s.log[..|s.log|] == s.log && s.reports[..|s.reports|] == s.reports;
      assert s.log[|s.log|..] == [];
    }

    /** `transist` marking promise `id` settled and logging it (and perhaps
        scheduling a report) is an evolution. */
    lemma {:induction false} Marked(s: St, id: nat, st: State, v: Val, t: St)
      requires id < |s.cells| && !s.cells[id].cleared && st != Pending
      requires t.cells == s.cells[id := Mark(s.cells[id], st, v, policy)] && t.aggs == s.aggs
      requires t.log == s.log + [Transisted(id, st, v)] && Prefix(s.reports, t.reports)
      ensures Evolves(s, t)
    {
      assert t.log[..|s.log|] == s.log;
      assert t.log[|s.log|..] == [Transisted(id, st, v)];
      assert Transisted(id, st, v) in t.log[|s.log|..];
    }

    ghost predicate Unchanged(c0: seq<Cell>, a0: seq<Agg>, l0: seq<Event>, r0: seq<nat>)
      reads this
    {
      cells == c0 && aggs == a0 && log == l0 && reports == r0
    }

    /** `transist(v, st)` on cell `id` when its list for `st` is empty, from
        `s` to `t`: the cell settles (and is cleared unless the fatal policy
        throws), nothing else changes except that the amd build schedules a
        report. */
    ghost predicate SettledIn(s: St, t: St, id: nat, st: State, v: Val, o: Outcome)
      requires id < |s.cells| && !s.cells[id].cleared
    {
      t.cells == s.cells[id := AfterTransist(s.cells[id], st, v, policy)] && t.aggs == s.aggs &&
      t.log == s.log + [Transisted(id, st, v)] &&
      if st == Rejected && policy.fatalUnhandled then o == Raise(v) && t.reports == s.reports
      else o == Normal(Undefined) && t.reports == s.reports + (if st == Rejected then [id] else [])
    }

    /** What a completed `transist(v, st)` on cell `id` from `s` guarantees
        of `t`: the settlement is logged first, and the cell keeps `st` and
        `v` unless a later settlement of its own is logged. */
    ghost predicate TransistDone(s: St, t: St, id: nat, st: State, v: Val, o: Outcome)
      requires id < |s.cells| && !s.cells[id].cleared
    {
      id < |t.cells| && |t.log| > |s.log| && t.log[|s.log|] == Transisted(id, st, v) &&
      (!Names(t.log[|s.log| + 1..], id) ==> t.cells[id].state == st && t.cells[id].value == v) &&
      (o.Normal? ==>
         o.v == Undefined && t.cells[id].cleared && t.cells[id].state != Pending &&
         Subseq(FiredAll(Listeners(s.cells[id], st), v), t.log[|s.log| + 1..])) &&
      (Listeners(s.cells[id], st) == [] ==> SettledIn(s, t, id, st, v, o))
    }

    /** Propagation: `transist(v, st)` on cell `id` whose observers for `st`
        each settle a promise of their own (the derived promises of `then`
        and `catch` calls made while `id` was pending, observed by nobody):
        those promises settle in registration order and `id` is cleared; a
        settlement that throws (an unobserved rejection, in index.js and the
        global build) ends the loop, leaving the later observers not run and
        `id` settled but not cleared. */
    ghost predicate Propagated(s: St, t: St, id: nat, st: State, v: Val, fuel: nat, o: Outcome)
      requires id < |s.cells| && !s.cells[id].cleared
    {
      var list := Listeners(s.cells[id], st);
      |list| > 0 && Simple(s.cells, list, v, id, fuel) ==>
        var hs := Hits(list, v);
        var n := Stop(hs, policy);
        var marked := s.cells[id := Mark(s.cells[id], st, v, policy)];
        t.aggs == s.aggs &&
        if n < |hs| then
          o == Raise(hs[n].v) && t.cells == SettleAll(marked, hs[..n + 1], policy) && t.reports == s.reports &&
          t.log == s.log + [Transisted(id, st, v)] + RelayLog(list[..n + 1], hs[..n + 1], v) + [Stopped(list[n], hs[n].v)]
        else
          o == Normal(Undefined) && t.cells == SettleAll(marked, hs, policy)[id := AfterTransist(s.cells[id], st, v, policy)] &&
          t.reports == s.reports + Reported(hs, policy) && t.log == s.log + [Transisted(id, st, v)] + RelayLog(list, hs, v)
    }

    /** Propagation through a single observer `x` of cell `id`, which
        settles promise `h.id` as `h` says. */
    /** One listener that settles an unobserved promise of its own makes a
        simple relay. */
    lemma {:induction false} SimpleOne(c: seq<Cell>, x: Reaction, h: Hit, v: Val, id: nat, fuel: nat)
      requires fuel >= 2 && Direct(x, v) == Some(h) && (x.Settle? ==> x.parent == id)
      requires h.id < |c| && h.id != id && Unobserved(c[h.id]) && !IsPromise(h.v, |c|)
      requires Hits([x], v) == [h] && Distinct([h])
      ensures Simple(c, [x], v, id, fuel)
    {
      var list: seq<Reaction> := [x];
      assert forall j :: 0 <= j < |list| ==> list[j] == x;
    }

    lemma {:induction false} PropagatedOne(s: St, t: St, id: nat, st: State, v: Val, fuel: nat, o: Outcome, x: Reaction, h: Hit)
      requires id < |s.cells| && !s.cells[id].cleared && Listeners(s.cells[id], st) == [x] && fuel >= 2
      requires Direct(x, v) == Some(h) && (x.Settle? ==> x.parent == id)
      requires h.id < |s.cells| && h.id != id && Unobserved(s.cells[h.id]) && !IsPromise(h.v, |s.cells|)
      requires Propagated(s, t, id, st, v, fuel, o)
      ensures t.aggs == s.aggs
      ensures Fatal(h, policy) ==>
        o == Raise(h.v) && t.reports == s.reports &&
        t.cells == s.cells[id := Mark(s.cells[id], st, v, policy)][h.id := AfterTransist(s.cells[h.id], h.st, h.v, policy)] &&
        t.log == s.log + [Transisted(id, st, v), Fired(x, v), Transisted(h.id, h.st, h.v), Stopped(x, h.v)]
      ensures !Fatal(h, policy) ==>
        o == Normal(Undefined) && t.reports == s.reports + (if h.st == Rejected then [h.id] else []) &&
        t.cells == s.cells[h.id := AfterTransist(s.cells[h.id], h.st, h.v, policy)][id := AfterTransist(s.cells[id], st, v, policy)] &&
        t.log == s.log + [Transisted(id, st, v), Fired(x, v), Transisted(h.id, h.st, h.v)]
    {
      var m := s.cells[id := Mark(s.cells[id], st, v, policy)];
      assert Hits([x], v) == [h];
      RelayOne(m, x, h, v, policy);
      SimpleOne(s.cells, x, h, v, id, fuel);
      assert [x][..1] == [x] && [h][..1] == [h];
    }

    /** Propagation through two observers `x0` and `x1` of cell `id`, which
        settle the different promises `h0.id` and `h1.id` without throwing:
        both settle, in registration order, and `id` is cleared. */
    /** Two listeners that each settle a distinct unobserved promise of
        their own make a simple relay. */
    lemma {:induction false} SimpleTwo(c: seq<Cell>, x0: Reaction, x1: Reaction, h0: Hit, h1: Hit, v: Val, id: nat, fuel: nat)
      requires fuel >= 2
      requires Direct(x0, v) == Some(h0) && (x0.Settle? ==> x0.parent == id)
      requires Direct(x1, v) == Some(h1) && (x1.Settle? ==> x1.parent == id)
      requires h0.id < |c| && h0.id != id && Unobserved(c[h0.id]) && !IsPromise(h0.v, |c|)
      requires h1.id < |c| && h1.id != id && Unobserved(c[h1.id]) && !IsPromise(h1.v, |c|)
      requires Hits([x0, x1], v) == [h0, h1] && Distinct([h0, h1])
      ensures Simple(c, [x0, x1], v, id, fuel)
    {
      var list: seq<Reaction> := [x0, x1];
      assert forall j :: 0 <= j < |list| ==> list[j] == x0 || list[j] == x1;
    }

    lemma {:induction false} PropagatedTwo(s: St, t: St, id: nat, st: State, v: Val, fuel: nat, o: Outcome,
                                           x0: Reaction, x1: Reaction, h0: Hit, h1: Hit)
      requires id < |s.cells| && !s.cells[id].cleared && Listeners(s.cells[id], st) == [x0, x1] && fuel >= 2
      requires Direct(x0, v) == Some(h0) && (x0.Settle? ==> x0.parent == id)
      requires Direct(x1, v) == Some(h1) && (x1.Settle? ==> x1.parent == id)
      requires h0.id < |s.cells| && h0.id != id && Unobserved(s.cells[h0.id]) && !IsPromise(h0.v, |s.cells|)
      requires h1.id < |s.cells| && h1.id != id && Unobserved(s.cells[h1.id]) && !IsPromise(h1.v, |s.cells|)
      requires h0.id != h1.id && !Fatal(h0, policy) && !Fatal(h1, policy)
      requires Propagated(s, t, id, st, v, fuel, o)
      ensures o == Normal(Undefined) && t.aggs == s.aggs
      ensures t.reports == s.reports + (if h0.st == Rejected then [h0.id] else []) + (if h1.st == Rejected then [h1.id] else [])
      ensures t.cells == s.cells[h0.id := AfterTransist(s.cells[h0.id], h0.st, h0.v, policy)]
                                [h1.id := AfterTransist(s.cells[h1.id], h1.st, h1.v, policy)][id := AfterTransist(s.cells[id], st, v, policy)]
      ensures t.log == s.log + [Transisted(id, st, v), Fired(x0, v), Transisted(h0.id, h0.st, h0.v),
                                Fired(x1, v), Transisted(h1.id, h1.st, h1.v)]
    {
      var m := s.cells[id := Mark(s.cells[id], st, v, policy)];
      var list, hs := [x0, x1], [h0, h1];
      assert Hits(list, v) == hs;
      RelayTwo(m, x0, x1, h0, h1, v, policy);
      SimpleTwo(s.cells, x0, x1, h0, h1, v, id, fuel);
      var after := AfterTransist(s.cells[id], st, v, policy);
      var a0, a1 := AfterTransist(s.cells[h0.id], h0.st, h0.v, policy), AfterTransist(s.cells[h1.id], h1.st, h1.v, policy);
      assert t.cells == m[h0.id := a0][h1.id := a1][id := after];
      Overwritten(s.cells, id, h0.id, h1.id, Mark(s.cells[id], st, v, policy), a0, a1, after);
      var r0, r1 := if h0.st == Rejected then [h0.id] else [], if h1.st == Rejected then [h1.id] else [];
      assert s.reports + r0 + r1 == s.reports + (r0 + r1);
    }

    /** The observer loop over `list` (of cell `id`, whose value is already
        `v`) from `s` to `t` when every entry settles a promise of its own:
        the entries run in order up to and including the first whose
        settlement throws; when none throws, `clear` says whether `c` of
        `id` is then cleared. */
    ghost predicate Relayed(s: St, t: St, id: nat, list: seq<Reaction>, v: Val, fuel: nat, clear: bool, o: Outcome)
      requires id < |s.cells|
    {
      Simple(s.cells, list, v, id, fuel) && s.cells[id].value == v ==>
        var hs := Hits(list, v);
        var n := Stop(hs, policy);
        t.aggs == s.aggs &&
        if n < |hs| then
          o == Raise(hs[n].v) && t.cells == SettleAll(s.cells, hs[..n + 1], policy) && t.reports == s.reports &&
          t.log == s.log + RelayLog(list[..n + 1], hs[..n + 1], v) + [Stopped(list[n], hs[n].v)]
        else
          o == Normal(Undefined) && t.reports == s.reports + Reported(hs, policy) && t.log == s.log + RelayLog(list, hs, v) &&
          t.cells == if clear then SettleAll(s.cells, hs, policy)[id := s.cells[id].(ful := [], rej := [], cleared := true)]
                     else SettleAll(s.cells, hs, policy)
    }

    /** `transist` is `Mark` followed by `Notify` from `s1`, so a relayed
        settlement of the marked heap is a propagation of the original one. */
    lemma {:induction false} RelayedHop(s: St, s1: St, t: St, id: nat, st: State, v: Val, fuel: nat, o: Outcome)
      requires id < |s.cells| && !s.cells[id].cleared
      requires s1.cells == s.cells[id := Mark(s.cells[id], st, v, policy)] && s1.aggs == s.aggs
      requires s1.log == s.log + [Transisted(id, st, v)]
      requires |Listeners(s.cells[id], st)| > 0 ==> s1.reports == s.reports
      requires Relayed(s1, t, id, Listeners(s.cells[id], st), v, fuel, true, o)
      ensures Propagated(s, t, id, st, v, fuel, o)
    {
      var list := Listeners(s.cells[id], st);
      if |list| > 0 && Simple(s.cells, list, v, id, fuel) {
        var hs := Hits(list, v);
        assert Simple(s1.cells, list, v, id, fuel) by {
          forall j | 0 <= j < |hs| ensures s1.cells[hs[j].id] == s.cells[hs[j].id] {
          }
        }
        if Stop(hs, policy) < |hs| {
          var n := Stop(hs, policy);
          assert s.log + [Transisted(id, st, v)] + RelayLog(list[..n + 1], hs[..n + 1], v) + [Stopped(list[n], hs[n].v)]
              == s1.log + RelayLog(list[..n + 1], hs[..n + 1], v) + [Stopped(list[n], hs[n].v)];
        } else {
          var S := SettleAll(s1.cells, hs, policy);
          SettleAllAt(s1.cells, hs, policy, id);
          assert S[id] == s1.cells[id];
          assert s1.cells[id].(ful := [], rej := [], cleared := true) == AfterTransist(s.cells[id], st, v, policy);
        }
      }
    }

    /** What a `then` callback given as `cb` returns for `v`; without a
        callback the global build passes `v` through and the others call
        `undefined`. */
    function CallCb(cb: Option<Fn>, v: Val): (r: CbResult)
      requires cb.None? || cb.value.User?
    {
      match cb
      case None => if policy.optionalCb then Returned(v) else Threw(Error(NotAFunction))
      case Some(f) => user(f.k, v)
    }

    /** The one settlement that running observer `x` on `v` requests: the
        child's `resolve` or `reject` closure with `v`, or a `settle` closure
        whose callback result (or exception, when it goes to the child's own
        `reject`) reaches its child. */
    function Direct(x: Reaction, v: Val): (d: Option<Hit>) {
      match x
      case Call(f) =>
        if f.ResolveOf? then Some(Hit(f.id, Fulfilled, v))
        else if f.RejectOf? then Some(Hit(f.id, Rejected, v))
        else None
      case Settle(_, q, cb, rej) =>
        if cb.Some? && !cb.value.User? then None
        else
          var r := CallCb(cb, v);
          if r.Returned? then Some(Hit(q, Fulfilled, r.v))
          else if rej == RejectOf(q) then Some(Hit(q, Rejected, r.e))
          else None
    }

    /** Running `x` on `v` settles an existing unobserved promise with a
        value that is no thenable, within the call-depth budget. */
    ghost predicate Reaches(c0: seq<Cell>, x: Reaction, v: Val, fuel: nat) {
      var d := Direct(x, v);
      fuel >= 2 && d.Some? && d.value.id < |c0| && Unobserved(c0[d.value.id]) &&
      !IsPromise(d.value.v, |c0|)
    }

    /** The settlements the entries of `list` request when fired with `v`,
        one each. */
    function Hits(list: seq<Reaction>, v: Val): (hs: seq<Hit>)
      requires forall j :: 0 <= j < |list| ==> Direct(list[j], v).Some?
      ensures |hs| == |list| && forall j :: 0 <= j < |list| ==> hs[j] == Direct(list[j], v).value
    {
      seq(|list|, j requires 0 <= j < |list| => Direct(list[j], v).value)
    }

    /** Every entry of `list`, the observers of cell `id` fired with `v`,
        settles a promise of its own: an existing one nobody observes, not
        `id`, a different one for each entry, with a value that is no
        thenable; a `settle` entry reads the value of `id` itself. */
    ghost predicate Simple(c0: seq<Cell>, list: seq<Reaction>, v: Val, id: nat, fuel: nat) {
      fuel >= 2 &&
      (forall j :: 0 <= j < |list| ==> Direct(list[j], v).Some? && (list[j].Settle? ==> list[j].parent == id)) &&
      var hs := Hits(list, v);
      Distinct(hs) &&
      forall j :: 0 <= j < |hs| ==>
        hs[j].id < |c0| && hs[j].id != id && Unobserved(c0[hs[j].id]) && !IsPromise(hs[j].v, |c0|)
    }

    /** The promise that an engine closure `fn` called with `v`, within the
        call-depth budget `fuel`, settles first when nobody observes that
        promise: a promise's `resolve` or (where that does not throw)
        `reject`, the `all` slot that brings the counter to zero, a `race`
        winner before any other. A `resolve` or `reject` of a promise that is
        itself observed lands where that promise's first observer lands,
        which is how a rejection reaches the promise behind
        `then(..).catch(reject)`. */
    ghost function Lands(c0: seq<Cell>, a0: seq<Agg>, fn: Fn, v: Val, fuel: nat): (h: Option<Hit>)
      decreases fuel, 0
    {
      match fn
      case User(_) => None
      case ResolveOf(q) =>
        if q < |c0| && !c0[q].cleared && !IsPromise(v, |c0|) then
          if Unobserved(c0[q]) then Some(Hit(q, Fulfilled, v))
          else if fuel >= 3 then FirstLanding(c0, a0, q, Fulfilled, v, fuel - 1)
          else None
        else None
      case RejectOf(q) =>
        if q < |c0| && !c0[q].cleared && !IsPromise(v, |c0|) then
          if Unobserved(c0[q]) then (if policy.fatalUnhandled then None else Some(Hit(q, Rejected, v)))
          else if fuel >= 3 then FirstLanding(c0, a0, q, Rejected, v, fuel - 1)
          else None
        else None
      case AllSlot(k, i) =>
        if k < |a0| && a0[k].AllAgg? && i < |a0[k].items| && a0[k].count == 1 &&
           a0[k].cell < |c0| && Unobserved(c0[a0[k].cell])
        then Some(Hit(a0[k].cell, Fulfilled, Arr(k))) else None
      case RaceWin(k) =>
        if k < |a0| && a0[k].RaceAgg? && !a0[k].resolved && a0[k].cell < |c0| &&
           Unobserved(c0[a0[k].cell]) && !IsPromise(v, |c0|)
        then Some(Hit(a0[k].cell, Fulfilled, v)) else None
    }

    /** The promise that running observer `x` with `v` settles first: the
        promise of the engine closure `x` calls, directly or as the callback
        of a `settle` closure (which passes it the parent's value, one call
        deeper); for a `settle` closure with a host callback, the promise
        its child's `resolve` lands with the callback's result, or that its
        `rej` lands with the callback's exception. */
    ghost function EntryLands(c0: seq<Cell>, a0: seq<Agg>, x: Reaction, v: Val, fuel: nat): (h: Option<Hit>)
      decreases fuel, 1
    {
      match x
      case Call(fn) => Lands(c0, a0, fn, v, fuel)
      case Settle(p, q, cb, rej) =>
        if p < |c0| && q < |c0| && fuel > 0 then
          if cb.Some? && !cb.value.User? then Lands(c0, a0, cb.value, c0[p].value, fuel - 1)
          else
            var r := CallCb(cb, c0[p].value);
            if r.Returned? then Lands(c0, a0, ResolveOf(q), r.v, fuel)
            else Lands(c0, a0, rej, r.e, fuel - 1)
        else None
    }

    /** The promise that `transist(v, st)` on cell `id` settles through its
        first observer for `st`, when that observer calls an engine closure. */
    ghost function FirstLanding(c0: seq<Cell>, a0: seq<Agg>, id: nat, st: State, v: Val, fuel: nat): (h: Option<Hit>)
      requires id < |c0|
      decreases fuel, 2
    {
      var list := Listeners(c0[id], st);
      if |list| == 0 then None else EntryLands(c0[id := Mark(c0[id], st, v, policy)], a0, list[0], v, fuel)
    }

    // The step semantics: `Exec` gives the state a re-entrant call leaves
    // and its outcome from the state it starts in, one step function per
    // operation; a step makes its own calls through `Exec`. Each method
    // below ends in exactly the run `Exec` gives for its call.

    /** What a call needs of the state it starts in. */
    ghost predicate Callable(s: St, c: Op, fuel: nat) {
      match c
      case ResolveCall(id, st, _) => id < |s.cells| && st != Pending
      case TransistCall(id, _, _) => id < |s.cells|
      case NotifyCall(id, _, _) => id < |s.cells|
      case ObserversCall(_, _, _) => true
      case FireCall(_, _) => true
      case ApplyCall(_, _) => true
      case FillSlotCall(_, _, _) => fuel > 0
      case WinRaceCall(_, _) => fuel > 0
      case RunSettleCall(parent, child, _, _) => parent < |s.cells| && child < |s.cells|
      case TrySettleCall(parent, child, _) => parent < |s.cells| && child < |s.cells| && fuel > 0
      case FollowCall(_, q, _) => q < |s.cells|
      case ThenCall(p, _, _) => p < |s.cells|
      case ThenSetupCall(p, child, _, _) => p < |s.cells| && child < |s.cells|
      case CatchCall(p, _) => p < |s.cells|
      case CatchSetupCall(p, child, _) => p < |s.cells| && child < |s.cells|
      case FinishCall(id, _) => id < |s.cells|
    }

    /** The run of call `c` from state `s`. */
    ghost function Exec(s: St, c: Op, fuel: nat): (r: Run)
      requires Callable(s, c, fuel)
      ensures Grows(s, r.s)
      ensures (c.ThenCall? || c.CatchCall?) && r.o.Normal? ==> r.o.v == Prom(|s.cells|) && |s.cells| < |r.s.cells|
      ensures c.FinishCall? && r.o.Normal? ==> r.o.v == Prom(c.id)
      decreases fuel, Rank(c), if c.ObserversCall? then |c.list| - c.from else 0, 1
    {
      match c
      case ResolveCall(id, st, v) => ResolveStep(s, id, st, v, fuel)
      case TransistCall(id, v, st) => TransistStep(s, id, v, st, fuel)
      case NotifyCall(id, list, v) => NotifyStep(s, id, list, v, fuel)
      case ObserversCall(list, from, v) => ObserversStep(s, list, from, v, fuel)
      case FireCall(x, v) => FireStep(s, x, v, fuel)
      case ApplyCall(fn, v) => ApplyStep(s, fn, v, fuel)
      case FillSlotCall(k, i, v) => FillSlotStep(s, k, i, v, fuel)
      case WinRaceCall(k, v) => WinRaceStep(s, k, v, fuel)
      case RunSettleCall(parent, child, cb, rej) => RunSettleStep(s, parent, child, cb, rej, fuel)
      case TrySettleCall(parent, child, cb) => TrySettleStep(s, parent, child, cb, fuel)
      case FollowCall(id, q, first) => FollowStep(s, id, q, first, fuel)
      case ThenCall(p, cb, eb) => ThenStep(s, p, cb, eb, fuel)
      case ThenSetupCall(p, child, cb, rej) => ThenSetupStep(s, p, child, cb, rej, fuel)
      case CatchCall(p, cb) => CatchStep(s, p, cb, fuel)
      case CatchSetupCall(p, child, cb) => CatchSetupStep(s, p, child, cb, fuel)
      case FinishCall(id, o0) => FinishStep(s, id, o0, fuel)
    }

    /** `resolve` (`st` fulfilled) or `reject` (`st` rejected) of cell `id`
        with `v`: nothing once `c` is cleared, following a thenable, or
        `transist`. */
    ghost function ResolveStep(s: St, id: nat, st: State, v: Val, fuel: nat): (r: Run)
      requires id < |s.cells| && st != Pending
      ensures Grows(s, r.s)
      decreases fuel, 7, 0, 0
    {
      if s.cells[id].cleared then Run(s, Normal(Undefined))
      else if IsPromise(v, |s.cells|) then
        Exec(s, FollowCall(id, v.id, if st == Fulfilled then ResolveOf(id) else RejectOf(id)), fuel)
      else Exec(s, TransistCall(id, v, st), fuel)
    }

    /** `transist(v, st)` on cell `id`. */
    ghost function TransistStep(s: St, id: nat, v: Val, st: State, fuel: nat): (r: Run)
      requires id < |s.cells|
      ensures Grows(s, r.s)
      decreases fuel, 6, 0, 0
    {
      var list := Listeners(s.cells[id], st);
      var s1 := s.(cells := s.cells[id := Mark(s.cells[id], st, v, policy)], log := s.log + [Transisted(id, st, v)]);
      if st == Rejected && |list| == 0 && policy.fatalUnhandled then Run(s1, Raise(v))
      else
        var s2 := if st == Rejected && |list| == 0 then s1.(reports := s1.reports + [id]) else s1;
        Exec(s2, NotifyCall(id, list, v), fuel)
    }

    /** The observers `list` of cell `id` run with `v`, then `c` is cleared
        unless one of them threw. */
    ghost function NotifyStep(s: St, id: nat, list: seq<Reaction>, v: Val, fuel: nat): (r: Run)
      requires id < |s.cells|
      ensures Grows(s, r.s)
      decreases fuel, 5, 0, 0
    {
      var r := Exec(s, ObserversCall(list, 0, v), fuel);
      if r.o.Raise? then r
      else Run(r.s.(cells := r.s.cells[id := r.s.cells[id].(ful := [], rej := [], cleared := true)]), Normal(Undefined))
    }

    /** The entries of `list` from index `i` on run in order with `v`; the
        first exception ends the loop. */
    ghost function ObserversStep(s: St, list: seq<Reaction>, i: nat, v: Val, fuel: nat): (r: Run)
      ensures Grows(s, r.s)
      decreases fuel, 4, |list| - i, 0
    {
      if i >= |list| then Run(s, Normal(Undefined))
      else
        var r := Exec(s, FireCall(list[i], v), fuel);
        if r.o.Raise? then Run(r.s.(log := r.s.log + [Stopped(list[i], r.o.e)]), r.o)
        else Exec(r.s, ObserversCall(list, i + 1, v), fuel)
    }

    /** One observer entry run with `v`. */
    ghost function FireStep(s: St, x: Reaction, v: Val, fuel: nat): (r: Run)
      ensures Grows(s, r.s)
      decreases fuel, 3, 0, 0
    {
      var s1 := s.(log := s.log + [Fired(x, v)]);
      match x
      case Call(fn) => Exec(s1, ApplyCall(fn, v), fuel)
      case Settle(parent, child, cb, rej) =>
        if parent < |s1.cells| && child < |s1.cells| then Exec(s1, RunSettleCall(parent, child, cb, rej), fuel)
        else Run(s1, Normal(Undefined))
    }

    /** A function value called with `v`. */
    ghost function ApplyStep(s: St, fn: Fn, v: Val, fuel: nat): (r: Run)
      ensures Grows(s, r.s)
      decreases fuel, 1, 0, 0
    {
      match fn
      case User(k) => Run(s, AsOutcome(user(k, v)))
      case ResolveOf(id) =>
        if fuel == 0 then Run(s, Raise(Error(StackOverflow)))
        else if id < |s.cells| then Exec(s, ResolveCall(id, Fulfilled, v), fuel - 1)
        else Run(s, Normal(Undefined))
      case RejectOf(id) =>
        if fuel == 0 then Run(s, Raise(Error(StackOverflow)))
        else if id < |s.cells| then Exec(s, ResolveCall(id, Rejected, v), fuel - 1)
        else Run(s, Normal(Undefined))
      case AllSlot(k, i) =>
        if fuel == 0 then Run(s, Raise(Error(StackOverflow))) else Exec(s, FillSlotCall(k, i, v), fuel)
      case RaceWin(k) =>
        if fuel == 0 then Run(s, Raise(Error(StackOverflow))) else Exec(s, WinRaceCall(k, v), fuel)
    }

    /** The `then` callback of entry `i` of `all` number `k`. */
    ghost function FillSlotStep(s: St, k: nat, i: nat, v: Val, fuel: nat): (r: Run)
      requires fuel > 0
      ensures Grows(s, r.s)
      decreases fuel, 0, 0, 0
    {
      if k < |s.aggs| && s.aggs[k].AllAgg? && i < |s.aggs[k].items| then
        var a := s.aggs[k];
        var s1 := s.(aggs := s.aggs[k := a.(items := a.items[i := v], count := a.count - 1)]);
        if a.count - 1 == 0 && a.cell < |s1.cells| then Exec(s1, ResolveCall(a.cell, Fulfilled, Arr(k)), fuel - 1)
        else Run(s1, Normal(Undefined))
      else Run(s, Normal(Undefined))
    }

    /** The `then` callback of `race` number `k`. */
    ghost function WinRaceStep(s: St, k: nat, v: Val, fuel: nat): (r: Run)
      requires fuel > 0
      ensures Grows(s, r.s)
      decreases fuel, 0, 0, 0
    {
      if k < |s.aggs| && s.aggs[k].RaceAgg? && !s.aggs[k].resolved && s.aggs[k].cell < |s.cells| then
        var r := Exec(s, ResolveCall(s.aggs[k].cell, Fulfilled, v), fuel - 1);
        if r.o.Normal? && r.s.aggs[k].RaceAgg? then Run(r.s.(aggs := r.s.aggs[k := r.s.aggs[k].(resolved := true)]), r.o)
        else r
      else Run(s, Normal(Undefined))
    }

    /** The `settle` closure of `then` and `catch`. */
    ghost function RunSettleStep(s: St, parent: nat, child: nat, cb: Option<Fn>, rej: Fn, fuel: nat): (r: Run)
      requires parent < |s.cells| && child < |s.cells|
      ensures Grows(s, r.s)
      decreases fuel, 2, 0, 0
    {
      if fuel == 0 then Run(s, Raise(Error(StackOverflow)))
      else
        var r1 := Exec(s, TrySettleCall(parent, child, cb), fuel);
        if r1.o.Normal? then Run(r1.s, Normal(Undefined))
        else
          var r2 := Exec(r1.s, ApplyCall(rej, r1.o.e), fuel - 1);
          if r2.o.Normal? then Run(r2.s, Normal(Undefined)) else r2
    }

    /** The `try` block of `settle`: without a callback the global build
        passes the parent's value through and the others call `undefined`. */
    ghost function TrySettleStep(s: St, parent: nat, child: nat, cb: Option<Fn>, fuel: nat): (r: Run)
      requires parent < |s.cells| && child < |s.cells| && fuel > 0
      ensures Grows(s, r.s)
      decreases fuel, 1, 0, 0
    {
      var pv := s.cells[parent].value;
      var r1 := match cb
        case None => Run(s, if policy.optionalCb then Normal(pv) else Raise(Error(NotAFunction)))
        case Some(f) => Exec(s, ApplyCall(f, pv), fuel - 1);
      if r1.o.Raise? then r1
      else
        var r2 := Exec(r1.s, ResolveCall(child, Fulfilled, r1.o.v), fuel - 1);
        if r2.o.Normal? then Run(r2.s, Normal(Undefined)) else r2
    }

    /** Following thenable `q` on behalf of cell `id`. */
    ghost function FollowStep(s: St, id: nat, q: nat, first: Fn, fuel: nat): (r: Run)
      requires q < |s.cells|
      ensures Grows(s, r.s)
      decreases fuel, 5, 0, 0
    {
      var r1 := Exec(s, ThenCall(q, Some(first), None), fuel);
      if r1.o.Raise? then r1
      else
        var r2 := if policy.addReject then Exec(r1.s, ThenCall(r1.o.v.id, None, Some(RejectOf(id))), fuel)
                  else Exec(r1.s, CatchCall(r1.o.v.id, RejectOf(id)), fuel);
        if r2.o.Raise? then r2 else Run(r2.s, Normal(Undefined))
    }

    /** `then(cb, errBack)` on cell `p`. */
    ghost function ThenStep(s: St, p: nat, cb: Option<Fn>, eb: Option<Fn>, fuel: nat): (r: Run)
      requires p < |s.cells|
      ensures Grows(s, r.s)
      ensures r.o.Normal? ==> r.o.v == Prom(|s.cells|) && |s.cells| < |r.s.cells|
      decreases fuel, 4, 0, 0
    {
      if policy.syncBan && s.cells[p].sync then Run(s, Raise(Error(ThenOnSync)))
      else
        var child := |s.cells|;
        var r := Exec(s.(cells := s.cells + [FreshCell()]), ThenSetupCall(p, child, cb, ThenRej(eb, child)), fuel);
        Exec(r.s, FinishCall(child, r.o), fuel)
    }

    /** The setup function `then` gives its child. */
    ghost function ThenSetupStep(s: St, p: nat, child: nat, cb: Option<Fn>, rej: Fn, fuel: nat): (r: Run)
      requires p < |s.cells| && child < |s.cells|
      ensures Grows(s, r.s)
      decreases fuel, 3, 0, 0
    {
      var P := s.cells[p];
      if P.state == Fulfilled then Exec(s, RunSettleCall(p, child, cb, rej), fuel)
      else if P.state == Rejected then
        var s1 := if policy.trackHandled then s.(cells := s.cells[p := P.(handled := true)]) else s;
        var r := Exec(s1, ApplyCall(rej, P.value), fuel);
        if r.o.Normal? then Run(r.s, Normal(Undefined)) else r
      else
        Run(s.(cells := s.cells[p := P.(ful := P.ful + [Settle(p, child, cb, rej)], rej := P.rej + [Call(rej)])]),
            Normal(Undefined))
    }

    /** `catch(cb)` on cell `p`. */
    ghost function CatchStep(s: St, p: nat, cb: Fn, fuel: nat): (r: Run)
      requires p < |s.cells|
      ensures Grows(s, r.s)
      ensures r.o.Normal? ==> r.o.v == Prom(|s.cells|) && |s.cells| < |r.s.cells|
      decreases fuel, 4, 0, 0
    {
      if policy.syncBan && s.cells[p].sync then Run(s, Raise(Error(CatchOnSync)))
      else
        var child := |s.cells|;
        var r := Exec(s.(cells := s.cells + [FreshCell()]), CatchSetupCall(p, child, cb), fuel);
        Exec(r.s, FinishCall(child, r.o), fuel)
    }

    /** The setup function `catch` gives its child. */
    ghost function CatchSetupStep(s: St, p: nat, child: nat, cb: Fn, fuel: nat): (r: Run)
      requires p < |s.cells| && child < |s.cells|
      ensures Grows(s, r.s)
      decreases fuel, 3, 0, 0
    {
      var P := s.cells[p];
      if P.state == Rejected then
        var s1 := if policy.trackHandled then s.(cells := s.cells[p := P.(handled := true)]) else s;
        Exec(s1, RunSettleCall(p, child, Some(cb), RejectOf(child)), fuel)
      else if P.state == Fulfilled then
        if fuel == 0 then Run(s, Raise(Error(StackOverflow)))
        else Exec(s, ResolveCall(child, Fulfilled, P.value), fuel - 1)
      else
        Run(s.(cells := s.cells[p := P.(ful := P.ful + [Call(ResolveOf(child))],
                                        rej := P.rej + [Settle(p, child, Some(cb), RejectOf(child))])]),
            Normal(Undefined))
    }

    /** The end of the constructor of cell `id`, whose setup ended with
        `o0`. */
    ghost function FinishStep(s: St, id: nat, o0: Outcome, fuel: nat): (r: Run)
      requires id < |s.cells|
      ensures Grows(s, r.s)
      ensures r.o.Normal? ==> r.o.v == Prom(id)
      decreases fuel, 3, 0, 0
    {
      if o0.Raise? && !policy.catchSetup then Run(s, o0)
      else if o0.Raise? && fuel == 0 then Run(s, Raise(Error(StackOverflow)))
      else
        var r := if o0.Raise? then Exec(s, ResolveCall(id, Rejected, o0.e), fuel - 1) else Run(s, Normal(Undefined));
        if r.o.Raise? then r
        else Run(r.s.(cells := r.s.cells[id := r.s.cells[id].(setupReturned := true)]), Normal(Prom(id)))
    }

    /** Allocates a promise cell, as `new SyncPromise` does before it runs
        the setup function. */
    method NewCell() returns (id: nat)
      modifies this
      ensures id == |old(cells)| && cells == old(cells) + [FreshCell()]
      ensures aggs == old(aggs) && log == old(log) && reports == old(reports)
    {
      id := |cells|;
      cells := cells + [FreshCell()];
    }

    /** `syncResolved = false`: the setup function of `id` has returned. */
    method SetupReturned(id: nat)
      requires id < |cells|
      modifies this
      ensures cells == old(cells)[id := old(cells[id]).(setupReturned := true)]
      ensures aggs == old(aggs) && log == old(log) && reports == old(reports)
    {
      cells := cells[id := cells[id].(setupReturned := true)];
    }


    /** What `transist(v, st)` on cell `id`, run from `s`, guarantees of
        the state `t` it leaves and its outcome `o`. */
    ghost predicate TransistRan(s: St, t: St, o: Outcome, id: nat, v: Val, st: State, fuel: nat)
      requires id < |s.cells| && !s.cells[id].cleared
    {
      Evolves(s, t) && TransistDone(s, t, id, st, v, o) && Propagated(s, t, id, st, v, fuel, o) &&
      (fuel >= 2 && FirstLanding(s.cells, s.aggs, id, st, v, fuel).Some? ==>
         Landed(t.cells, FirstLanding(s.cells, s.aggs, id, st, v, fuel).value))
    }

    lemma {:induction false} TransistHolds(s: St, id: nat, v: Val, st: State, fuel: nat)
      requires id < |s.cells| && !s.cells[id].cleared && st != Pending
      ensures var r := Exec(s, TransistCall(id, v, st), fuel); TransistRan(s, r.s, r.o, id, v, st, fuel)
      decreases fuel, 6
    {
      var list := Listeners(s.cells[id], st);
      var s1 := s.(cells := s.cells[id := Mark(s.cells[id], st, v, policy)], log := s.log + [Transisted(id, st, v)]);
      if st == Rejected && |list| == 0 && policy.fatalUnhandled {
        Marked(s, id, st, v, s1);
        assert s1.log[|s.log| + 1..] == [];
      } else {
        var s2 := if st == Rejected && |list| == 0 then s1.(reports := s1.reports + [id]) else s1;
        NotifyHolds(s2, id, list, v, fuel);
        var r := Exec(s2, NotifyCall(id, list, v), fuel);
        TransistJoin(s, id, v, st, fuel, r.s, r.o);
      }
    }

    /** A settlement that is not fatal ends where notifying its listeners
        ends. */
    lemma {:induction false} TransistJoin(s: St, id: nat, v: Val, st: State, fuel: nat, t: St, o: Outcome)
      requires id < |s.cells| && !s.cells[id].cleared && st != Pending
      requires !(st == Rejected && |Listeners(s.cells[id], st)| == 0 && policy.fatalUnhandled)
      requires var list := Listeners(s.cells[id], st);
               var s1 := s.(cells := s.cells[id := Mark(s.cells[id], st, v, policy)], log := s.log + [Transisted(id, st, v)]);
               var s2 := if st == Rejected && |list| == 0 then s1.(reports := s1.reports + [id]) else s1;
               NotifyRan(s2, t, o, id, list, v, fuel)
      ensures TransistRan(s, t, o, id, v, st, fuel)
    {
      var list := Listeners(s.cells[id], st);
      var s1 := s.(cells := s.cells[id := Mark(s.cells[id], st, v, policy)], log := s.log + [Transisted(id, st, v)]);
      var s2 := if st == Rejected && |list| == 0 then s1.(reports := s1.reports + [id]) else s1;
      Marked(s, id, st, v, s2);
      EvolvesTrans(s, s2, t);
      RelayedHop(s, s2, t, id, st, v, fuel, o);
      if |list| == 0 {
        assert s2.cells[id].(ful := [], rej := [], cleared := true) == AfterTransist(s.cells[id], st, v, policy);
      }
    }

    /** `transist(v, st)`: record `a`, `v` and `s`; on a rejection nobody
        observes, throw (index.js and the global build) or schedule a report
        (amd build); otherwise run the observers for `st` in registration
        order, stopping at the first that throws, and then clear `c`. */
    method Transist(id: nat, v: Val, st: State, fuel: nat) returns (o: Outcome)
      requires id < |cells| && !cells[id].cleared && st != Pending
      modifies this
      ensures Run(St(cells, aggs, log, reports), o) == Exec(St(old(cells), old(aggs), old(log), old(reports)), TransistCall(id, v, st), fuel)
      ensures TransistRan(St(old(cells), old(aggs), old(log), old(reports)), St(cells, aggs, log, reports), o, id, v, st, fuel)
      decreases fuel, 6
    {
      TransistHolds(St(cells, aggs, log, reports), id, v, st, fuel);
      var c := cells[id];
      var list := Listeners(c, st);
      cells := cells[id := Mark(c, st, v, policy)];
      log := log + [Transisted(id, st, v)];
      if st == Rejected && |list| == 0 {
        if policy.fatalUnhandled {
          return Raise(v);
        }
        reports := reports + [id];
      }
      o := Notify(id, list, v, fuel);
    }

    /** What the second half of `transist` on cell `id`, with observers
        `list` and value `v`, run from `s`, guarantees of the state `t` it
        leaves and its outcome `o`. */
    ghost predicate NotifyRan(s: St, t: St, o: Outcome, id: nat, list: seq<Reaction>, v: Val, fuel: nat)
      requires id < |s.cells|
    {
      Evolves(s, t) &&
      (o.Normal? ==>
         o.v == Undefined && id < |t.cells| && t.cells[id].cleared && t.cells[id].state != Pending &&
         Subseq(FiredAll(list, v), t.log[|s.log|..])) &&
      (|list| == 0 ==>
         o == Normal(Undefined) && t == s.(cells := s.cells[id := s.cells[id].(ful := [], rej := [], cleared := true)])) &&
      Relayed(s, t, id, list, v, fuel, true, o) &&
      (|list| > 0 && fuel >= 2 && EntryLands(s.cells, s.aggs, list[0], v, fuel).Some? ==>
         Landed(t.cells, EntryLands(s.cells, s.aggs, list[0], v, fuel).value))
    }

    lemma {:induction false} NotifyHolds(s: St, id: nat, list: seq<Reaction>, v: Val, fuel: nat)
      requires id < |s.cells| && !s.cells[id].cleared && s.cells[id].state != Pending
      ensures var r := Exec(s, NotifyCall(id, list, v), fuel); NotifyRan(s, r.s, r.o, id, list, v, fuel)
      decreases fuel, 5
    {
      ObserversHolds(s, id, list, v, fuel);
      var r := Exec(s, ObserversCall(list, 0, v), fuel);
      if r.o.Normal? {
        var y := r.s.cells[id].(ful := [], rej := [], cleared := true);
        Retouched(r.s, id, y);
        var t := r.s.(cells := r.s.cells[id := y]);
        EvolvesTrans(s, r.s, t);
        if |list| > 0 && fuel >= 2 && EntryLands(s.cells, s.aggs, list[0], v, fuel).Some? {
          LandedStays(r.s.cells, t.cells, EntryLands(s.cells, s.aggs, list[0], v, fuel).value);
        }
        RelayedClears(s, r.s, id, list, v, fuel, r.o);
      }
    }

    /** The second half of `transist` on cell `id`, settled with `v`, whose
        observers for that outcome are `list`: run them, and clear `c` unless
        one of them threw. */
    method Notify(id: nat, list: seq<Reaction>, v: Val, fuel: nat) returns (o: Outcome)
      requires id < |cells| && !cells[id].cleared && cells[id].state != Pending
      modifies this
      ensures Run(St(cells, aggs, log, reports), o) == Exec(St(old(cells), old(aggs), old(log), old(reports)), NotifyCall(id, list, v), fuel)
      ensures NotifyRan(St(old(cells), old(aggs), old(log), old(reports)), St(cells, aggs, log, reports), o, id, list, v, fuel)
      decreases fuel, 5
    {
      NotifyHolds(St(cells, aggs, log, reports), id, list, v, fuel);
      o := RunObservers(id, list, v, fuel);
      if o.Raise? {
        return;
      }
      cells := cells[id := cells[id].(ful := [], rej := [], cleared := true)];
      o := Normal(Undefined);
    }

    /** Clearing `c` of `id` after a simple observer loop from `s` to `t`
        that threw nothing. */
    lemma {:induction false} RelayedClears(s: St, t: St, id: nat, list: seq<Reaction>, v: Val, fuel: nat, o: Outcome)
      requires id < |s.cells| && o.Normal?
      requires Relayed(s, t, id, list, v, fuel, false, o)
      ensures |t.cells| == |s.cells| ==>
        Relayed(s, t.(cells := t.cells[id := t.cells[id].(ful := [], rej := [], cleared := true)]), id, list, v, fuel, true, o)
    {
      if Simple(s.cells, list, v, id, fuel) && s.cells[id].value == v {
        SettleAllAt(s.cells, Hits(list, v), policy, id);
      }
    }

    /** `self.c[state].forEach(function(fn) { fn(val); })`: runs the entries
        of `list` in order; an exception stops the loop and propagates. */
    method RunObservers(id: nat, list: seq<Reaction>, v: Val, fuel: nat) returns (o: Outcome)
      requires id < |cells|
      modifies this
      ensures Run(St(cells, aggs, log, reports), o) == Exec(St(old(cells), old(aggs), old(log), old(reports)), ObserversCall(list, 0, v), fuel)
      ensures ObserversRan(St(old(cells), old(aggs), old(log), old(reports)), St(cells, aggs, log, reports), id, list, v, fuel, o)
      decreases fuel, 4
    {
      ObserversHolds(St(cells, aggs, log, reports), id, list, v, fuel);
      var i := 0;
      while i < |list|
        invariant 0 <= i <= |list|
        invariant Exec(St(old(cells), old(aggs), old(log), old(reports)), ObserversCall(list, 0, v), fuel) ==
                  Exec(St(cells, aggs, log, reports), ObserversCall(list, i, v), fuel)
      {
        ghost var sb := St(cells, aggs, log, reports);
        var r := Fire(list[i], v, fuel);
        ObserversNext(sb, Run(St(cells, aggs, log, reports), r), list, i, v, fuel);
        if r.Raise? {
          log := log + [Stopped(list[i], r.e)];
          return r;
        }
        i := i + 1;
      }
      o := Normal(Undefined);
    }

    /** The observer loop from entry `i` on: entry `i` runs, then the rest
        unless it threw. */
    lemma {:induction false} ObserversNext(s: St, r: Run, list: seq<Reaction>, i: nat, v: Val, fuel: nat)
      requires i < |list| && r == Exec(s, FireCall(list[i], v), fuel)
      ensures Exec(s, ObserversCall(list, i, v), fuel) ==
        if r.o.Raise? then Run(r.s.(log := r.s.log + [Stopped(list[i], r.o.e)]), r.o)
        else Exec(r.s, ObserversCall(list, i + 1, v), fuel)
    {
    }

    /** What the observer loop over `list` of cell `id`, run with `v` from
        `s`, guarantees of the state `t` it ends in and of its outcome `o`:
        every entry ran, in order, or the exception of one ended the loop
        right after it; an empty list changes nothing; a loop of observers
        that each settle a promise of their own is `Relayed`; and the first
        entry's landing stays. */
    ghost predicate ObserversRan(s: St, t: St, id: nat, list: seq<Reaction>, v: Val, fuel: nat, o: Outcome)
      requires id < |s.cells|
    {
      id < |t.cells| && Evolves(s, t) &&
      (o.Normal? ==> o.v == Undefined && RanLog(s.log, t.log, list, v)) &&
      (o.Raise? ==> StoppedLog(s.log, t.log, list, v, o.e)) &&
      (|list| == 0 ==> o == Normal(Undefined) && t == s) &&
      Relayed(s, t, id, list, v, fuel, false, o) &&
      (|list| > 0 && fuel >= 2 && EntryLands(s.cells, s.aggs, list[0], v, fuel).Some? ==>
         Landed(t.cells, EntryLands(s.cells, s.aggs, list[0], v, fuel).value))
    }

    lemma {:induction false} ObserversHolds(s: St, id: nat, list: seq<Reaction>, v: Val, fuel: nat)
      requires id < |s.cells|
      ensures var r := Exec(s, ObserversCall(list, 0, v), fuel); ObserversRan(s, r.s, id, list, v, fuel, r.o)
      decreases fuel, 4
    {
      if |list| == 0 {
        ObserversNone(s, id, list, v, fuel);
        return;
      }
      ObserverStart(s, id, list, v, fuel);
      var w := Exec(s, ObserversCall(list, 0, v), fuel);
      var i := 0;
      var u := s;
      var segs: seq<seq<Event>> := [];
      while i < |list|
        invariant ObserverLoop(s, u, id, list, v, fuel, i, segs)
        invariant w == Exec(u, ObserversCall(list, i, v), fuel)
      {
        var r := ObserverAdvance(s, u, id, list, v, fuel, i, segs, w);
        if r.o.Raise? {
          return;
        }
        segs := segs + [r.s.log[|u.log| + 1..]];
        u := r.s;
        i := i + 1;
      }
      ObserverDone(s, u, id, list, v, fuel, segs, Normal(Undefined));
    }

    /** One round of the observer loop, whose remaining run from `u` is
        `w`: entry `i` is fired; either it threw and `w` ends as
        `ObserversRan` says, or the loop goes on from the state it left. */
    lemma {:induction false} ObserverAdvance(s: St, u: St, id: nat, list: seq<Reaction>, v: Val, fuel: nat,
                                             i: nat, segs: seq<seq<Event>>, w: Run) returns (r: Run)
      requires i < |list| && ObserverLoop(s, u, id, list, v, fuel, i, segs)
      requires w == Exec(u, ObserversCall(list, i, v), fuel)
      ensures r == Exec(u, FireCall(list[i], v), fuel) && |r.s.log| > |u.log|
      ensures r.o.Raise? ==> ObserversRan(s, w.s, id, list, v, fuel, w.o)
      ensures r.o.Normal? ==>
        ObserverLoop(s, r.s, id, list, v, fuel, i + 1, segs + [r.s.log[|u.log| + 1..]]) &&
        w == Exec(r.s, ObserversCall(list, i + 1, v), fuel)
      decreases fuel, 4, 0
    {
      FireHolds(u, list[i], v, fuel);
      r := Exec(u, FireCall(list[i], v), fuel);
      ObserversNext(u, r, list, i, v, fuel);
      if r.o.Raise? {
        ObserverStop(s, u, r.s, id, list, v, fuel, i, segs, r.o);
      } else {
        ObserverStep(s, u, r.s, id, list, v, fuel, i, segs, r.o);
      }
    }

    /** An empty observer list. */
    lemma {:induction false} ObserversNone(s: St, id: nat, list: seq<Reaction>, v: Val, fuel: nat)
      requires id < |s.cells| && |list| == 0
      ensures ObserversRan(s, s, id, list, v, fuel, Normal(Undefined))
    {
      EvolvesRefl(s);
      assert s.log[|s.log|..] == Trace(list, v, []);
    }

    /** The observer loop run from `s` after entries `0..i` of `list` ran
        without an exception, in state `t`. */
    ghost predicate ObserverLoop(s: St, t: St, id: nat, list: seq<Reaction>, v: Val, fuel: nat, i: nat, segs: seq<seq<Event>>) {
      id < |s.cells| && 0 < |list| && i <= |list| && id < |t.cells| && Evolves(s, t) &&
      Subseq(FiredAll(list[..i], v), t.log[|s.log|..]) && |segs| == i && t.log[|s.log|..] == Trace(list[..i], v, segs) &&
      (i == 0 ==> t.cells == s.cells && t.aggs == s.aggs) &&
      (Simple(s.cells, list, v, id, fuel) && s.cells[id].value == v ==> RelayLoop(s, t, list, Hits(list, v), v, i)) &&
      (0 < i && fuel >= 2 && EntryLands(s.cells, s.aggs, list[0], v, fuel).Some? ==>
         Landed(t.cells, EntryLands(s.cells, s.aggs, list[0], v, fuel).value))
    }

    /** No entry has run yet. */
    lemma {:induction false} ObserverStart(s: St, id: nat, list: seq<Reaction>, v: Val, fuel: nat)
      requires id < |s.cells| && 0 < |list|
      ensures ObserverLoop(s, s, id, list, v, fuel, 0, [])
    {
      EvolvesRefl(s);
      assert list[..0] == [] && s.log[|s.log|..] == [] && Trace([], v, []) == [];
      assert s.log + [] == s.log && s.reports + [] == s.reports;
      if Simple(s.cells, list, v, id, fuel) && s.cells[id].value == v {
        var hs := Hits(list, v);
        assert hs[..0] == [];
        forall j | 0 <= j < |hs| ensures hs[j].id < |s.cells| && !s.cells[hs[j].id].cleared {
        }
      }
    }

    /** Entry `i` of the observer loop, run from state `sb` to `t` as
        `FireRan` says, without an exception: the loop covers entries
        `0..i`. */
    lemma {:induction false} ObserverStep(s: St, sb: St, t: St, id: nat, list: seq<Reaction>, v: Val, fuel: nat,
                                          i: nat, segs: seq<seq<Event>>, o: Outcome)
      requires i < |list| && ObserverLoop(s, sb, id, list, v, fuel, i, segs)
      requires FireRan(sb, t, o, list[i], v, fuel) && o.Normal?
      ensures ObserverLoop(s, t, id, list, v, fuel, i + 1, segs + [t.log[|sb.log| + 1..]])
    {
      FiredLogged(list, i, v, s.log, sb.log, t.log, segs);
      EvolvesTrans(s, sb, t);
      if i > 0 && fuel >= 2 && EntryLands(s.cells, s.aggs, list[0], v, fuel).Some? {
        LandedStays(sb.cells, t.cells, EntryLands(s.cells, s.aggs, list[0], v, fuel).value);
      }
      if Simple(s.cells, list, v, id, fuel) && s.cells[id].value == v {
        RelayStep(s, id, list, Hits(list, v), v, fuel, i, sb, t, o);
      }
    }

    /** Entry `i` of the observer loop threw: once the exception is logged,
        the loop ends there as `ObserversRan` says. */
    lemma {:induction false} ObserverStop(s: St, sb: St, t: St, id: nat, list: seq<Reaction>, v: Val, fuel: nat,
                                          i: nat, segs: seq<seq<Event>>, o: Outcome)
      requires i < |list| && ObserverLoop(s, sb, id, list, v, fuel, i, segs)
      requires FireRan(sb, t, o, list[i], v, fuel) && o.Raise?
      ensures ObserversRan(s, t.(log := t.log + [Stopped(list[i], o.e)]), id, list, v, fuel, o)
    {
      FiredLogged(list, i, v, s.log, sb.log, t.log, segs);
      EvolvesTrans(s, sb, t);
      Noted(t, Stopped(list[i], o.e));
      EvolvesTrans(s, t, t.(log := t.log + [Stopped(list[i], o.e)]));
      if i > 0 && fuel >= 2 && EntryLands(s.cells, s.aggs, list[0], v, fuel).Some? {
        LandedStays(sb.cells, t.cells, EntryLands(s.cells, s.aggs, list[0], v, fuel).value);
      }
      if Simple(s.cells, list, v, id, fuel) && s.cells[id].value == v {
        RelayStep(s, id, list, Hits(list, v), v, fuel, i, sb, t, o);
      }
      StopLogged(list, i, v, o.e, s.log, t.log, segs + [t.log[|sb.log| + 1..]]);
    }

    /** Every entry of the observer loop ran without an exception. */
    lemma {:induction false} ObserverDone(s: St, t: St, id: nat, list: seq<Reaction>, v: Val, fuel: nat,
                                          segs: seq<seq<Event>>, o: Outcome)
      requires ObserverLoop(s, t, id, list, v, fuel, |list|, segs)
      requires o == Normal(Undefined)
      ensures ObserversRan(s, t, id, list, v, fuel, o)
    {
      assert list[..|list|] == list;
      if Simple(s.cells, list, v, id, fuel) && s.cells[id].value == v {
        RelayedRuns(s, t, id, list, v, fuel, Hits(list, v), o);
      }
    }

    /** A simple observer loop from `s` that stopped at entry `i` in `t`:
        `i` is where `Stop` says it stops. */
    lemma {:induction false} RelayedStops(s: St, t: St, id: nat, list: seq<Reaction>, v: Val, fuel: nat, hs: seq<Hit>, i: nat, o: Outcome)
      requires id < |s.cells| && Simple(s.cells, list, v, id, fuel) && s.cells[id].value == v
      requires hs == Hits(list, v) && i < |list|
      requires (forall j :: 0 <= j < i ==> !Fatal(hs[j], policy)) && Fatal(hs[i], policy) && o == Raise(hs[i].v)
      requires t.cells == SettleAll(s.cells, hs[..i + 1], policy) && t.aggs == s.aggs && t.reports == s.reports + Reported(hs[..i], policy)
      requires t.log == s.log + RelayLog(list[..i + 1], hs[..i + 1], v) + [Stopped(list[i], hs[i].v)]
      ensures Relayed(s, t, id, list, v, fuel, false, o)
    {
      assert Stop(hs, policy) == i;
      assert t.reports == s.reports;
    }

    /** A simple observer loop that ran every entry: no settlement threw. */
    lemma {:induction false} RelayedRuns(s: St, t: St, id: nat, list: seq<Reaction>, v: Val, fuel: nat, hs: seq<Hit>, o: Outcome)
      requires id < |s.cells| && Simple(s.cells, list, v, id, fuel) && s.cells[id].value == v
      requires hs == Hits(list, v) && o == Normal(Undefined)
      requires RelayLoop(s, t, list, hs, v, |list|)
      ensures Relayed(s, t, id, list, v, fuel, false, o)
    {
      assert hs[..|hs|] == hs && list[..|list|] == list;
      assert Stop(hs, policy) == |hs|;
    }

    /** Before entry `i` of a simple observer loop runs, its promise is still
        as it was and the owner still holds the value. */
    lemma {:induction false} RelayReady(c0: seq<Cell>, list: seq<Reaction>, hs: seq<Hit>, v: Val, id: nat, fuel: nat, i: nat,
                     cb: seq<Cell>)
      requires id < |c0| && Simple(c0, list, v, id, fuel) && c0[id].value == v
      requires hs == Hits(list, v) && i < |list|
      requires cb == SettleAll(c0, hs[..i], policy)
      ensures Reaches(cb, list[i], v, fuel) && Direct(list[i], v).value == hs[i]
      ensures list[i].Settle? ==> list[i].parent < |cb| && cb[list[i].parent].value == v
      ensures cb[hs[i].id] == c0[hs[i].id]
    {
      forall j | 0 <= j < |hs[..i]| ensures hs[..i][j].id != hs[i].id {
        DistinctAt(hs, j, i);
      }
      DistinctPrefix(hs, i);
      SettleAllAt(c0, hs[..i], policy, hs[i].id);
      forall j | 0 <= j < |hs[..i]| ensures hs[..i][j].id != id {
      }
      SettleAllAt(c0, hs[..i], policy, id);
    }

    /** The state `t` of a simple observer loop from `s` after entries
        `0..i`. */
    ghost predicate RelayLoop(s: St, t: St, list: seq<Reaction>, hs: seq<Hit>, v: Val, i: nat) {
      |hs| == |list| && i <= |list| && Distinct(hs) &&
      (forall j :: 0 <= j < |hs| ==> hs[j].id < |s.cells| && !s.cells[hs[j].id].cleared) &&
      (forall j :: 0 <= j < i ==> !Fatal(hs[j], policy)) &&
      t.cells == SettleAll(s.cells, hs[..i], policy) && t.aggs == s.aggs &&
      t.log == s.log + RelayLog(list[..i], hs[..i], v) && t.reports == s.reports + Reported(hs[..i], policy)
    }

    /** After entry `i` of a simple observer loop ran from `sb` to `t`,
        settling its own promise exactly as `SettledIn` says, the loop state
        covers entries `0..i`, or the loop stops there. */
    lemma {:induction false} RelayHit(s: St, sb: St, t: St, list: seq<Reaction>, hs: seq<Hit>, v: Val, i: nat, o: Outcome)
      requires i < |list| && RelayLoop(s, sb, list, hs, v, i)
      requires sb.cells[hs[i].id] == s.cells[hs[i].id]
      requires SettledIn(sb.(log := sb.log + [Fired(list[i], v)]), t, hs[i].id, hs[i].st, hs[i].v, o)
      ensures o.Raise? <==> Fatal(hs[i], policy)
      ensures o.Raise? ==>
        o.e == hs[i].v && t.cells == SettleAll(s.cells, hs[..i + 1], policy) && t.aggs == s.aggs &&
        t.log == s.log + RelayLog(list[..i + 1], hs[..i + 1], v) && t.reports == s.reports + Reported(hs[..i], policy)
      ensures o.Normal? ==> RelayLoop(s, t, list, hs, v, i + 1)
    {
      RelayExtends(s.cells, list, hs, v, i, policy);
      var h := hs[i];
      assert t.log == sb.log + [Fired(list[i], v)] + [Transisted(h.id, h.st, h.v)];
      assert s.log + RelayLog(list[..i], hs[..i], v) + [Fired(list[i], v), Transisted(h.id, h.st, h.v)]
          == s.log + (RelayLog(list[..i], hs[..i], v) + [Fired(list[i], v), Transisted(h.id, h.st, h.v)]);
      assert s.reports + Reported(hs[..i], policy) + [h.id] == s.reports + (Reported(hs[..i], policy) + [h.id]);
    }

    /** Entry `i` of a simple observer loop, run from `sb` to `t` as
        `FireRan` says: the loop state covers entries `0..i`, or the loop
        ends there as `Relayed` says once the exception is logged. */
    lemma {:induction false} RelayStep(s: St, id: nat, list: seq<Reaction>, hs: seq<Hit>, v: Val, fuel: nat, i: nat,
                                       sb: St, t: St, o: Outcome)
      requires id < |s.cells| && Simple(s.cells, list, v, id, fuel) && s.cells[id].value == v && hs == Hits(list, v)
      requires i < |list| && RelayLoop(s, sb, list, hs, v, i)
      requires FireRan(sb, t, o, list[i], v, fuel)
      ensures o.Raise? ==> Relayed(s, t.(log := t.log + [Stopped(list[i], o.e)]), id, list, v, fuel, false, o)
      ensures o.Normal? ==> RelayLoop(s, t, list, hs, v, i + 1)
    {
      RelayReady(s.cells, list, hs, v, id, fuel, i, sb.cells);
      RelayHit(s, sb, t, list, hs, v, i, o);
      if o.Raise? {
        RelayedStops(s, t.(log := t.log + [Stopped(list[i], o.e)]), id, list, v, fuel, hs, i, o);
      }
    }

    /** What running observer `x` with `v` from `s` guarantees of the state
        `t` it leaves and its outcome `o`: the run is logged first; an
        observer that settles an unobserved promise of its own settles it
        as `SettledIn` says; and its landing stays. */
    ghost predicate FireRan(s: St, t: St, o: Outcome, x: Reaction, v: Val, fuel: nat) {
      Evolves(s, t) && |t.log| > |s.log| && t.log[..|s.log| + 1] == s.log + [Fired(x, v)] &&
      (Reaches(s.cells, x, v, fuel) && (x.Settle? ==> x.parent < |s.cells| && s.cells[x.parent].value == v) ==>
         var h := Direct(x, v).value;
         SettledIn(s.(log := s.log + [Fired(x, v)]), t, h.id, h.st, h.v, o)) &&
      (fuel >= 2 && EntryLands(s.cells, s.aggs, x, v, fuel).Some? ==>
         Landed(t.cells, EntryLands(s.cells, s.aggs, x, v, fuel).value))
    }

    lemma {:induction false} FireHolds(s: St, x: Reaction, v: Val, fuel: nat)
      ensures var r := Exec(s, FireCall(x, v), fuel); FireRan(s, r.s, r.o, x, v, fuel)
      decreases fuel, 3
    {
      var s1 := s.(log := s.log + [Fired(x, v)]);
      match x
      case Call(fn) =>
        ApplyHolds(s1, fn, v, fuel);
        var r := Exec(s1, ApplyCall(fn, v), fuel);
        FireCallJoin(s, fn, v, fuel, r.s, r.o);
      case Settle(parent, child, cb, rej) =>
        if parent < |s1.cells| && child < |s1.cells| {
          RunSettleHolds(s1, parent, child, cb, rej, fuel);
          var r := Exec(s1, RunSettleCall(parent, child, cb, rej), fuel);
          FireSettleJoin(s, parent, child, cb, rej, v, fuel, r.s, r.o);
        } else {
          Noted(s, Fired(x, v));
        }
    }

    /** Firing a callback entry ends where applying its function ends. */
    lemma {:induction false} FireCallJoin(s: St, fn: Fn, v: Val, fuel: nat, t: St, o: Outcome)
      requires ApplyRan(s.(log := s.log + [Fired(Call(fn), v)]), t, o, fn, v, fuel)
      ensures FireRan(s, t, o, Call(fn), v, fuel)
    {
      var s1 := s.(log := s.log + [Fired(Call(fn), v)]);
      Noted(s, Fired(Call(fn), v));
      EvolvesTrans(s, s1, t);
    }

    /** Firing a settle entry ends where running its settlement ends. */
    lemma {:induction false} FireSettleJoin(s: St, parent: nat, child: nat, cb: Option<Fn>, rej: Fn, v: Val, fuel: nat,
                                            t: St, o: Outcome)
      requires parent < |s.cells| && child < |s.cells|
      requires RunSettleRan(s.(log := s.log + [Fired(Settle(parent, child, cb, rej), v)]), t, o, parent, child, cb, rej, fuel)
      ensures FireRan(s, t, o, Settle(parent, child, cb, rej), v, fuel)
    {
      var s1 := s.(log := s.log + [Fired(Settle(parent, child, cb, rej), v)]);
      Noted(s, Fired(Settle(parent, child, cb, rej), v));
      EvolvesTrans(s, s1, t);
    }

    /** Runs one observer entry with the settled value. */
    method Fire(r: Reaction, v: Val, fuel: nat) returns (o: Outcome)
      modifies this
      ensures Run(St(cells, aggs, log, reports), o) == Exec(St(old(cells), old(aggs), old(log), old(reports)), FireCall(r, v), fuel)
      ensures FireRan(St(old(cells), old(aggs), old(log), old(reports)), St(cells, aggs, log, reports), o, r, v, fuel)
      decreases fuel, 3
    {
      FireHolds(St(cells, aggs, log, reports), r, v, fuel);
      log := log + [Fired(r, v)];
      match r
      case Call(fn) =>
        o := Apply(fn, v, fuel);
      case Settle(parent, child, cb, rej) =>
        if parent < |cells| && child < |cells| {
          o := RunSettle(parent, child, cb, rej, fuel);
        } else {
          o := Normal(Undefined);
        }
    }

    /** What calling function value `fn` with `v` from `s` guarantees of
        the state `t` it leaves and its outcome `o`: a host function changes
        nothing; an engine closure does what `resolve`, `reject`, the `all`
        slot or the `race` winner does, one call deeper; and its landing
        stays. */
    ghost predicate ApplyRan(s: St, t: St, o: Outcome, fn: Fn, v: Val, fuel: nat) {
      Evolves(s, t) &&
      (fn.User? ==> o == AsOutcome(user(fn.k, v)) && t == s) &&
      (fn.ResolveOf? && fuel > 0 && fn.id < |s.cells| ==> ResolveRan(s, t, o, fn.id, Fulfilled, v, fuel - 1)) &&
      (fn.RejectOf? && fuel > 0 && fn.id < |s.cells| ==> ResolveRan(s, t, o, fn.id, Rejected, v, fuel - 1)) &&
      (fn.AllSlot? && fuel > 0 ==> FillSlotRan(s, t, o, fn.agg, fn.i, v, fuel)) &&
      (fn.RaceWin? && fuel > 0 ==> WinRaceRan(s, t, o, fn.agg, v, fuel)) &&
      (fuel > 0 && Lands(s.cells, s.aggs, fn, v, fuel).Some? ==>
         Landed(t.cells, Lands(s.cells, s.aggs, fn, v, fuel).value))
    }

    lemma {:induction false} ApplyHolds(s: St, fn: Fn, v: Val, fuel: nat)
      ensures var r := Exec(s, ApplyCall(fn, v), fuel); ApplyRan(s, r.s, r.o, fn, v, fuel)
      decreases fuel, 1
    {
      EvolvesRefl(s);
      match fn
      case User(k) =>
      case ResolveOf(id) =>
        if fuel > 0 && id < |s.cells| {
          ApplyResolves(s, fn, v, fuel);
        }
      case RejectOf(id) =>
        if fuel > 0 && id < |s.cells| {
          ApplyResolves(s, fn, v, fuel);
        }
      case AllSlot(k, i) =>
        if fuel > 0 {
          FillSlotHolds(s, k, i, v, fuel);
        }
      case RaceWin(k) =>
        if fuel > 0 {
          WinRaceHolds(s, k, v, fuel);
        }
    }

    /** `ApplyHolds` for the `resolve` or `reject` closure of a promise. */
    lemma {:induction false} ApplyResolves(s: St, fn: Fn, v: Val, fuel: nat)
      requires (fn.ResolveOf? || fn.RejectOf?) && fuel > 0 && fn.id < |s.cells|
      ensures var r := Exec(s, ApplyCall(fn, v), fuel); ApplyRan(s, r.s, r.o, fn, v, fuel)
      decreases fuel, 1, 0
    {
      var st := if fn.ResolveOf? then Fulfilled else Rejected;
      ResolveHolds(s, fn.id, st, v, fuel - 1);
      var r := Exec(s, ResolveCall(fn.id, st, v), fuel - 1);
      ResolveLands(s, fn.id, st, v, fuel, r.s, r.o);
    }

    /** Where a `resolve` or `reject` closure of cell `id`, called with `v`
        one level deeper than `fuel`, lands, it stays. */
    lemma {:induction false} ResolveLands(s: St, id: nat, st: State, v: Val, fuel: nat, t: St, o: Outcome)
      requires id < |s.cells| && st != Pending && fuel > 0
      requires ResolveRan(s, t, o, id, st, v, fuel - 1)
      ensures var fn := if st == Fulfilled then ResolveOf(id) else RejectOf(id);
        Lands(s.cells, s.aggs, fn, v, fuel).Some? ==> Landed(t.cells, Lands(s.cells, s.aggs, fn, v, fuel).value)
    {
    }

    /** Calls a function value with argument `v`. */
    method Apply(fn: Fn, v: Val, fuel: nat) returns (o: Outcome)
      modifies this
      ensures Run(St(cells, aggs, log, reports), o) == Exec(St(old(cells), old(aggs), old(log), old(reports)), ApplyCall(fn, v), fuel)
      ensures ApplyRan(St(old(cells), old(aggs), old(log), old(reports)), St(cells, aggs, log, reports), o, fn, v, fuel)
      decreases fuel, 1
    {
      ApplyHolds(St(cells, aggs, log, reports), fn, v, fuel);
      match fn
      case User(k) =>
        o := AsOutcome(user(k, v));
      case ResolveOf(id) =>
        if fuel == 0 {
          o := Raise(Error(StackOverflow));
        } else if id < |cells| {
          o := Resolve(id, v, fuel - 1);
        } else {
          o := Normal(Undefined);
        }
      case RejectOf(id) =>
        if fuel == 0 {
          o := Raise(Error(StackOverflow));
        } else if id < |cells| {
          o := Reject(id, v, fuel - 1);
        } else {
          o := Normal(Undefined);
        }
      case AllSlot(k, i) =>
        if fuel == 0 {
          o := Raise(Error(StackOverflow));
        } else {
          o := FillSlot(k, i, v, fuel);
        }
      case RaceWin(k) =>
        if fuel == 0 {
          o := Raise(Error(StackOverflow));
        } else {
          o := WinRace(k, v, fuel);
        }
    }

    /** What the `then` callback of slot `i` of `all` number `k`, called
        with `v` from `s`, guarantees of the state `t` it leaves and its
        outcome `o`: the slot takes `v` and the counter goes down by one;
        while it stays above zero nothing else changes; when it reaches zero
        the aggregate is fulfilled with the array; and its landing stays. */
    ghost predicate FillSlotRan(s: St, t: St, o: Outcome, k: nat, i: nat, v: Val, fuel: nat)
      requires fuel > 0
    {
      Evolves(s, t) &&
      (k < |s.aggs| && s.aggs[k].AllAgg? && i < |s.aggs[k].items| && s.aggs[k].cell < |s.cells| ==>
         var a := s.aggs[k];
         var s1 := s.(aggs := s.aggs[k := a.(items := a.items[i := v], count := a.count - 1)]);
         (a.count != 1 || s.cells[a.cell].cleared ==> o == Normal(Undefined) && t == s1) &&
         (a.count == 1 && !s.cells[a.cell].cleared ==> TransistRan(s1, t, o, a.cell, Arr(k), Fulfilled, fuel - 1))) &&
      (Lands(s.cells, s.aggs, AllSlot(k, i), v, fuel).Some? ==>
         Landed(t.cells, Lands(s.cells, s.aggs, AllSlot(k, i), v, fuel).value))
    }

    lemma {:induction false} FillSlotHolds(s: St, k: nat, i: nat, v: Val, fuel: nat)
      requires fuel > 0
      ensures var r := Exec(s, FillSlotCall(k, i, v), fuel); FillSlotRan(s, r.s, r.o, k, i, v, fuel)
      decreases fuel, 0
    {
      EvolvesRefl(s);
      if k < |s.aggs| && s.aggs[k].AllAgg? && i < |s.aggs[k].items| {
        var a := s.aggs[k];
        var a' := a.(items := a.items[i := v], count := a.count - 1);
        var s1 := s.(aggs := s.aggs[k := a']);
        Tallied(s, k, a');
        if a.count - 1 == 0 && a.cell < |s1.cells| {
          ResolveHolds(s1, a.cell, Fulfilled, Arr(k), fuel - 1);
          var r := Exec(s1, ResolveCall(a.cell, Fulfilled, Arr(k)), fuel - 1);
          FillSlotJoin(s, k, i, v, fuel, r.s, r.o);
        }
      }
    }

    /** Filling the last open slot of `Promise.all` ends where resolving
        its promise with the items ends. */
    lemma {:induction false} FillSlotJoin(s: St, k: nat, i: nat, v: Val, fuel: nat, t: St, o: Outcome)
      requires fuel > 0
      requires k < |s.aggs| && s.aggs[k].AllAgg? && i < |s.aggs[k].items| && s.aggs[k].count == 1
      requires s.aggs[k].cell < |s.cells|
      requires var a := s.aggs[k];
               ResolveRan(s.(aggs := s.aggs[k := a.(items := a.items[i := v], count := a.count - 1)]), t, o,
                          a.cell, Fulfilled, Arr(k), fuel - 1)
      ensures FillSlotRan(s, t, o, k, i, v, fuel)
    {
      var a := s.aggs[k];
      var a' := a.(items := a.items[i := v], count := a.count - 1);
      Tallied(s, k, a');
      EvolvesTrans(s, s.(aggs := s.aggs[k := a']), t);
    }

    /** The `then` callback of entry `i` of `all` number `k`:
        `promises[i] = res; --l || resolve(promises)`. */
    method FillSlot(k: nat, i: nat, v: Val, fuel: nat) returns (o: Outcome)
      requires fuel > 0
      modifies this
      ensures Run(St(cells, aggs, log, reports), o) == Exec(St(old(cells), old(aggs), old(log), old(reports)), FillSlotCall(k, i, v), fuel)
      ensures FillSlotRan(St(old(cells), old(aggs), old(log), old(reports)), St(cells, aggs, log, reports), o, k, i, v, fuel)
      decreases fuel, 0
    {
      FillSlotHolds(St(cells, aggs, log, reports), k, i, v, fuel);
      if k < |aggs| && aggs[k].AllAgg? && i < |aggs[k].items| {
        var a := aggs[k];
        aggs := aggs[k := a.(items := a.items[i := v], count := a.count - 1)];
        if a.count - 1 == 0 && a.cell < |cells| {
          o := Resolve(a.cell, Arr(k), fuel - 1);
        } else {
          o := Normal(Undefined);
        }
      } else {
        o := Normal(Undefined);
      }
    }

    /** What the `then` callback of `race` number `k`, called with `v` from
        `s`, guarantees of the state `t` it leaves and its outcome `o`: a
        race already won changes nothing; otherwise the race's promise is
        resolved with `v` and the race is marked won; and its landing
        stays. */
    ghost predicate WinRaceRan(s: St, t: St, o: Outcome, k: nat, v: Val, fuel: nat)
      requires fuel > 0
    {
      Evolves(s, t) &&
      (k < |s.aggs| && s.aggs[k].RaceAgg? && s.aggs[k].cell < |s.cells| ==>
         var a := s.aggs[k];
         (a.resolved ==> o == Normal(Undefined) && t == s) &&
         (!a.resolved && o.Normal? ==> t.aggs[k].RaceAgg? && t.aggs[k].resolved) &&
         (!a.resolved && !s.cells[a.cell].cleared && !IsPromise(v, |s.cells|) ==>
            |t.log| > |s.log| && t.log[|s.log|] == Transisted(a.cell, Fulfilled, v))) &&
      (Lands(s.cells, s.aggs, RaceWin(k), v, fuel).Some? ==>
         Landed(t.cells, Lands(s.cells, s.aggs, RaceWin(k), v, fuel).value))
    }

    lemma {:induction false} WinRaceHolds(s: St, k: nat, v: Val, fuel: nat)
      requires fuel > 0
      ensures var r := Exec(s, WinRaceCall(k, v), fuel); WinRaceRan(s, r.s, r.o, k, v, fuel)
      decreases fuel, 0
    {
      EvolvesRefl(s);
      if k < |s.aggs| && s.aggs[k].RaceAgg? && !s.aggs[k].resolved && s.aggs[k].cell < |s.cells| {
        ResolveHolds(s, s.aggs[k].cell, Fulfilled, v, fuel - 1);
        var r := Exec(s, ResolveCall(s.aggs[k].cell, Fulfilled, v), fuel - 1);
        WinRaceJoin(s, k, v, fuel, r.s, r.o);
      }
    }

    /** The first settlement of a race ends where resolving its promise
        ends, with the race then marked as resolved. */
    lemma {:induction false} WinRaceJoin(s: St, k: nat, v: Val, fuel: nat, m: St, o: Outcome)
      requires fuel > 0
      requires k < |s.aggs| && s.aggs[k].RaceAgg? && !s.aggs[k].resolved && s.aggs[k].cell < |s.cells|
      requires ResolveRan(s, m, o, s.aggs[k].cell, Fulfilled, v, fuel - 1)
      ensures WinRaceRan(s, if o.Normal? && m.aggs[k].RaceAgg? then m.(aggs := m.aggs[k := m.aggs[k].(resolved := true)]) else m,
                         o, k, v, fuel)
    {
      if o.Normal? && m.aggs[k].RaceAgg? {
        Tallied(m, k, m.aggs[k].(resolved := true));
        EvolvesTrans(s, m, m.(aggs := m.aggs[k := m.aggs[k].(resolved := true)]));
      }
    }

    /** The `then` callback of `race` number `k`:
        `if (resolved) return; resolve(res); resolved = true;`. */
    method WinRace(k: nat, v: Val, fuel: nat) returns (o: Outcome)
      requires fuel > 0
      modifies this
      ensures Run(St(cells, aggs, log, reports), o) == Exec(St(old(cells), old(aggs), old(log), old(reports)), WinRaceCall(k, v), fuel)
      ensures WinRaceRan(St(old(cells), old(aggs), old(log), old(reports)), St(cells, aggs, log, reports), o, k, v, fuel)
      decreases fuel, 0
    {
      WinRaceHolds(St(cells, aggs, log, reports), k, v, fuel);
      if k < |aggs| && aggs[k].RaceAgg? && !aggs[k].resolved && aggs[k].cell < |cells| {
        o := Resolve(aggs[k].cell, v, fuel - 1);
        if o.Normal? {
          aggs := aggs[k := aggs[k].(resolved := true)];
        }
      } else {
        o := Normal(Undefined);
      }
    }

    /** What the `settle` closure of `then` and `catch` (parent `parent`,
        child `child`), run from `s`, guarantees of the state `t` it leaves
        and its outcome `o`: a host callback's result settles an unobserved
        child, its exception goes to `rej`; and its landing stays. */
    ghost predicate RunSettleRan(s: St, t: St, o: Outcome, parent: nat, child: nat, cb: Option<Fn>, rej: Fn, fuel: nat)
      requires parent < |s.cells| && child < |s.cells|
    {
      Evolves(s, t) && (o.Normal? ==> o.v == Undefined) &&
      (fuel >= 2 && (cb.None? || cb.value.User?) && Unobserved(s.cells[child]) ==>
         var r := CallCb(cb, s.cells[parent].value);
         (r.Returned? && !IsPromise(r.v, |s.cells|) ==> SettledIn(s, t, child, Fulfilled, r.v, o)) &&
         (r.Threw? && !IsPromise(r.e, |s.cells|) && rej == RejectOf(child) ==> SettledIn(s, t, child, Rejected, r.e, o)) &&
         (r.Threw? && rej.User? ==>
            t == s && o == (match user(rej.k, r.e) case Returned(_) => Normal(Undefined) case Threw(e2) => Raise(e2)))) &&
      (fuel >= 2 && EntryLands(s.cells, s.aggs, Settle(parent, child, cb, rej), Undefined, fuel).Some? ==>
         Landed(t.cells, EntryLands(s.cells, s.aggs, Settle(parent, child, cb, rej), Undefined, fuel).value))
    }

    lemma {:induction false} RunSettleHolds(s: St, parent: nat, child: nat, cb: Option<Fn>, rej: Fn, fuel: nat)
      requires parent < |s.cells| && child < |s.cells|
      ensures var r := Exec(s, RunSettleCall(parent, child, cb, rej), fuel); RunSettleRan(s, r.s, r.o, parent, child, cb, rej, fuel)
      decreases fuel, 2
    {
      if fuel == 0 {
        EvolvesRefl(s);
      } else {
        TrySettleHolds(s, parent, child, cb, fuel);
        RunSettleRest(s, parent, child, cb, rej, fuel, Exec(s, TrySettleCall(parent, child, cb), fuel));
      }
    }

    /** `RunSettleHolds` once the `try` block has run, to `r1`. */
    lemma {:induction false} RunSettleRest(s: St, parent: nat, child: nat, cb: Option<Fn>, rej: Fn, fuel: nat, r1: Run)
      requires parent < |s.cells| && child < |s.cells| && fuel > 0
      requires r1 == Exec(s, TrySettleCall(parent, child, cb), fuel)
      requires TrySettleRan(s, r1.s, r1.o, parent, child, cb, fuel)
      ensures var r := Exec(s, RunSettleCall(parent, child, cb, rej), fuel); RunSettleRan(s, r.s, r.o, parent, child, cb, rej, fuel)
      decreases fuel, 1
    {
      if r1.o.Raise? {
        ApplyHolds(r1.s, rej, r1.o.e, fuel - 1);
        var r2 := Exec(r1.s, ApplyCall(rej, r1.o.e), fuel - 1);
        RunSettleJoin(s, parent, child, cb, rej, fuel, r1.s, r1.o, r2.s, r2.o);
      } else {
        RunSettleJoin(s, parent, child, cb, rej, fuel, r1.s, r1.o, r1.s, r1.o);
      }
    }

    /** The `try` block of `settle` (`m`, `o1` after it) and, when that
        throws, `rej` (`t`, `o2` after it) together run as `RunSettleRan`
        says. */
    lemma {:induction false} RunSettleJoin(s: St, parent: nat, child: nat, cb: Option<Fn>, rej: Fn, fuel: nat,
                                           m: St, o1: Outcome, t: St, o2: Outcome)
      requires parent < |s.cells| && child < |s.cells| && fuel > 0
      requires TrySettleRan(s, m, o1, parent, child, cb, fuel)
      requires o1.Normal? ==> t == m
      requires o1.Raise? ==> ApplyRan(m, t, o2, rej, o1.e, fuel - 1)
      ensures RunSettleRan(s, t, if o1.Normal? || o2.Normal? then Normal(Undefined) else o2, parent, child, cb, rej, fuel)
    {
      if o1.Raise? {
        EvolvesTrans(s, m, t);
        var landing := EntryLands(s.cells, s.aggs, Settle(parent, child, cb, rej), Undefined, fuel);
        if fuel >= 2 && landing.Some? {
          if (cb.None? || cb.value.User?) && CallCb(cb, s.cells[parent].value).Threw? {
            // `cb` threw before anything changed: the exception goes to `rej`
            assert landing == Lands(m.cells, m.aggs, rej, o1.e, fuel - 1);
          } else {
            LandedStays(m.cells, t.cells, landing.value);
          }
        }
      }
    }

    /** The `settle` closure of `then` and `catch`: call `cb` on the parent's
        current value and resolve the child with the result; if `cb` or that
        `resolve` throws, hand the exception to `rej` (the child's `reject`,
        or the errback of the global build). */
    method RunSettle(parent: nat, child: nat, cb: Option<Fn>, rej: Fn, fuel: nat) returns (o: Outcome)
      requires parent < |cells| && child < |cells|
      modifies this
      ensures Run(St(cells, aggs, log, reports), o) == Exec(St(old(cells), old(aggs), old(log), old(reports)), RunSettleCall(parent, child, cb, rej), fuel)
      ensures RunSettleRan(St(old(cells), old(aggs), old(log), old(reports)), St(cells, aggs, log, reports), o, parent, child, cb, rej, fuel)
      decreases fuel, 2
    {
      RunSettleHolds(St(cells, aggs, log, reports), parent, child, cb, rej, fuel);
      if fuel == 0 {
        return Raise(Error(StackOverflow));
      }
      ghost var s0 := St(cells, aggs, log, reports);
      var r := TrySettle(parent, child, cb, fuel);
      if r.Normal? {
        RunSettleSeq(s0, parent, child, cb, rej, fuel, St(cells, aggs, log, reports), r, St(cells, aggs, log, reports), r);
        return Normal(Undefined);
      }
      ghost var s1 := St(cells, aggs, log, reports);
      o := Apply(rej, r.e, fuel - 1);
      RunSettleSeq(s0, parent, child, cb, rej, fuel, s1, r, St(cells, aggs, log, reports), o);
      if o.Normal? {
        o := Normal(Undefined);
      }
    }

    /** `RunSettle`'s two calls in sequence. */
    lemma RunSettleSeq(s: St, parent: nat, child: nat, cb: Option<Fn>, rej: Fn, fuel: nat, s1: St, r: Outcome, s2: St, o2: Outcome)
      requires parent < |s.cells| && child < |s.cells| && fuel > 0
      requires Run(s1, r) == Exec(s, TrySettleCall(parent, child, cb), fuel)
      requires r.Raise? ==> Run(s2, o2) == Exec(s1, ApplyCall(rej, r.e), fuel - 1)
      ensures Exec(s, RunSettleCall(parent, child, cb, rej), fuel) ==
        if r.Normal? then Run(s1, Normal(Undefined))
        else Run(s2, if o2.Normal? then Normal(Undefined) else o2)
    {
    }

    /** What the `try` block of `settle`, run from `s`, guarantees of the
        state `t` it leaves and its outcome `o`: a host callback that throws
        changes nothing; its result settles an unobserved child; and where
        the callback or the child's `resolve` lands, it stays. */
    ghost predicate TrySettleRan(s: St, t: St, o: Outcome, parent: nat, child: nat, cb: Option<Fn>, fuel: nat)
      requires parent < |s.cells| && child < |s.cells| && fuel > 0
    {
      Evolves(s, t) && (o.Normal? ==> o.v == Undefined) &&
      (fuel >= 2 && (cb.None? || cb.value.User?) ==>
         var r := CallCb(cb, s.cells[parent].value);
         (r.Threw? ==> o == Raise(r.e) && t == s) &&
         (r.Returned? && Unobserved(s.cells[child]) && !IsPromise(r.v, |s.cells|) ==>
            SettledIn(s, t, child, Fulfilled, r.v, o)) &&
         // a host callback's result goes to the child's `resolve`
         (r.Returned? && Lands(s.cells, s.aggs, ResolveOf(child), r.v, fuel).Some? ==>
            Landed(t.cells, Lands(s.cells, s.aggs, ResolveOf(child), r.v, fuel).value))) &&
      (fuel >= 2 && cb.Some? && !cb.value.User? && Lands(s.cells, s.aggs, cb.value, s.cells[parent].value, fuel - 1).Some? ==>
         Landed(t.cells, Lands(s.cells, s.aggs, cb.value, s.cells[parent].value, fuel - 1).value))
    }

    lemma {:induction false} TrySettleHolds(s: St, parent: nat, child: nat, cb: Option<Fn>, fuel: nat)
      requires parent < |s.cells| && child < |s.cells| && fuel > 0
      ensures var r := Exec(s, TrySettleCall(parent, child, cb), fuel); TrySettleRan(s, r.s, r.o, parent, child, cb, fuel)
      decreases fuel, 1
    {
      var pv := s.cells[parent].value;
      if cb.Some? {
        ApplyHolds(s, cb.value, pv, fuel - 1);
        var r1 := Exec(s, ApplyCall(cb.value, pv), fuel - 1);
        TrySettleRest(s, parent, child, cb, fuel, r1);
      } else {
        EvolvesRefl(s);
        TrySettleRest(s, parent, child, cb, fuel, Run(s, if policy.optionalCb then Normal(pv) else Raise(Error(NotAFunction))));
      }
    }

    /** `TrySettleHolds` once the callback has run, to `r1`. */
    lemma {:induction false} TrySettleRest(s: St, parent: nat, child: nat, cb: Option<Fn>, fuel: nat, r1: Run)
      requires parent < |s.cells| && child < |s.cells| && fuel > 0
      requires cb.None? ==> r1 == Run(s, if policy.optionalCb then Normal(s.cells[parent].value) else Raise(Error(NotAFunction)))
      requires cb.Some? ==> r1 == Exec(s, ApplyCall(cb.value, s.cells[parent].value), fuel - 1)
      requires cb.Some? ==> ApplyRan(s, r1.s, r1.o, cb.value, s.cells[parent].value, fuel - 1)
      requires Evolves(s, r1.s)
      ensures var r := Exec(s, TrySettleCall(parent, child, cb), fuel); TrySettleRan(s, r.s, r.o, parent, child, cb, fuel)
      decreases fuel, 0
    {
      if r1.o.Normal? {
        ResolveHolds(r1.s, child, Fulfilled, r1.o.v, fuel - 1);
        var r2 := Exec(r1.s, ResolveCall(child, Fulfilled, r1.o.v), fuel - 1);
        TrySettleJoin(s, parent, child, cb, fuel, r1.s, r1.o, r2.s, r2.o);
      } else {
        TrySettleJoin(s, parent, child, cb, fuel, r1.s, r1.o, r1.s, r1.o);
      }
    }

    /** The callback of `settle` (`m`, `o1` after it) and, when it returns,
        the child's `resolve` (`t`, `o2` after it) together run as
        `TrySettleRan` says. */
    lemma {:induction false} TrySettleJoin(s: St, parent: nat, child: nat, cb: Option<Fn>, fuel: nat,
                                           m: St, o1: Outcome, t: St, o2: Outcome)
      requires parent < |s.cells| && child < |s.cells| && fuel > 0
      requires cb.None? ==> m == s && o1 == (if policy.optionalCb then Normal(s.cells[parent].value) else Raise(Error(NotAFunction)))
      requires cb.Some? ==> ApplyRan(s, m, o1, cb.value, s.cells[parent].value, fuel - 1)
      requires Evolves(s, m)
      requires o1.Raise? ==> t == m
      requires o1.Normal? ==> child < |m.cells| && ResolveRan(m, t, o2, child, Fulfilled, o1.v, fuel - 1)
      ensures TrySettleRan(s, t, if o1.Raise? then o1 else if o2.Normal? then Normal(Undefined) else o2, parent, child, cb, fuel)
    {
      var pv := s.cells[parent].value;
      if o1.Normal? {
        EvolvesTrans(s, m, t);
        if fuel >= 2 && cb.Some? && !cb.value.User? && Lands(s.cells, s.aggs, cb.value, pv, fuel - 1).Some? {
          LandedStays(m.cells, t.cells, Lands(s.cells, s.aggs, cb.value, pv, fuel - 1).value);
        }
        if fuel >= 2 && (cb.None? || cb.value.User?) {
          ResolveLands(s, child, Fulfilled, o1.v, fuel, t, o2);
        }
      }
    }

    /** The `try` block of `settle`: `resolve(cb(self.v))`. */
    method TrySettle(parent: nat, child: nat, cb: Option<Fn>, fuel: nat) returns (o: Outcome)
      requires parent < |cells| && child < |cells| && fuel > 0
      modifies this
      ensures Run(St(cells, aggs, log, reports), o) == Exec(St(old(cells), old(aggs), old(log), old(reports)), TrySettleCall(parent, child, cb), fuel)
      ensures TrySettleRan(St(old(cells), old(aggs), old(log), old(reports)), St(cells, aggs, log, reports), o, parent, child, cb, fuel)
      decreases fuel, 1
    {
      TrySettleHolds(St(cells, aggs, log, reports), parent, child, cb, fuel);
      var pv := cells[parent].value;
      var r1: Outcome;
      match cb {
        case None =>
          r1 := if policy.optionalCb then Normal(pv) else Raise(Error(NotAFunction));
        case Some(f) =>
          r1 := Apply(f, pv, fuel - 1);
      }
      if r1.Raise? {
        return r1;
      }
      o := Resolve(child, r1.v, fuel - 1);
      if o.Normal? {
        o := Normal(Undefined);
      }
    }

    /** What `resolve` (`st` fulfilled) or `reject` (`st` rejected) of cell
        `id` with `v`, run from `s`, guarantees of the state `t` it leaves
        and its outcome `o`: nothing once the cell is cleared; a plain value
        is a `transist`; a pending thenable is followed. */
    ghost predicate ResolveRan(s: St, t: St, o: Outcome, id: nat, st: State, v: Val, fuel: nat)
      requires id < |s.cells|
    {
      Evolves(s, t) && (o.Normal? ==> o.v == Undefined) &&
      (s.cells[id].cleared ==> o == Normal(Undefined) && t == s) &&
      (!s.cells[id].cleared && !IsPromise(v, |s.cells|) ==> TransistRan(s, t, o, id, v, st, fuel)) &&
      (!s.cells[id].cleared && IsPromise(v, |s.cells|) && s.cells[v.id].state == Pending &&
       !(policy.syncBan && s.cells[v.id].sync) ==>
         Followed(s, t, id, v.id, if st == Fulfilled then ResolveOf(id) else RejectOf(id), o))
    }

    lemma {:induction false} ResolveHolds(s: St, id: nat, st: State, v: Val, fuel: nat)
      requires id < |s.cells| && st != Pending
      ensures var r := Exec(s, ResolveCall(id, st, v), fuel); ResolveRan(s, r.s, r.o, id, st, v, fuel)
      decreases fuel, 7
    {
      if s.cells[id].cleared {
        EvolvesRefl(s);
      } else if IsPromise(v, |s.cells|) {
        FollowHolds(s, id, v.id, if st == Fulfilled then ResolveOf(id) else RejectOf(id), fuel);
      } else {
        TransistHolds(s, id, v, st, fuel);
      }
    }

    /** The `resolve` closure of cell `id`. */
    method Resolve(id: nat, v: Val, fuel: nat) returns (o: Outcome)
      requires id < |cells|
      modifies this
      ensures Run(St(cells, aggs, log, reports), o) == Exec(St(old(cells), old(aggs), old(log), old(reports)), ResolveCall(id, Fulfilled, v), fuel)
      ensures ResolveRan(St(old(cells), old(aggs), old(log), old(reports)), St(cells, aggs, log, reports), o, id, Fulfilled, v, fuel)
      decreases fuel, 7
    {
      ResolveHolds(St(cells, aggs, log, reports), id, Fulfilled, v, fuel);
      if cells[id].cleared {
        o := Normal(Undefined);
      } else if IsPromise(v, |cells|) {
        o := Follow(id, v.id, ResolveOf(id), fuel);
      } else {
        o := Transist(id, v, Fulfilled, fuel);
      }
    }

    /** The `reject` closure of cell `id`. */
    method Reject(id: nat, v: Val, fuel: nat) returns (o: Outcome)
      requires id < |cells|
      modifies this
      ensures Run(St(cells, aggs, log, reports), o) == Exec(St(old(cells), old(aggs), old(log), old(reports)), ResolveCall(id, Rejected, v), fuel)
      ensures ResolveRan(St(old(cells), old(aggs), old(log), old(reports)), St(cells, aggs, log, reports), o, id, Rejected, v, fuel)
      decreases fuel, 7
    {
      ResolveHolds(St(cells, aggs, log, reports), id, Rejected, v, fuel);
      if cells[id].cleared {
        o := Normal(Undefined);
      } else if IsPromise(v, |cells|) {
        o := Follow(id, v.id, RejectOf(id), fuel);
      } else {
        o := Transist(id, v, Rejected, fuel);
      }
    }

    /** A new promise (id `|s.cells|`) that its setup rejected with `e`
        while nobody observed it, from `s` to `t`: index.js and the global
        build throw `e` out of the constructor (with `c` not cleared), the
        amd build keeps the rejection and schedules a report. */
    ghost predicate NewRejected(s: St, t: St, e: Val, o: Outcome) {
      var c := |s.cells|;
      (policy.fatalUnhandled && !policy.catchSetup ==>
         o == Raise(e) &&
         t == St(s.cells + [AfterTransist(FreshCell(), Rejected, e, policy)], s.aggs, s.log + [Transisted(c, Rejected, e)], s.reports)) &&
      (!policy.fatalUnhandled ==>
         o == Normal(Prom(c)) &&
         t == St(s.cells + [AfterTransist(FreshCell(), Rejected, e, policy).(setupReturned := true)],
                 s.aggs, s.log + [Transisted(c, Rejected, e)], s.reports + [c]))
    }

    /** A new promise (id `|s.cells|`) that its setup fulfilled with `v`,
        from `s` to `t`. */
    ghost predicate NewFulfilled(s: St, t: St, v: Val, o: Outcome) {
      o == Normal(Prom(|s.cells|)) &&
      t == St(s.cells + [AfterTransist(FreshCell(), Fulfilled, v, policy).(setupReturned := true)],
              s.aggs, s.log + [Transisted(|s.cells|, Fulfilled, v)], s.reports)
    }

    /** The errback `k` called with `x` inside the setup of a new promise
        (id `|s.cells|`), from `s` to `t`: the new promise's own `reject`
        is not called, so it stays pending; an exception of the errback
        leaves the constructor. */
    ghost predicate ErrbackRan(s: St, t: St, k: nat, x: Val, o: Outcome) {
      match user(k, x)
      case Returned(_) =>
        o == Normal(Prom(|s.cells|)) && t == s.(cells := s.cells + [FreshCell().(setupReturned := true)])
      case Threw(e2) =>
        !policy.catchSetup ==> o == Raise(e2) && t == s.(cells := s.cells + [FreshCell()])
    }

    /** The function `then` hands rejections to: the errback when the
        global build is given one, the child's `reject` otherwise. */
    function ThenRej(eb: Option<Fn>, child: nat): (f: Fn) {
      if policy.errback && eb.Some? then eb.value else RejectOf(child)
    }

    /** What the end of the constructor of cell `id`, whose setup ended
        with `o0`, run from `s`, guarantees of the state `t` it leaves and
        its outcome `o`. */
    ghost predicate FinishRan(s: St, t: St, o: Outcome, id: nat, o0: Outcome, fuel: nat)
      requires id < |s.cells|
    {
      Evolves(s, t) && (o.Normal? ==> o.v == Prom(id)) &&
      (o0.Normal? ==>
         o == Normal(Prom(id)) && t == s.(cells := s.cells[id := s.cells[id].(setupReturned := true)])) &&
      (o0.Raise? && !policy.catchSetup ==> o == o0 && t == s) &&
      (o0.Raise? && policy.catchSetup && fuel > 0 && s.cells[id].cleared ==>
         o == Normal(Prom(id)) && t == s.(cells := s.cells[id := s.cells[id].(setupReturned := true)])) &&
      (o0.Raise? && policy.catchSetup && !policy.fatalUnhandled && fuel > 0 && Unobserved(s.cells[id]) &&
       !IsPromise(o0.e, |s.cells|) ==>
         o == Normal(Prom(id)) &&
         t == St(s.cells[id := AfterTransist(s.cells[id], Rejected, o0.e, policy).(setupReturned := true)],
                 s.aggs, s.log + [Transisted(id, Rejected, o0.e)], s.reports + [id]))
    }

    lemma {:induction false} FinishHolds(s: St, id: nat, o0: Outcome, fuel: nat)
      requires id < |s.cells|
      ensures var r := Exec(s, FinishCall(id, o0), fuel); FinishRan(s, r.s, r.o, id, o0, fuel)
      decreases fuel, 3
    {
      if o0.Raise? && policy.catchSetup && fuel > 0 {
        ResolveHolds(s, id, Rejected, o0.e, fuel - 1);
        var r := Exec(s, ResolveCall(id, Rejected, o0.e), fuel - 1);
        FinishJoin(s, id, o0, fuel, r.s, r.o);
      } else if o0.Normal? {
        FinishJoin(s, id, o0, fuel, s, Normal(Undefined));
      } else {
        EvolvesRefl(s);
      }
    }

    /** The end of the constructor after the amd build's `reject` of the
        setup's exception (or after a normal return, from `s` itself) to
        `m`, `o1`, runs as `FinishRan` says. */
    lemma {:induction false} FinishJoin(s: St, id: nat, o0: Outcome, fuel: nat, m: St, o1: Outcome)
      requires id < |s.cells| && id < |m.cells|
      requires o0.Raise? ==> policy.catchSetup && fuel > 0 && ResolveRan(s, m, o1, id, Rejected, o0.e, fuel - 1)
      requires o0.Normal? ==> m == s && o1 == Normal(Undefined)
      ensures FinishRan(s, if o1.Raise? then m else m.(cells := m.cells[id := m.cells[id].(setupReturned := true)]),
                        if o1.Raise? then o1 else Normal(Prom(id)), id, o0, fuel)
    {
      if o0.Normal? {
        EvolvesRefl(s);
      }
      if o1.Normal? {
        var y := m.cells[id].(setupReturned := true);
        Retouched(m, id, y);
        EvolvesTrans(s, m, m.(cells := m.cells[id := y]));
      }
    }

    /** The end of `new SyncPromise(fn)` once `fn` has returned (`o0`
        normal) or thrown: the amd build sends the exception to `reject`,
        the others let it propagate; after a normal return `syncResolved`
        becomes false. */
    method Finish(id: nat, o0: Outcome, fuel: nat) returns (o: Outcome)
      requires id < |cells|
      modifies this
      ensures Run(St(cells, aggs, log, reports), o) == Exec(St(old(cells), old(aggs), old(log), old(reports)), FinishCall(id, o0), fuel)
      ensures FinishRan(St(old(cells), old(aggs), old(log), old(reports)), St(cells, aggs, log, reports), o, id, o0, fuel)
      decreases fuel, 3
    {
      FinishHolds(St(cells, aggs, log, reports), id, o0, fuel);
      if o0.Raise? {
        if !policy.catchSetup {
          return o0;
        }
        if fuel == 0 {
          return Raise(Error(StackOverflow));
        }
        var r := Reject(id, o0.e, fuel - 1);
        if r.Raise? {
          return r;
        }
      }
      SetupReturned(id);
      o := Normal(Prom(id));
    }

    /** What the setup function `then` passes to the constructor of its
        child, run from `s`, guarantees of the state `t` it leaves and its
        outcome `o`: a pending parent gets one entry on each list; a
        fulfilled parent runs `settle` at once; a rejected parent (marked
        handled in the amd build) hands its reason to `rej` at once. */
    ghost predicate ThenSetupRan(s: St, t: St, o: Outcome, p: nat, child: nat, cb: Option<Fn>, rej: Fn, fuel: nat)
      requires p < |s.cells| && child < |s.cells|
    {
      Evolves(s, t) &&
      (s.cells[p].state == Pending ==>
         o == Normal(Undefined) &&
         t == s.(cells := s.cells[p := s.cells[p].(ful := s.cells[p].ful + [Settle(p, child, cb, rej)],
                                                   rej := s.cells[p].rej + [Call(rej)])])) &&
      (s.cells[p].state == Fulfilled ==> RunSettleRan(s, t, o, p, child, cb, rej, fuel)) &&
      (s.cells[p].state == Rejected && fuel >= 2 && Unobserved(s.cells[child]) ==>
         var s0 := if policy.trackHandled then s.(cells := s.cells[p := s.cells[p].(handled := true)]) else s;
         (rej == RejectOf(child) && !IsPromise(s.cells[p].value, |s.cells|) ==>
            SettledIn(s0, t, child, Rejected, s.cells[p].value, o)) &&
         (rej.User? ==>
            t == s0 && o == (match user(rej.k, s.cells[p].value) case Returned(_) => Normal(Undefined) case Threw(e2) => Raise(e2))))
    }

    lemma {:induction false} ThenSetupHolds(s: St, p: nat, child: nat, cb: Option<Fn>, rej: Fn, fuel: nat)
      requires p < |s.cells| && child < |s.cells| && p != child
      ensures var r := Exec(s, ThenSetupCall(p, child, cb, rej), fuel); ThenSetupRan(s, r.s, r.o, p, child, cb, rej, fuel)
      decreases fuel, 3
    {
      var P := s.cells[p];
      if P.state == Fulfilled {
        ThenSetupFulfilled(s, p, child, cb, rej, fuel);
      } else if P.state == Rejected {
        ThenSetupRejected(s, p, child, cb, rej, fuel);
      } else {
        Retouched(s, p, P.(ful := P.ful + [Settle(p, child, cb, rej)], rej := P.rej + [Call(rej)]));
      }
    }

    /** `ThenSetupHolds` for a fulfilled parent. */
    lemma {:induction false} ThenSetupFulfilled(s: St, p: nat, child: nat, cb: Option<Fn>, rej: Fn, fuel: nat)
      requires p < |s.cells| && child < |s.cells| && p != child && s.cells[p].state == Fulfilled
      ensures var r := Exec(s, ThenSetupCall(p, child, cb, rej), fuel); ThenSetupRan(s, r.s, r.o, p, child, cb, rej, fuel)
      decreases fuel, 3, 0
    {
      RunSettleHolds(s, p, child, cb, rej, fuel);
    }

    /** `ThenSetupHolds` for a rejected parent. */
    lemma {:induction false} ThenSetupRejected(s: St, p: nat, child: nat, cb: Option<Fn>, rej: Fn, fuel: nat)
      requires p < |s.cells| && child < |s.cells| && p != child && s.cells[p].state == Rejected
      ensures var r := Exec(s, ThenSetupCall(p, child, cb, rej), fuel); ThenSetupRan(s, r.s, r.o, p, child, cb, rej, fuel)
      decreases fuel, 3, 0
    {
      var P := s.cells[p];
      var s1 := if policy.trackHandled then s.(cells := s.cells[p := P.(handled := true)]) else s;
      ApplyHolds(s1, rej, P.value, fuel);
      var r := Exec(s1, ApplyCall(rej, P.value), fuel);
      ThenSetupRejects(s, p, child, cb, rej, fuel, r.s, r.o);
    }

    /** The setup of `then` on a rejected parent: `rej` called with the
        reason (to `m`, `o1`) runs as `ThenSetupRan` says. */
    lemma {:induction false} ThenSetupRejects(s: St, p: nat, child: nat, cb: Option<Fn>, rej: Fn, fuel: nat, m: St, o1: Outcome)
      requires p < |s.cells| && child < |s.cells| && p != child && s.cells[p].state == Rejected
      requires var P := s.cells[p];
        ApplyRan(if policy.trackHandled then s.(cells := s.cells[p := P.(handled := true)]) else s, m, o1, rej, P.value, fuel)
      ensures ThenSetupRan(s, m, if o1.Normal? then Normal(Undefined) else o1, p, child, cb, rej, fuel)
    {
      var P := s.cells[p];
      var s1 := if policy.trackHandled then s.(cells := s.cells[p := P.(handled := true)]) else s;
      if policy.trackHandled {
        Retouched(s, p, P.(handled := true));
      } else {
        EvolvesRefl(s);
      }
      EvolvesTrans(s, s1, m);
    }

    /** The setup function `then` passes to the constructor of its child. */
    method ThenSetup(p: nat, child: nat, cb: Option<Fn>, rej: Fn, fuel: nat) returns (o: Outcome)
      requires p < |cells| && child < |cells| && p != child
      modifies this
      ensures Run(St(cells, aggs, log, reports), o) == Exec(St(old(cells), old(aggs), old(log), old(reports)), ThenSetupCall(p, child, cb, rej), fuel)
      ensures ThenSetupRan(St(old(cells), old(aggs), old(log), old(reports)), St(cells, aggs, log, reports), o, p, child, cb, rej, fuel)
      decreases fuel, 3
    {
      ThenSetupHolds(St(cells, aggs, log, reports), p, child, cb, rej, fuel);
      var st := cells[p].state;
      if st == Fulfilled {
        o := RunSettle(p, child, cb, rej, fuel);
      } else if st == Rejected {
        if policy.trackHandled {
          cells := cells[p := cells[p].(handled := true)];
        }
        o := Apply(rej, cells[p].value, fuel);
        if o.Normal? {
          o := Normal(Undefined);
        }
      } else {
        cells := cells[p := cells[p].(ful := cells[p].ful + [Settle(p, child, cb, rej)],
                                      rej := cells[p].rej + [Call(rej)])];
        o := Normal(Undefined);
      }
    }

    /** What `then(cb, errBack)` on cell `p`, run from `s`, guarantees of
        the state `t` it leaves and its outcome `o`: refused on a
        synchronously resolved promise where the build bans it; otherwise a
        new promise, which a pending parent observes, and which a host
        callback's result or exception settles at once when the parent is
        already settled. */
    ghost predicate ThenRan(s: St, t: St, o: Outcome, p: nat, cb: Option<Fn>, eb: Option<Fn>, fuel: nat)
      requires p < |s.cells|
    {
      Evolves(s, t) &&
      (o.Normal? ==> o.v == Prom(|s.cells|) && |s.cells| < |t.cells|) &&
      (policy.syncBan && s.cells[p].sync ==> o == Raise(Error(ThenOnSync)) && t == s) &&
      (!(policy.syncBan && s.cells[p].sync) && s.cells[p].state == Pending ==>
         var c, P := |s.cells|, s.cells[p];
         o == Normal(Prom(c)) &&
         t == s.(cells := s.cells[p := P.(ful := P.ful + [Settle(p, c, cb, ThenRej(eb, c))],
                                          rej := P.rej + [Call(ThenRej(eb, c))])] +
                          [FreshCell().(setupReturned := true)])) &&
      (!(policy.syncBan && s.cells[p].sync) && s.cells[p].state == Fulfilled && fuel >= 2 &&
       (cb.None? || cb.value.User?) ==>
         var c, r := |s.cells|, CallCb(cb, s.cells[p].value);
         (r.Returned? && !IsPromise(r.v, c + 1) ==> NewFulfilled(s, t, r.v, o)) &&
         (r.Threw? && !IsPromise(r.e, c + 1) && !(policy.errback && eb.Some?) ==> NewRejected(s, t, r.e, o)) &&
         (r.Threw? && policy.errback && eb.Some? && eb.value.User? ==> ErrbackRan(s, t, eb.value.k, r.e, o))) &&
      (!(policy.syncBan && s.cells[p].sync) && s.cells[p].state == Rejected && fuel >= 2 ==>
         var c, pv := |s.cells|, s.cells[p].value;
         var s0 := if policy.trackHandled then s.(cells := s.cells[p := s.cells[p].(handled := true)]) else s;
         (!(policy.errback && eb.Some?) && !IsPromise(pv, c + 1) ==> NewRejected(s0, t, pv, o)) &&
         (policy.errback && eb.Some? && eb.value.User? ==> ErrbackRan(s0, t, eb.value.k, pv, o)))
    }

    lemma {:induction false} ThenHolds(s: St, p: nat, cb: Option<Fn>, eb: Option<Fn>, fuel: nat)
      requires p < |s.cells|
      ensures var r := Exec(s, ThenCall(p, cb, eb), fuel); ThenRan(s, r.s, r.o, p, cb, eb, fuel)
      decreases fuel, 4
    {
      if policy.syncBan && s.cells[p].sync {
        EvolvesRefl(s);
      } else {
        var child := |s.cells|;
        var s1 := s.(cells := s.cells + [FreshCell()]);
        Allocated(s);
        ThenSetupHolds(s1, p, child, cb, ThenRej(eb, child), fuel);
        var r := Exec(s1, ThenSetupCall(p, child, cb, ThenRej(eb, child)), fuel);
        ThenRest(s, p, cb, eb, fuel, r.s, r.o);
      }
    }

    /** `ThenHolds` once the setup of the child has run, to `m`, `o0`. */
    lemma {:induction false} ThenRest(s: St, p: nat, cb: Option<Fn>, eb: Option<Fn>, fuel: nat, m: St, o0: Outcome)
      requires p < |s.cells| && !(policy.syncBan && s.cells[p].sync)
      requires ThenSetupRan(s.(cells := s.cells + [FreshCell()]), m, o0, p, |s.cells|, cb, ThenRej(eb, |s.cells|), fuel)
      ensures |s.cells| < |m.cells|
      ensures var f := Exec(m, FinishCall(|s.cells|, o0), fuel); ThenRan(s, f.s, f.o, p, cb, eb, fuel)
      decreases fuel, 4, 0
    {
      var child := |s.cells|;
      Allocated(s);
      FinishHolds(m, child, o0, fuel);
      var f := Exec(m, FinishCall(child, o0), fuel);
      EvolvesTrans(s, s.(cells := s.cells + [FreshCell()]), m);
      EvolvesTrans(s, m, f.s);
      ThenJoin(s, p, cb, eb, fuel, m, o0, f.s, f.o);
    }

    /** The setup and the end of the constructor of the child of `then`
        (`m`, `o0` after the setup) together run as `ThenRan` says. */
    lemma {:induction false} ThenJoin(s: St, p: nat, cb: Option<Fn>, eb: Option<Fn>, fuel: nat, m: St, o0: Outcome, t: St, o: Outcome)
      requires p < |s.cells| && !(policy.syncBan && s.cells[p].sync) && |s.cells| < |m.cells|
      requires ThenSetupRan(s.(cells := s.cells + [FreshCell()]), m, o0, p, |s.cells|, cb, ThenRej(eb, |s.cells|), fuel)
      requires FinishRan(m, t, o, |s.cells|, o0, fuel)
      requires Evolves(s, t) && (o.Normal? ==> o.v == Prom(|s.cells|) && |s.cells| < |t.cells|)
      ensures ThenRan(s, t, o, p, cb, eb, fuel)
    {
      var P := s.cells[p];
      if P.state == Pending {
        var c := |s.cells|;
        var s1 := s.(cells := s.cells + [FreshCell()]);
        assert s1.cells[p := P.(ful := P.ful + [Settle(p, c, cb, ThenRej(eb, c))], rej := P.rej + [Call(ThenRej(eb, c))])]
                 [c := FreshCell().(setupReturned := true)]
            == s.cells[p := P.(ful := P.ful + [Settle(p, c, cb, ThenRej(eb, c))], rej := P.rej + [Call(ThenRej(eb, c))])] +
               [FreshCell().(setupReturned := true)];
      } else if P.state == Fulfilled {
        if fuel >= 2 && (cb.None? || cb.value.User?) {
          ThenFulfilledJoin(s, p, cb, eb, fuel, m, o0, t, o);
        }
      } else if fuel >= 2 {
        ThenRejectedJoin(s, p, cb, eb, fuel, m, o0, t, o);
      }
    }

    /** `ThenJoin` for a fulfilled parent and a host callback. */
    lemma {:induction false} ThenFulfilledJoin(s: St, p: nat, cb: Option<Fn>, eb: Option<Fn>, fuel: nat, m: St, o0: Outcome, t: St, o: Outcome)
      requires p < |s.cells| && s.cells[p].state == Fulfilled && fuel >= 2 && (cb.None? || cb.value.User?) && |s.cells| < |m.cells|
      requires RunSettleRan(s.(cells := s.cells + [FreshCell()]), m, o0, p, |s.cells|, cb, ThenRej(eb, |s.cells|), fuel)
      requires FinishRan(m, t, o, |s.cells|, o0, fuel)
      ensures var c, r := |s.cells|, CallCb(cb, s.cells[p].value);
        (r.Returned? && !IsPromise(r.v, c + 1) ==> NewFulfilled(s, t, r.v, o)) &&
        (r.Threw? && !IsPromise(r.e, c + 1) && !(policy.errback && eb.Some?) ==> NewRejected(s, t, r.e, o)) &&
        (r.Threw? && policy.errback && eb.Some? && eb.value.User? ==> ErrbackRan(s, t, eb.value.k, r.e, o))
    {
      var c, r := |s.cells|, CallCb(cb, s.cells[p].value);
      var s1 := s.(cells := s.cells + [FreshCell()]);
      assert Unobserved(s1.cells[c]);
      if r.Returned? && !IsPromise(r.v, c + 1) {
        var X := AfterTransist(FreshCell(), Fulfilled, r.v, policy);
        assert s1.cells[c := X][c := X.(setupReturned := true)] == s.cells + [X.(setupReturned := true)];
      }
      if r.Threw? && !IsPromise(r.e, c + 1) && !(policy.errback && eb.Some?) {
        var X := AfterTransist(FreshCell(), Rejected, r.e, policy);
        assert s1.cells[c := X] == s.cells + [X];
        assert s1.cells[c := X][c := X.(setupReturned := true)] == s.cells + [X.(setupReturned := true)];
      }
      if r.Threw? && policy.errback && eb.Some? && eb.value.User? {
        assert s1.cells[c := FreshCell().(setupReturned := true)] == s.cells + [FreshCell().(setupReturned := true)];
      }
    }

    /** `ThenJoin` for a rejected parent. */
    lemma {:induction false} ThenRejectedJoin(s: St, p: nat, cb: Option<Fn>, eb: Option<Fn>, fuel: nat, m: St, o0: Outcome, t: St, o: Outcome)
      requires p < |s.cells| && s.cells[p].state == Rejected && fuel >= 2 && |s.cells| < |m.cells|
      requires ThenSetupRan(s.(cells := s.cells + [FreshCell()]), m, o0, p, |s.cells|, cb, ThenRej(eb, |s.cells|), fuel)
      requires FinishRan(m, t, o, |s.cells|, o0, fuel)
      ensures var c, pv := |s.cells|, s.cells[p].value;
        var s0 := if policy.trackHandled then s.(cells := s.cells[p := s.cells[p].(handled := true)]) else s;
        (!(policy.errback && eb.Some?) && !IsPromise(pv, c + 1) ==> NewRejected(s0, t, pv, o)) &&
        (policy.errback && eb.Some? && eb.value.User? ==> ErrbackRan(s0, t, eb.value.k, pv, o))
    {
      var c, P := |s.cells|, s.cells[p];
      var s1 := s.(cells := s.cells + [FreshCell()]);
      assert Unobserved(s1.cells[c]);
      var s0 := if policy.trackHandled then s.(cells := s.cells[p := P.(handled := true)]) else s;
      var s2 := if policy.trackHandled then s1.(cells := s1.cells[p := P.(handled := true)]) else s1;
      assert s2.cells == s0.cells + [FreshCell()];
      if !(policy.errback && eb.Some?) && !IsPromise(P.value, c + 1) {
        var X := AfterTransist(FreshCell(), Rejected, P.value, policy);
        assert s2.cells[c := X] == s0.cells + [X];
        assert s2.cells[c := X][c := X.(setupReturned := true)] == s0.cells + [X.(setupReturned := true)];
      }
      if policy.errback && eb.Some? && eb.value.User? {
        assert s2.cells[c := FreshCell().(setupReturned := true)] == s0.cells + [FreshCell().(setupReturned := true)];
      }
    }

    /** `then(cb, errBack)`: refused on a synchronously resolved promise
        where the build bans it; otherwise a new promise whose setup runs
        `settle` at once (fulfilled parent), hands the reason to `rej` at
        once (rejected parent), or appends one entry to each of the parent's
        lists (pending parent). */
    method Then(p: nat, cb: Option<Fn>, eb: Option<Fn>, fuel: nat) returns (o: Outcome)
      requires p < |cells|
      modifies this
      ensures Run(St(cells, aggs, log, reports), o) == Exec(St(old(cells), old(aggs), old(log), old(reports)), ThenCall(p, cb, eb), fuel)
      ensures ThenRan(St(old(cells), old(aggs), old(log), old(reports)), St(cells, aggs, log, reports), o, p, cb, eb, fuel)
      decreases fuel, 4
    {
      ThenHolds(St(cells, aggs, log, reports), p, cb, eb, fuel);
      if policy.syncBan && cells[p].sync {
        return Raise(Error(ThenOnSync));
      }
      var child := NewCell();
      var o0 := ThenSetup(p, child, cb, ThenRej(eb, child), fuel);
      o := Finish(child, o0, fuel);
    }

    /** What the setup function `catch` passes to the constructor of its
        child, run from `s`, guarantees of the state `t` it leaves and its
        outcome `o`. */
    ghost predicate CatchSetupRan(s: St, t: St, o: Outcome, p: nat, child: nat, cb: Fn, fuel: nat)
      requires p < |s.cells| && child < |s.cells|
    {
      Evolves(s, t) &&
      (s.cells[p].state == Pending ==>
         o == Normal(Undefined) &&
         t == s.(cells := s.cells[p := s.cells[p].(ful := s.cells[p].ful + [Call(ResolveOf(child))],
                                                   rej := s.cells[p].rej + [Settle(p, child, Some(cb), RejectOf(child))])])) &&
      (s.cells[p].state == Fulfilled && fuel >= 1 && Unobserved(s.cells[child]) && !IsPromise(s.cells[p].value, |s.cells|) ==>
         SettledIn(s, t, child, Fulfilled, s.cells[p].value, o)) &&
      (s.cells[p].state == Rejected && fuel >= 2 && cb.User? && Unobserved(s.cells[child]) ==>
         var s0 := if policy.trackHandled then s.(cells := s.cells[p := s.cells[p].(handled := true)]) else s;
         var r := user(cb.k, s.cells[p].value);
         (r.Returned? && !IsPromise(r.v, |s.cells|) ==> SettledIn(s0, t, child, Fulfilled, r.v, o)) &&
         (r.Threw? && !IsPromise(r.e, |s.cells|) ==> SettledIn(s0, t, child, Rejected, r.e, o)))
    }

    lemma {:induction false} CatchSetupHolds(s: St, p: nat, child: nat, cb: Fn, fuel: nat)
      requires p < |s.cells| && child < |s.cells| && p != child
      ensures var r := Exec(s, CatchSetupCall(p, child, cb), fuel); CatchSetupRan(s, r.s, r.o, p, child, cb, fuel)
      decreases fuel, 3
    {
      var P := s.cells[p];
      if P.state == Rejected {
        var s1 := if policy.trackHandled then s.(cells := s.cells[p := P.(handled := true)]) else s;
        RunSettleHolds(s1, p, child, Some(cb), RejectOf(child), fuel);
        var r := Exec(s1, RunSettleCall(p, child, Some(cb), RejectOf(child)), fuel);
        CatchSetupRejects(s, p, child, cb, fuel, r.s, r.o);
      } else if P.state == Fulfilled {
        if fuel == 0 {
          EvolvesRefl(s);
        } else {
          ResolveHolds(s, child, Fulfilled, P.value, fuel - 1);
          var r := Exec(s, ResolveCall(child, Fulfilled, P.value), fuel - 1);
          CatchSetupFulfils(s, p, child, cb, fuel, r.s, r.o);
        }
      } else {
        Retouched(s, p, P.(ful := P.ful + [Call(ResolveOf(child))], rej := P.rej + [Settle(p, child, Some(cb), RejectOf(child))]));
      }
    }

    /** The setup of `catch` on a rejected parent: `settle` with `cb` (to
        `m`, `o1`) runs as `CatchSetupRan` says. */
    lemma {:induction false} CatchSetupRejects(s: St, p: nat, child: nat, cb: Fn, fuel: nat, m: St, o1: Outcome)
      requires p < |s.cells| && child < |s.cells| && p != child && s.cells[p].state == Rejected
      requires var P := s.cells[p];
        RunSettleRan(if policy.trackHandled then s.(cells := s.cells[p := P.(handled := true)]) else s,
                     m, o1, p, child, Some(cb), RejectOf(child), fuel)
      ensures CatchSetupRan(s, m, o1, p, child, cb, fuel)
    {
      var P := s.cells[p];
      var s1 := if policy.trackHandled then s.(cells := s.cells[p := P.(handled := true)]) else s;
      if policy.trackHandled {
        Retouched(s, p, P.(handled := true));
      } else {
        EvolvesRefl(s);
      }
      EvolvesTrans(s, s1, m);
    }

    /** The setup of `catch` on a fulfilled parent: the child's `resolve`
        with the value (to `m`, `o1`) runs as `CatchSetupRan` says. */
    lemma {:induction false} CatchSetupFulfils(s: St, p: nat, child: nat, cb: Fn, fuel: nat, m: St, o1: Outcome)
      requires p < |s.cells| && child < |s.cells| && p != child && s.cells[p].state == Fulfilled && fuel > 0
      requires ResolveRan(s, m, o1, child, Fulfilled, s.cells[p].value, fuel - 1)
      ensures CatchSetupRan(s, m, o1, p, child, cb, fuel)
    {
    }

    /** The setup function `catch` passes to the constructor of its child. */
    method CatchSetup(p: nat, child: nat, cb: Fn, fuel: nat) returns (o: Outcome)
      requires p < |cells| && child < |cells| && p != child
      modifies this
      ensures Run(St(cells, aggs, log, reports), o) == Exec(St(old(cells), old(aggs), old(log), old(reports)), CatchSetupCall(p, child, cb), fuel)
      ensures CatchSetupRan(St(old(cells), old(aggs), old(log), old(reports)), St(cells, aggs, log, reports), o, p, child, cb, fuel)
      decreases fuel, 3
    {
      CatchSetupHolds(St(cells, aggs, log, reports), p, child, cb, fuel);
      var st := cells[p].state;
      if st == Rejected {
        if policy.trackHandled {
          cells := cells[p := cells[p].(handled := true)];
        }
        o := RunSettle(p, child, Some(cb), RejectOf(child), fuel);
      } else if st == Fulfilled {
        if fuel == 0 {
          o := Raise(Error(StackOverflow));
        } else {
          o := Resolve(child, cells[p].value, fuel - 1);
        }
      } else {
        cells := cells[p := cells[p].(ful := cells[p].ful + [Call(ResolveOf(child))],
                                      rej := cells[p].rej + [Settle(p, child, Some(cb), RejectOf(child))])];
        o := Normal(Undefined);
      }
    }

    /** What `catch(cb)` on cell `p`, run from `s`, guarantees of the state
        `t` it leaves and its outcome `o`: the mirror of `ThenRan`. */
    ghost predicate CatchRan(s: St, t: St, o: Outcome, p: nat, cb: Fn, fuel: nat)
      requires p < |s.cells|
    {
      Evolves(s, t) &&
      (o.Normal? ==> o.v == Prom(|s.cells|) && |s.cells| < |t.cells|) &&
      (policy.syncBan && s.cells[p].sync ==> o == Raise(Error(CatchOnSync)) && t == s) &&
      (!(policy.syncBan && s.cells[p].sync) && s.cells[p].state == Pending ==>
         var c, P := |s.cells|, s.cells[p];
         o == Normal(Prom(c)) &&
         t == s.(cells := s.cells[p := P.(ful := P.ful + [Call(ResolveOf(c))],
                                          rej := P.rej + [Settle(p, c, Some(cb), RejectOf(c))])] +
                          [FreshCell().(setupReturned := true)])) &&
      (!(policy.syncBan && s.cells[p].sync) && s.cells[p].state == Fulfilled && fuel >= 2 &&
       !IsPromise(s.cells[p].value, |s.cells| + 1) ==>
         NewFulfilled(s, t, s.cells[p].value, o)) &&
      (!(policy.syncBan && s.cells[p].sync) && s.cells[p].state == Rejected && fuel >= 2 && cb.User? ==>
         var c, r := |s.cells|, user(cb.k, s.cells[p].value);
         var s0 := if policy.trackHandled then s.(cells := s.cells[p := s.cells[p].(handled := true)]) else s;
         (r.Returned? && !IsPromise(r.v, c + 1) ==> NewFulfilled(s0, t, r.v, o)) &&
         (r.Threw? && !IsPromise(r.e, c + 1) ==> NewRejected(s0, t, r.e, o)))
    }

    lemma {:induction false} CatchHolds(s: St, p: nat, cb: Fn, fuel: nat)
      requires p < |s.cells|
      ensures var r := Exec(s, CatchCall(p, cb), fuel); CatchRan(s, r.s, r.o, p, cb, fuel)
      decreases fuel, 4
    {
      if policy.syncBan && s.cells[p].sync {
        EvolvesRefl(s);
      } else {
        var child := |s.cells|;
        var s1 := s.(cells := s.cells + [FreshCell()]);
        CatchSetupHolds(s1, p, child, cb, fuel);
        var r := Exec(s1, CatchSetupCall(p, child, cb), fuel);
        CatchRest(s, p, cb, fuel, r.s, r.o);
      }
    }

    /** `CatchHolds` once the setup of the child has run, to `m`, `o0`. */
    lemma {:induction false} CatchRest(s: St, p: nat, cb: Fn, fuel: nat, m: St, o0: Outcome)
      requires p < |s.cells| && !(policy.syncBan && s.cells[p].sync)
      requires CatchSetupRan(s.(cells := s.cells + [FreshCell()]), m, o0, p, |s.cells|, cb, fuel)
      ensures |s.cells| < |m.cells|
      ensures var f := Exec(m, FinishCall(|s.cells|, o0), fuel); CatchRan(s, f.s, f.o, p, cb, fuel)
      decreases fuel, 4, 0
    {
      var child := |s.cells|;
      Allocated(s);
      FinishHolds(m, child, o0, fuel);
      var f := Exec(m, FinishCall(child, o0), fuel);
      EvolvesTrans(s, s.(cells := s.cells + [FreshCell()]), m);
      EvolvesTrans(s, m, f.s);
      CatchJoin(s, p, cb, fuel, m, o0, f.s, f.o);
    }

    /** The setup and the end of the constructor of the child of `catch`
        (`m`, `o0` after the setup) together run as `CatchRan` says. */
    lemma {:induction false} CatchJoin(s: St, p: nat, cb: Fn, fuel: nat, m: St, o0: Outcome, t: St, o: Outcome)
      requires p < |s.cells| && !(policy.syncBan && s.cells[p].sync) && |s.cells| < |m.cells|
      requires CatchSetupRan(s.(cells := s.cells + [FreshCell()]), m, o0, p, |s.cells|, cb, fuel)
      requires FinishRan(m, t, o, |s.cells|, o0, fuel)
      requires Evolves(s, t) && (o.Normal? ==> o.v == Prom(|s.cells|) && |s.cells| < |t.cells|)
      ensures CatchRan(s, t, o, p, cb, fuel)
    {
      var c, P := |s.cells|, s.cells[p];
      var s1 := s.(cells := s.cells + [FreshCell()]);
      assert Unobserved(s1.cells[c]);
      if P.state == Pending {
        assert s1.cells[p := P.(ful := P.ful + [Call(ResolveOf(c))], rej := P.rej + [Settle(p, c, Some(cb), RejectOf(c))])]
                 [c := FreshCell().(setupReturned := true)]
            == s.cells[p := P.(ful := P.ful + [Call(ResolveOf(c))], rej := P.rej + [Settle(p, c, Some(cb), RejectOf(c))])] +
               [FreshCell().(setupReturned := true)];
      } else if P.state == Fulfilled {
        if fuel >= 2 && !IsPromise(P.value, c + 1) {
          var X := AfterTransist(FreshCell(), Fulfilled, P.value, policy);
          assert s1.cells[c := X][c := X.(setupReturned := true)] == s.cells + [X.(setupReturned := true)];
        }
      } else if fuel >= 2 && cb.User? {
        CatchRejectedJoin(s, p, cb, fuel, m, o0, t, o);
      }
    }

    /** `CatchJoin` for a rejected parent and a host callback. */
    lemma {:induction false} CatchRejectedJoin(s: St, p: nat, cb: Fn, fuel: nat, m: St, o0: Outcome, t: St, o: Outcome)
      requires p < |s.cells| && s.cells[p].state == Rejected && fuel >= 2 && cb.User? && |s.cells| < |m.cells|
      requires CatchSetupRan(s.(cells := s.cells + [FreshCell()]), m, o0, p, |s.cells|, cb, fuel)
      requires FinishRan(m, t, o, |s.cells|, o0, fuel)
      ensures var c, r := |s.cells|, user(cb.k, s.cells[p].value);
        var s0 := if policy.trackHandled then s.(cells := s.cells[p := s.cells[p].(handled := true)]) else s;
        (r.Returned? && !IsPromise(r.v, c + 1) ==> NewFulfilled(s0, t, r.v, o)) &&
        (r.Threw? && !IsPromise(r.e, c + 1) ==> NewRejected(s0, t, r.e, o))
    {
      var c, P := |s.cells|, s.cells[p];
      var r := user(cb.k, P.value);
      var s1 := s.(cells := s.cells + [FreshCell()]);
      assert Unobserved(s1.cells[c]);
      var s0 := if policy.trackHandled then s.(cells := s.cells[p := P.(handled := true)]) else s;
      var s2 := if policy.trackHandled then s1.(cells := s1.cells[p := P.(handled := true)]) else s1;
      assert s2.cells == s0.cells + [FreshCell()];
      if r.Returned? && !IsPromise(r.v, c + 1) {
        var X := AfterTransist(FreshCell(), Fulfilled, r.v, policy);
        assert s2.cells[c := X][c := X.(setupReturned := true)] == s0.cells + [X.(setupReturned := true)];
      }
      if r.Threw? && !IsPromise(r.e, c + 1) {
        var X := AfterTransist(FreshCell(), Rejected, r.e, policy);
        assert s2.cells[c := X] == s0.cells + [X];
        assert s2.cells[c := X][c := X.(setupReturned := true)] == s0.cells + [X.(setupReturned := true)];
      }
    }

    /** `catch(cb)`: the mirror of `then` for the rejection path. */
    method Catch(p: nat, cb: Fn, fuel: nat) returns (o: Outcome)
      requires p < |cells|
      modifies this
      ensures Run(St(cells, aggs, log, reports), o) == Exec(St(old(cells), old(aggs), old(log), old(reports)), CatchCall(p, cb), fuel)
      ensures CatchRan(St(old(cells), old(aggs), old(log), old(reports)), St(cells, aggs, log, reports), o, p, cb, fuel)
      decreases fuel, 4
    {
      CatchHolds(St(cells, aggs, log, reports), p, cb, fuel);
      if policy.syncBan && cells[p].sync {
        return Raise(Error(CatchOnSync));
      }
      var child := NewCell();
      var o0 := CatchSetup(p, child, cb, fuel);
      o := Finish(child, o0, fuel);
    }

    /** Following a pending thenable `q` on behalf of cell `id`, from `s` to
        `t`: `q` gets the observers of `q.then(first)`, whose derived
        promise `n` (the next id) carries the rejection wiring, with its own
        derived promise `n + 1`; nothing settles. */
    ghost predicate Followed(s: St, t: St, id: nat, q: nat, first: Fn, o: Outcome)
      requires q < |s.cells|
    {
      var n := |s.cells|;
      o == Normal(Undefined) &&
      t == s.(cells := s.cells[q := Wire(s.cells[q], q, first, n)] + [Link(n, id), FreshCell().(setupReturned := true)])
    }

    /** What following thenable `q` on behalf of cell `id`, run from `s`,
        guarantees of the state `t` it leaves and its outcome `o`. */
    ghost predicate FollowRan(s: St, t: St, o: Outcome, id: nat, q: nat, first: Fn, fuel: nat)
      requires q < |s.cells|
    {
      Evolves(s, t) && (o.Normal? ==> o.v == Undefined) &&
      (s.cells[q].state == Pending && !(policy.syncBan && s.cells[q].sync) ==> Followed(s, t, id, q, first, o))
    }

    lemma {:induction false} FollowHolds(s: St, id: nat, q: nat, first: Fn, fuel: nat)
      requires q < |s.cells|
      ensures var r := Exec(s, FollowCall(id, q, first), fuel); FollowRan(s, r.s, r.o, id, q, first, fuel)
      decreases fuel, 5
    {
      ThenHolds(s, q, Some(first), None, fuel);
      var r1 := Exec(s, ThenCall(q, Some(first), None), fuel);
      if r1.o.Normal? {
        FollowRest(s, id, q, first, fuel, r1.s, r1.o);
      }
    }

    /** `FollowHolds` once `q.then(first)` has run, to `m`, `o1`. */
    lemma {:induction false} FollowRest(s: St, id: nat, q: nat, first: Fn, fuel: nat, m: St, o1: Outcome)
      requires q < |s.cells| && o1.Normal? && ThenRan(s, m, o1, q, Some(first), None, fuel)
      ensures o1.v.Prom? && o1.v.id < |m.cells|
      ensures var r2 := if policy.addReject then Exec(m, ThenCall(o1.v.id, None, Some(RejectOf(id))), fuel)
                        else Exec(m, CatchCall(o1.v.id, RejectOf(id)), fuel);
        FollowRan(s, r2.s, if r2.o.Raise? then r2.o else Normal(Undefined), id, q, first, fuel)
      decreases fuel, 5, 0
    {
      var t := o1.v.id;
      if policy.addReject {
        ThenHolds(m, t, None, Some(RejectOf(id)), fuel);
        var r2 := Exec(m, ThenCall(t, None, Some(RejectOf(id))), fuel);
        FollowJoin(s, id, q, first, fuel, m, o1, r2.s, r2.o);
      } else {
        CatchHolds(m, t, RejectOf(id), fuel);
        var r2 := Exec(m, CatchCall(t, RejectOf(id)), fuel);
        FollowJoin(s, id, q, first, fuel, m, o1, r2.s, r2.o);
      }
    }

    /** `q.then(first)` (to `m`, `o1`) followed by the rejection wiring on
        its derived promise (to `t`, `o2`) runs as `FollowRan` says. */
    lemma {:induction false} FollowJoin(s: St, id: nat, q: nat, first: Fn, fuel: nat, m: St, o1: Outcome, t: St, o2: Outcome)
      requires q < |s.cells| && o1.Normal? && ThenRan(s, m, o1, q, Some(first), None, fuel)
      requires policy.addReject ==> ThenRan(m, t, o2, |s.cells|, None, Some(RejectOf(id)), fuel)
      requires !policy.addReject ==> CatchRan(m, t, o2, |s.cells|, RejectOf(id), fuel)
      ensures FollowRan(s, t, if o2.Raise? then o2 else Normal(Undefined), id, q, first, fuel)
    {
      EvolvesTrans(s, m, t);
      var c := |s.cells|;
      if s.cells[q].state == Pending && !(policy.syncBan && s.cells[q].sync) {
        var P := FreshCell().(setupReturned := true);
        assert m.cells[c] == P && |m.cells| == c + 1;
        if policy.addReject {
          assert P.ful + [Settle(c, c + 1, None, ThenRej(Some(RejectOf(id)), c + 1))] == Link(c, id).ful;
          assert P.rej + [Call(ThenRej(Some(RejectOf(id)), c + 1))] == Link(c, id).rej;
        } else {
          assert P.ful + [Call(ResolveOf(c + 1))] == Link(c, id).ful;
          assert P.rej + [Settle(c, c + 1, Some(RejectOf(id)), RejectOf(c + 1))] == Link(c, id).rej;
        }
        assert t.cells == m.cells[c := Link(c, id)] + [P];
        assert m.cells == s.cells[q := Wire(s.cells[q], q, first, c)] + [P];
      }
    }

    /** Following a thenable `q` on behalf of cell `id`, with `first` the
        `resolve` or `reject` closure of `id`: `q.then(first).catch(reject)`
        in index.js and the amd build, `addReject(q.then(first), reject)`,
        that is `q.then(first).then(null, reject)`, in the global build. */
    method Follow(id: nat, q: nat, first: Fn, fuel: nat) returns (o: Outcome)
      requires id < |cells| && q < |cells|
      modifies this
      ensures Run(St(cells, aggs, log, reports), o) == Exec(St(old(cells), old(aggs), old(log), old(reports)), FollowCall(id, q, first), fuel)
      ensures FollowRan(St(old(cells), old(aggs), old(log), old(reports)), St(cells, aggs, log, reports), o, id, q, first, fuel)
      decreases fuel, 5
    {
      FollowHolds(St(cells, aggs, log, reports), id, q, first, fuel);
      var o1 := Then(q, Some(first), None, fuel);
      if o1.Raise? {
        return o1;
      }
      var t := o1.v.id;
      var o2: Outcome;
      if policy.addReject {
        o2 := Then(t, None, Some(RejectOf(id)), fuel);
      } else {
        o2 := Catch(t, RejectOf(id), fuel);
      }
      if o2.Raise? {
        return o2;
      }
      o := Normal(Undefined);
    }

    /** Promise `t`, returned by a `then` made for a thenable, after the
        rejection wiring on behalf of cell `id`: `.catch(reject)` in index.js
        and the amd build, `.then(null, reject)` in the global build, whose
        derived promise is `t + 1`. */
    function Link(t: nat, id: nat): (c: Cell) {
      if policy.addReject
      then FreshCell().(setupReturned := true,
                        ful := [Settle(t, t + 1, None, ThenRej(Some(RejectOf(id)), t + 1))],
                        rej := [Call(ThenRej(Some(RejectOf(id)), t + 1))])
      else FreshCell().(setupReturned := true,
                        ful := [Call(ResolveOf(t + 1))],
                        rej := [Settle(t, t + 1, Some(RejectOf(id)), RejectOf(t + 1))])
    }

    /** Entries of `all` or `race` that can be followed at once: every
        promise entry is an existing promise, pending, and not refused by
        the ban on synchronously resolved promises. */
    ghost predicate Followable(c: seq<Cell>, items: seq<Val>) {
      forall j :: 0 <= j < |items| && items[j].Prom? ==>
        items[j].id < |c| && c[items[j].id].state == Pending && !(policy.syncBan && c[items[j].id].sync)
    }

    /** The cells once `all` (or, with `race` set, `race`) number `k` has
        followed its entries on behalf of its promise `id`: each promise
        entry `q`, in order, gets the observers of `q.then(cb)`, with `cb`
        the callback of slot `i` (the winner callback for `race`), and the
        two promises of that wiring are appended; a plain entry adds
        nothing. */
    function WireEntries(c: seq<Cell>, items: seq<Val>, k: nat, id: nat, race: bool): (r: seq<Cell>)
      requires forall j :: 0 <= j < |items| ==> Known(items[j], |c|)
      ensures |r| == |c| + 2 * Proms(items)
      ensures forall q :: 0 <= q < |c| ==> r[q].state == c[q].state && r[q].sync == c[q].sync
      decreases |items|
    {
      if items == [] then c
      else
        var n := |items| - 1;
        var w := WireEntries(c, items[..n], k, id, race);
        if items[n].Prom? then
          var q := items[n].id;
          assert Known(items[n], |c|);
          w[q := Wire(w[q], q, if race then RaceWin(k) else AllSlot(k, n), |w|)] +
          [Link(|w|, id), FreshCell().(setupReturned := true)]
        else w
    }

    /** The entries before `i` are followed and the counter of `all`
        number `k` keeps one for each promise entry and each entry not yet
        visited. */
    ghost predicate AllWired(c1: seq<Cell>, a1: seq<Agg>, c: seq<Cell>, a: seq<Agg>,
                             items: seq<Val>, k: nat, id: nat, i: nat)
      requires forall j :: 0 <= j < |items| ==> Known(items[j], |c1|)
      requires i <= |items| && k < |a1|
    {
      c == WireEntries(c1, items[..i], k, id, false) && a == a1[k := AllAgg(id, items, |items| - i + Proms(items[..i]))]
    }

    /** A promise entry `i` of `all` is pending when its turn comes. */
    lemma {:induction false} AllReady(c1: seq<Cell>, a1: seq<Agg>, c: seq<Cell>, a: seq<Agg>, items: seq<Val>, k: nat, id: nat, i: nat)
      requires forall j :: 0 <= j < |items| ==> Known(items[j], |c1|)
      requires i < |items| && k < |a1| && items[i].Prom? && Followable(c1, items) && AllWired(c1, a1, c, a, items, k, id, i)
      ensures items[i].id < |c| && c[items[i].id].state == Pending && !(policy.syncBan && c[items[i].id].sync)
    {
    }

    /** Entry `i` of the loop of `AllSetup` when there is a promise entry
        and every promise entry is pending, run from state `cb`, `ab`,
        `lb`, `rb` as `AllEntry` promises: a promise entry is followed, a
        plain entry counts down without reaching zero. */
    lemma {:induction false} AllFollowStep(c1: seq<Cell>, a1: seq<Agg>, cb: seq<Cell>, ab: seq<Agg>, lb: seq<Event>, rb: seq<nat>,
                        items: seq<Val>, k: nat, id: nat, i: nat, hasPromises: bool, o: Outcome)
      requires forall j :: 0 <= j < |items| ==> Known(items[j], |c1|)
      requires i < |items| && k < |a1| && Proms(items) > 0 && Followable(c1, items)
      requires id < |cb| && |c1| <= |cb| && AllWired(c1, a1, cb, ab, items, k, id, i) && ab[k].AllAgg?
      requires EntryDone(cb, ab, lb, rb, id, k, items, i, hasPromises, o)
      ensures o == Normal(Undefined) && log == lb && reports == rb
      ensures AllWired(c1, a1, cells, aggs, items, k, id, i + 1)
    {
      if items[i].Prom? {
        var q := items[i].id;
        AllReady(c1, a1, cb, ab, items, k, id, i);
        assert Followed(St(cb, ab, lb, rb), St(cells, aggs, log, reports), id, q, AllSlot(k, i), o);
        AllWireStep(c1, a1, cb, items, k, id, i, cells, aggs);
      } else {
        WireEntriesPlain(c1, items, k, id, false, i);
        AllCountStep(a1, items, k, id, i, ab);
      }
    }

    /** Following promise entry `i` of `all`. */
    lemma {:induction false} AllWireStep(c1: seq<Cell>, a1: seq<Agg>, cb: seq<Cell>, items: seq<Val>, k: nat, id: nat, i: nat,
                      c: seq<Cell>, a: seq<Agg>)
      requires forall j :: 0 <= j < |items| ==> Known(items[j], |c1|)
      requires i < |items| && k < |a1| && items[i].Prom? && items[i].id < |cb| && AllWired(c1, a1, cb, a, items, k, id, i)
      requires c == cb[items[i].id := Wire(cb[items[i].id], items[i].id, AllSlot(k, i), |cb|)] +
                    [Link(|cb|, id), FreshCell().(setupReturned := true)]
      ensures AllWired(c1, a1, c, a, items, k, id, i + 1)
    {
      WireEntriesProm(c1, items, k, id, false, i, cb);
    }

    /** Following promise entry `i`, from the wiring `w` of the entries
        before it. */
    lemma {:induction false} WireEntriesProm(c: seq<Cell>, items: seq<Val>, k: nat, id: nat, race: bool, i: nat, w: seq<Cell>)
      requires forall j :: 0 <= j < |items| ==> Known(items[j], |c|)
      requires i < |items| && items[i].Prom? && w == WireEntries(c, items[..i], k, id, race) && items[i].id < |w|
      ensures Proms(items[..i + 1]) == Proms(items[..i]) + 1
      ensures WireEntries(c, items[..i + 1], k, id, race) ==
        w[items[i].id := Wire(w[items[i].id], items[i].id, if race then RaceWin(k) else AllSlot(k, i), |w|)] +
        [Link(|w|, id), FreshCell().(setupReturned := true)]
    {
      assert items[..i + 1][..i] == items[..i];
    }

    /** Counting down plain entry `i` of `all` while a promise entry is
        still to fulfil: the counter does not reach zero. */
    lemma {:induction false} AllCountStep(a1: seq<Agg>, items: seq<Val>, k: nat, id: nat, i: nat, a: seq<Agg>)
      requires i < |items| && !items[i].Prom? && Proms(items) > 0 && k < |a1|
      requires a == a1[k := AllAgg(id, items, |items| - i + Proms(items[..i]))]
      ensures a[k].count - 1 != 0
      ensures a[k := a[k].(count := a[k].count - 1)] ==
              a1[k := AllAgg(id, items, |items| - (i + 1) + Proms(items[..i + 1]))]
    {
      PromsPlain(items, i);
      var n := |items| - i + Proms(items[..i]);
      assert a[k] == AllAgg(id, items, n);
      assert a[k := AllAgg(id, items, n - 1)] == a1[k := AllAgg(id, items, n - 1)];
    }

    /** A plain entry adds nothing to the wiring. */
    lemma {:induction false} WireEntriesPlain(c: seq<Cell>, items: seq<Val>, k: nat, id: nat, race: bool, i: nat)
      requires forall j :: 0 <= j < |items| ==> Known(items[j], |c|)
      requires i < |items| && !items[i].Prom?
      ensures WireEntries(c, items[..i + 1], k, id, race) == WireEntries(c, items[..i], k, id, race)
    {
      assert items[..i + 1][..i] == items[..i];
    }

    /** Following one more entry, `i`, in the order of the loop. */
    lemma {:induction false} WireEntriesNext(c: seq<Cell>, items: seq<Val>, k: nat, id: nat, race: bool, i: nat)
      requires forall j :: 0 <= j < |items| ==> Known(items[j], |c|)
      requires i < |items|
      ensures var w := WireEntries(c, items[..i], k, id, race);
        Proms(items[..i + 1]) == Proms(items[..i]) + (if items[i].Prom? then 1 else 0) &&
        WireEntries(c, items[..i + 1], k, id, race) ==
          if items[i].Prom? then
            w[items[i].id := Wire(w[items[i].id], items[i].id, if race then RaceWin(k) else AllSlot(k, i), |w|)] +
            [Link(|w|, id), FreshCell().(setupReturned := true)]
          else w
    {
      assert items[..i + 1][..i] == items[..i];
    }

    /** A fresh cell after the others leaves the entries followable. */
    lemma {:induction false} FollowableFresh(c: seq<Cell>, items: seq<Val>)
      requires Followable(c, items)
      ensures Followable(c + [FreshCell()], items)
      ensures forall j :: 0 <= j < |items| ==> Known(items[j], |c|)
    {
      forall j | 0 <= j < |items| && items[j].Prom?
        ensures (c + [FreshCell()])[items[j].id] == c[items[j].id]
      {
      }
    }

    /** A cell that no entry names is left as it was. */
    lemma {:induction false} WireEntriesSpare(c: seq<Cell>, items: seq<Val>, k: nat, id: nat, race: bool, q: nat)
      requires forall j :: 0 <= j < |items| ==> Known(items[j], |c|)
      requires q < |c| && forall j :: 0 <= j < |items| ==> items[j] != Prom(q)
      ensures WireEntries(c, items, k, id, race)[q] == c[q]
      decreases |items|
    {
      if items != [] {
        WireEntriesSpare(c, items[..|items| - 1], k, id, race, q);
      }
    }

    /** `new SyncPromise(fn)` called by host code, with `fn` given as the
        calls it makes on its `resolve`/`reject` arguments before returning
        (`script`) and whether it then throws (`throws`). The arguments' later
        calls are `Resolve` and `Reject` on the returned id. */
    method Construct(script: seq<Act>, throws: Option<Val>, fuel: nat) returns (o: Outcome)
      requires forall j :: 0 <= j < |script| ==> Known(script[j].v, |cells|)
      modifies this
      ensures Evolved(old(cells), old(aggs), old(log), old(reports))
      ensures o.Normal? ==> o.v == Prom(|old(cells)|) && |old(cells)| < |cells|
      ensures |script| == 0 && throws.None? ==>
        o == Normal(Prom(|old(cells)|)) &&
        Unchanged(old(cells) + [FreshCell().(setupReturned := true)], old(aggs), old(log), old(reports))
      ensures |script| == 0 && throws.Some? && !policy.catchSetup ==>
        o == Raise(throws.value) && Unchanged(old(cells) + [FreshCell()], old(aggs), old(log), old(reports))
      ensures |script| == 0 && throws.Some? && policy.catchSetup && !policy.fatalUnhandled && fuel > 0 &&
              !throws.value.Prom? ==>
        NewRejected(St(old(cells), old(aggs), old(log), old(reports)), St(cells, aggs, log, reports), throws.value, o)
      // only the first call of `resolve`/`reject` has an effect
      ensures |script| > 0 && !script[0].v.Prom? && (throws.None? || (policy.catchSetup && fuel > 0)) ==>
        (script[0].Res? ==> NewFulfilled(St(old(cells), old(aggs), old(log), old(reports)), St(cells, aggs, log, reports), script[0].v, o)) &&
        (script[0].Rej? ==> NewRejected(St(old(cells), old(aggs), old(log), old(reports)), St(cells, aggs, log, reports), script[0].v, o))
      ensures |script| > 0 && !script[0].v.Prom? && throws.Some? && !policy.catchSetup &&
              (script[0].Res? || !policy.fatalUnhandled) ==>
        o == Raise(throws.value) &&
        Unchanged(old(cells) + [AfterTransist(FreshCell(), ActState(script[0]), script[0].v, policy)], old(aggs),
                  old(log) + [Transisted(|old(cells)|, ActState(script[0]), script[0].v)],
                  old(reports) + (if script[0].Rej? then [|old(cells)|] else []))
      ensures |script| > 0 && !script[0].v.Prom? && script[0].Rej? && policy.fatalUnhandled && !policy.catchSetup ==>
        NewRejected(St(old(cells), old(aggs), old(log), old(reports)), St(cells, aggs, log, reports), script[0].v, o)
    {
      var id := NewCell();
      ghost var c1, a1, l1, r1 := cells, aggs, log, reports;
      var o0 := RunScript(id, script, fuel);
      EvolvedTrans(old(cells), old(aggs), old(log), old(reports), c1, a1, l1, r1);
      if o0.Normal? && throws.Some? {
        o0 := Raise(throws.value);
      }
      ghost var c3, a3, l3, r3 := cells, aggs, log, reports;
      o := Finish(id, o0, fuel);
      EvolvedTrans(old(cells), old(aggs), old(log), old(reports), c3, a3, l3, r3);
    }

    /** `SyncPromise.all(promises)`: a counter `l` starting at the input
        length, decremented for each plain entry at once and for a promise
        entry when it fulfils (after writing its value into the array at
        the same index); reaching zero resolves with the array, and any
        entry's rejection goes to the aggregate's `reject`. */
    method All(items: seq<Val>, fuel: nat) returns (o: Outcome)
      requires forall j :: 0 <= j < |items| ==> Known(items[j], |cells|)
      modifies this
      ensures Evolved(old(cells), old(aggs), old(log), old(reports))
      ensures o.Normal? ==> o.v == Prom(|old(cells)|) && |old(cells)| < |cells|
      ensures |old(aggs)| < |aggs| && aggs[|old(aggs)|].AllAgg? && aggs[|old(aggs)|].cell == |old(cells)| &&
              |aggs[|old(aggs)|].items| == |items|
      // an empty input never settles: no observer and no closure refers to it
      ensures |items| == 0 ==>
        o == Normal(Prom(|old(cells)|)) &&
        Unchanged(old(cells) + [FreshCell().(setupReturned := true)], old(aggs) + [AllAgg(|old(cells)|, [], 0)],
                  old(log), old(reports))
      // only plain entries: the global build refuses, the others resolve at once with the unchanged array
      ensures |items| > 0 && (forall j :: 0 <= j < |items| ==> !items[j].Prom?) ==>
        (policy.allNeedsPromise && !policy.catchSetup ==>
           o == Raise(Error(AtLeastOnePromise)) &&
           Unchanged(old(cells) + [FreshCell()], old(aggs) + [AllAgg(|old(cells)|, items, 0)], old(log), old(reports))) &&
        (!policy.allNeedsPromise ==>
           o == Normal(Prom(|old(cells)|)) &&
           Unchanged(old(cells) + [AfterTransist(FreshCell(), Fulfilled, Arr(|old(aggs)|), policy).(setupReturned := true)],
                     old(aggs) + [AllAgg(|old(cells)|, items, 0)],
                     old(log) + [Transisted(|old(cells)|, Fulfilled, Arr(|old(aggs)|))], old(reports)))
      // with a promise entry, all of them pending: each is followed, and the aggregate stays pending
      ensures Proms(items) > 0 && Followable(old(cells), items) ==>
        o == Normal(Prom(|old(cells)|)) &&
        Unchanged(WireEntries(old(cells) + [FreshCell()], items, |old(aggs)|, |old(cells)|, false)
                    [|old(cells)| := FreshCell().(setupReturned := true)],
                  old(aggs) + [AllAgg(|old(cells)|, items, Proms(items))], old(log), old(reports))
    {
      var id := NewCell();
      var k := |aggs|;
      aggs := aggs + [AllAgg(id, items, |items|)];
      ghost var c1 := cells;
      ghost var follows := Proms(items) > 0 && Followable(old(cells), items);
      if follows {
        FollowableFresh(old(cells), items);
      }
      ghost var a1 := aggs;
      var o0 := AllSetup(id, k, items, fuel);
      EvolvedTrans(old(cells), old(aggs), old(log), old(reports), c1, a1, log, reports);
      ghost var c3, a3, l3, r3 := cells, aggs, log, reports;
      o := Finish(id, o0, fuel);
      EvolvedTrans(old(cells), old(aggs), old(log), old(reports), c3, a3, l3, r3);
      AllEnds(old(cells), old(aggs), old(log), old(reports), items, fuel, c1, a1, c3, a3, l3, r3, o0, o);
    }

    /** How `all` ends, from `c0`, `a0`, `l0`, `r0`, once its setup function
        has left `c3`, `a3`, `l3`, `r3` and outcome `o0` and the constructor
        has finished with `o`. */
    lemma {:induction false} AllEnds(c0: seq<Cell>, a0: seq<Agg>, l0: seq<Event>, r0: seq<nat>, items: seq<Val>, fuel: nat,
                                     c1: seq<Cell>, a1: seq<Agg>,
                                     c3: seq<Cell>, a3: seq<Agg>, l3: seq<Event>, r3: seq<nat>, o0: Outcome, o: Outcome)
      requires c1 == c0 + [FreshCell()] && a1 == a0 + [AllAgg(|c0|, items, |items|)]
      requires forall j :: 0 <= j < |items| ==> Known(items[j], |c0|) && Known(items[j], |c1|)
      requires Proms(items) > 0 && Followable(c0, items) ==> Followable(c1, items)
      requires |c0| < |c3|
      requires AllSetUp(c1, a1, l0, r0, c3, a3, l3, r3, |c0|, |a0|, items, o0)
      requires FinishRan(St(c3, a3, l3, r3), St(cells, aggs, log, reports), o, |c0|, o0, fuel)
      ensures |items| == 0 ==>
        o == Normal(Prom(|c0|)) &&
        Unchanged(c0 + [FreshCell().(setupReturned := true)], a0 + [AllAgg(|c0|, [], 0)], l0, r0)
      ensures |items| > 0 && (forall j :: 0 <= j < |items| ==> !items[j].Prom?) ==>
        (policy.allNeedsPromise && !policy.catchSetup ==>
           o == Raise(Error(AtLeastOnePromise)) &&
           Unchanged(c0 + [FreshCell()], a0 + [AllAgg(|c0|, items, 0)], l0, r0)) &&
        (!policy.allNeedsPromise ==>
           o == Normal(Prom(|c0|)) &&
           Unchanged(c0 + [AfterTransist(FreshCell(), Fulfilled, Arr(|a0|), policy).(setupReturned := true)],
                     a0 + [AllAgg(|c0|, items, 0)], l0 + [Transisted(|c0|, Fulfilled, Arr(|a0|))], r0))
      ensures Proms(items) > 0 && Followable(c0, items) ==>
        o == Normal(Prom(|c0|)) &&
        Unchanged(WireEntries(c0 + [FreshCell()], items, |a0|, |c0|, false)[|c0| := FreshCell().(setupReturned := true)],
                  a0 + [AllAgg(|c0|, items, Proms(items))], l0, r0)
    {
      if Proms(items) > 0 && Followable(c0, items) {
        AllFollowEnd(c0, a0, items, c3, a3);
      }
    }

    /** The cell `all` or `race` made for itself is still fresh once its
        setup function has followed every entry. */
    lemma {:induction false} FreshSpared(c0: seq<Cell>, items: seq<Val>, k: nat, race: bool, c3: seq<Cell>)
      requires Followable(c0, items) && forall j :: 0 <= j < |items| ==> Known(items[j], |c0| + 1)
      requires c3 == WireEntries(c0 + [FreshCell()], items, k, |c0|, race)
      ensures |c0| < |c3| && c3[|c0|] == FreshCell()
    {
      WireEntriesSpare(c0 + [FreshCell()], items, k, |c0|, race, |c0|);
    }

    /** The state `all` reaches once `AllSetup` has followed every entry:
        the aggregate's own cell is still fresh, and the counter keeps one
        for each promise entry. */
    lemma {:induction false} AllFollowEnd(c0: seq<Cell>, a0: seq<Agg>, items: seq<Val>, c3: seq<Cell>, a3: seq<Agg>)
      requires Followable(c0, items) && forall j :: 0 <= j < |items| ==> Known(items[j], |c0| + 1)
      requires c3 == WireEntries(c0 + [FreshCell()], items, |a0|, |c0|, false)
      requires a3 == (a0 + [AllAgg(|c0|, items, |items|)])[|a0| := AllAgg(|c0|, items, Proms(items))]
      ensures |c0| < |c3| && c3[|c0|] == FreshCell()
      ensures a3 == a0 + [AllAgg(|c0|, items, Proms(items))]
    {
      FreshSpared(c0, items, |a0|, false, c3);
      assert a3 == a0 + [AllAgg(|c0|, items, Proms(items))];
    }

    // Exact runs of the chain an `all` slot sets off when its entry
    // fulfils: the entry's `then` callback fills the slot, the promise that
    // `then` made fulfils with `undefined` and passes that on to the promise
    // of its `.catch(reject)`, and nothing else changes.

    /** A promise whose list of fulfilment observers is empty, resolved with
        a value that is no promise, settles and is cleared; the only other
        change is the logged settlement. */
    lemma {:induction false} LeafFulfils(s: St, id: nat, v: Val, fuel: nat)
      requires id < |s.cells| && !s.cells[id].cleared && s.cells[id].ful == [] && !IsPromise(v, |s.cells|)
      ensures Exec(s, ResolveCall(id, Fulfilled, v), fuel) ==
        Run(s.(cells := s.cells[id := AfterTransist(s.cells[id], Fulfilled, v, policy)],
               log := s.log + [Transisted(id, Fulfilled, v)]), Normal(Undefined))
    {
      var s1 := s.(cells := s.cells[id := Mark(s.cells[id], Fulfilled, v, policy)], log := s.log + [Transisted(id, Fulfilled, v)]);
      assert Exec(s1, ObserversCall([], 0, v), fuel) == Run(s1, Normal(Undefined));
      assert s1.cells[id := s1.cells[id].(ful := [], rej := [], cleared := true)] ==
             s.cells[id := AfterTransist(s.cells[id], Fulfilled, v, policy)];
      assert Exec(s, TransistCall(id, v, Fulfilled), fuel) == Exec(s1, NotifyCall(id, [], v), fuel);
    }

    /** A promise `id` whose one fulfilment observer is `x`, resolved with a
        value that is no promise, where firing `x` once `id` is marked ends
        normally in `r`: the run ends there, with `id` cleared. */
    lemma {:induction false} OneObserverFulfils(s: St, id: nat, x: Reaction, v: Val, fuel: nat, r: Run)
      requires id < |s.cells| && !s.cells[id].cleared && s.cells[id].ful == [x] && !IsPromise(v, |s.cells|)
      requires var s1 := s.(cells := s.cells[id := Mark(s.cells[id], Fulfilled, v, policy)],
                            log := s.log + [Transisted(id, Fulfilled, v)]);
               Exec(s1, FireCall(x, v), fuel) == r
      requires r.o == Normal(Undefined) && id < |r.s.cells|
      ensures Exec(s, ResolveCall(id, Fulfilled, v), fuel) ==
        Run(r.s.(cells := r.s.cells[id := r.s.cells[id].(ful := [], rej := [], cleared := true)]), Normal(Undefined))
    {
      var s1 := s.(cells := s.cells[id := Mark(s.cells[id], Fulfilled, v, policy)], log := s.log + [Transisted(id, Fulfilled, v)]);
      assert Exec(r.s, ObserversCall([x], 1, v), fuel) == Run(r.s, Normal(Undefined));
      assert Exec(s1, ObserversCall([x], 0, v), fuel) == r;
      assert Exec(s1, NotifyCall(id, [x], v), fuel) ==
             Run(r.s.(cells := r.s.cells[id := r.s.cells[id].(ful := [], rej := [], cleared := true)]), Normal(Undefined));
      assert Exec(s, TransistCall(id, v, Fulfilled), fuel) == Exec(s1, NotifyCall(id, [x], v), fuel);
    }

    /** A promise `t` whose one fulfilment observer is the `resolve` closure
        of promise `u`, itself observed by nobody: resolving `t` with a value
        that is no promise settles `t`, then `u`, with that value. */
    lemma {:induction false} RelayFulfils(s: St, t: nat, u: nat, v: Val, fuel: nat)
      requires t < |s.cells| && u < |s.cells| && t != u && fuel > 0 && !IsPromise(v, |s.cells|)
      requires !s.cells[t].cleared && s.cells[t].ful == [Call(ResolveOf(u))]
      requires !s.cells[u].cleared && s.cells[u].ful == []
      ensures Exec(s, ResolveCall(t, Fulfilled, v), fuel) ==
        Run(s.(cells := s.cells[u := AfterTransist(s.cells[u], Fulfilled, v, policy)]
                                [t := AfterTransist(s.cells[t], Fulfilled, v, policy)],
               log := s.log + [Transisted(t, Fulfilled, v), Fired(Call(ResolveOf(u)), v), Transisted(u, Fulfilled, v)]),
            Normal(Undefined))
    {
      var x := Call(ResolveOf(u));
      var s1 := s.(cells := s.cells[t := Mark(s.cells[t], Fulfilled, v, policy)], log := s.log + [Transisted(t, Fulfilled, v)]);
      var s2 := s1.(log := s1.log + [Fired(x, v)]);
      LeafFulfils(s2, u, v, fuel - 1);
      var r := Exec(s2, ResolveCall(u, Fulfilled, v), fuel - 1);
      assert Exec(s2, ApplyCall(ResolveOf(u), v), fuel) == r;
      assert Exec(s1, FireCall(x, v), fuel) == r;
      OneObserverFulfils(s, t, x, v, fuel, r);
      assert r.s.cells[t := r.s.cells[t].(ful := [], rej := [], cleared := true)] ==
             s.cells[u := AfterTransist(s.cells[u], Fulfilled, v, policy)][t := AfterTransist(s.cells[t], Fulfilled, v, policy)];
      assert r.s.log == s.log + [Transisted(t, Fulfilled, v), Fired(Call(ResolveOf(u)), v), Transisted(u, Fulfilled, v)];
    }

    /** The callback of slot `i` of `all` number `k` called with `v`: the
        value is stored and the counter goes down by one; when that brings
        it to zero, the aggregate's promise, observed by nobody, fulfils
        with the array. */
    lemma {:induction false} SlotFills(s: St, k: nat, i: nat, v: Val, fuel: nat)
      requires fuel > 0 && k < |s.aggs| && s.aggs[k].AllAgg? && i < |s.aggs[k].items|
      requires var a := s.aggs[k];
        a.count == 1 ==> a.cell < |s.cells| && !s.cells[a.cell].cleared && s.cells[a.cell].ful == []
      ensures var a := s.aggs[k];
        var s1 := s.(aggs := s.aggs[k := a.(items := a.items[i := v], count := a.count - 1)]);
        Exec(s, ApplyCall(AllSlot(k, i), v), fuel) ==
          if a.count == 1 then
            Run(s1.(cells := s1.cells[a.cell := AfterTransist(s1.cells[a.cell], Fulfilled, Arr(k), policy)],
                    log := s1.log + [Transisted(a.cell, Fulfilled, Arr(k))]), Normal(Undefined))
          else Run(s1, Normal(Undefined))
    {
      var a := s.aggs[k];
      var s1 := s.(aggs := s.aggs[k := a.(items := a.items[i := v], count := a.count - 1)]);
      if a.count == 1 {
        LeafFulfils(s1, a.cell, Arr(k), fuel - 1);
        assert Exec(s, FillSlotCall(k, i, v), fuel) == Exec(s1, ResolveCall(a.cell, Fulfilled, Arr(k)), fuel - 1);
      } else {
        assert Exec(s, FillSlotCall(k, i, v), fuel) == Run(s1, Normal(Undefined));
      }
      assert Exec(s, ApplyCall(AllSlot(k, i), v), fuel) == Exec(s, FillSlotCall(k, i, v), fuel);
    }

    /** The `settle` observer that `then(slot i)` put on entry `q` of `all`
        number `k`, fired with `v` once `q` holds `v`: the slot callback
        leaves `m`, and the promise `t` that `then` made fulfils with
        `undefined` and relays it to the promise `t + 1` of its
        `.catch(reject)`. */
    lemma {:induction false} SlotEntryFires(s: St, q: nat, t: nat, k: nat, i: nat, v: Val, fuel: nat, m: St)
      requires q < |s.cells| && t < |s.cells| && s.cells[q].value == v && fuel >= 2
      requires var x := Settle(q, t, Some(AllSlot(k, i)), RejectOf(t));
        Exec(s.(log := s.log + [Fired(x, v)]), ApplyCall(AllSlot(k, i), v), fuel - 1) == Run(m, Normal(Undefined))
      requires t + 1 < |m.cells| && !m.cells[t].cleared && m.cells[t].ful == [Call(ResolveOf(t + 1))]
      requires !m.cells[t + 1].cleared && m.cells[t + 1].ful == []
      ensures Exec(s, FireCall(Settle(q, t, Some(AllSlot(k, i)), RejectOf(t)), v), fuel) ==
        Run(m.(cells := m.cells[t + 1 := AfterTransist(m.cells[t + 1], Fulfilled, Undefined, policy)]
                                [t := AfterTransist(m.cells[t], Fulfilled, Undefined, policy)],
               log := m.log + [Transisted(t, Fulfilled, Undefined), Fired(Call(ResolveOf(t + 1)), Undefined),
                               Transisted(t + 1, Fulfilled, Undefined)]),
            Normal(Undefined))
    {
      var x := Settle(q, t, Some(AllSlot(k, i)), RejectOf(t));
      var s1 := s.(log := s.log + [Fired(x, v)]);
      RelayFulfils(m, t, t + 1, Undefined, fuel - 1);
      var r := Exec(m, ResolveCall(t, Fulfilled, Undefined), fuel - 1);
      assert Exec(s1, TrySettleCall(q, t, Some(AllSlot(k, i))), fuel) == r;
      assert Exec(s1, RunSettleCall(q, t, Some(AllSlot(k, i)), RejectOf(t)), fuel) == r;
    }

    /** The `settle` observer that `then(cb)` put on promise `q` for its
        promise `c`, fired with `v` once `q` holds `v`, where the host
        callback returns a value and resolving `c` with it ends normally in
        `m`: the run ends there. */
    lemma {:induction false} CallbackEntryFires(s: St, q: nat, c: nat, f: nat, v: Val, fuel: nat, m: St)
      requires q < |s.cells| && c < |s.cells| && s.cells[q].value == v && fuel >= 2 && user(f, v).Returned?
      requires var x := Settle(q, c, Some(User(f)), RejectOf(c));
        Exec(s.(log := s.log + [Fired(x, v)]), ResolveCall(c, Fulfilled, user(f, v).v), fuel - 1) == Run(m, Normal(Undefined))
      ensures Exec(s, FireCall(Settle(q, c, Some(User(f)), RejectOf(c)), v), fuel) == Run(m, Normal(Undefined))
    {
      var x := Settle(q, c, Some(User(f)), RejectOf(c));
      var s1 := s.(log := s.log + [Fired(x, v)]);
      assert Exec(s1, ApplyCall(User(f), v), fuel - 1) == Run(s1, Normal(user(f, v).v));
      assert Exec(s1, TrySettleCall(q, c, Some(User(f))), fuel) == Run(m, Normal(Undefined));
      assert Exec(s1, RunSettleCall(q, c, Some(User(f)), RejectOf(c)), fuel) == Run(m, Normal(Undefined));
    }

    /** A promise `q` whose one fulfilment observer is the `settle` closure
        of `q.then(cb)` for its promise `c`, resolved with a value `v` that
        is no promise, where the host callback returns `w` for `v` and
        resolving `c` with `w` ends normally in `m`: the run ends there,
        with `q` settled with `v` before and cleared after. */
    lemma {:induction false} CallbackHop(s: St, q: nat, c: nat, f: nat, v: Val, fuel: nat, m: St)
      requires q < |s.cells| && c < |s.cells| && fuel >= 2 && !IsPromise(v, |s.cells|) && user(f, v).Returned?
      requires !s.cells[q].cleared && s.cells[q].ful == [Settle(q, c, Some(User(f)), RejectOf(c))]
      requires var x := Settle(q, c, Some(User(f)), RejectOf(c));
        var s1 := s.(cells := s.cells[q := Mark(s.cells[q], Fulfilled, v, policy)],
                     log := s.log + [Transisted(q, Fulfilled, v), Fired(x, v)]);
        Exec(s1, ResolveCall(c, Fulfilled, user(f, v).v), fuel - 1) == Run(m, Normal(Undefined))
      requires q < |m.cells|
      ensures Exec(s, ResolveCall(q, Fulfilled, v), fuel) ==
        Run(m.(cells := m.cells[q := m.cells[q].(ful := [], rej := [], cleared := true)]), Normal(Undefined))
    {
      var x := Settle(q, c, Some(User(f)), RejectOf(c));
      var s1 := s.(cells := s.cells[q := Mark(s.cells[q], Fulfilled, v, policy)], log := s.log + [Transisted(q, Fulfilled, v)]);
      assert s1.(log := s1.log + [Fired(x, v)]).log == s.log + [Transisted(q, Fulfilled, v), Fired(x, v)];
      CallbackEntryFires(s1, q, c, f, v, fuel, m);
      OneObserverFulfils(s, q, x, v, fuel, Run(m, Normal(Undefined)));
    }

    /** A chain `a.then(cb).then(cb')` made while `a` was pending, with
        promises `b` and `c`, and `a` resolved with a value `v` that is no
        promise, where the callbacks return plain values: `a`, `b` and `c`
        settle in that order, each with the result of the callback on the
        previous value, and each is cleared; nothing else changes. */
    lemma {:induction false} TwoHops(s: St, a: nat, b: nat, c: nat, f: nat, g: nat, v: Val, fuel: nat)
      requires a < |s.cells| && b < |s.cells| && c < |s.cells| && a != b && b != c && a != c && fuel >= 3
      requires !s.cells[a].cleared && s.cells[a].ful == [Settle(a, b, Some(User(f)), RejectOf(b))]
      requires !s.cells[b].cleared && s.cells[b].ful == [Settle(b, c, Some(User(g)), RejectOf(c))]
      requires !s.cells[c].cleared && s.cells[c].ful == []
      requires user(f, v).Returned? && user(g, user(f, v).v).Returned?
      requires !IsPromise(v, |s.cells|) && !IsPromise(user(f, v).v, |s.cells|) && !IsPromise(user(g, user(f, v).v).v, |s.cells|)
      ensures var w := user(f, v).v; var z := user(g, w).v;
        Exec(s, ResolveCall(a, Fulfilled, v), fuel) ==
        Run(s.(cells := s.cells[c := AfterTransist(s.cells[c], Fulfilled, z, policy)]
                                [b := AfterTransist(s.cells[b], Fulfilled, w, policy)]
                                [a := AfterTransist(s.cells[a], Fulfilled, v, policy)],
               log := s.log + [Transisted(a, Fulfilled, v), Fired(Settle(a, b, Some(User(f)), RejectOf(b)), v),
                               Transisted(b, Fulfilled, w), Fired(Settle(b, c, Some(User(g)), RejectOf(c)), w),
                               Transisted(c, Fulfilled, z)]),
            Normal(Undefined))
    {
      var w := user(f, v).v;
      var z := user(g, w).v;
      var xa, xb := Settle(a, b, Some(User(f)), RejectOf(b)), Settle(b, c, Some(User(g)), RejectOf(c));
      var s1 := s.(cells := s.cells[a := Mark(s.cells[a], Fulfilled, v, policy)],
                   log := s.log + [Transisted(a, Fulfilled, v), Fired(xa, v)]);
      var u1 := s1.(cells := s1.cells[b := Mark(s1.cells[b], Fulfilled, w, policy)],
                    log := s1.log + [Transisted(b, Fulfilled, w), Fired(xb, w)]);
      LeafFulfils(u1, c, z, fuel - 2);
      var m2 := u1.(cells := u1.cells[c := AfterTransist(u1.cells[c], Fulfilled, z, policy)],
                    log := u1.log + [Transisted(c, Fulfilled, z)]);
      CallbackHop(s1, b, c, g, w, fuel - 1, m2);
      var m1 := m2.(cells := m2.cells[b := m2.cells[b].(ful := [], rej := [], cleared := true)]);
      CallbackHop(s, a, b, f, v, fuel, m1);
      assert m1.cells[a := m1.cells[a].(ful := [], rej := [], cleared := true)] ==
             s.cells[c := AfterTransist(s.cells[c], Fulfilled, z, policy)]
                    [b := AfterTransist(s.cells[b], Fulfilled, w, policy)]
                    [a := AfterTransist(s.cells[a], Fulfilled, v, policy)];
    }

    /** `then(resolve)` of promise `id`, called on a promise `q` that is
        already fulfilled (not inside its setup function) with a plain
        value, while `id` is pending and observed by nobody: the `settle`
        closure runs at once inside the setup of the new promise `c`, so
        `id` settles with the value of `q`, then `c` with `undefined` while
        its setup function is still running, and `c` is returned. */
    lemma {:induction false} ThenOnFulfilled(s: St, id: nat, q: nat, fuel: nat)
      requires id < |s.cells| && q < |s.cells| && fuel >= 2
      requires !s.cells[id].cleared && s.cells[id].ful == []
      requires s.cells[q].state == Fulfilled && !(policy.syncBan && s.cells[q].sync) && !s.cells[q].value.Prom?
      ensures var c, pv := |s.cells|, s.cells[q].value;
        Exec(s, ThenCall(q, Some(ResolveOf(id)), None), fuel) ==
        Run(St(s.cells[id := AfterTransist(s.cells[id], Fulfilled, pv, policy)] +
                 [AfterTransist(FreshCell(), Fulfilled, Undefined, policy).(setupReturned := true)],
               s.aggs, s.log + [Transisted(id, Fulfilled, pv), Transisted(c, Fulfilled, Undefined)], s.reports),
            Normal(Prom(c)))
    {
      var c, pv := |s.cells|, s.cells[q].value;
      var s1 := s.(cells := s.cells + [FreshCell()]);
      var s3 := SettlesInSetup(s1, id, q, c, fuel);
      assert Exec(s3, FinishCall(c, Normal(Undefined)), fuel) ==
             Run(s3.(cells := s3.cells[c := s3.cells[c].(setupReturned := true)]), Normal(Prom(c)));
      assert s3.cells[c := s3.cells[c].(setupReturned := true)] ==
             s.cells[id := AfterTransist(s.cells[id], Fulfilled, pv, policy)] +
             [AfterTransist(FreshCell(), Fulfilled, Undefined, policy).(setupReturned := true)];
    }

    /** The setup function `then(resolve)` gives its child `c` when the
        parent `q` is already fulfilled with a plain value: `id`, then `c`,
        settle with no observer to run. */
    lemma {:induction false} SettlesInSetup(s: St, id: nat, q: nat, c: nat, fuel: nat) returns (t: St)
      requires id < |s.cells| && q < |s.cells| && c < |s.cells| && id != c && fuel >= 2
      requires !s.cells[id].cleared && s.cells[id].ful == [] && !s.cells[c].cleared && s.cells[c].ful == []
      requires s.cells[q].state == Fulfilled && !s.cells[q].value.Prom?
      ensures var pv := s.cells[q].value;
        t == s.(cells := s.cells[id := AfterTransist(s.cells[id], Fulfilled, pv, policy)]
                                [c := AfterTransist(s.cells[c], Fulfilled, Undefined, policy)],
                log := s.log + [Transisted(id, Fulfilled, pv), Transisted(c, Fulfilled, Undefined)])
      ensures Exec(s, ThenSetupCall(q, c, Some(ResolveOf(id)), ThenRej(None, c)), fuel) == Run(t, Normal(Undefined))
    {
      var pv := s.cells[q].value;
      LeafFulfils(s, id, pv, fuel - 2);
      var s2 := s.(cells := s.cells[id := AfterTransist(s.cells[id], Fulfilled, pv, policy)],
                   log := s.log + [Transisted(id, Fulfilled, pv)]);
      assert Exec(s, ApplyCall(ResolveOf(id), pv), fuel - 1) == Run(s2, Normal(Undefined));
      LeafFulfils(s2, c, Undefined, fuel - 1);
      t := s2.(cells := s2.cells[c := AfterTransist(s2.cells[c], Fulfilled, Undefined, policy)],
               log := s2.log + [Transisted(c, Fulfilled, Undefined)]);
      assert Exec(s, TrySettleCall(q, c, Some(ResolveOf(id))), fuel) == Run(t, Normal(Undefined));
      assert Exec(s, RunSettleCall(q, c, Some(ResolveOf(id)), ThenRej(None, c)), fuel) == Run(t, Normal(Undefined));
    }

    /** `resolve` of a pending promise `id` observed by nobody, called with
        a promise `q` that is already fulfilled (not inside its setup
        function) with a plain value, in index.js and the global build: `id`
        settles with the value of `q`, and then the rejection wiring throws,
        because the promise `q.then(resolve)` returned was resolved inside
        its own setup function: `.catch` refuses it in index.js and
        `.then(null, reject)` in the global build. */
    lemma {:induction false} FollowFulfilledThrows(s: St, id: nat, q: nat, fuel: nat)
      requires id < |s.cells| && q < |s.cells| && fuel >= 2 && policy.syncBan
      requires !s.cells[id].cleared && s.cells[id].ful == []
      requires s.cells[q].state == Fulfilled && !s.cells[q].sync && !s.cells[q].value.Prom?
      ensures var c, pv := |s.cells|, s.cells[q].value;
        Exec(s, ResolveCall(id, Fulfilled, Prom(q)), fuel) ==
        Run(St(s.cells[id := AfterTransist(s.cells[id], Fulfilled, pv, policy)] +
                 [AfterTransist(FreshCell(), Fulfilled, Undefined, policy).(setupReturned := true)],
               s.aggs, s.log + [Transisted(id, Fulfilled, pv), Transisted(c, Fulfilled, Undefined)], s.reports),
            Raise(Error(if policy.addReject then ThenOnSync else CatchOnSync)))
    {
      var c := |s.cells|;
      ThenOnFulfilled(s, id, q, fuel);
      var r1 := Exec(s, ThenCall(q, Some(ResolveOf(id)), None), fuel);
      assert r1.o == Normal(Prom(c)) && r1.s.cells[c].sync;
      var e := Error(if policy.addReject then ThenOnSync else CatchOnSync);
      if policy.addReject {
        assert Exec(r1.s, ThenCall(c, None, Some(RejectOf(id))), fuel) == Run(r1.s, Raise(e));
      } else {
        assert Exec(r1.s, CatchCall(c, RejectOf(id)), fuel) == Run(r1.s, Raise(e));
      }
      assert Exec(s, FollowCall(id, q, ResolveOf(id)), fuel) == Run(r1.s, Raise(e));
    }

    // Exact runs of a rejection passed along the wiring of `.then(..)`
    // followed by `.catch(reject)` (index.js) or `.then(null, reject)`
    // (the global build), in the builds where a rejection nobody observes
    // throws: every promise on the way is marked rejected and none is
    // cleared, and the reason leaves the first `reject`.

    /** A promise observed by nobody, rejected with a value that is no
        promise: it is marked rejected, not cleared, and the reason is
        thrown. */
    lemma {:induction false} LeafRejectThrows(s: St, id: nat, v: Val, fuel: nat)
      requires policy.fatalUnhandled
      requires id < |s.cells| && !s.cells[id].cleared && s.cells[id].rej == [] && !IsPromise(v, |s.cells|)
      ensures Exec(s, ResolveCall(id, Rejected, v), fuel) ==
        Run(s.(cells := s.cells[id := Mark(s.cells[id], Rejected, v, policy)],
               log := s.log + [Transisted(id, Rejected, v)]), Raise(v))
    {
      assert Exec(s, ResolveCall(id, Rejected, v), fuel) == Exec(s, TransistCall(id, v, Rejected), fuel);
    }

    /** A promise `id` whose one rejection observer is `x`, rejected with a
        value that is no promise, where firing `x` once `id` is marked
        throws in `r`: the loop logs where it stopped and the exception
        leaves `reject`, with `id` not cleared. */
    lemma {:induction false} OneObserverThrows(s: St, id: nat, x: Reaction, v: Val, fuel: nat, r: Run)
      requires id < |s.cells| && !s.cells[id].cleared && s.cells[id].rej == [x] && !IsPromise(v, |s.cells|)
      requires var s1 := s.(cells := s.cells[id := Mark(s.cells[id], Rejected, v, policy)],
                            log := s.log + [Transisted(id, Rejected, v)]);
               Exec(s1, FireCall(x, v), fuel) == r
      requires r.o.Raise?
      ensures Exec(s, ResolveCall(id, Rejected, v), fuel) == Run(r.s.(log := r.s.log + [Stopped(x, r.o.e)]), r.o)
    {
      var s1 := s.(cells := s.cells[id := Mark(s.cells[id], Rejected, v, policy)], log := s.log + [Transisted(id, Rejected, v)]);
      assert Exec(s1, ObserversCall([x], 0, v), fuel) == Run(r.s.(log := r.s.log + [Stopped(x, r.o.e)]), r.o);
      assert Exec(s, TransistCall(id, v, Rejected), fuel) == Exec(s1, NotifyCall(id, [x], v), fuel);
    }

    /** The `settle` closure of `.catch(reject)` on a rejected promise `t`,
        whose callback is the `reject` of promise `k`: both `k` and the
        `catch` promise `u`, observed by nobody, are marked rejected with
        the reason, and the reason is thrown. */
    lemma {:induction false} SettleRejectThrows(s: St, t: nat, u: nat, k: nat, v: Val, fuel: nat)
      requires policy.fatalUnhandled && fuel >= 2
      requires t < |s.cells| && u < |s.cells| && k < |s.cells| && k != u && !IsPromise(v, |s.cells|)
      requires s.cells[t].value == v
      requires !s.cells[k].cleared && s.cells[k].rej == [] && !s.cells[u].cleared && s.cells[u].rej == []
      ensures var x := Settle(t, u, Some(RejectOf(k)), RejectOf(u));
        Exec(s, FireCall(x, v), fuel) ==
        Run(s.(cells := s.cells[k := Mark(s.cells[k], Rejected, v, policy)][u := Mark(s.cells[u], Rejected, v, policy)],
               log := s.log + [Fired(x, v), Transisted(k, Rejected, v), Transisted(u, Rejected, v)]), Raise(v))
    {
      var x := Settle(t, u, Some(RejectOf(k)), RejectOf(u));
      var s1 := s.(log := s.log + [Fired(x, v)]);
      LeafRejectThrows(s1, k, v, fuel - 2);
      var s2 := s1.(cells := s1.cells[k := Mark(s1.cells[k], Rejected, v, policy)], log := s1.log + [Transisted(k, Rejected, v)]);
      assert Exec(s1, ApplyCall(RejectOf(k), v), fuel - 1) == Run(s2, Raise(v));
      assert Exec(s1, TrySettleCall(t, u, Some(RejectOf(k))), fuel) == Run(s2, Raise(v));
      LeafRejectThrows(s2, u, v, fuel - 2);
      var s3 := s2.(cells := s2.cells[u := Mark(s2.cells[u], Rejected, v, policy)], log := s2.log + [Transisted(u, Rejected, v)]);
      assert Exec(s2, ApplyCall(RejectOf(u), v), fuel - 1) == Run(s3, Raise(v));
      assert Exec(s1, RunSettleCall(t, u, Some(RejectOf(k)), RejectOf(u)), fuel) == Run(s3, Raise(v));
    }

    /** `p.then(..).catch(reject)` of index.js, with `p` = `q` pending and
        observed only by that wiring, `t` the promise of the `then`, `t + 1`
        the promise of the `catch` and `k` the promise whose `reject` it is,
        observed by nobody: rejecting `q` marks `q`, `t`, `k` and `t + 1`
        rejected in that order, clears none of them, and throws the reason
        out of `reject`. */
    lemma {:induction false} CaughtRejectThrows(s: St, q: nat, t: nat, k: nat, v: Val, fuel: nat)
      requires policy.fatalUnhandled && fuel >= 3
      requires q < |s.cells| && t + 1 < |s.cells| && k < |s.cells| && !IsPromise(v, |s.cells|)
      requires q != t && q != t + 1 && q != k && t != k && t + 1 != k
      requires !s.cells[q].cleared && s.cells[q].rej == [Call(RejectOf(t))]
      requires !s.cells[t].cleared && s.cells[t].rej == [Settle(t, t + 1, Some(RejectOf(k)), RejectOf(t + 1))]
      requires !s.cells[k].cleared && s.cells[k].rej == [] && !s.cells[t + 1].cleared && s.cells[t + 1].rej == []
      ensures var xq, xt := Call(RejectOf(t)), Settle(t, t + 1, Some(RejectOf(k)), RejectOf(t + 1));
        Exec(s, ResolveCall(q, Rejected, v), fuel) ==
        Run(s.(cells := s.cells[q := Mark(s.cells[q], Rejected, v, policy)][t := Mark(s.cells[t], Rejected, v, policy)]
                                [k := Mark(s.cells[k], Rejected, v, policy)][t + 1 := Mark(s.cells[t + 1], Rejected, v, policy)],
               log := s.log + [Transisted(q, Rejected, v), Fired(xq, v), Transisted(t, Rejected, v), Fired(xt, v),
                               Transisted(k, Rejected, v), Transisted(t + 1, Rejected, v), Stopped(xt, v), Stopped(xq, v)]),
            Raise(v))
    {
      var xq, xt := Call(RejectOf(t)), Settle(t, t + 1, Some(RejectOf(k)), RejectOf(t + 1));
      var s1 := s.(cells := s.cells[q := Mark(s.cells[q], Rejected, v, policy)], log := s.log + [Transisted(q, Rejected, v)]);
      var s2 := s1.(log := s1.log + [Fired(xq, v)]);
      var s3 := s2.(cells := s2.cells[t := Mark(s2.cells[t], Rejected, v, policy)], log := s2.log + [Transisted(t, Rejected, v)]);
      SettleRejectThrows(s3, t, t + 1, k, v, fuel - 1);
      var r := Exec(s3, FireCall(xt, v), fuel - 1);
      OneObserverThrows(s2, t, xt, v, fuel - 1, r);
      var r2 := Exec(s2, ResolveCall(t, Rejected, v), fuel - 1);
      assert Exec(s2, ApplyCall(RejectOf(t), v), fuel) == r2;
      assert Exec(s1, FireCall(xq, v), fuel) == r2;
      OneObserverThrows(s, q, xq, v, fuel, r2);
    }

    /** `p.then(..).then(null, reject)` of the global build, with `p` = `q`
        pending and observed only by that wiring, `t` the promise of the
        first `then` and `k` the promise whose `reject` the errback is,
        observed by nobody: rejecting `q` marks `q`, `t` and `k` rejected in
        that order, clears none of them, and throws the reason out of
        `reject`. */
    lemma {:induction false} ErrbackRejectThrows(s: St, q: nat, t: nat, k: nat, v: Val, fuel: nat)
      requires policy.fatalUnhandled && fuel >= 2
      requires q < |s.cells| && t < |s.cells| && k < |s.cells| && !IsPromise(v, |s.cells|)
      requires q != t && q != k && t != k
      requires !s.cells[q].cleared && s.cells[q].rej == [Call(RejectOf(t))]
      requires !s.cells[t].cleared && s.cells[t].rej == [Call(RejectOf(k))]
      requires !s.cells[k].cleared && s.cells[k].rej == []
      ensures var xq, xt := Call(RejectOf(t)), Call(RejectOf(k));
        Exec(s, ResolveCall(q, Rejected, v), fuel) ==
        Run(s.(cells := s.cells[q := Mark(s.cells[q], Rejected, v, policy)][t := Mark(s.cells[t], Rejected, v, policy)]
                                [k := Mark(s.cells[k], Rejected, v, policy)],
               log := s.log + [Transisted(q, Rejected, v), Fired(xq, v), Transisted(t, Rejected, v), Fired(xt, v),
                               Transisted(k, Rejected, v), Stopped(xt, v), Stopped(xq, v)]),
            Raise(v))
    {
      var xq, xt := Call(RejectOf(t)), Call(RejectOf(k));
      var s1 := s.(cells := s.cells[q := Mark(s.cells[q], Rejected, v, policy)], log := s.log + [Transisted(q, Rejected, v)]);
      var s2 := s1.(log := s1.log + [Fired(xq, v)]);
      var s3 := s2.(cells := s2.cells[t := Mark(s2.cells[t], Rejected, v, policy)], log := s2.log + [Transisted(t, Rejected, v)]);
      var s4 := s3.(log := s3.log + [Fired(xt, v)]);
      LeafRejectThrows(s4, k, v, fuel - 2);
      var r := Exec(s4, ResolveCall(k, Rejected, v), fuel - 2);
      assert Exec(s4, ApplyCall(RejectOf(k), v), fuel - 1) == r;
      assert Exec(s3, FireCall(xt, v), fuel - 1) == r;
      OneObserverThrows(s2, t, xt, v, fuel - 1, r);
      var r2 := Exec(s2, ResolveCall(t, Rejected, v), fuel - 1);
      assert Exec(s2, ApplyCall(RejectOf(t), v), fuel) == r2;
      assert Exec(s1, FireCall(xq, v), fuel) == r2;
      OneObserverThrows(s, q, xq, v, fuel, r2);
    }

    /** Entry `q` of `all` number `k`, followed as slot `i` (its one
        fulfilment observer is the `settle` closure of `q.then(slot i)`,
        whose promise `t` relays to the promise `t + 1` of `.catch(reject)`),
        resolved with a value that is no promise: `q`, `t` and `t + 1`
        fulfil in that order, the value is stored in the slot and the
        counter goes down by one; when it reaches zero the aggregate's
        promise fulfils with the array between the first two. Nothing else
        changes: no other cell, no other aggregate, no report. */
    lemma {:induction false} AllEntryFulfils(s: St, q: nat, t: nat, k: nat, i: nat, v: Val, fuel: nat)
      requires q < |s.cells| && t + 1 < |s.cells| && q != t && q != t + 1 && fuel >= 2 && !IsPromise(v, |s.cells|)
      requires !s.cells[q].cleared && s.cells[q].ful == [Settle(q, t, Some(AllSlot(k, i)), RejectOf(t))]
      requires !s.cells[t].cleared && s.cells[t].ful == [Call(ResolveOf(t + 1))]
      requires !s.cells[t + 1].cleared && s.cells[t + 1].ful == []
      requires k < |s.aggs| && s.aggs[k].AllAgg? && i < |s.aggs[k].items|
      requires var a := s.aggs[k];
        a.count == 1 ==> a.cell < |s.cells| && !s.cells[a.cell].cleared && s.cells[a.cell].ful == [] &&
                         a.cell != q && a.cell != t && a.cell != t + 1
      ensures var a := s.aggs[k];
        var c := if a.count == 1 then s.cells[a.cell := AfterTransist(s.cells[a.cell], Fulfilled, Arr(k), policy)] else s.cells;
        Exec(s, ResolveCall(q, Fulfilled, v), fuel) ==
        Run(St(c[t + 1 := AfterTransist(s.cells[t + 1], Fulfilled, Undefined, policy)]
                [t := AfterTransist(s.cells[t], Fulfilled, Undefined, policy)]
                [q := AfterTransist(s.cells[q], Fulfilled, v, policy)],
               s.aggs[k := a.(items := a.items[i := v], count := a.count - 1)],
               s.log + [Transisted(q, Fulfilled, v), Fired(Settle(q, t, Some(AllSlot(k, i)), RejectOf(t)), v)] +
                 (if a.count == 1 then [Transisted(a.cell, Fulfilled, Arr(k))] else []) +
                 [Transisted(t, Fulfilled, Undefined), Fired(Call(ResolveOf(t + 1)), Undefined),
                  Transisted(t + 1, Fulfilled, Undefined)],
               s.reports),
            Normal(Undefined))
    {
      var a := s.aggs[k];
      var x := Settle(q, t, Some(AllSlot(k, i)), RejectOf(t));
      var s1 := s.(cells := s.cells[q := Mark(s.cells[q], Fulfilled, v, policy)], log := s.log + [Transisted(q, Fulfilled, v)]);
      var s2 := s1.(log := s1.log + [Fired(x, v)]);
      SlotFills(s2, k, i, v, fuel - 1);
      var m := Exec(s2, ApplyCall(AllSlot(k, i), v), fuel - 1).s;
      var landed := if a.count == 1 then [Transisted(a.cell, Fulfilled, Arr(k))] else [];
      var c := if a.count == 1 then s.cells[a.cell := AfterTransist(s.cells[a.cell], Fulfilled, Arr(k), policy)] else s.cells;
      assert m.cells == c[q := s1.cells[q]] && m.log == s2.log + landed && m.reports == s.reports;
      SlotEntryFires(s1, q, t, k, i, v, fuel, m);
      var r := Exec(s1, FireCall(x, v), fuel);
      OneObserverFulfils(s, q, x, v, fuel, r);
      assert s2.log == s.log + [Transisted(q, Fulfilled, v), Fired(x, v)];
      var b, d := AfterTransist(s.cells[t + 1], Fulfilled, Undefined, policy), AfterTransist(s.cells[t], Fulfilled, Undefined, policy);
      assert m.cells[t] == s.cells[t] && m.cells[t + 1] == s.cells[t + 1];
      assert r.s.cells == c[q := s1.cells[q]][t + 1 := b][t := d];
      Overwritten(c, q, t + 1, t, s1.cells[q], b, d, AfterTransist(s.cells[q], Fulfilled, v, policy));
    }

    /** A host setup function that calls `resolve`/`reject` of the fresh
        promise `id` as `script` says, stopping at the first exception: only
        the first call settles. */
    method RunScript(id: nat, script: seq<Act>, fuel: nat) returns (o0: Outcome)
      requires id < |cells| && cells[id] == FreshCell()
      requires forall j :: 0 <= j < |script| ==> Known(script[j].v, |cells|)
      modifies this
      ensures id < |cells|
      ensures Evolved(old(cells), old(aggs), old(log), old(reports))
      ensures |script| == 0 ==> o0 == Normal(Undefined) && Unchanged(old(cells), old(aggs), old(log), old(reports))
      ensures |script| > 0 && !script[0].v.Prom? ==>
        var st, v := ActState(script[0]), script[0].v;
        Unchanged(old(cells)[id := AfterTransist(FreshCell(), st, v, policy)], old(aggs),
                  old(log) + [Transisted(id, st, v)],
                  old(reports) + (if script[0].Rej? && !policy.fatalUnhandled then [id] else [])) &&
        o0 == (if script[0].Rej? && policy.fatalUnhandled then Raise(v) else Normal(Undefined))
    {
      o0 := Normal(Undefined);
      var i := 0;
      while i < |script| && o0.Normal?
        invariant 0 <= i <= |script|
        invariant id < |cells|
        invariant Evolved(old(cells), old(aggs), old(log), old(reports))
        invariant ScriptLoop(old(cells), old(aggs), old(log), old(reports), id, script, i, o0)
      {
        o0 := ScriptRound(old(cells), old(aggs), old(log), old(reports), id, script, i, o0, fuel);
        i := i + 1;
      }
    }

    /** The loop of `RunScript` after `i` calls, from `c0`, `a0`, `l0`,
        `r0`: no call changes anything, or the first call alone settled
        promise `id` (a fatal rejection ending the loop). */
    ghost predicate ScriptLoop(c0: seq<Cell>, a0: seq<Agg>, l0: seq<Event>, r0: seq<nat>,
                               id: nat, script: seq<Act>, i: nat, o0: Outcome)
      reads this
      requires id < |c0| && i <= |script|
    {
      (i == 0 ==> o0 == Normal(Undefined) && Unchanged(c0, a0, l0, r0)) &&
      (i > 0 && !script[0].v.Prom? ==>
         var st, v := ActState(script[0]), script[0].v;
         var c2 := c0[id := AfterTransist(FreshCell(), st, v, policy)];
         (script[0].Res? || !policy.fatalUnhandled ==>
            o0 == Normal(Undefined) && Unchanged(c2, a0, l0 + [Transisted(id, st, v)], r0 + (if script[0].Rej? then [id] else []))) &&
         (script[0].Rej? && policy.fatalUnhandled ==>
            i == 1 && o0 == Raise(v) && Unchanged(c2, a0, l0 + [Transisted(id, st, v)], r0)))
    }

    /** Call `i` of the script of `RunScript`. */
    method ScriptRound(ghost c0: seq<Cell>, ghost a0: seq<Agg>, ghost l0: seq<Event>, ghost r0: seq<nat>,
                       id: nat, script: seq<Act>, i: nat, ghost ob: Outcome, fuel: nat) returns (o0: Outcome)
      requires id < |c0| && c0[id] == FreshCell() && i < |script|
      requires forall j :: 0 <= j < |script| ==> Known(script[j].v, |c0|)
      requires id < |cells| && Evolved(c0, a0, l0, r0)
      requires ScriptLoop(c0, a0, l0, r0, id, script, i, ob) && ob.Normal?
      modifies this
      ensures id < |cells| && Evolved(c0, a0, l0, r0)
      ensures ScriptLoop(c0, a0, l0, r0, id, script, i + 1, o0)
    {
      ghost var cb := cells;
      if script[i].Res? {
        o0 := Resolve(id, script[i].v, fuel);
      } else {
        o0 := Reject(id, script[i].v, fuel);
      }
      StableTrans(c0, cb, cells);
    }

    /** The setup function of `all`: the `forEach` over the entries. */
    method AllSetup(id: nat, k: nat, items: seq<Val>, fuel: nat) returns (o0: Outcome)
      requires id < |cells| && k < |aggs| && aggs[k] == AllAgg(id, items, |items|) && Unobserved(cells[id])
      requires forall j :: 0 <= j < |items| ==> Known(items[j], |cells|)
      modifies this
      ensures Evolved(old(cells), old(aggs), old(log), old(reports))
      ensures k < |aggs| && aggs[k].AllAgg? && aggs[k].cell == id && |aggs[k].items| == |items|
      ensures AllSetUp(old(cells), old(aggs), old(log), old(reports), cells, aggs, log, reports, id, k, items, o0)
    {
      ghost var c1, a1, l1, r1 := cells, aggs, log, reports;
      var hasPromises := false;
      o0 := Normal(Undefined);
      var i := 0;
      assert a1[k := AllAgg(id, items, |items|)] == a1;
      while i < |items| && o0.Normal?
        invariant 0 <= i <= |items|
        invariant id < |cells| && k < |aggs| && aggs[k].AllAgg? && aggs[k].cell == id && |aggs[k].items| == |items|
        invariant Evolved(c1, a1, l1, r1)
        invariant AllLoop(c1, a1, l1, r1, cells, aggs, log, reports, id, k, items, i, hasPromises, o0)
      {
        hasPromises, o0 := AllRound(c1, a1, l1, r1, id, k, items, i, hasPromises, o0, fuel);
        i := i + 1;
      }
      AllLoopEnd(c1, a1, l1, r1, cells, aggs, log, reports, id, k, items, i, hasPromises, o0);
    }

    /** One round of the loop of `AllSetup`: entry `i` is set up and the
        loop's account of the entries before it extends to entry `i`. */
    method AllRound(ghost c1: seq<Cell>, ghost a1: seq<Agg>, ghost l1: seq<Event>, ghost r1: seq<nat>,
                    id: nat, k: nat, items: seq<Val>, i: nat, hb: bool, ghost ob: Outcome, fuel: nat)
      returns (hasPromises: bool, o0: Outcome)
      requires id < |c1| && Unobserved(c1[id]) && k < |a1| && a1[k].AllAgg? && i < |items|
      requires forall j :: 0 <= j < |items| ==> Known(items[j], |c1|)
      requires id < |cells| && k < |aggs| && aggs[k].AllAgg? && aggs[k].cell == id && |aggs[k].items| == |items|
      requires Evolved(c1, a1, l1, r1)
      requires AllLoop(c1, a1, l1, r1, cells, aggs, log, reports, id, k, items, i, hb, ob) && ob.Normal?
      modifies this
      ensures id < |cells| && k < |aggs| && aggs[k].AllAgg? && aggs[k].cell == id && |aggs[k].items| == |items|
      ensures Evolved(c1, a1, l1, r1)
      ensures AllLoop(c1, a1, l1, r1, cells, aggs, log, reports, id, k, items, i + 1, hasPromises, o0)
    {
      ghost var cb, ab, lb, rb := cells, aggs, log, reports;
      hasPromises := hb || IsPromise(items[i], |cells|);
      o0 := AllEntry(id, k, items, i, hasPromises, fuel);
      EvolvedTrans(c1, a1, l1, r1, cb, ab, lb, rb);
      AllStep(c1, a1, l1, r1, cb, ab, lb, rb, id, k, items, i, hb, hasPromises, ob, o0);
    }

    /** What the setup function of `all` number `k` (promise `id`), run
        from `c1`, `a1`, `l1`, `r1`, guarantees of the state `c`, `a`, `l`,
        `r` it ends in: with only plain entries, an empty input changes
        nothing, the global build refuses, and the others count down to
        zero and resolve with the array; with a promise entry, all of them
        pending, each is followed and the counter keeps one for each. */
    ghost predicate AllSetUp(c1: seq<Cell>, a1: seq<Agg>, l1: seq<Event>, r1: seq<nat>,
                             c: seq<Cell>, a: seq<Agg>, l: seq<Event>, r: seq<nat>,
                             id: nat, k: nat, items: seq<Val>, o0: Outcome)
      requires id < |c1| && !c1[id].cleared && k < |a1|
      requires forall j :: 0 <= j < |items| ==> Known(items[j], |c1|)
    {
      ((forall j :: 0 <= j < |items| ==> !items[j].Prom?) ==>
         (|items| == 0 ==> o0 == Normal(Undefined) && c == c1 && a == a1 && l == l1 && r == r1) &&
         (|items| > 0 && policy.allNeedsPromise ==>
            o0 == Raise(Error(AtLeastOnePromise)) && c == c1 && a == a1[k := AllAgg(id, items, 0)] && l == l1 && r == r1) &&
         (|items| > 0 && !policy.allNeedsPromise ==>
            SettledIn(St(c1, a1[k := AllAgg(id, items, 0)], l1, r1), St(c, a, l, r), id, Fulfilled, Arr(k), o0))) &&
      (Proms(items) > 0 && Followable(c1, items) ==>
         o0 == Normal(Undefined) && c == WireEntries(c1, items, k, id, false) &&
         a == a1[k := AllAgg(id, items, Proms(items))] && l == l1 && r == r1)
    }

    /** The loop of `AllSetup` ends after the last entry or at an exception. */
    lemma {:induction false} AllLoopEnd(c1: seq<Cell>, a1: seq<Agg>, l1: seq<Event>, r1: seq<nat>,
                                        c: seq<Cell>, a: seq<Agg>, l: seq<Event>, r: seq<nat>,
                                        id: nat, k: nat, items: seq<Val>, i: nat, hasPromises: bool, o0: Outcome)
      requires id < |c1| && !c1[id].cleared && k < |a1| && a1[k] == AllAgg(id, items, |items|) && i <= |items|
      requires forall j :: 0 <= j < |items| ==> Known(items[j], |c1|)
      requires AllLoop(c1, a1, l1, r1, c, a, l, r, id, k, items, i, hasPromises, o0)
      requires i == |items| || o0.Raise?
      ensures AllSetUp(c1, a1, l1, r1, c, a, l, r, id, k, items, o0)
    {
      assert items[..|items|] == items;
      assert a1[k := AllAgg(id, items, |items|)] == a1;
    }

    /** The loop of `AllSetup` after entries `0..i`, in state `c`, `a`, `l`,
        `r` reached from `c1`, `a1`, `l1`, `r1`: while the entries are all
        plain, no promise has been seen and the counter went down once for
        each entry (ending in the refusal of the global build or the
        resolution with the array); when there is a promise entry and every
        promise entry is pending, the entries before `i` are followed. */
    ghost predicate AllLoop(c1: seq<Cell>, a1: seq<Agg>, l1: seq<Event>, r1: seq<nat>,
                            c: seq<Cell>, a: seq<Agg>, l: seq<Event>, r: seq<nat>,
                            id: nat, k: nat, items: seq<Val>, i: nat, hasPromises: bool, o0: Outcome)
      requires id < |c1| && !c1[id].cleared && k < |a1| && i <= |items|
      requires forall j :: 0 <= j < |items| ==> Known(items[j], |c1|)
    {
      ((forall j :: 0 <= j < i ==> !items[j].Prom?) ==>
         !hasPromises &&
         (i < |items| || i == 0 ==>
            o0 == Normal(Undefined) && c == c1 && a == a1[k := AllAgg(id, items, |items| - i)] && l == l1 && r == r1) &&
         (i == |items| && i > 0 && policy.allNeedsPromise ==>
            o0 == Raise(Error(AtLeastOnePromise)) && c == c1 && a == a1[k := AllAgg(id, items, 0)] && l == l1 && r == r1) &&
         (i == |items| && i > 0 && !policy.allNeedsPromise ==>
            SettledIn(St(c1, a1[k := AllAgg(id, items, 0)], l1, r1), St(c, a, l, r), id, Fulfilled, Arr(k), o0))) &&
      (Proms(items) > 0 && Followable(c1, items) ==>
         o0 == Normal(Undefined) && l == l1 && r == r1 && AllWired(c1, a1, c, a, items, k, id, i))
    }

    /** Entry `i` of the loop of `AllSetup`, run from state `cb`, `ab`,
        `lb`, `rb` as `AllEntry` promises, keeps `AllLoop`. */
    lemma {:induction false} AllStep(c1: seq<Cell>, a1: seq<Agg>, l1: seq<Event>, r1: seq<nat>,
                  cb: seq<Cell>, ab: seq<Agg>, lb: seq<Event>, rb: seq<nat>,
                  id: nat, k: nat, items: seq<Val>, i: nat, hb: bool, hasPromises: bool, ob: Outcome, o: Outcome)
      requires id < |c1| && Unobserved(c1[id]) && k < |a1| && a1[k].AllAgg? && i < |items|
      requires forall j :: 0 <= j < |items| ==> Known(items[j], |c1|)
      requires id < |cb| && |c1| <= |cb| && k < |ab| && ab[k].AllAgg? && Known(items[i], |cb|)
      requires AllLoop(c1, a1, l1, r1, cb, ab, lb, rb, id, k, items, i, hb, ob) && ob.Normal?
      requires hasPromises == (hb || items[i].Prom?)
      requires EntryDone(cb, ab, lb, rb, id, k, items, i, hasPromises, o)
      ensures AllLoop(c1, a1, l1, r1, cells, aggs, log, reports, id, k, items, i + 1, hasPromises, o)
    {
      if forall j :: 0 <= j < i + 1 ==> !items[j].Prom? {
        assert !items[i].Prom?;
        assert ab[k].(count := ab[k].count - 1) == AllAgg(id, items, |items| - (i + 1));
      }
      if Proms(items) > 0 && Followable(c1, items) {
        AllFollowStep(c1, a1, cb, ab, lb, rb, items, k, id, i, hasPromises, o);
      }
    }

    /** What the `forEach` callback of `all` number `k` for entry `i`
        guarantees, from state `c0`, `a0`, `l0`, `r0`: a pending promise
        entry is followed with the callback of slot `i`; a plain entry
        counts down, and the count reaching zero resolves the aggregate
        with the array unless the global build has seen no promise entry. */
    ghost predicate EntryDone(c0: seq<Cell>, a0: seq<Agg>, l0: seq<Event>, r0: seq<nat>,
                              id: nat, k: nat, items: seq<Val>, i: nat, hasPromises: bool, o: Outcome)
      reads this
      requires id < |c0| && k < |a0| && a0[k].AllAgg? && i < |items| && Known(items[i], |c0|)
    {
      (items[i].Prom? && c0[items[i].id].state == Pending && !(policy.syncBan && c0[items[i].id].sync) ==>
         Followed(St(c0, a0, l0, r0), St(cells, aggs, log, reports), id, items[i].id, AllSlot(k, i), o)) &&
      (!items[i].Prom? ==>
         var a' := a0[k].(count := a0[k].count - 1);
         (a'.count != 0 ==> o == Normal(Undefined) && Unchanged(c0, a0[k := a'], l0, r0)) &&
         (a'.count == 0 && policy.allNeedsPromise && !hasPromises ==>
            o == Raise(Error(AtLeastOnePromise)) && Unchanged(c0, a0[k := a'], l0, r0)) &&
         (a'.count == 0 && !(policy.allNeedsPromise && !hasPromises) && Unobserved(c0[id]) ==>
            SettledIn(St(c0, a0[k := a'], l0, r0), St(cells, aggs, log, reports), id, Fulfilled, Arr(k), o)))
    }

    /** The `forEach` callback of `all` number `k` (promise `id`) for entry
        `i`: a promise entry is followed, `p.then(slot).catch(reject)`, or
        `addReject(p.then(slot), reject)` in the global build, with `slot`
        the callback of slot `i`; a plain entry counts down, `--l ||
        resolve(promises)`, where the global build throws instead when no
        promise entry has been seen. */
    method AllEntry(id: nat, k: nat, items: seq<Val>, i: nat, hasPromises: bool, fuel: nat) returns (o: Outcome)
      requires id < |cells| && k < |aggs| && aggs[k].AllAgg? && aggs[k].cell == id
      requires i < |items| && Known(items[i], |cells|)
      modifies this
      ensures Evolved(old(cells), old(aggs), old(log), old(reports))
      ensures EntryDone(old(cells), old(aggs), old(log), old(reports), id, k, items, i, hasPromises, o)
    {
      var p := items[i];
      if IsPromise(p, |cells|) {
        o := Follow(id, p.id, AllSlot(k, i), fuel);
      } else {
        aggs := aggs[k := aggs[k].(count := aggs[k].count - 1)];
        if aggs[k].count != 0 {
          o := Normal(Undefined);
        } else if policy.allNeedsPromise && !hasPromises {
          o := Raise(Error(AtLeastOnePromise));
        } else {
          o := Resolve(id, Arr(k), fuel);
        }
      }
    }

    /** `SyncPromise.race(promises)` of the global build: every entry must
        be a promise; the first to fulfil resolves the aggregate and sets
        `resolved`, and any rejection goes to the aggregate's `reject`. */
    method Race(items: seq<Val>, fuel: nat) returns (o: Outcome)
      requires policy.race && policy.addReject
      requires forall j :: 0 <= j < |items| ==> Known(items[j], |cells|)
      modifies this
      ensures Evolved(old(cells), old(aggs), old(log), old(reports))
      ensures o.Normal? ==> o.v == Prom(|old(cells)|) && |old(cells)| < |cells|
      ensures |old(aggs)| < |aggs| && aggs[|old(aggs)|].RaceAgg? && aggs[|old(aggs)|].cell == |old(cells)|
      ensures o.Normal? && !policy.catchSetup ==> forall j :: 0 <= j < |items| ==> items[j].Prom?
      ensures |items| > 0 && !items[0].Prom? && !policy.catchSetup ==>
        o == Raise(Error(MustUsePromises)) &&
        Unchanged(old(cells) + [FreshCell()], old(aggs) + [RaceAgg(|old(cells)|, false)], old(log), old(reports))
      // the pending promise entries before the first plain one are followed with the winner callback, then it throws
      ensures FirstPlain(items) < |items| && Followable(old(cells), items[..FirstPlain(items)]) && !policy.catchSetup ==>
        o == Raise(Error(MustUsePromises)) &&
        Unchanged(WireEntries(old(cells) + [FreshCell()], items[..FirstPlain(items)], |old(aggs)|, |old(cells)|, true),
                  old(aggs) + [RaceAgg(|old(cells)|, false)], old(log), old(reports))
      ensures |items| == 0 ==>
        o == Normal(Prom(|old(cells)|)) &&
        Unchanged(old(cells) + [FreshCell().(setupReturned := true)], old(aggs) + [RaceAgg(|old(cells)|, false)],
                  old(log), old(reports))
      // every entry a pending promise: each is followed with the winner callback, and the aggregate stays pending
      ensures (forall j :: 0 <= j < |items| ==> items[j].Prom?) && Followable(old(cells), items) ==>
        o == Normal(Prom(|old(cells)|)) &&
        Unchanged(WireEntries(old(cells) + [FreshCell()], items, |old(aggs)|, |old(cells)|, true)
                    [|old(cells)| := FreshCell().(setupReturned := true)],
                  old(aggs) + [RaceAgg(|old(cells)|, false)], old(log), old(reports))
    {
      var k := |aggs|;
      aggs := aggs + [RaceAgg(|cells|, false)];
      var id := NewCell();
      ghost var c1, a1, l1, r1 := cells, aggs, log, reports;
      var o0 := RaceSetup(id, k, items, fuel);
      RaceFromFresh(old(cells), old(aggs), old(log), old(reports), cells, aggs, log, reports, items, o0);
      EvolvedTrans(old(cells), old(aggs), old(log), old(reports), c1, a1, l1, r1);
      ghost var c3, a3, l3, r3 := cells, aggs, log, reports;
      o := Finish(id, o0, fuel);
      EvolvedTrans(old(cells), old(aggs), old(log), old(reports), c3, a3, l3, r3);
    }

    /** `RaceSetUp` for a `race` whose aggregate and promise were just
        appended to `c0`, `a0`, restated over `c0`: the pending entries
        followed are pending in `c0`, and the fresh promise is left as it
        was. */
    lemma {:induction false} RaceFromFresh(c0: seq<Cell>, a0: seq<Agg>, l0: seq<Event>, r0: seq<nat>,
                                           c: seq<Cell>, a: seq<Agg>, l: seq<Event>, r: seq<nat>,
                                           items: seq<Val>, o0: Outcome)
      requires forall j :: 0 <= j < |items| ==> Known(items[j], |c0| + 1)
      requires RaceSetUp(c0 + [FreshCell()], a0 + [RaceAgg(|c0|, false)], l0, r0, c, a, l, r, |c0|, |a0|, items, o0)
      ensures FirstPlain(items) < |items| && Followable(c0, items[..FirstPlain(items)]) ==>
        o0 == Raise(Error(MustUsePromises)) &&
        c == WireEntries(c0 + [FreshCell()], items[..FirstPlain(items)], |a0|, |c0|, true) &&
        a == a0 + [RaceAgg(|c0|, false)] && l == l0 && r == r0
      ensures (forall j :: 0 <= j < |items| ==> items[j].Prom?) && Followable(c0, items) ==>
        o0 == Normal(Undefined) && |c0| < |c| && c[|c0|] == FreshCell() &&
        c == WireEntries(c0 + [FreshCell()], items, |a0|, |c0|, true) &&
        a == a0 + [RaceAgg(|c0|, false)] && l == l0 && r == r0
    {
      var n := FirstPlain(items);
      if n < |items| && Followable(c0, items[..n]) {
        FollowableFresh(c0, items[..n]);
      }
      if (forall j :: 0 <= j < |items| ==> items[j].Prom?) && Followable(c0, items) {
        FollowableFresh(c0, items);
        FreshSpared(c0, items, |a0|, true, c);
      }
    }

    /** The setup function of `race` number `k` (promise `id`): the `some`
        over the entries, which goes on while no entry throws. */
    method RaceSetup(id: nat, k: nat, items: seq<Val>, fuel: nat) returns (o0: Outcome)
      requires policy.addReject
      requires id < |cells| && k < |aggs| && aggs[k] == RaceAgg(id, false)
      requires forall j :: 0 <= j < |items| ==> Known(items[j], |cells|)
      modifies this
      ensures Evolved(old(cells), old(aggs), old(log), old(reports))
      ensures k < |aggs| && aggs[k].RaceAgg? && aggs[k].cell == id
      ensures RaceSetUp(old(cells), old(aggs), old(log), old(reports), cells, aggs, log, reports, id, k, items, o0)
    {
      ghost var c1, a1, l1, r1 := cells, aggs, log, reports;
      o0 := Normal(Undefined);
      var i := 0;
      while i < |items| && o0.Normal?
        invariant 0 <= i <= |items|
        invariant id < |cells| && k < |aggs| && aggs[k].RaceAgg? && aggs[k].cell == id
        invariant Evolved(c1, a1, l1, r1)
        invariant RaceLoop(c1, a1, l1, r1, cells, aggs, log, reports, id, k, items, i, o0)
      {
        ghost var cb, ab, lb, rb, ob := cells, aggs, log, reports, o0;
        o0 := RaceEntry(id, k, items, i, fuel);
        EvolvedTrans(c1, a1, l1, r1, cb, ab, lb, rb);
        RaceStep(c1, a1, l1, r1, cb, ab, lb, rb, id, k, items, i, ob, o0);
        i := i + 1;
      }
      RaceLoopEnd(c1, a1, l1, r1, cells, aggs, log, reports, id, k, items, i, o0);
    }

    /** The loop of `RaceSetup` ends when every entry is visited or one of
        them threw. */
    lemma {:induction false} RaceLoopEnd(c1: seq<Cell>, a1: seq<Agg>, l1: seq<Event>, r1: seq<nat>,
                                         c: seq<Cell>, a: seq<Agg>, l: seq<Event>, r: seq<nat>,
                                         id: nat, k: nat, items: seq<Val>, i: nat, o0: Outcome)
      requires i <= |items| && forall j :: 0 <= j < |items| ==> Known(items[j], |c1|)
      requires RaceLoop(c1, a1, l1, r1, c, a, l, r, id, k, items, i, o0) && (i == |items| || o0.Raise?)
      ensures RaceSetUp(c1, a1, l1, r1, c, a, l, r, id, k, items, o0)
    {
      assert items[..|items|] == items;
      if (forall j :: 0 <= j < |items| ==> items[j].Prom?) && Followable(c1, items) {
        assert FirstPlain(items) == |items|;
      }
    }

    /** What the setup function of `race` number `k` (promise `id`), run
        from `c1`, `a1`, `l1`, `r1`, guarantees of the state `c`, `a`, `l`,
        `r` it ends in: it returns normally only when every entry is a
        promise; an empty input changes nothing; when the promise entries
        before the first plain one are pending, each of them is followed
        with the winner callback, in order, and then the plain entry throws
        (a plain first entry throws at once); when every entry is a pending
        promise, each is followed. */
    ghost predicate RaceSetUp(c1: seq<Cell>, a1: seq<Agg>, l1: seq<Event>, r1: seq<nat>,
                              c: seq<Cell>, a: seq<Agg>, l: seq<Event>, r: seq<nat>,
                              id: nat, k: nat, items: seq<Val>, o0: Outcome)
      requires forall j :: 0 <= j < |items| ==> Known(items[j], |c1|)
    {
      (o0.Normal? ==> forall j :: 0 <= j < |items| ==> items[j].Prom?) &&
      (|items| > 0 && !items[0].Prom? ==>
         o0 == Raise(Error(MustUsePromises)) && c == c1 && a == a1 && l == l1 && r == r1) &&
      (|items| == 0 ==> o0 == Normal(Undefined) && c == c1 && a == a1 && l == l1 && r == r1) &&
      (FirstPlain(items) < |items| && Followable(c1, items[..FirstPlain(items)]) ==>
         o0 == Raise(Error(MustUsePromises)) && c == WireEntries(c1, items[..FirstPlain(items)], k, id, true) &&
         a == a1 && l == l1 && r == r1) &&
      ((forall j :: 0 <= j < |items| ==> items[j].Prom?) && Followable(c1, items) ==>
         o0 == Normal(Undefined) && c == WireEntries(c1, items, k, id, true) && a == a1 && l == l1 && r == r1)
    }

    /** The loop of `RaceSetup` after entries `0..i`, in state `c`, `a`,
        `l`, `r` reached from `c1`, `a1`, `l1`, `r1`: up to the first plain
        entry the promise entries are followed in order, and the loop ends
        just after that entry, which threw. */
    ghost predicate RaceLoop(c1: seq<Cell>, a1: seq<Agg>, l1: seq<Event>, r1: seq<nat>,
                             c: seq<Cell>, a: seq<Agg>, l: seq<Event>, r: seq<nat>,
                             id: nat, k: nat, items: seq<Val>, i: nat, o0: Outcome)
      requires i <= |items|
      requires forall j :: 0 <= j < |items| ==> Known(items[j], |c1|)
    {
      var n := FirstPlain(items);
      (o0.Normal? ==> forall j :: 0 <= j < i ==> items[j].Prom?) &&
      (i == 0 ==> o0 == Normal(Undefined) && c == c1 && a == a1 && l == l1 && r == r1) &&
      (i > 0 && !items[0].Prom? ==>
         i == 1 && o0 == Raise(Error(MustUsePromises)) && c == c1 && a == a1 && l == l1 && r == r1) &&
      (Followable(c1, items[..n]) ==>
         a == a1 && l == l1 && r == r1 &&
         (i <= n ==> o0 == Normal(Undefined) && c == WireEntries(c1, items[..i], k, id, true)) &&
         (n < i ==> i == n + 1 && o0 == Raise(Error(MustUsePromises)) && c == WireEntries(c1, items[..n], k, id, true)))
    }

    /** Entry `i` of the loop of `RaceSetup`, run from state `cb`, `ab`,
        `lb`, `rb` as `RaceEntry` promises, keeps `RaceLoop`. */
    lemma {:induction false} RaceStep(c1: seq<Cell>, a1: seq<Agg>, l1: seq<Event>, r1: seq<nat>,
                                      cb: seq<Cell>, ab: seq<Agg>, lb: seq<Event>, rb: seq<nat>,
                                      id: nat, k: nat, items: seq<Val>, i: nat, ob: Outcome, o: Outcome)
      requires i < |items| && forall j :: 0 <= j < |items| ==> Known(items[j], |c1|)
      requires |c1| <= |cb| && RaceLoop(c1, a1, l1, r1, cb, ab, lb, rb, id, k, items, i, ob) && ob.Normal?
      requires Known(items[i], |cb|) && id < |cb|
      requires RaceEntryDone(cb, ab, lb, rb, id, k, items[i], o)
      ensures RaceLoop(c1, a1, l1, r1, cells, aggs, log, reports, id, k, items, i + 1, o)
    {
      var n := FirstPlain(items);
      if !items[i].Prom? {
        // the first plain entry: it throws and nothing changes
        assert i == n && o == Raise(Error(MustUsePromises)) && Unchanged(cb, ab, lb, rb);
      } else if Followable(c1, items[..n]) {
        assert i < n && items[..n][i] == items[i];
        WireEntriesNext(c1, items, k, id, true, i);
      }
    }

    /** What the `some` callback of `race` number `k` (promise `id`) for
        entry `p` guarantees, from state `c0`, `a0`, `l0`, `r0`: a pending
        promise is followed with the winner callback, anything else throws. */
    ghost predicate RaceEntryDone(c0: seq<Cell>, a0: seq<Agg>, l0: seq<Event>, r0: seq<nat>,
                                  id: nat, k: nat, p: Val, o: Outcome)
      reads this
      requires Known(p, |c0|)
    {
      (p.Prom? && c0[p.id].state == Pending && !(policy.syncBan && c0[p.id].sync) ==>
         Followed(St(c0, a0, l0, r0), St(cells, aggs, log, reports), id, p.id, RaceWin(k), o)) &&
      (!p.Prom? ==> o == Raise(Error(MustUsePromises)) && Unchanged(c0, a0, l0, r0))
    }

    /** The `some` callback of `race` number `k` (promise `id`) for entry
        `i`: a promise is followed, `addReject(p.then(win), reject)` with
        `win` the winner callback; anything else throws. */
    method RaceEntry(id: nat, k: nat, items: seq<Val>, i: nat, fuel: nat) returns (o: Outcome)
      requires policy.addReject
      requires id < |cells| && i < |items| && Known(items[i], |cells|)
      modifies this
      ensures Evolved(old(cells), old(aggs), old(log), old(reports))
      ensures RaceEntryDone(old(cells), old(aggs), old(log), old(reports), id, k, items[i], o)
    {
      var p := items[i];
      if IsPromise(p, |cells|) {
        o := Follow(id, p.id, RaceWin(k), fuel);
      } else {
        o := Raise(Error(MustUsePromises));
      }
    }

    /** `SyncPromise.resolve(v)` of the amd build: a thenable is returned
        as it is, anything else becomes a new promise fulfilled with it. */
    method StaticResolve(v: Val, fuel: nat) returns (o: Outcome)
      requires policy.statics && Known(v, |cells|)
      modifies this
      ensures Evolved(old(cells), old(aggs), old(log), old(reports))
      ensures v.Prom? ==> o == Normal(v) && Unchanged(old(cells), old(aggs), old(log), old(reports))
      ensures !v.Prom? ==> NewFulfilled(St(old(cells), old(aggs), old(log), old(reports)), St(cells, aggs, log, reports), v, o)
    {
      if IsPromise(v, |cells|) {
        o := Normal(v);
      } else {
        o := Construct([Res(v)], None, fuel);
      }
    }

    /** `SyncPromise.reject(v)` of the amd build: a thenable is returned as
        it is (not rejected), anything else becomes a new promise rejected
        with it. */
    method StaticReject(v: Val, fuel: nat) returns (o: Outcome)
      requires policy.statics && Known(v, |cells|)
      modifies this
      ensures Evolved(old(cells), old(aggs), old(log), old(reports))
      ensures v.Prom? ==> o == Normal(v) && Unchanged(old(cells), old(aggs), old(log), old(reports))
      ensures !v.Prom? ==> NewRejected(St(old(cells), old(aggs), old(log), old(reports)), St(cells, aggs, log, reports), v, o)
    {
      if IsPromise(v, |cells|) {
        o := Normal(v);
      } else {
        o := Construct([Rej(v)], None, fuel);
      }
    }

    /** The deferred check the amd build schedules for a rejection with no
        rejection observer: when it runs it reports the value unless `h` has
        been set in the meantime. */
    method RunCheck() returns (reported: Option<Val>)
      requires |reports| > 0
      modifies this
      ensures Unchanged(old(cells), old(aggs), old(log), old(reports)[1..])
      ensures var id := old(reports[0]);
        reported == if id < |cells| && !cells[id].handled then Some(cells[id].value) else None
    {
      var id := reports[0];
      reports := reports[1..];
      reported := if id < |cells| && !cells[id].handled then Some(cells[id].value) else None;
    }
  }
}

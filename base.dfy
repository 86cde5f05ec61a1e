/** Values, promise cells and the three build configurations of the
    SyncPromise settlement engine. */
module Base {

  datatype Option<T> = None | Some(value: T)

  /** `PENDING`, `FULFILLED`, `REJECTED`; the last two double as indices of the
      two observer lists. */
  datatype State = Pending | Fulfilled | Rejected

  /** The `Error` objects the engine itself throws. `StackOverflow` stands for
      the host's "maximum call stack size exceeded" error, raised when the
      call-depth budget of the model runs out. */
  datatype ErrorKind =
    | ThenOnSync          // `then` on a synchronously resolved promise
    | CatchOnSync         // `catch` on a synchronously resolved promise
    | NotAFunction        // calling a callback that is not a function
    | AtLeastOnePromise   // `all` without any promise entry (global build)
    | MustUsePromises     // plain value given to `race` (global build)
    | StackOverflow

  /** JavaScript values as far as the engine can tell them apart:
      `Prom(id)` is a promise of this engine (the only thenables modelled),
      `Arr(k)` is the array that aggregator `k` of `all` fills in place. */
  datatype Val =
    | Num(n: int)
    | Prom(id: nat)
    | Arr(agg: nat)
    | Undefined
    | Error(kind: ErrorKind)

  /** `isPromise`: does `v` name one of the `n` existing promises? */
  predicate IsPromise(v: Val, n: nat) {
    v.Prom? && v.id < n
  }

  /** A value host code can hold when there are `n` promises: never a
      promise that does not exist yet. */
  predicate Known(v: Val, n: nat) {
    v.Prom? ==> v.id < n
  }

  /** The function values the engine passes around. */
  datatype Fn =
    | User(k: nat)            // a callback or errback supplied by host code
    | ResolveOf(id: nat)      // the `resolve` closure of promise `id`
    | RejectOf(id: nat)       // the `reject` closure of promise `id`
    | AllSlot(agg: nat, i: nat)  // the callback `all` attaches to entry `i`
    | RaceWin(agg: nat)       // the callback `race` attaches to each entry

  /** An entry of an observer list: the `settle` closure built by `then` and
      `catch` (it reads the parent's value when it runs and feeds the child),
      or a plain function. */
  datatype Reaction =
    | Settle(parent: nat, child: nat, cb: Option<Fn>, rej: Fn)
    | Call(fn: Fn)

  /** One promise: `s`, `v`, the lists `c[0]` and `c[1]` (with `cleared`
      standing for `c = null`), the flag `a` (`sync`), the flag `h`
      (`handled`) and whether its setup function has returned, which is the
      negation of the constructor's local `syncResolved`. */
  datatype Cell = Cell(state: State, value: Val, ful: seq<Reaction>, rej: seq<Reaction>,
                       cleared: bool, sync: bool, handled: bool, setupReturned: bool)

  /** A promise as its constructor leaves it before running the setup. */
  function FreshCell(): (c: Cell) {
    Cell(Pending, Num(0), [], [], false, false, false, false)
  }

  /** The observer list for an outcome: `c[state]`. */
  function Listeners(c: Cell, st: State): (list: seq<Reaction>) {
    if st == Fulfilled then c.ful else c.rej
  }

  /** How a call returned: normally with a value, or by throwing. */
  datatype Outcome = Normal(v: Val) | Raise(e: Val)

  /** What a host callback does with its argument. */
  datatype CbResult = Returned(v: Val) | Threw(e: Val)

  function AsOutcome(r: CbResult): (o: Outcome) {
    match r
    case Returned(v) => Normal(v)
    case Threw(e) => Raise(e)
  }

  /** The closure state of one `all` call (`promises` and the counter `l`) or
      of one `race` call (`resolved`). */
  datatype Agg = AllAgg(cell: nat, items: seq<Val>, count: int) | RaceAgg(cell: nat, resolved: bool)

  /** What the ghost event log records: a settlement, an observer invoked
      with a value, and the end of an observer loop by the exception `e` of
      entry `r`. */
  datatype Event = Transisted(id: nat, st: State, v: Val) | Fired(r: Reaction, v: Val) | Stopped(r: Reaction, e: Val)

  /** A settlement: promise `id` is sent to state `st` with value `v`. */
  datatype Hit = Hit(id: nat, st: State, v: Val)

  /** The points on which the three builds differ. */
  datatype Policy = Policy(
    syncBan: bool,          // `then`/`catch` refuse a synchronously resolved promise
    fatalUnhandled: bool,   // `transist` throws on a rejection nobody observes
    catchSetup: bool,       // the constructor sends a setup exception to `reject`
    errback: bool,          // `then` takes an errback
    optionalCb: bool,       // `then` without a callback passes the value through
    allNeedsPromise: bool,  // `all` insists on at least one promise entry
    addReject: bool,        // flattening wires rejection with `then(null, reject)`
    race: bool,             // `SyncPromise.race` exists
    statics: bool,          // `SyncPromise.resolve` / `SyncPromise.reject` exist
    trackHandled: bool)     // the `h` flag is kept

  const IndexJs := Policy(true, true, false, false, false, false, false, false, false, false)
  const GlobalJs := Policy(true, true, false, true, true, true, true, true, false, false)
  const AmdJs := Policy(false, false, true, false, false, false, false, false, true, true)

  /** `transist` on a cell whose list for `st` is empty: `a`, `v` and `s` are
      set, and `c` is cleared unless the fatal policy threw first. */
  function AfterTransist(c: Cell, st: State, v: Val, p: Policy): (r: Cell)
    requires !c.cleared
    ensures r.state == st && r.value == v
    ensures r.cleared <==> !(st == Rejected && p.fatalUnhandled && |c.rej| == 0)
    ensures r.handled == c.handled && r.setupReturned == c.setupReturned
  {
    if st == Rejected && p.fatalUnhandled && |c.rej| == 0 then Mark(c, st, v, p)
    else Mark(c, st, v, p).(ful := [], rej := [], cleared := true)
  }

  /** The first half of `transist`: `a`, `v` and `s` are set, the lists are
      still there. */
  function Mark(c: Cell, st: State, v: Val, p: Policy): (r: Cell) {
    c.(state := st, value := v, sync := if p.syncBan then !c.setupReturned else c.sync)
  }

  /** The flag `a` of a settled promise: in the builds with the ban it is
      set exactly when the settlement happened while the setup function was
      still running (`syncResolved` true); the amd build never sets it. */
  lemma {:induction false} SyncRecordsSetup(c: Cell, st: State, v: Val, p: Policy)
    requires !c.cleared
    ensures p.syncBan ==> (AfterTransist(c, st, v, p).sync <==> !c.setupReturned)
    ensures !p.syncBan ==> AfterTransist(c, st, v, p).sync == c.sync
  {
  }

  /** Pending promise `q` after `q.then(first)`, whose derived promise is
      `t`: a `settle` entry for fulfilment, `t`'s `reject` for rejection. */
  function Wire(c: Cell, q: nat, first: Fn, t: nat): (r: Cell) {
    c.(ful := c.ful + [Settle(q, t, Some(first), RejectOf(t))], rej := c.rej + [Call(RejectOf(t))])
  }

  /** The number of promise entries among `items`. */
  function Proms(items: seq<Val>): (n: nat)
    ensures n <= |items|
    decreases |items|
  {
    if items == [] then 0
    else Proms(items[..|items| - 1]) + (if items[|items| - 1].Prom? then 1 else 0)
  }

  /** The position of the first entry that is not a promise, or `|items|`
      when every entry is one. */
  function FirstPlain(items: seq<Val>): (j: nat)
    ensures j <= |items|
    ensures forall i :: 0 <= i < j ==> items[i].Prom?
    ensures j < |items| ==> !items[j].Prom?
    decreases |items|
  {
    if items == [] || !items[0].Prom? then 0 else 1 + FirstPlain(items[1..])
  }

  /** A plain entry `i` adds nothing to the promise count, and while a
      promise entry exists the entries from `i` on and the promise entries
      before `i` are more than one. */
  lemma {:induction false} PromsPlain(items: seq<Val>, i: nat)
    requires i < |items| && !items[i].Prom? && Proms(items) > 0
    ensures Proms(items[..i + 1]) == Proms(items[..i])
    ensures |items| - i + Proms(items[..i]) > 1
  {
    assert items[..i + 1][..i] == items[..i];
    PromsRest(items, i + 1);
  }

  /** At most the entries after position `i` add to the promise count. */
  lemma {:induction false} PromsRest(items: seq<Val>, i: nat)
    requires i <= |items|
    ensures Proms(items) <= Proms(items[..i]) + (|items| - i)
    decreases |items| - i
  {
    if i < |items| {
      PromsRest(items, i + 1);
      assert items[..i + 1][..i] == items[..i];
    } else {
      assert items[..i] == items;
    }
  }

  /** Settle-once, one cell: once `c` is cleared, state, value and `a` are
      final; a settled cell never becomes pending again; the flags `h` and
      "setup returned" are never reset. */
  predicate CellStable(x: Cell, y: Cell) {
    (x.cleared ==> y.cleared && y.state == x.state && y.value == x.value && y.sync == x.sync) &&
    (x.state != Pending ==> y.state != Pending) &&
    (x.handled ==> y.handled) &&
    (x.setupReturned ==> y.setupReturned)
  }

  /** How the heap may evolve: it only grows and every old cell evolves
      stably. */
  ghost predicate Stable(a: seq<Cell>, b: seq<Cell>) {
    |a| <= |b| && forall i :: 0 <= i < |a| ==> CellStable(a[i], b[i])
  }

  /** Aggregators only grow and keep their kind, their cell and the length
      of their array. */
  ghost predicate AggStable(a: seq<Agg>, b: seq<Agg>) {
    |a| <= |b| &&
    forall k :: 0 <= k < |a| ==>
      b[k].cell == a[k].cell && b[k].AllAgg? == a[k].AllAgg? &&
      (a[k].AllAgg? ==> |b[k].items| == |a[k].items|)
  }

  ghost predicate Prefix<T>(a: seq<T>, b: seq<T>) {
    |a| <= |b| && b[..|a|] == a
  }

  /** Some settlement logged in `l` is one of promise `j`. */
  ghost predicate Names(l: seq<Event>, j: nat) {
    exists i :: 0 <= i < |l| && l[i].Transisted? && l[i].id == j
  }

  /** A settlement is logged in `a + b` exactly when it is in `a` or in
      `b`. */
  lemma {:induction false} NamesAppend(a: seq<Event>, b: seq<Event>, j: nat)
    ensures Names(a + b, j) <==> Names(a, j) || Names(b, j)
  {
    if Names(a + b, j) {
      var i :| 0 <= i < |a + b| && (a + b)[i].Transisted? && (a + b)[i].id == j;
      if i >= |a| {
        assert b[i - |a|] == (a + b)[i];
      }
    }
    if Names(a, j) {
      var i :| 0 <= i < |a| && a[i].Transisted? && a[i].id == j;
      assert (a + b)[i] == a[i];
    }
    if Names(b, j) {
      var i :| 0 <= i < |b| && b[i].Transisted? && b[i].id == j;
      assert (a + b)[|a| + i] == b[i];
    }
  }

  /** Settlement `h` has happened and is final: its cell is cleared with
      that state and value. */
  ghost predicate Landed(c: seq<Cell>, h: Hit) {
    h.id < |c| && c[h.id].cleared && c[h.id].state == h.st && c[h.id].value == h.v
  }

  /** A stable evolution keeps every settlement that has landed. */
  lemma {:induction false} LandedStays(a: seq<Cell>, b: seq<Cell>, h: Hit)
    requires Landed(a, h) && Stable(a, b)
    ensures Landed(b, h)
  {
    assert CellStable(a[h.id], b[h.id]);
  }

  /** Settlements of pairwise different promises: each differs from all
      before it. */
  ghost predicate Distinct(hs: seq<Hit>)
    decreases |hs|
  {
    |hs| == 0 ||
    ((forall j :: 0 <= j < |hs| - 1 ==> hs[j].id != hs[|hs| - 1].id) && Distinct(hs[..|hs| - 1]))
  }

  lemma {:induction false} DistinctAt(hs: seq<Hit>, j: nat, k: nat)
    requires Distinct(hs) && j < k < |hs|
    ensures hs[j].id != hs[k].id
    decreases |hs|
  {
    var n := |hs| - 1;
    if k < n {
      assert hs[..n][j] == hs[j] && hs[..n][k] == hs[k];
      DistinctAt(hs[..n], j, k);
    }
  }

  /** A prefix of distinct settlements is distinct. */
  lemma {:induction false} DistinctPrefix(hs: seq<Hit>, i: nat)
    requires Distinct(hs) && i <= |hs|
    ensures Distinct(hs[..i])
    decreases |hs|
  {
    if i < |hs| {
      var n := |hs| - 1;
      assert hs[..n][..i] == hs[..i];
      DistinctPrefix(hs[..n], i);
    } else {
      assert hs[..i] == hs;
    }
  }

  /** The heap after each of `hs` has settled a promise nobody observed:
      the targets get `AfterTransist`, every other cell is left alone. */
  function SettleAll(c: seq<Cell>, hs: seq<Hit>, p: Policy): (r: seq<Cell>)
    requires forall j :: 0 <= j < |hs| ==> hs[j].id < |c| && !c[hs[j].id].cleared
    ensures |r| == |c|
    decreases |hs|
  {
    if hs == [] then c
    else
      var h := hs[|hs| - 1];
      SettleAll(c, hs[..|hs| - 1], p)[h.id := AfterTransist(c[h.id], h.st, h.v, p)]
  }

  /** Cell `i` after the fold: settled once if it is a target, as it was
      otherwise. */
  lemma {:induction false} SettleAllAt(c: seq<Cell>, hs: seq<Hit>, p: Policy, i: nat)
    requires forall j :: 0 <= j < |hs| ==> hs[j].id < |c| && !c[hs[j].id].cleared
    requires Distinct(hs) && i < |c|
    ensures (forall j :: 0 <= j < |hs| ==> hs[j].id != i) ==> SettleAll(c, hs, p)[i] == c[i]
    ensures forall j :: 0 <= j < |hs| && hs[j].id == i ==>
      SettleAll(c, hs, p)[i] == AfterTransist(c[i], hs[j].st, hs[j].v, p)
    decreases |hs|
  {
    if hs != [] {
      var n := |hs| - 1;
      assert forall j :: 0 <= j < n ==> hs[..n][j] == hs[j];
      SettleAllAt(c, hs[..n], p, i);
    }
  }

  /** The log of firing the entries of `list` with `v`, entry `j` settling
      `hs[j]` and nothing else. */
  function RelayLog(list: seq<Reaction>, hs: seq<Hit>, v: Val): (r: seq<Event>)
    requires |list| == |hs|
    ensures |r| == 2 * |list|
    ensures forall j :: 0 <= j < |list| ==>
      r[2 * j] == Fired(list[j], v) && r[2 * j + 1] == Transisted(hs[j].id, hs[j].st, hs[j].v)
    decreases |list|
  {
    if list == [] then []
    else
      var n := |list| - 1;
      RelayLog(list[..n], hs[..n], v) + [Fired(list[n], v), Transisted(hs[n].id, hs[n].st, hs[n].v)]
  }

  /** The amd build's reports for settlements `hs`: one per rejection, in
      order; the other builds report nothing. */
  function Reported(hs: seq<Hit>, p: Policy): (r: seq<nat>)
    ensures p.fatalUnhandled ==> r == []
    ensures forall i :: i in r ==> exists j :: 0 <= j < |hs| && hs[j].id == i && hs[j].st == Rejected
    decreases |hs|
  {
    if p.fatalUnhandled || hs == [] then []
    else
      var n := |hs| - 1;
      Reported(hs[..n], p) + (if hs[n].st == Rejected then [hs[n].id] else [])
  }

  /** A relay of one settlement. */
  lemma {:induction false} RelayOne(c: seq<Cell>, x: Reaction, h: Hit, v: Val, p: Policy)
    requires h.id < |c| && !c[h.id].cleared
    ensures Distinct([h])
    ensures Stop([h], p) == if Fatal(h, p) then 0 else 1
    ensures SettleAll(c, [h], p) == c[h.id := AfterTransist(c[h.id], h.st, h.v, p)]
    ensures RelayLog([x], [h], v) == [Fired(x, v), Transisted(h.id, h.st, h.v)]
    ensures Reported([h], p) == if !p.fatalUnhandled && h.st == Rejected then [h.id] else []
  {
    var hs: seq<Hit> := [h];
    assert hs[..0] == [] && [x][..0] == [] && hs[1..] == [];
  }

  /** Writing index `id` last makes an earlier write to it irrelevant. */
  lemma {:induction false} Overwritten<T>(c: seq<T>, id: nat, i: nat, j: nat, x: T, a: T, b: T, y: T)
    requires id < |c| && i < |c| && j < |c| && i != id && j != id
    ensures c[id := x][i := a][j := b][id := y] == c[i := a][j := b][id := y]
  {
  }

  /** A relay of two settlements of different promises. */
  lemma {:induction false} RelayTwo(c: seq<Cell>, x0: Reaction, x1: Reaction, h0: Hit, h1: Hit, v: Val, p: Policy)
    requires h0.id != h1.id && h0.id < |c| && h1.id < |c| && !c[h0.id].cleared && !c[h1.id].cleared
    ensures Distinct([h0, h1])
    ensures Stop([h0, h1], p) == if Fatal(h0, p) then 0 else if Fatal(h1, p) then 1 else 2
    ensures SettleAll(c, [h0, h1], p) == c[h0.id := AfterTransist(c[h0.id], h0.st, h0.v, p)]
                                          [h1.id := AfterTransist(c[h1.id], h1.st, h1.v, p)]
    ensures RelayLog([x0, x1], [h0, h1], v) ==
      [Fired(x0, v), Transisted(h0.id, h0.st, h0.v), Fired(x1, v), Transisted(h1.id, h1.st, h1.v)]
    ensures Reported([h0, h1], p) == (if !p.fatalUnhandled && h0.st == Rejected then [h0.id] else []) +
                                     (if !p.fatalUnhandled && h1.st == Rejected then [h1.id] else [])
  {
    var hs: seq<Hit> := [h0, h1];
    var list: seq<Reaction> := [x0, x1];
    assert hs[..1] == [h0] && list[..1] == [x0] && hs[1..] == [h1];
    assert Distinct(hs) by {
      RelayOne(c, x0, h0, v, p);
    }
    assert Stop(hs, p) == if Fatal(h0, p) then 0 else if Fatal(h1, p) then 1 else 2 by {
      RelayOne(c, x1, h1, v, p);
    }
    assert SettleAll(c, hs, p) == c[h0.id := AfterTransist(c[h0.id], h0.st, h0.v, p)]
                                   [h1.id := AfterTransist(c[h1.id], h1.st, h1.v, p)] by {
      RelayOne(c, x0, h0, v, p);
    }
    assert RelayLog(list, hs, v) ==
      [Fired(x0, v), Transisted(h0.id, h0.st, h0.v), Fired(x1, v), Transisted(h1.id, h1.st, h1.v)] by {
      RelayOne(c, x0, h0, v, p);
    }
    assert Reported(hs, p) == (if !p.fatalUnhandled && h0.st == Rejected then [h0.id] else []) +
                              (if !p.fatalUnhandled && h1.st == Rejected then [h1.id] else []) by {
      RelayOne(c, x0, h0, v, p);
    }
  }

  /** One more settlement extends the fold, the log and the reports by
      exactly that settlement. */
  lemma {:induction false} RelayExtends(c: seq<Cell>, list: seq<Reaction>, hs: seq<Hit>, v: Val, i: nat, p: Policy)
    requires |hs| == |list| && i < |hs| && Distinct(hs)
    requires forall j :: 0 <= j < |hs| ==> hs[j].id < |c| && !c[hs[j].id].cleared
    ensures SettleAll(c, hs[..i + 1], p)
         == SettleAll(c, hs[..i], p)[hs[i].id := AfterTransist(c[hs[i].id], hs[i].st, hs[i].v, p)]
    ensures SettleAll(c, hs[..i], p)[hs[i].id] == c[hs[i].id]
    ensures RelayLog(list[..i + 1], hs[..i + 1], v)
         == RelayLog(list[..i], hs[..i], v) + [Fired(list[i], v), Transisted(hs[i].id, hs[i].st, hs[i].v)]
    ensures Reported(hs[..i + 1], p)
         == Reported(hs[..i], p) + (if !p.fatalUnhandled && hs[i].st == Rejected then [hs[i].id] else [])
  {
    assert hs[..i + 1][..i] == hs[..i];
    assert list[..i + 1][..i] == list[..i];
    forall j | 0 <= j < |hs[..i]| ensures hs[..i][j].id != hs[i].id {
      DistinctAt(hs, j, i);
    }
    DistinctPrefix(hs, i);
    SettleAllAt(c, hs[..i], p, hs[i].id);
  }

  /** A settlement that throws: a rejection nobody observes, in the builds
      where that is fatal. */
  predicate Fatal(h: Hit, p: Policy) {
    h.st == Rejected && p.fatalUnhandled
  }

  /** How many of `hs` settle before the first one that throws. */
  function Stop(hs: seq<Hit>, p: Policy): (n: nat)
    ensures n <= |hs|
    ensures forall j :: 0 <= j < n ==> !Fatal(hs[j], p)
    ensures n < |hs| ==> Fatal(hs[n], p)
  {
    if hs == [] then 0 else if Fatal(hs[0], p) then 0 else 1 + Stop(hs[1..], p)
  }

  lemma {:induction false} StableTrans(a: seq<Cell>, b: seq<Cell>, c: seq<Cell>)
    requires Stable(a, b) && Stable(b, c)
    ensures Stable(a, c)
  {
    forall i | 0 <= i < |a| ensures CellStable(a[i], c[i]) {
      assert CellStable(a[i], b[i]) && CellStable(b[i], c[i]);
    }
  }

  /** The events of firing every entry of `list` with `v`, in order. */
  function FiredAll(list: seq<Reaction>, v: Val): (r: seq<Event>)
    ensures |r| == |list|
    ensures forall j :: 0 <= j < |list| ==> r[j] == Fired(list[j], v)
  {
    if list == [] then [] else FiredAll(list[..|list| - 1], v) + [Fired(list[|list| - 1], v)]
  }

  /** `xs` occurs in `ys` in order, possibly with other events in between. */
  predicate Subseq<T(==)>(xs: seq<T>, ys: seq<T>)
    decreases |ys|
  {
    |xs| == 0 ||
    (|ys| > 0 && if xs[0] == ys[0] then Subseq(xs[1..], ys[1..]) else Subseq(xs, ys[1..]))
  }

  lemma {:induction false} SubseqAppend<T>(xs: seq<T>, ys: seq<T>, zs: seq<T>)
    requires Subseq(xs, ys)
    ensures Subseq(xs, ys + zs)
    decreases |ys|
  {
    if |xs| > 0 {
      assert (ys + zs)[1..] == ys[1..] + zs;
      if xs[0] == ys[0] {
        SubseqAppend(xs[1..], ys[1..], zs);
      } else {
        SubseqAppend(xs, ys[1..], zs);
      }
    }
  }

  lemma {:induction false} SubseqSnoc<T>(xs: seq<T>, ys: seq<T>, x: T)
    requires Subseq(xs, ys)
    ensures Subseq(xs + [x], ys + [x])
    decreases |ys|
  {
    if |ys| == 0 {
      assert xs == [];
      var one: seq<T> := [x];
      assert one[1..] == [];
    } else {
      assert (ys + [x])[1..] == ys[1..] + [x];
      if |xs| == 0 {
        if ys[0] != x {
          SubseqSnoc(xs, ys[1..], x);
        } else {
          var one: seq<T> := [x];
      assert one[1..] == [];
        }
      } else {
        assert (xs + [x])[1..] == xs[1..] + [x];
        if xs[0] == ys[0] {
          SubseqSnoc(xs[1..], ys[1..], x);
        } else {
          SubseqSnoc(xs, ys[1..], x);
        }
      }
    }
  }

  /** `Subseq` means what it says: positions in `ys`, strictly increasing,
      at which the elements of `xs` occur (the leftmost such positions). */
  function Embedding<T(==)>(xs: seq<T>, ys: seq<T>): (r: seq<nat>)
    requires Subseq(xs, ys)
    ensures |r| == |xs|
    ensures forall k :: 0 <= k < |xs| ==> r[k] < |ys| && ys[r[k]] == xs[k]
    ensures forall k, m :: 0 <= k < m < |xs| ==> r[k] < r[m]
    decreases |ys|
  {
    if |xs| == 0 then []
    else if xs[0] == ys[0] then [0] + Shift(Embedding(xs[1..], ys[1..]))
    else Shift(Embedding(xs, ys[1..]))
  }

  function Shift(r: seq<nat>): (s: seq<nat>)
    ensures |s| == |r| && forall k :: 0 <= k < |r| ==> s[k] == r[k] + 1
  {
    seq(|r|, k requires 0 <= k < |r| => r[k] + 1)
  }

  /** Conversely, elements occurring at strictly increasing positions form a
      `Subseq`. */
  lemma {:induction false} EmbeddedIsSubseq<T>(xs: seq<T>, ys: seq<T>, r: seq<nat>)
    requires |r| == |xs|
    requires forall k :: 0 <= k < |xs| ==> r[k] < |ys| && ys[r[k]] == xs[k]
    requires forall k, m :: 0 <= k < m < |xs| ==> r[k] < r[m]
    ensures Subseq(xs, ys)
    decreases |ys|
  {
    if |xs| > 0 {
      assert r[0] < |ys|;
      if xs[0] == ys[0] {
        var r' := seq(|xs| - 1, k requires 0 <= k < |xs| - 1 => r[k + 1] - 1);
        forall k | 0 <= k < |xs| - 1 ensures r'[k] < |ys| - 1 && ys[1..][r'[k]] == xs[1..][k] {
          assert r[0] < r[k + 1];
        }
        forall k, m | 0 <= k < m < |xs| - 1 ensures r'[k] < r'[m] {
          assert r[k + 1] < r[m + 1];
        }
        EmbeddedIsSubseq(xs[1..], ys[1..], r');
      } else {
        var r' := seq(|xs|, k requires 0 <= k < |xs| => r[k] - 1);
        forall k | 0 <= k < |xs| ensures r[k] > 0 && r'[k] < |ys| - 1 && ys[1..][r'[k]] == xs[k] {
          assert r[0] <= r[k] by {
            if k > 0 {
              assert r[0] < r[k];
            }
          }
        }
        forall k, m | 0 <= k < m < |xs| ensures r'[k] < r'[m] {
          assert r[k] < r[m];
        }
        EmbeddedIsSubseq(xs, ys[1..], r');
      }
    }
  }

  /** The log of an observer loop over `list` with argument `v` in which
      each entry `list[j]` is logged as fired and is followed by the events
      `segs[j]` its own run logged. */
  function Trace(list: seq<Reaction>, v: Val, segs: seq<seq<Event>>): (t: seq<Event>)
    requires |segs| == |list|
    ensures |t| >= |list|
    decreases |list|
  {
    if list == [] then []
    else Trace(list[..|list| - 1], v, segs[..|segs| - 1]) + [Fired(list[|list| - 1], v)] + segs[|segs| - 1]
  }

  /** The entries of a trace fire in order. */
  lemma {:induction false} TraceFires(list: seq<Reaction>, v: Val, segs: seq<seq<Event>>)
    requires |segs| == |list|
    ensures Subseq(FiredAll(list, v), Trace(list, v, segs))
    decreases |list|
  {
    if list != [] {
      var n := |list| - 1;
      TraceFires(list[..n], v, segs[..n]);
      assert list[..n + 1] == list;
      FiredStep(list, n, v, Trace(list[..n], v, segs[..n]), segs[n]);
    }
  }

  /** The log of an observer loop after entry `i` fired: `lb` is the log
      before, `l` after, and the events after the firing belong to entry
      `i`. */
  lemma {:induction false} FiredLogged(list: seq<Reaction>, i: nat, v: Val, l0: seq<Event>, lb: seq<Event>, l: seq<Event>,
                                       segs: seq<seq<Event>>)
    requires i < |list| && Prefix(l0, lb) && Subseq(FiredAll(list[..i], v), lb[|l0|..])
    requires |segs| == i && lb[|l0|..] == Trace(list[..i], v, segs)
    requires |l| > |lb| && l[..|lb| + 1] == lb + [Fired(list[i], v)]
    ensures Prefix(l0, l) && Subseq(FiredAll(list[..i + 1], v), l[|l0|..])
    ensures l[|l0|..] == Trace(list[..i + 1], v, segs + [l[|lb| + 1..]])
  {
    assert l == l[..|lb| + 1] + l[|lb| + 1..];
    assert l[|l0|..] == lb[|l0|..] + [Fired(list[i], v)] + l[|lb| + 1..];
    FiredStep(list, i, v, lb[|l0|..], l[|lb| + 1..]);
    assert list[..i + 1][..i] == list[..i];
    assert (segs + [l[|lb| + 1..]])[..i] == segs;
  }

  /** The log of an observer loop that ends with `e` at entry `i`. */
  lemma {:induction false} StopLogged(list: seq<Reaction>, i: nat, v: Val, e: Val, l0: seq<Event>, l: seq<Event>,
                                      segs: seq<seq<Event>>)
    requires i < |list| && Prefix(l0, l) && Subseq(FiredAll(list[..i + 1], v), l[|l0|..])
    requires |segs| == i + 1 && l[|l0|..] == Trace(list[..i + 1], v, segs)
    ensures StoppedLog(l0, l + [Stopped(list[i], e)], list, v, e)
  {
    var l' := l + [Stopped(list[i], e)];
    SubseqAppend(FiredAll(list[..i + 1], v), l[|l0|..], [Stopped(list[i], e)]);
    assert l'[|l0|..] == l[|l0|..] + [Stopped(list[i], e)];
    assert l'[|l'| - 1] == Stopped(list[i], e);
    assert l'[|l0|..] == Trace(list[..|segs|], v, segs) + [Stopped(list[|segs| - 1], e)];
  }

  /** The log `l[|l0|..]` of an observer loop over `list` with argument `v`
      that ran every entry: the entries fired in order, each followed by
      what its own run logged. */
  ghost predicate RanLog(l0: seq<Event>, l: seq<Event>, list: seq<Reaction>, v: Val) {
    Prefix(l0, l) && Subseq(FiredAll(list, v), l[|l0|..]) &&
    exists segs :: |segs| == |list| && l[|l0|..] == Trace(list, v, segs)
  }

  /** The log `l[|l0|..]` of an observer loop over `list` with argument `v`
      that the exception `e` of one entry stopped: the entries up to that
      one fired in order, each followed by what its own run logged, and the
      exception is the last event. */
  ghost predicate StoppedLog(l0: seq<Event>, l: seq<Event>, list: seq<Reaction>, v: Val, e: Val) {
    Prefix(l0, l) && |l| > |l0| &&
    (exists j :: 0 <= j < |list| && l[|l| - 1] == Stopped(list[j], e) && Subseq(FiredAll(list[..j + 1], v), l[|l0|..])) &&
    exists segs :: 0 < |segs| <= |list| && l[|l0|..] == Trace(list[..|segs|], v, segs) + [Stopped(list[|segs| - 1], e)]
  }

  /** A step of the observer loop: if the events fired so far occur in order
      in the log segment `ys`, and the next reaction fires first thing in the
      extension `[x] + zs`, then the longer prefix occurs in order too. */
  lemma {:induction false} FiredStep(list: seq<Reaction>, i: nat, v: Val, ys: seq<Event>, zs: seq<Event>)
    requires i < |list|
    requires Subseq(FiredAll(list[..i], v), ys)
    ensures Subseq(FiredAll(list[..i + 1], v), ys + [Fired(list[i], v)] + zs)
  {
    assert FiredAll(list[..i + 1], v) == FiredAll(list[..i], v) + [Fired(list[i], v)];
    SubseqSnoc(FiredAll(list[..i], v), ys, Fired(list[i], v));
    SubseqAppend(FiredAll(list[..i], v) + [Fired(list[i], v)], ys + [Fired(list[i], v)], zs);
  }
}

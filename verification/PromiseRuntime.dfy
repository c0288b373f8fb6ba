/** Cores and continuations as async.h changes them: one settlement runs through the graph.

  `Resolver` and `Rejection` settle a root, `Then` attaches; each is one atomic operation. What
  the callbacks compute is part of the graph. The recursion ends because a continuation's chain
  ranks above its source.
 */
module PromiseRuntime {
  import opened PromiseDenotation
  import opened PromiseGraph

  // ---------------------------------------------------------------------------------------------
  // What a run of continuations keeps, and what it pays
  // ---------------------------------------------------------------------------------------------

  ghost predicate KeptCore(w: World, v: World, c: nat)
    requires c < |w.nodes| && c < |w.cores| && c < |v.cores|
  {
    && ((w.nodes[c].Root? || !w.cores[c].state.Pending?) ==> v.cores[c].state == w.cores[c].state)
    && w.cores[c].requests <= v.cores[c].requests
  }

  predicate KeptCont(t: Cont, u: Cont) {
    u.src == t.src && u.chain == t.chain && (Fired(t) ==> u.resolveCount == t.resolveCount && u.rejectCount == t.rejectCount && u.runs == t.runs)
  }

  /** Settled cores and fired continuations never change again, and roots are not settled in passing. */
  ghost predicate Kept(w: World, v: World) {
    && v.nodes == w.nodes && v.rank == w.rank && v.first == w.first
    && |w.nodes| == |w.cores| == |v.cores| && |w.conts| <= |v.conts|
    && (forall c :: 0 <= c < |w.cores| ==> KeptCore(w, v, c))
    && (forall k :: 0 <= k < |w.conts| ==> KeptCont(w.conts[k], v.conts[k]))
  }

  /** No new debt. */
  ghost predicate Fewer(w: World, v: World) {
    forall j :: Owed(v, j) ==> Owed(w, j)
  }

  lemma KeptTrans(u: World, v: World, w: World)
    requires Kept(u, v) && Kept(v, w)
    ensures Kept(u, w)
  {
    forall c | 0 <= c < |u.cores| ensures KeptCore(u, w, c) {
      assert KeptCore(u, v, c) && KeptCore(v, w, c);
    }
    forall k | 0 <= k < |u.conts| ensures KeptCont(u.conts[k], w.conts[k]) {
      assert KeptCont(u.conts[k], v.conts[k]) && KeptCont(v.conts[k], w.conts[k]);
    }
  }

  /** Continuation `k` has been paid, and nothing else is owed that was not. */
  ghost predicate Paid(w: World, v: World, k: nat) {
    Inv(v) && Kept(w, v) && Fewer(w, v) && !Owed(v, k)
  }

  /** Core `c` is settled, and everything that waits for it is on its list. */
  ghost predicate Due(w: World, c: nat) {
    && Inv(w) && c < |w.cores| && !w.cores[c].state.Pending?
    && forall k :: Owed(w, k) && w.conts[k].src == c ==> k in w.cores[c].requests
  }

  ghost predicate Notified(w: World, v: World, c: nat) {
    Inv(v) && Kept(w, v) && Fewer(w, v) && forall j :: Owed(v, j) ==> v.conts[j].src != c
  }

  lemma FireKept(w: World, k: nat, st: State)
    requires Ready(w, k) && FiresTo(w, k, st)
    ensures w.conts[k].src < |w.cores| && w.conts[k].chain < |w.cores|
    ensures var v := Fire(w, k, st);
            && Kept(w, v)
            && (forall j :: Owed(v, j) && v.conts[j].src != w.conts[k].chain ==> Owed(w, j))
            && (!st.Pending? ==> Due(v, w.conts[k].chain))
            && (st.Pending? ==> v == Marked(w, k) && Paid(w, v, k))
  {
    ReadyChain(w, k);
    FireInv(w, k, st);
    var v, c := Fire(w, k, st), w.conts[k].chain;
    forall j | Owed(v, j) && v.conts[j].src == c ensures j in v.cores[c].requests {
      assert ContOk(w, j);
    }
    if st.Pending? {
      assert v.cores == w.cores;
    }
  }

  /** Firing and then notifying the chain pays for the continuation. */
  lemma FirePaid(w: World, k: nat, st: State, v: World)
    requires Ready(w, k) && FiresTo(w, k, st) && w.conts[k].src < |w.cores| && w.conts[k].chain < |w.cores|
    requires Notified(Fire(w, k, st), v, w.conts[k].chain)
    ensures Paid(w, v, k)
  {
    var u, c := Fire(w, k, st), w.conts[k].chain;
    FireKept(w, k, st);
    KeptTrans(w, u, v);
    forall j | Owed(v, j) ensures Owed(w, j) && j != k {
      assert Owed(u, j) && KeptCont(u.conts[j], v.conts[j]);
    }
  }

  lemma FireBindKept(w: World, k: nat, i: nat)
    requires Binds(w, k, i)
    ensures w.conts[k].src < |w.cores| && w.conts[k].chain < |w.cores| && i < |w.cores|
    ensures var v := FireBind(w, k, i);
            && Kept(w, v) && !Owed(v, k) && Inv(v)
            && (forall j :: Owed(v, j) && j != |w.conts| ==> Owed(w, j))
            && (w.cores[i].state.Pending? ==> Paid(w, v, k))
  {
    ReadyChain(w, k);
    BindsBelow(w, k, i);
    FireBindInv(w, k, i);
  }

  lemma PushKept(w: World, c: nat, k: nat)
    requires Inv(w) && k < |w.conts| && c < |w.cores| && w.conts[k].src == c
    ensures Inv(Push(w, c, k)) && Kept(w, Push(w, c, k)) && Fewer(w, Push(w, c, k)) && Fewer(Push(w, c, k), w)
  {
    PushInv(w, c, k);
  }

  // ---------------------------------------------------------------------------------------------
  // The runtime
  // ---------------------------------------------------------------------------------------------

  class Runtime {
    var cores: seq<Core>
    var conts: seq<Cont>
    ghost var nodes: seq<Node>
    ghost var rank: seq<nat>
    ghost var first: seq<nat>
    ghost var second: map<nat, nat>
    ghost var bound: nat

    ghost function View(): World
      reads this
    {
      World(nodes, rank, cores, conts, first, second)
    }

    ghost predicate Bounded()
      reads this
    {
      forall c :: 0 <= c < |rank| ==> rank[c] <= bound
    }

    ghost predicate Valid()
      reads this
    {
      Inv(View()) && Quiet(View()) && Bounded()
    }

    constructor ()
      ensures Valid() && View() == EMPTY
    {
      cores, conts, nodes, rank, first, second, bound := [], [], [], [], [], map[], 0;
    }

    /** A promise with its own resolver, with a value or without. */
    method MakePromise(valued: bool, ghost r: nat) returns (c: nat)
      requires Valid()
      modifies this
      ensures Valid() && c == |old(nodes)| && nodes == old(nodes) + [Root(valued)]
      ensures Roots(View()) == Roots(old(View())) + [Pending]
      ensures Denoted() && conts == old(conts) && rank == old(rank) + [r]
    {
      NewRootInv(View(), valued, r);
      c := |cores|;
      ghost var w := View();
      cores := cores + [Core(Pending, [], valued)];
      nodes, rank, first, bound := nodes + [Root(valued)], rank + [r], first + [0], bound + r;
      assert View() == NewRoot(w, valued, r);
      forall j ensures !Owed(View(), j) {
        assert !Owed(w, j);
        assert 0 <= j < |w.conts| ==> ContOk(w, j);
      }
      QuietAll(View());
    }

    /** `Promise::then`: a source already settled fires the continuation before it is listed. */
    method Then(src: nat, kind: Kind, onReject: Handler, ghost r: nat) returns (c: nat)
      requires Valid() && src < |cores| && Attachable(View(), Derived(src, kind, onReject), r)
      requires VoidThrows(nodes[src], kind, onReject)
      modifies this
      ensures Valid() && c == |old(nodes)| && nodes == old(nodes) + [Derived(src, kind, onReject)]
      ensures Roots(View()) == Roots(old(View())) + [Pending]
      ensures Denoted() && Stable(old(View()), View()) && first == old(first) + [|old(conts)|] && rank == old(rank) + [r]
    {
      hide Inv, Kept, Quiet, ContOk, Fewer, Stable, Meaning, PlanOk, CoreOk, Roots, Attachable, Paid, KeptCont;
      ghost var w, n := View(), Derived(src, kind, onReject);
      AttachInv(w, n, r);
      AttachDebt(w, n, r);
      Attached(w, n, r);
      c := |cores|;
      var k := |conts|;
      cores := cores + [Core(Pending, [], kind.Map? || (kind.Bind? && kind.inner))];
      conts := conts + [Cont(src, c, Callback(kind, onReject), 0, 0, [])];
      nodes, rank, first, bound := nodes + [n], rank + [r], first + [k], bound + r;
      ghost var u := Attach(w, n, r);
      if cores[src].state.Pending? {
        cores := cores[src := cores[src].(requests := cores[src].requests + [k])];
        assert View() == u;
      } else {
        assert View() == u;
        if cores[src].state.Fulfilled? {
          ContResolve(k);
        } else {
          ContReject(k);
        }
        AttachedQuiet(w, n, r, View());
        cores := cores[src := cores[src].(requests := cores[src].requests + [k])];
      }
      KeptRoots(u, View());
      AttachedStable(w, n, r, View());
      QuietAll(View());
    }

    /** `Resolver::operator()`, with an argument or without, and `Rejection::operator()`: false is the thrown error. */
    method Settle(c: nat, st: State, argument: bool) returns (ok: bool)
      requires Valid() && c < |cores| && nodes[c].Root? && !st.Pending?
      modifies this`cores, this`conts, this`second
      ensures Valid() && ok == (old(cores[c].state.Pending?) && (st.Rejected? || argument == nodes[c].valued))
      ensures !ok ==> View() == old(View())
      ensures Roots(View()) == if ok then Roots(old(View()))[c := st] else Roots(old(View()))
      ensures Denoted() && Stable(old(View()), View())
    {
      ghost var w := View();
      QuietAll(w);
      assert CoreOk(w, c);
      if !cores[c].state.Pending? || (st.Fulfilled? && argument != cores[c].valued) {
        return false;
      }
      SettleRootInv(w, c, st);
      cores := cores[c := cores[c].(state := st)];
      ghost var u := View();
      assert u == PromiseGraph.Settle(w, c, st);
      SettleDebt(w, c, st);
      Notify(c);
      assert Quiet(View());
      KeptRoots(u, View());
      assert Roots(u) == Roots(w)[c := st];
      SettledStable(w, c, st, View());
      QuietAll(View());
      ok := true;
    }

    /** Every core is in the state that the graph and its roots denote. */
    ghost predicate Denoted()
      reads this
    {
      var w := View();
      Sized(w) && forall c :: 0 <= c < |w.cores| ==> w.cores[c].state == Meaning(w, c)
    }

    /** The loop over `requests` of a settled core. */
    method Notify(c: nat)
      requires Bounded() && Due(View(), c)
      modifies this`cores, this`conts, this`second
      ensures Notified(old(View()), View(), c)
      decreases bound - rank[c], 0
    {
      ghost var w := View();
      var requests, n := cores[c].requests, 0;
      while n < |requests|
        invariant n <= |requests| && Inv(View()) && Kept(w, View()) && Fewer(w, View())
        invariant forall m :: 0 <= m < n ==> !Owed(View(), requests[m])
      {
        ghost var u := View();
        var k := requests[n];
        NotifyEntry(w, u, c, k);
        if cores[c].state.Fulfilled? {
          ContResolve(k);
        } else {
          ContReject(k);
        }
        KeptTrans(w, u, View());
        n := n + 1;
      }
      NotifiedAll(w, View(), c);
    }

    /** `Continuable::resolve`. */
    method ContResolve(k: nat)
      requires Bounded() && Inv(View()) && k < |conts|
      requires ContOk(View(), k) && cores[conts[k].src].state.Fulfilled?
      modifies this`cores, this`conts, this`second
      ensures Paid(old(View()), View(), k)
      decreases bound - rank[conts[k].chain], if conts[k].job.Callback? then 4 else 2
    {
      var t := conts[k];
      if t.resolveCount >= 1 {
        return;
      }
      ghost var w := View();
      Unfired(w, k);
      ReadyChain(w, k);
      var s := cores[t.src].state;
      conts := conts[k := t.(resolveCount := t.resolveCount + 1, runs := t.runs + [s])];
      match t.job {
        case Chainer => Conclude(w, k, s);
        case Callback(kind, _) =>
          match kind {
            case Map(f) => Conclude(w, k, Fulfilled(f(s.value)));
            case Void => FireKept(w, k, Pending);
            case Bind(g, _) =>
              match g(s.value) {
                case Fresh(st) => Conclude(w, k, st);
                case Existing(i) => ThenChainer(w, k, i);
              }
          }
      }
    }

    /** `Continuable::reject`: a handler that rethrows makes the chain rejected, any other leaves it alone. */
    method ContReject(k: nat)
      requires Bounded() && Inv(View()) && k < |conts|
      requires ContOk(View(), k) && cores[conts[k].src].state.Rejected?
      modifies this`cores, this`conts, this`second
      ensures Paid(old(View()), View(), k)
      decreases bound - rank[conts[k].chain], if conts[k].job.Callback? then 4 else 2
    {
      var t := conts[k];
      if t.rejectCount >= 1 {
        return;
      }
      ghost var w := View();
      Unfired(w, k);
      ReadyChain(w, k);
      var s := cores[t.src].state;
      conts := conts[k := t.(rejectCount := t.rejectCount + 1, runs := t.runs + [s])];
      if t.job.Chainer? || t.job.onReject.Throw? {
        Conclude(w, k, s);
      } else {
        FireKept(w, k, Pending);
      }
    }

    /** The chain gets its state, and everything that waits for it is notified. */
    method Conclude(ghost w: World, k: nat, st: State)
      requires Bounded() && Ready(w, k) && FiresTo(w, k, st) && ContOk(w, k) && View() == Marked(w, k)
      modifies this`cores, this`conts, this`second
      ensures Paid(w, View(), k)
      decreases bound - rank[conts[k].chain], 1
    {
      FireKept(w, k, st);
      FireInv(w, k, st);
      if st.Pending? {
        return;
      }
      var c := conts[k].chain;
      cores := cores[c := cores[c].(state := st)];
      Notify(c);
      FirePaid(w, k, st, View());
    }

    /** `promise.then(chainer, ..)` on the promise that a callback returned. */
    method ThenChainer(ghost w: World, k: nat, i: nat)
      requires Bounded() && Binds(w, k, i) && ContOk(w, k) && View() == Marked(w, k)
      modifies this`cores, this`conts, this`second
      ensures Paid(w, View(), k)
      decreases bound - rank[conts[k].chain], 3
    {
      FireBindKept(w, k, i);
      BindsBelow(w, k, i);
      var j, c := |conts|, conts[k].chain;
      conts := conts + [NewChainer(i, c)];
      second := second[c := j];
      if cores[i].state.Pending? {
        cores := cores[i := cores[i].(requests := cores[i].requests + [j])];
        assert View() == FireBind(w, k, i);
      } else {
        ghost var u := View();
        assert u == FireBind(w, k, i) && ContOk(u, j);
        if cores[i].state.Fulfilled? {
          ContResolve(j);
        } else {
          ContReject(j);
        }
        ghost var v := View();
        assert KeptCont(u.conts[j], v.conts[j]);
        cores := cores[i := cores[i].(requests := cores[i].requests + [j])];
        PushKept(v, i, j);
        KeptTrans(w, u, v);
        KeptTrans(w, v, View());
      }
    }
  }

  /** On a promise without a value, a callback that returns a value comes with no handler that swallows a rejection. */
  predicate VoidThrows(n: Node, kind: Kind, onReject: Handler) {
    !Valued(n) && kind.Map? ==> onReject.Throw?
  }

  /** What was settled or has run before is as it was. */
  ghost predicate Stable(w: World, v: World) {
    && |w.cores| <= |v.cores| && |w.conts| <= |v.conts|
    && (forall c :: 0 <= c < |w.cores| && !w.cores[c].state.Pending? ==> v.cores[c].state == w.cores[c].state)
    && (forall k :: 0 <= k < |w.conts| ==> KeptCont(w.conts[k], v.conts[k]))
  }

  lemma QuietAll(w: World)
    requires Inv(w) && Quiet(w)
    ensures forall c :: 0 <= c < |w.cores| ==> w.cores[c].state == Meaning(w, c)
  {
    forall c | 0 <= c < |w.cores| ensures w.cores[c].state == Meaning(w, c) {
      QuietDenotes(w, c);
    }
  }

  lemma KeptRoots(w: World, v: World)
    requires Kept(w, v)
    ensures Roots(w) == Roots(v)
  {
    forall c | 0 <= c < |w.cores| ensures Roots(w)[c] == Roots(v)[c] {
      assert KeptCore(w, v, c);
    }
  }

  lemma Attached(w: World, n: Node, r: nat)
    requires Inv(w) && Attachable(w, n, r)
    ensures var u := Attach(w, n, r);
            |w.nodes| == |w.cores| && Sized(u) && ContOk(u, |w.conts|) && Kept(u, u) && |u.conts| == |w.conts| + 1
  {
    AttachInv(w, n, r);
  }

  lemma AttachDebt(w: World, n: Node, r: nat)
    requires Inv(w) && Quiet(w) && Attachable(w, n, r)
    ensures var u := Attach(w, n, r);
            && (forall j :: Owed(u, j) ==> j == |w.conts| && !w.cores[n.src].state.Pending?)
            && Roots(u) == Roots(w) + [Pending]
            && (w.cores[n.src].state.Pending? ==> Quiet(u))
  {
    var u := Attach(w, n, r);
    forall j | Owed(u, j) ensures j == |w.conts| && !w.cores[n.src].state.Pending? {
      assert !Owed(w, j);
      assert 0 <= j < |w.conts| ==> ContOk(w, j);
    }
  }

  /** A source that was settled has fired its new continuation, which is then listed for nothing. */
  lemma AttachedQuiet(w: World, n: Node, r: nat, v: World)
    requires Inv(w) && Quiet(w) && Attachable(w, n, r) && n.src < |w.cores| && !w.cores[n.src].state.Pending?
    requires Paid(Attach(w, n, r), v, |w.conts|)
    ensures n.src < |v.cores|
    ensures var x := Push(v, n.src, |w.conts|); Inv(x) && Quiet(x) && Kept(Attach(w, n, r), x)
  {
    var u, k := Attach(w, n, r), |w.conts|;
    AttachDebt(w, n, r);
    assert u.conts[k].src == n.src && KeptCont(u.conts[k], v.conts[k]);
    PushKept(v, n.src, k);
    KeptTrans(u, v, Push(v, n.src, k));
  }

  lemma AttachedStable(w: World, n: Node, r: nat, v: World)
    requires Inv(w) && Attachable(w, n, r) && Kept(Attach(w, n, r), v)
    ensures Stable(w, v)
  {
    var u := Attach(w, n, r);
    forall c | 0 <= c < |w.cores| && !w.cores[c].state.Pending? ensures v.cores[c].state == w.cores[c].state {
      assert KeptCore(u, v, c);
    }
    forall k | 0 <= k < |w.conts| ensures KeptCont(w.conts[k], v.conts[k]) {
      assert KeptCont(u.conts[k], v.conts[k]);
    }
  }

  lemma SettleDebt(w: World, c: nat, st: State)
    requires Inv(w) && Quiet(w) && c < |w.cores| && w.nodes[c].Root? && w.cores[c].state.Pending? && !st.Pending?
    requires Inv(Settle(w, c, st))
    ensures Due(Settle(w, c, st), c) && forall j :: Owed(Settle(w, c, st), j) ==> w.conts[j].src == c
  {
    var u := Settle(w, c, st);
    forall j | Owed(u, j) ensures w.conts[j].src == c && j in u.cores[c].requests {
      assert ContOk(w, j) && !Owed(w, j);
    }
  }

  lemma SettledStable(w: World, c: nat, st: State, v: World)
    requires Inv(w) && c < |w.cores| && w.cores[c].state.Pending? && Kept(Settle(w, c, st), v)
    ensures Stable(w, v)
  {
    var u := Settle(w, c, st);
    forall d | 0 <= d < |w.cores| && !w.cores[d].state.Pending? ensures v.cores[d].state == w.cores[d].state {
      assert KeptCore(u, v, d);
    }
    forall k | 0 <= k < |w.conts| ensures KeptCont(w.conts[k], v.conts[k]) {
      assert KeptCont(u.conts[k], v.conts[k]);
    }
  }

  lemma NotifyEntry(w: World, u: World, c: nat, k: nat)
    requires Due(w, c) && Inv(u) && Kept(w, u) && k in w.cores[c].requests
    ensures k < |u.conts| && ContOk(u, k) && u.conts[k].src == c && u.cores[c].state == w.cores[c].state
    ensures w.rank[c] < w.rank[u.conts[k].chain]
  {
    assert ListOk(w, c) && KeptCore(w, u, c) && KeptCont(w.conts[k], u.conts[k]) && ContOk(u, k);
    RankGrows(u, k);
  }

  /** A continuation's chain ranks above the core it is attached to. */
  lemma RankGrows(w: World, k: nat)
    requires Inv(w) && k < |w.conts|
    ensures ContOk(w, k) && w.rank[w.conts[k].src] < w.rank[w.conts[k].chain]
  {
    var t := w.conts[k];
    assert ContOk(w, k) && CoreOk(w, t.chain) && NodeOk(w.nodes, w.rank, t.chain);
    if t.job.Chainer? {
      assert ContOk(w, w.first[t.chain]);
      var n := w.nodes[t.chain];
      assert InnerOk(n.kind.g(w.cores[n.src].state.value), w.rank, w.rank[t.chain]);
    }
  }

  lemma Unfired(w: World, k: nat)
    requires Inv(w) && k < |w.conts| && ContOk(w, k)
    requires if w.cores[w.conts[k].src].state.Fulfilled? then w.conts[k].resolveCount == 0
             else w.cores[w.conts[k].src].state.Rejected? && w.conts[k].rejectCount == 0
    ensures Ready(w, k)
  {
  }

  lemma NotifiedAll(w: World, v: World, c: nat)
    requires Due(w, c) && Inv(v) && Kept(w, v) && Fewer(w, v)
    requires forall m :: 0 <= m < |w.cores[c].requests| ==> !Owed(v, w.cores[c].requests[m])
    ensures Notified(w, v, c)
  {
    forall j | Owed(v, j) ensures v.conts[j].src != c {
      assert Owed(w, j) && KeptCont(w.conts[j], v.conts[j]);
    }
  }

  /** A value doubled by a callback. */
  method Doubled() returns (rt: Runtime, doubled: nat)
    ensures fresh(rt) && rt.Valid() && doubled < |rt.cores| && rt.cores[doubled].state == Fulfilled(10)
  {
    rt := new Runtime();
    var source := rt.MakePromise(true, 0);
    doubled := rt.Then(source, Map(x => 2 * x), Throw, 1);
    assert Roots(rt.View()) == [Pending, Pending];
    var ok := rt.Settle(source, Fulfilled(5), true);
    MapApplies(rt.View(), doubled);
  }

  /** A value swapped for another promise, which is then rejected. */
  method Followed() returns (rt: Runtime, swapped: nat)
    ensures fresh(rt) && rt.Valid() && swapped < |rt.cores| && rt.cores[swapped].state == Rejected(7)
  {
    rt := new Runtime();
    var inner := rt.MakePromise(true, 0);
    var source := rt.MakePromise(true, 0);
    swapped := rt.Then(source, Bind(x => if x == 10 then Existing(0) else Fresh(Pending), true), Throw, 1);
    assert Roots(rt.View()) == [Pending, Pending, Pending];
    var ok := rt.Settle(source, Fulfilled(10), true);
    ok := rt.Settle(inner, Rejected(7), true);
    BindFollows(rt.View(), swapped);
  }
}

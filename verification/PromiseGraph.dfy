/** The graph of promise cores and continuations of async.h, and what every part of it keeps.

  Cores and continuations are numbered in the order of their creation. `nodes` and `rank` say how
  each core came to be and that nothing waits for itself; `first` and `second` name the
  continuation that settles a derived core: the one given to `then`, or the chainer that its
  promise-returning callback left on an inner promise.
 */
module PromiseGraph {

  datatype State = Pending | Fulfilled(value: int) | Rejected(exc: int)

  /** What a rejection handler does: `Throw` rethrows what it was given, any other returns. */
  datatype Handler = Throw | Returns

  /** The promise a callback returns: one made before, or a fresh one that nobody else will settle. */
  datatype Inner = Existing(core: nat) | Fresh(state: State)

  /** What a fulfilment callback returns: a value, nothing, or a promise, with a value if `inner`. */
  datatype Kind = Map(f: int -> int) | Void | Bind(g: int -> Inner, inner: bool)

  datatype Node = Root(valued: bool) | Derived(src: nat, kind: Kind, onReject: Handler)

  /** Whether the promise has a value; one that has none is fulfilled with a number that no callback looks at. */
  predicate Valued(n: Node) {
    match n
    case Root(valued) => valued
    case Derived(_, kind, _) => kind.Map? || (kind.Bind? && kind.inner)
  }

  datatype Core = Core(state: State, requests: seq<nat>, valued: bool)

  datatype Job = Callback(kind: Kind, onReject: Handler) | Chainer

  /** A continuation; `src` is the core it was attached to, `runs` what its handlers were called with. */
  datatype Cont = Cont(src: nat, chain: nat, job: Job, resolveCount: nat, rejectCount: nat, runs: seq<State>)

  datatype World = World(nodes: seq<Node>, rank: seq<nat>, cores: seq<Core>, conts: seq<Cont>,
                         first: seq<nat>, second: map<nat, nat>)

  const EMPTY := World([], [], [], [], [], map[])

  predicate Fired(t: Cont) {
    t.resolveCount + t.rejectCount > 0
  }

  /** What a callback makes of its settled source: a state for the chain, or an inner promise to wait for. */
  datatype Next = Now(state: State) | Later(core: nat)

  function Outcome(kind: Kind, onReject: Handler, s: State): Next {
    match s
    case Pending => Now(Pending)
    case Rejected(e) => Now(if onReject.Throw? then s else Pending)
    case Fulfilled(v) =>
      match kind
      case Map(f) => Now(Fulfilled(f(v)))
      case Void => Now(Pending)
      case Bind(g, _) => match g(v) case Existing(i) => Later(i) case Fresh(st) => Now(st)
  }

  // ---------------------------------------------------------------------------------------------
  // The invariant
  // ---------------------------------------------------------------------------------------------

  ghost predicate NodeOk(nodes: seq<Node>, rank: seq<nat>, c: nat)
    requires |rank| == |nodes| && c < |nodes|
  {
    nodes[c].Derived? ==>
      && nodes[c].src < |nodes| && rank[nodes[c].src] < rank[c]
      && (nodes[c].kind.Bind? ==> forall v :: InnerOk(nodes[c].kind.g(v), rank, rank[c]))
  }

  predicate InnerOk(inner: Inner, rank: seq<nat>, below: nat) {
    inner.Existing? ==> inner.core < |rank| && rank[inner.core] < below
  }

  ghost predicate PlanOk(nodes: seq<Node>, rank: seq<nat>) {
    |rank| == |nodes| && forall c :: 0 <= c < |nodes| ==> NodeOk(nodes, rank, c)
  }

  ghost predicate Sized(w: World) {
    PlanOk(w.nodes, w.rank) && |w.cores| == |w.first| == |w.nodes|
  }

  /** Continuation `k` waits for, or was fired by, core `src` on behalf of core `chain`. */
  ghost predicate ContOk(w: World, k: nat)
    requires Sized(w) && k < |w.conts|
  {
    var t := w.conts[k];
    && t.src < |w.cores| && t.chain < |w.cores| && w.nodes[t.chain].Derived?
    && (if t.job.Callback? then w.first[t.chain] == k
        else t.chain in w.second && w.second[t.chain] == k)
    && (!Fired(t) ==> t.runs == [])
    && (Fired(t) ==> !w.cores[t.src].state.Pending? && t.runs == [w.cores[t.src].state])
    && (Fired(t) ==> if w.cores[t.src].state.Fulfilled? then t.resolveCount == 1 && t.rejectCount == 0
                     else t.resolveCount == 0 && t.rejectCount == 1)
    && (w.cores[t.src].state.Pending? ==> k in w.cores[t.src].requests)
  }

  /** The first continuation of a derived core has run: this is what it left behind. */
  ghost predicate After(w: World, c: nat, next: Next)
    requires Sized(w) && c < |w.cores|
  {
    match next
    case Now(st) => w.cores[c].state == st && c !in w.second
    case Later(i) =>
      && c in w.second && w.second[c] < |w.conts| && i < |w.cores|
      && var t := w.conts[w.second[c]];
         && t.src == i && t.chain == c && t.job.Chainer?
         && w.cores[c].state == if Fired(t) then w.cores[i].state else Pending
  }

  ghost predicate CoreOk(w: World, c: nat)
    requires Sized(w) && c < |w.cores|
  {
    w.cores[c].valued == Valued(w.nodes[c]) &&
    (w.nodes[c].Derived? ==>
      var k, n := w.first[c], w.nodes[c];
      && k < |w.conts| && n.src < |w.cores|
      && w.conts[k].src == n.src && w.conts[k].chain == c && w.conts[k].job == Callback(n.kind, n.onReject)
      && if Fired(w.conts[k]) then After(w, c, Outcome(n.kind, n.onReject, w.cores[n.src].state))
         else w.cores[c].state.Pending? && c !in w.second)
  }

  ghost predicate ListOk(w: World, c: nat)
    requires Sized(w) && c < |w.cores|
  {
    forall r :: r in w.cores[c].requests ==> r < |w.conts| && w.conts[r].src == c
  }

  ghost predicate Inv(w: World) {
    && Sized(w)
    && (forall k :: 0 <= k < |w.conts| ==> ContOk(w, k))
    && (forall c :: 0 <= c < |w.cores| ==> CoreOk(w, c))
    && (forall c :: 0 <= c < |w.cores| ==> ListOk(w, c))
    && (forall c :: c in w.second ==> c < |w.cores|)
  }

  /** Continuation `k` should have run and has not. */
  predicate Owed(w: World, k: int) {
    0 <= k < |w.conts| && !Fired(w.conts[k]) && w.conts[k].src < |w.cores| && !w.cores[w.conts[k].src].state.Pending?
  }

  ghost predicate Quiet(w: World) {
    forall k :: !Owed(w, k)
  }

  // ---------------------------------------------------------------------------------------------
  // Steps
  // ---------------------------------------------------------------------------------------------

  function Settle(w: World, c: nat, st: State): World
    requires c < |w.cores|
  {
    w.(cores := w.cores[c := w.cores[c].(state := st)])
  }

  function Mark(t: Cont, s: State): Cont {
    if s.Fulfilled? then t.(resolveCount := t.resolveCount + 1, runs := t.runs + [s])
    else t.(rejectCount := t.rejectCount + 1, runs := t.runs + [s])
  }

  /** Continuation `k` has counted its run. */
  function Marked(w: World, k: nat): World
    requires k < |w.conts| && w.conts[k].src < |w.cores|
  {
    w.(conts := w.conts[k := Mark(w.conts[k], w.cores[w.conts[k].src].state)])
  }

  /** Continuation `k` runs, and its chain gets the state `st`. */
  function Fire(w: World, k: nat, st: State): World
    requires k < |w.conts| && w.conts[k].src < |w.cores| && w.conts[k].chain < |w.cores|
  {
    Settle(Marked(w, k), w.conts[k].chain, st)
  }

  /** The chainer that waits for core `i` on behalf of core `chain`. */
  function NewChainer(i: nat, chain: nat): Cont {
    Cont(i, chain, Chainer, 0, 0, [])
  }

  function Push(w: World, c: nat, k: nat): World
    requires c < |w.cores|
  {
    w.(cores := w.cores[c := w.cores[c].(requests := w.cores[c].requests + [k])])
  }

  /** Continuation `k` runs, and leaves a chainer behind, listed at once when it has to wait. */
  function FireBind(w: World, k: nat, i: nat): World
    requires k < |w.conts| && w.conts[k].src < |w.cores| && w.conts[k].chain < |w.cores| && i < |w.cores|
  {
    var t, j := w.conts[k], |w.conts|;
    var w1 := Marked(w, k).(conts := Marked(w, k).conts + [NewChainer(i, t.chain)], second := w.second[t.chain := j]);
    if w.cores[i].state.Pending? then Push(w1, i, j) else w1
  }

  /** `then`: a new core, and the continuation that will settle it. */
  function Attach(w: World, n: Node, rank: nat): World
    requires n.Derived? && n.src < |w.cores|
  {
    var c, k := |w.cores|, |w.conts|;
    var w1 := w.(nodes := w.nodes + [n], rank := w.rank + [rank], first := w.first + [k],
                 cores := w.cores + [Core(Pending, [], Valued(n))],
                 conts := w.conts + [Cont(n.src, c, Callback(n.kind, n.onReject), 0, 0, [])]);
    if w.cores[n.src].state.Pending? then Push(w1, n.src, k) else w1
  }

  function NewRoot(w: World, valued: bool, rank: nat): World {
    w.(nodes := w.nodes + [Root(valued)], rank := w.rank + [rank], first := w.first + [0],
       cores := w.cores + [Core(Pending, [], valued)])
  }

  // ---------------------------------------------------------------------------------------------
  // Every step keeps the invariant
  // ---------------------------------------------------------------------------------------------

  lemma SettleRootInv(w: World, c: nat, st: State)
    requires Inv(w) && c < |w.cores| && w.nodes[c].Root? && w.cores[c].state.Pending?
    ensures Inv(Settle(w, c, st))
  {
    var w' := Settle(w, c, st);
    forall k | 0 <= k < |w'.conts| ensures ContOk(w', k) {
      assert ContOk(w, k);
    }
    forall d | 0 <= d < |w'.cores| ensures CoreOk(w', d) && ListOk(w', d) {
      assert CoreOk(w, d) && ListOk(w, d);
      SettleCore(w, c, st, d);
    }
  }

  /** Settling a pending core disturbs no other core: whatever waits for it has not run. */
  lemma SettleCore(w: World, c: nat, st: State, d: nat)
    requires Inv(w) && c < |w.cores| && d < |w.cores| && w.cores[c].state.Pending?
    requires d != c || w.nodes[c].Root?
    ensures CoreOk(Settle(w, c, st), d)
  {
    assert CoreOk(w, d);
    if w.nodes[d].Derived? {
      assert ContOk(w, w.first[d]);
      if d in w.second {
        assert Fired(w.conts[w.first[d]]);
        assert ContOk(w, w.second[d]);
      }
    }
  }

  /** `k` is ready to run: its source is settled and it has not run. */
  ghost predicate Ready(w: World, k: nat) {
    Inv(w) && k < |w.conts| && Owed(w, k)
  }

  lemma ReadyChain(w: World, k: nat)
    requires Ready(w, k)
    ensures var t := w.conts[k];
            && t.src < |w.cores| && t.chain < |w.cores| && w.nodes[t.chain].Derived?
            && w.cores[t.chain].state.Pending? && w.rank[t.src] < w.rank[t.chain]
            && (t.job.Callback? ==> t.job == Callback(w.nodes[t.chain].kind, w.nodes[t.chain].onReject)
                                    && t.src == w.nodes[t.chain].src && t.chain !in w.second)
  {
    var c := w.conts[k].chain;
    assert ContOk(w, k) && CoreOk(w, c) && NodeOk(w.nodes, w.rank, c);
    if w.conts[k].job.Chainer? {
      assert ContOk(w, w.first[c]) && Fired(w.conts[w.first[c]]);
      var n := w.nodes[c];
      var s := w.cores[n.src].state;
      assert Outcome(n.kind, n.onReject, s) == Later(w.conts[k].src);
      assert InnerOk(n.kind.g(s.value), w.rank, w.rank[c]);
    }
  }

  /** What the chain of `k` becomes when `k` runs without waiting further. */
  ghost predicate FiresTo(w: World, k: nat, st: State)
    requires Ready(w, k)
  {
    ReadyChain(w, k);
    var t := w.conts[k];
    match t.job
    case Callback(kind, onReject) => Outcome(kind, onReject, w.cores[t.src].state) == Now(st)
    case Chainer => st == w.cores[t.src].state
  }

  lemma FireInv(w: World, k: nat, st: State)
    requires Ready(w, k) && FiresTo(w, k, st)
    ensures w.conts[k].src < |w.cores| && w.conts[k].chain < |w.cores| && Inv(Fire(w, k, st))
  {
    ReadyChain(w, k);
    var w' := Fire(w, k, st);
    forall j | 0 <= j < |w'.conts| ensures ContOk(w', j) {
      assert ContOk(w, j);
    }
    forall d | 0 <= d < |w'.cores| ensures ListOk(w', d) {
      assert ListOk(w, d);
    }
    forall d | 0 <= d < |w'.cores| ensures CoreOk(w', d) {
      if d == w.conts[k].chain {
        FiredCore(w, k, st);
      } else {
        OtherCore(w, k, st, d);
      }
    }
  }

  lemma FiredCore(w: World, k: nat, st: State)
    requires Ready(w, k) && FiresTo(w, k, st)
    ensures w.conts[k].src < |w.cores| && w.conts[k].chain < |w.cores| && CoreOk(Fire(w, k, st), w.conts[k].chain)
  {
    ReadyChain(w, k);
    var c := w.conts[k].chain;
    assert CoreOk(w, c) && ContOk(w, k) && NodeOk(w.nodes, w.rank, c);
    if w.conts[k].job.Chainer? {
      assert ContOk(w, w.first[c]);
    }
  }

  lemma OtherCore(w: World, k: nat, st: State, d: nat)
    requires Ready(w, k) && d < |w.cores| && d != w.conts[k].chain
    ensures w.conts[k].src < |w.cores| && w.conts[k].chain < |w.cores| && CoreOk(Fire(w, k, st), d)
  {
    ReadyChain(w, k);
    assert CoreOk(w, d);
    if w.nodes[d].Derived? {
      assert ContOk(w, w.first[d]);
      if d in w.second {
        assert Fired(w.conts[w.first[d]]);
        assert ContOk(w, w.second[d]);
      }
    }
  }

  /** Callback `k` is ready, and its source's value makes it return the promise with core `i`. */
  ghost predicate Binds(w: World, k: nat, i: nat) {
    && Ready(w, k) && w.conts[k].job.Callback?
    && var t := w.conts[k]; Outcome(t.job.kind, t.job.onReject, w.cores[t.src].state) == Later(i)
  }

  lemma BindsBelow(w: World, k: nat, i: nat)
    requires Binds(w, k, i)
    ensures var t := w.conts[k]; t.chain < |w.cores| && i < |w.cores| && w.rank[i] < w.rank[t.chain]
  {
    ReadyChain(w, k);
    var t := w.conts[k];
    assert NodeOk(w.nodes, w.rank, t.chain);
    assert InnerOk(t.job.kind.g(w.cores[t.src].state.value), w.rank, w.rank[t.chain]);
  }

  lemma FireBindInv(w: World, k: nat, i: nat)
    requires Binds(w, k, i)
    ensures w.conts[k].chain < |w.cores| && i < |w.cores| && Inv(FireBind(w, k, i))
  {
    ReadyChain(w, k);
    BindsBelow(w, k, i);
    var w' := FireBind(w, k, i);
    forall j | 0 <= j < |w'.conts| ensures ContOk(w', j) {
      if j < |w.conts| {
        assert ContOk(w, j);
      }
    }
    forall d | 0 <= d < |w'.cores| ensures ListOk(w', d) && CoreOk(w', d) {
      FireBindCore(w, k, i, d);
    }
  }

  lemma FireBindCore(w: World, k: nat, i: nat, d: nat)
    requires Binds(w, k, i) && d < |w.cores|
    ensures w.conts[k].chain < |w.cores| && i < |w.cores| && ListOk(FireBind(w, k, i), d) && CoreOk(FireBind(w, k, i), d)
  {
    hide CoreOk, ContOk, Outcome;
    ReadyChain(w, k);
    BindsBelow(w, k, i);
    assert ListOk(w, d);
    if d == w.conts[k].chain {
      BoundCore(w, k, i);
    } else {
      UnboundCore(w, k, i, d);
    }
  }

  lemma BoundCore(w: World, k: nat, i: nat)
    requires Binds(w, k, i) && w.conts[k].chain < |w.cores| && i < |w.cores|
    ensures CoreOk(FireBind(w, k, i), w.conts[k].chain)
  {
    ReadyChain(w, k);
    assert CoreOk(w, w.conts[k].chain) && ContOk(w, k);
  }

  lemma UnboundCore(w: World, k: nat, i: nat, d: nat)
    requires Binds(w, k, i) && w.conts[k].chain < |w.cores| && i < |w.cores| && d < |w.cores| && d != w.conts[k].chain
    ensures CoreOk(FireBind(w, k, i), d)
  {
    hide Outcome;
    ReadyChain(w, k);
    assert CoreOk(w, d) && ContOk(w, k);
    if w.nodes[d].Derived? {
      assert ContOk(w, w.first[d]);
      if d in w.second {
        assert ContOk(w, w.second[d]);
      }
    }
  }

  lemma PushInv(w: World, c: nat, k: nat)
    requires Inv(w) && k < |w.conts| && c < |w.cores| && w.conts[k].src == c
    ensures Inv(Push(w, c, k))
  {
    var w' := Push(w, c, k);
    forall j | 0 <= j < |w'.conts| ensures ContOk(w', j) {
      assert ContOk(w, j);
    }
    forall d | 0 <= d < |w'.cores| ensures ListOk(w', d) && CoreOk(w', d) {
      assert ListOk(w, d) && CoreOk(w, d);
    }
  }

  /** What the caller of `then` supplies: nothing waits for itself, however the callbacks answer. */
  ghost predicate Attachable(w: World, n: Node, rank: nat) {
    && n.Derived? && n.src < |w.nodes| && |w.rank| == |w.nodes| && w.rank[n.src] < rank
    && (n.kind.Bind? ==> forall v :: InnerOk(n.kind.g(v), w.rank, rank))
  }

  lemma AttachInv(w: World, n: Node, rank: nat)
    requires Inv(w) && Attachable(w, n, rank)
    ensures Inv(Attach(w, n, rank))
  {
    var w' := Attach(w, n, rank);
    forall c | 0 <= c < |w'.nodes| ensures NodeOk(w'.nodes, w'.rank, c) {
      if c < |w.nodes| {
        assert NodeOk(w.nodes, w.rank, c);
        if w.nodes[c].Derived? && w.nodes[c].kind.Bind? {
          forall v ensures InnerOk(w.nodes[c].kind.g(v), w'.rank, w'.rank[c]) {
            assert InnerOk(w.nodes[c].kind.g(v), w.rank, w.rank[c]);
          }
        }
      } else if n.kind.Bind? {
        forall v ensures InnerOk(n.kind.g(v), w'.rank, rank) {
          assert InnerOk(n.kind.g(v), w.rank, rank);
        }
      }
    }
    assert Sized(w');
    AttachConts(w, n, rank);
    AttachCores(w, n, rank);
  }

  lemma AttachConts(w: World, n: Node, rank: nat)
    requires Inv(w) && Attachable(w, n, rank) && Sized(Attach(w, n, rank))
    ensures var w' := Attach(w, n, rank); forall k :: 0 <= k < |w'.conts| ==> ContOk(w', k)
  {
    var w' := Attach(w, n, rank);
    forall j | 0 <= j < |w'.conts| ensures ContOk(w', j) {
      if j < |w.conts| {
        assert ContOk(w, j);
      }
    }
  }

  lemma AttachCores(w: World, n: Node, rank: nat)
    requires Inv(w) && Attachable(w, n, rank) && Sized(Attach(w, n, rank))
    ensures var w' := Attach(w, n, rank); forall d :: 0 <= d < |w'.cores| ==> CoreOk(w', d) && ListOk(w', d)
  {
    var w' := Attach(w, n, rank);
    forall d | 0 <= d < |w'.cores| ensures ListOk(w', d) && CoreOk(w', d) {
      if d < |w.cores| {
        assert ListOk(w, d) && CoreOk(w, d);
      }
    }
  }

  lemma NewRootInv(w: World, valued: bool, rank: nat)
    requires Inv(w)
    ensures Inv(NewRoot(w, valued, rank))
  {
    var w' := NewRoot(w, valued, rank);
    forall c | 0 <= c < |w'.nodes| ensures NodeOk(w'.nodes, w'.rank, c) {
      if c < |w.nodes| {
        assert NodeOk(w.nodes, w.rank, c);
        if w.nodes[c].Derived? && w.nodes[c].kind.Bind? {
          forall v ensures InnerOk(w.nodes[c].kind.g(v), w'.rank, w'.rank[c]) {
            assert InnerOk(w.nodes[c].kind.g(v), w.rank, w.rank[c]);
          }
        }
      }
    }
    assert Sized(w');
    forall k | 0 <= k < |w'.conts| ensures ContOk(w', k) {
      assert ContOk(w, k);
    }
    forall d | 0 <= d < |w'.cores| ensures ListOk(w', d) && CoreOk(w', d) {
      if d < |w.cores| {
        assert ListOk(w, d) && CoreOk(w, d);
      }
    }
  }
}

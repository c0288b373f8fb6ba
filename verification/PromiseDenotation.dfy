/** What a promise graph means: the state of every core, computed from its roots alone. */
module PromiseDenotation {
  import opened PromiseGraph

  /** The state that core `c` has to have when the roots have the states `roots`. */
  ghost function Denote(nodes: seq<Node>, rank: seq<nat>, roots: seq<State>, c: nat): State
    requires PlanOk(nodes, rank) && |roots| == |nodes| && c < |nodes|
    decreases rank[c]
  {
    match nodes[c]
    case Root(_) => roots[c]
    case Derived(src, kind, onReject) =>
      assert NodeOk(nodes, rank, c);
      var s := Denote(nodes, rank, roots, src);
      match Outcome(kind, onReject, s)
      case Now(st) => st
      case Later(i) =>
        assert InnerOk(kind.g(s.value), rank, rank[c]);
        Denote(nodes, rank, roots, i)
  }

  function Roots(w: World): seq<State>
    requires |w.cores| == |w.nodes|
  {
    seq(|w.nodes|, c requires 0 <= c < |w.nodes| => if w.nodes[c].Root? then w.cores[c].state else Pending)
  }

  ghost function Meaning(w: World, c: nat): State
    requires Sized(w) && c < |w.cores|
  {
    Denote(w.nodes, w.rank, Roots(w), c)
  }

  /** With no continuation owed, every core is in the state that the graph denotes. */
  lemma {:induction false} QuietDenotes(w: World, c: nat)
    requires Inv(w) && Quiet(w) && c < |w.cores|
    ensures w.cores[c].state == Meaning(w, c)
    decreases w.rank[c]
  {
    assert NodeOk(w.nodes, w.rank, c) && CoreOk(w, c);
    if w.nodes[c].Derived? {
      var n := w.nodes[c];
      var s := w.cores[n.src].state;
      QuietDenotes(w, n.src);
      assert ContOk(w, w.first[c]) && !Owed(w, w.first[c]);
      match Outcome(n.kind, n.onReject, s)
      case Now(_) =>
      case Later(i) =>
        assert InnerOk(n.kind.g(s.value), w.rank, w.rank[c]);
        QuietDenotes(w, i);
        assert ContOk(w, w.second[c]) && !Owed(w, w.second[c]);
    }
  }

  /** Every continuation has run exactly once, on its source's final state, or its source is pending and it has not run. */
  lemma ExactlyOnce(w: World, k: nat)
    requires Inv(w) && Quiet(w) && k < |w.conts|
    ensures w.conts[k].src < |w.cores|
    ensures var s := Meaning(w, w.conts[k].src);
            && w.conts[k].runs == if s.Pending? then [] else [s]
  {
    assert ContOk(w, k) && !Owed(w, k);
    QuietDenotes(w, w.conts[k].src);
  }

  /** Core `c` is core `r`, or hangs below it through `Throw` handlers and promises that callbacks returned. */
  ghost predicate Below(nodes: seq<Node>, rank: seq<nat>, roots: seq<State>, r: nat, c: nat)
    requires PlanOk(nodes, rank) && |roots| == |nodes| && c < |nodes|
    decreases rank[c]
  {
    c == r ||
    match nodes[c]
    case Root(_) => false
    case Derived(src, kind, onReject) =>
      assert NodeOk(nodes, rank, c);
      var s := Denote(nodes, rank, roots, src);
      || (onReject.Throw? && Below(nodes, rank, roots, r, src))
      || (Outcome(kind, onReject, s).Later? &&
          (assert InnerOk(kind.g(s.value), rank, rank[c]);
           Below(nodes, rank, roots, r, Outcome(kind, onReject, s).core)))
  }

  /** A rejection reaches everything below it unchanged. */
  lemma {:induction false} RejectionSpreads(nodes: seq<Node>, rank: seq<nat>, roots: seq<State>, r: nat, c: nat)
    requires PlanOk(nodes, rank) && |roots| == |nodes| && r < |nodes| && c < |nodes|
    requires Denote(nodes, rank, roots, r).Rejected? && Below(nodes, rank, roots, r, c)
    ensures Denote(nodes, rank, roots, c) == Denote(nodes, rank, roots, r)
    decreases rank[c]
  {
    if c != r {
      assert NodeOk(nodes, rank, c);
      var n := nodes[c];
      var s := Denote(nodes, rank, roots, n.src);
      if n.onReject.Throw? && Below(nodes, rank, roots, r, n.src) {
        RejectionSpreads(nodes, rank, roots, r, n.src);
      } else {
        assert InnerOk(n.kind.g(s.value), rank, rank[c]);
        RejectionSpreads(nodes, rank, roots, r, Outcome(n.kind, n.onReject, s).core);
      }
    }
  }

  /** Below a rejected core no continuation has ever run on a value. */
  lemma NoCallbackBelow(w: World, r: nat, k: nat)
    requires Inv(w) && Quiet(w) && r < |w.cores| && k < |w.conts| && w.cores[r].state.Rejected?
    requires w.conts[k].src < |w.cores| && Below(w.nodes, w.rank, Roots(w), r, w.conts[k].src)
    ensures w.conts[k].runs == [w.cores[r].state]
  {
    QuietDenotes(w, r);
    ExactlyOnce(w, k);
    RejectionSpreads(w.nodes, w.rank, Roots(w), r, w.conts[k].src);
  }

  // ---------------------------------------------------------------------------------------------
  // Only the graph and its roots matter
  // ---------------------------------------------------------------------------------------------

  /** Core `c` of one graph is called `to[c]` in another. */
  ghost predicate SameInner(i: Inner, j: Inner, to: seq<nat>) {
    match i
    case Existing(c) => c < |to| && j == Existing(to[c])
    case Fresh(_) => j == i
  }

  ghost predicate SameKind(k: Kind, l: Kind, to: seq<nat>) {
    match k
    case Map(f) => l.Map? && forall x :: f(x) == l.f(x)
    case Void => l.Void?
    case Bind(g, inner) => l.Bind? && l.inner == inner && forall x :: SameInner(g(x), l.g(x), to)
  }

  /** Core `c` came to be in `v` as `to[c]` did in `w`, and if it is a root it has the same state. */
  ghost predicate SameNode(v: World, w: World, to: seq<nat>, c: nat)
    requires Sized(v) && Sized(w) && |to| == |v.nodes| && c < |v.nodes|
  {
    to[c] < |w.nodes| &&
    match v.nodes[c]
    case Root(_) => w.nodes[to[c]] == v.nodes[c] && v.cores[c].state == w.cores[to[c]].state
    case Derived(src, kind, onReject) =>
      && src < |to| && w.nodes[to[c]].Derived? && w.nodes[to[c]].src == to[src] && w.nodes[to[c]].onReject == onReject
      && SameKind(kind, w.nodes[to[c]].kind, to)
  }

  /** The graph of `v` is found in `w`, its cores numbered by `to`. */
  ghost predicate Renames(v: World, w: World, to: seq<nat>) {
    Sized(v) && Sized(w) && |to| == |v.nodes| && forall c :: 0 <= c < |v.nodes| ==> SameNode(v, w, to, c)
  }

  /** Only the graph and the roots matter: histories that attached and settled in different orders, and so number
      their cores differently, agree on every core that they share, whatever else was attached. */
  lemma OrderIsIrrelevant(v: World, w: World, to: seq<nat>, c: nat)
    requires Inv(v) && Quiet(v) && Inv(w) && Quiet(w)
    requires Renames(v, w, to) && c < |v.cores|
    ensures to[c] < |w.cores| && v.cores[c].state == w.cores[to[c]].state
  {
    SameMeaning(v, w, to, c);
    QuietDenotes(v, c);
    QuietDenotes(w, to[c]);
  }

  lemma {:induction false} SameMeaning(v: World, w: World, to: seq<nat>, c: nat)
    requires Renames(v, w, to) && c < |v.nodes|
    ensures to[c] < |w.nodes| && Meaning(v, c) == Meaning(w, to[c])
    decreases v.rank[c]
  {
    assert SameNode(v, w, to, c);
    if v.nodes[c].Derived? {
      var n, m := v.nodes[c], w.nodes[to[c]];
      assert NodeOk(v.nodes, v.rank, c) && NodeOk(w.nodes, w.rank, to[c]);
      SameMeaning(v, w, to, n.src);
      var s := Meaning(v, n.src);
      if Outcome(n.kind, n.onReject, s).Later? {
        var i := Outcome(n.kind, n.onReject, s).core;
        assert InnerOk(n.kind.g(s.value), v.rank, v.rank[c]) && SameInner(n.kind.g(s.value), m.kind.g(s.value), to);
        assert InnerOk(m.kind.g(s.value), w.rank, w.rank[to[c]]);
        SameMeaning(v, w, to, i);
      } else if s.Fulfilled? && n.kind.Bind? {
        assert SameInner(n.kind.g(s.value), m.kind.g(s.value), to);
      }
    }
  }

  /** A graph in its own numbering. */
  function Identity(n: nat): (to: seq<nat>)
    ensures |to| == n && forall c :: 0 <= c < n ==> to[c] == c
  {
    seq(n, c requires 0 <= c => c)
  }

  /** What names cores below `|rank|` only is renamed by nothing that leaves those alone. */
  lemma KindStays(k: Kind, rank: seq<nat>, below: nat, to: seq<nat>)
    requires |rank| <= |to| && forall c :: 0 <= c < |rank| ==> to[c] == c
    requires k.Bind? ==> forall x :: InnerOk(k.g(x), rank, below)
    ensures SameKind(k, k, to)
  {
    if k.Bind? {
      forall x ensures SameInner(k.g(x), k.g(x), to) {
        assert InnerOk(k.g(x), rank, below);
      }
    }
  }

  /** The renaming that exchanges the last two of `n + 2` cores. */
  function Swap(n: nat): (to: seq<nat>)
    ensures |to| == n + 2 && to[n] == n + 1 && to[n + 1] == n && forall c :: 0 <= c < n ==> to[c] == c
  {
    Identity(n) + [n + 1, n]
  }

  /** `b` is attached after `a` in `v`, and before it in `w`. */
  ghost predicate Exchanged(u: World, a: Node, b: Node, v: World, w: World) {
    && Sized(v) && Sized(w) && v.nodes == u.nodes + [a, b] && w.nodes == u.nodes + [b, a]
    && forall c :: 0 <= c < |u.nodes| && u.nodes[c].Root? ==> v.cores[c].state == w.cores[c].state
  }

  lemma SwapRenames(u: World, a: Node, ra: nat, b: Node, rb: nat, v: World, w: World)
    requires Inv(u) && Attachable(u, a, ra) && Attachable(u, b, rb) && Exchanged(u, a, b, v, w)
    ensures Renames(v, w, Swap(|u.nodes|))
  {
    var n := |u.nodes|;
    var to := Swap(n);
    forall c | 0 <= c < n + 2 ensures SameNode(v, w, to, c) {
      if c < n {
        assert NodeOk(u.nodes, u.rank, c);
        if u.nodes[c].Derived? {
          KindStays(u.nodes[c].kind, u.rank, u.rank[c], to);
        }
      } else if c == n {
        KindStays(a.kind, u.rank, ra, to);
      } else {
        KindStays(b.kind, u.rank, rb, to);
      }
    }
  }

  /** Two attachments commute: whichever is made first, and however the settlements fall between them, the cores come
      to the same states once the roots agree. */
  lemma AttachesCommute(u: World, a: Node, ra: nat, b: Node, rb: nat, v: World, w: World, c: nat)
    requires Inv(u) && Attachable(u, a, ra) && Attachable(u, b, rb) && Exchanged(u, a, b, v, w)
    requires Inv(v) && Quiet(v) && Inv(w) && Quiet(w)
    ensures var n := |u.nodes|;
            && (c < n ==> v.cores[c].state == w.cores[c].state)
            && v.cores[n].state == w.cores[n + 1].state && v.cores[n + 1].state == w.cores[n].state
  {
    var n := |u.nodes|;
    SwapRenames(u, a, ra, b, rb, v, w);
    OrderIsIrrelevant(v, w, Swap(n), n);
    OrderIsIrrelevant(v, w, Swap(n), n + 1);
    if c < n {
      OrderIsIrrelevant(v, w, Swap(n), c);
    }
  }

  /** Fulfilment passes a callback that returns nothing by: its promise stays pending. */
  lemma VoidStaysPending(w: World, c: nat)
    requires Inv(w) && Quiet(w) && c < |w.cores| && w.nodes[c].Derived? && w.nodes[c].kind.Void?
    ensures w.nodes[c].src < |w.cores|
    ensures w.cores[c].state ==
            if w.cores[w.nodes[c].src].state.Rejected? && w.nodes[c].onReject.Throw? then w.cores[w.nodes[c].src].state else Pending
  {
    assert NodeOk(w.nodes, w.rank, c) && CoreOk(w, c);
    assert ContOk(w, w.first[c]) && !Owed(w, w.first[c]);
  }

  // ---------------------------------------------------------------------------------------------
  // What a derived promise holds, kind by kind
  // ---------------------------------------------------------------------------------------------

  /** While its source is pending a derived promise is pending. */
  lemma PendingWaits(w: World, c: nat)
    requires Inv(w) && Quiet(w) && c < |w.cores| && w.nodes[c].Derived?
    ensures w.nodes[c].src < |w.cores|
    ensures w.cores[w.nodes[c].src].state.Pending? ==> w.cores[c].state.Pending?
  {
    assert NodeOk(w.nodes, w.rank, c) && CoreOk(w, c) && ContOk(w, w.first[c]);
  }

  /** A rejection is rethrown into the derived promise, or swallowed, whatever the callback is. */
  lemma RejectionTaken(w: World, c: nat)
    requires Inv(w) && Quiet(w) && c < |w.cores| && w.nodes[c].Derived?
    ensures w.nodes[c].src < |w.cores|
    ensures w.cores[w.nodes[c].src].state.Rejected? ==>
              w.cores[c].state == if w.nodes[c].onReject.Throw? then w.cores[w.nodes[c].src].state else Pending
  {
    assert NodeOk(w.nodes, w.rank, c) && CoreOk(w, c);
    assert ContOk(w, w.first[c]) && !Owed(w, w.first[c]);
  }

  /** A fulfilled source gives a mapping callback its value, and the derived promise holds what it returned. */
  lemma MapApplies(w: World, c: nat)
    requires Inv(w) && Quiet(w) && c < |w.cores| && w.nodes[c].Derived? && w.nodes[c].kind.Map?
    ensures w.nodes[c].src < |w.cores|
    ensures var s := w.cores[w.nodes[c].src].state; s.Fulfilled? ==> w.cores[c].state == Fulfilled(w.nodes[c].kind.f(s.value))
  {
    assert NodeOk(w.nodes, w.rank, c) && CoreOk(w, c);
    assert ContOk(w, w.first[c]) && !Owed(w, w.first[c]);
  }

  /** Where a callback returned a promise, the derived promise is in the state of that one. */
  lemma BindFollows(w: World, c: nat)
    requires Inv(w) && Quiet(w) && c < |w.cores| && w.nodes[c].Derived? && w.nodes[c].kind.Bind?
    ensures w.nodes[c].src < |w.cores|
    ensures var s := w.cores[w.nodes[c].src].state;
            s.Fulfilled? ==>
              match w.nodes[c].kind.g(s.value)
              case Fresh(st) => w.cores[c].state == st
              case Existing(i) => i < |w.cores| && w.cores[c].state == w.cores[i].state
  {
    assert NodeOk(w.nodes, w.rank, c) && CoreOk(w, c);
    assert ContOk(w, w.first[c]) && !Owed(w, w.first[c]);
    if c in w.second && w.second[c] < |w.conts| {
      assert ContOk(w, w.second[c]) && !Owed(w, w.second[c]);
    }
  }
}

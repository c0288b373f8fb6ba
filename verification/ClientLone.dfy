/** One thread of the client on its own: what a drain hands out, and where a request goes. */
module ClientLone {
  import opened ClientMachine
  import opened ClientTheorems
  import opened ClientHistory
  import opened ClientFrame
  import opened Options

  // ---------------------------------------------------------------------------------------------
  // The shape of the pools
  // ---------------------------------------------------------------------------------------------

  predicate Rising(p: seq<nat>) {
    forall j, k :: 0 <= j < k < |p| ==> p[j] < p[k]
  }

  ghost predicate Pooled(s: State) {
    forall d :: d in s.pools ==> |s.pools[d]| == s.perHost && Rising(s.pools[d])
  }

  lemma OpenPooled(s: State, d: nat)
    requires Pooled(s)
    ensures Pooled(OpenPool(s, d))
  {
  }

  lemma OpenStep(s: State, i: nat, ch: Choice)
    requires Inv(s) && !s.crashed && i < |s.pcs| && (s.pcs[i].Open? || s.pcs[i].DrainOpen?)
    ensures var t := Step(s, i, ch);
            || (t.pools == s.pools && t.perHost == s.perHost)
            || exists d: nat :: t.pools == OpenPool(s, d).pools && t.perHost == OpenPool(s, d).perHost
  {
    hide Inv, OpenPool;
  }

  lemma PooledStep(s: State, i: nat, ch: Choice)
    requires Inv(s) && !s.crashed && i < |s.pcs| && Pooled(s)
    ensures Pooled(Step(s, i, ch))
  {
    hide Inv, Step, OpenPool, Rising;
    if s.pcs[i].Open? || s.pcs[i].DrainOpen? {
      OpenStep(s, i, ch);
      forall d: nat ensures Pooled(OpenPool(s, d)) {
        OpenPooled(s, d);
      }
    } else {
      StepFramed(s, i, ch);
    }
  }

  lemma {:induction false} RunPooled(s: State, moves: seq<Move>)
    requires Ready(s) && Pooled(s) && forall m :: m in moves ==> m.tid < |s.pcs|
    ensures Pooled(Execute(s, moves))
    decreases moves
  {
    hide Step, Inv, Pooled;
    if moves != [] {
      ReadyStep(s, moves[0].tid, moves[0].choice);
      PooledStep(s, moves[0].tid, moves[0].choice);
      RunPooled(Step(s, moves[0].tid, moves[0].choice), moves[1..]);
    }
  }

  /** In every run each domain that was ever asked for has its full pool, and no connection is in two places. */
  lemma PoolShape(perHost: nat, threads: nat, moves: seq<Move>, s: State, d: nat, e: nat, j: nat, k: nat)
    requires Reached(perHost, threads, moves, s) && d in s.pools && e in s.pools
    ensures |s.pools[d]| == perHost == |s.pools[e]|
    ensures j < perHost && k < perHost && s.pools[d][j] == s.pools[e][k] ==> d == e && j == k
    ensures j < perHost ==> s.pools[d][j] < |s.conns| && s.conns[s.pools[d][j]].domain == d
  {
    ReachedReady(perHost, threads, moves, s);
    InitInv(perHost, threads);
    RunPooled(Init(perHost, threads), moves);
    RunPerHost(Init(perHost, threads), moves);
    assert PoolOk(s, d) && PoolOk(s, e);
  }

  /** Every reachable state is as the laws below want it. */
  lemma ReachedFit(perHost: nat, threads: nat, moves: seq<Move>, s: State)
    requires Reached(perHost, threads, moves, s)
    ensures Ready(s) && Pooled(s)
  {
    ReachedReady(perHost, threads, moves, s);
    InitInv(perHost, threads);
    RunPooled(Init(perHost, threads), moves);
  }

  lemma {:induction false} RunPerHost(s: State, moves: seq<Move>)
    requires Ready(s) && forall m :: m in moves ==> m.tid < |s.pcs|
    ensures Execute(s, moves).perHost == s.perHost
    decreases moves
  {
    hide Step, Inv;
    if moves != [] {
      ReadyStep(s, moves[0].tid, moves[0].choice);
      StepFramed(s, moves[0].tid, moves[0].choice);
      RunPerHost(Step(s, moves[0].tid, moves[0].choice), moves[1..]);
    }
  }

  // ---------------------------------------------------------------------------------------------
  // A thread on its own
  // ---------------------------------------------------------------------------------------------

  /** `n` moves of thread `i`, with nobody else moving. */
  function Solo(s: State, i: nat, ch: Choice, n: nat): (t: State)
    requires i < |s.pcs|
    ensures |t.pcs| == |s.pcs|
    decreases n
  {
    if n == 0 then s else Solo(Step(s, i, ch), i, ch, n - 1)
  }

  lemma {:induction false} SoloOn(s: State, i: nat, ch: Choice, m: nat, n: nat)
    requires i < |s.pcs|
    ensures Solo(Solo(s, i, ch, m), i, ch, n) == Solo(s, i, ch, m + n)
    decreases m
  {
    hide Step;
    if m > 0 {
      SoloOn(Step(s, i, ch), i, ch, m - 1, n);
    }
  }

  lemma SoloNext(s: State, i: nat, ch: Choice, n: nat)
    requires i < |s.pcs|
    ensures Solo(s, i, ch, n + 1) == Step(Solo(s, i, ch, n), i, ch)
  {
    hide Step;
    SoloOn(s, i, ch, n, 1);
    var t := Solo(s, i, ch, n);
    assert Solo(Step(t, i, ch), i, ch, 0) == Step(t, i, ch);
  }

  lemma {:induction false} SoloFit(s: State, i: nat, ch: Choice, n: nat)
    requires Ready(s) && Pooled(s) && i < |s.pcs|
    ensures Ready(Solo(s, i, ch, n)) && Pooled(Solo(s, i, ch, n))
    decreases n
  {
    hide Step, Inv, Pooled;
    if n > 0 {
      ReadyStep(s, i, ch);
      PooledStep(s, i, ch);
      SoloFit(Step(s, i, ch), i, ch, n - 1);
    }
  }

  // ---------------------------------------------------------------------------------------------
  // The idle connections of a pool
  // ---------------------------------------------------------------------------------------------

  /** Those of `pool` that are not in use, in its order. */
  function Idlers(conns: seq<Conn>, pool: seq<nat>): seq<nat> {
    if pool == [] then []
    else (if pool[0] < |conns| && !conns[pool[0]].used then [pool[0]] else []) + Idlers(conns, pool[1..])
  }

  /** The first `n` connections of the pool are in use. */
  predicate InUse(conns: seq<Conn>, pool: seq<nat>, n: nat) {
    n <= |pool| && forall x :: 0 <= x < n ==> pool[x] < |conns| && conns[pool[x]].used
  }

  lemma {:induction false} FirstIdler(conns: seq<Conn>, pool: seq<nat>) returns (n: nat)
    requires forall x :: 0 <= x < |pool| ==> pool[x] < |conns|
    ensures InUse(conns, pool, n)
    ensures if Idlers(conns, pool) == [] then n == |pool|
            else n < |pool| && pool[n] == Idlers(conns, pool)[0] && !conns[pool[n]].used
  {
    n := 0;
    if pool == [] {
    } else if !conns[pool[0]].used {
      assert Idlers(conns, pool) == [pool[0]] + Idlers(conns, pool[1..]);
    } else {
      var m := FirstIdler(conns, pool[1..]);
      n := m + 1;
      assert Idlers(conns, pool) == Idlers(conns, pool[1..]);
      forall x | 0 <= x < n ensures pool[x] < |conns| && conns[pool[x]].used {
        assert x > 0 ==> pool[1..][x - 1] == pool[x];
      }
    }
  }

  /** Only the connections of the pool matter. */
  lemma {:induction false} SameIdlers(conns: seq<Conn>, conns': seq<Conn>, pool: seq<nat>)
    requires forall c :: c in pool ==> c < |conns| && c < |conns'| && conns[c].used == conns'[c].used
    ensures Idlers(conns', pool) == Idlers(conns, pool)
  {
    if pool != [] {
      assert pool[0] in pool && forall c :: c in pool[1..] ==> c in pool;
      SameIdlers(conns, conns', pool[1..]);
    }
  }

  lemma {:induction false} IdlersIn(conns: seq<Conn>, pool: seq<nat>)
    ensures forall c :: c in Idlers(conns, pool) ==> c in pool && c < |conns| && !conns[c].used
  {
    if pool != [] {
      IdlersIn(conns, pool[1..]);
    }
  }

  /** The first idle connection of a pool is put to use. */
  lemma {:induction false} IdlersLess(conns: seq<Conn>, pool: seq<nat>, k: nat, conn: Conn)
    requires (forall x :: 0 <= x < |pool| ==> pool[x] < |conns|) && Rising(pool)
    requires Idlers(conns, pool) != [] && Idlers(conns, pool)[0] == k && k < |conns| && conn.used
    ensures Idlers(conns[k := conn], pool) == Idlers(conns, pool)[1..]
  {
    var rest := pool[1..];
    if conns[pool[0]].used {
      IdlersLess(conns, rest, k, conn);
      IdlersIn(conns, rest);
      assert Idlers(conns, pool) == Idlers(conns, rest);
    } else {
      forall c | c in rest ensures c < |conns| && c != k {
        var x :| 0 <= x < |rest| && rest[x] == c;
        assert pool[x + 1] == c && pool[0] < pool[x + 1];
      }
      SameIdlers(conns, conns[k := conn], rest);
      assert Idlers(conns, pool) == [k] + Idlers(conns, rest);
    }
  }

  // ---------------------------------------------------------------------------------------------
  // A drain
  // ---------------------------------------------------------------------------------------------

  /** `t` differs from `s` at most where a drain of thread `i` works. */
  ghost predicate SameBut(s: State, t: State, i: nat) {
    && |t.pcs| == |s.pcs| && |t.conns| == |s.conns| && t.pools == s.pools
    && t.lock == s.lock && t.stopping == s.stopping && t.settled == s.settled && t.domains == s.domains
    && forall j :: 0 <= j < |s.pcs| && j != i ==> t.pcs[j] == s.pcs[j]
  }

  lemma ScanOne(s: State, i: nat, ch: Choice, ds: seq<nat>, n: nat)
    requires i < |s.pcs| && !s.crashed && ds != [] && s.pcs[i] == DrainSeek(ds, n)
    requires InUse(s.conns, PoolAt(s, ds[0]), n + 1)
    ensures Step(s, i, ch) == At(s, i, DrainSeek(ds, n + 1))
  {
  }

  /** Connections in use are passed over. */
  lemma {:induction false} SoloScan(s: State, i: nat, ch: Choice, ds: seq<nat>, n: nat)
    requires i < |s.pcs| && !s.crashed && ds != [] && s.pcs[i] == DrainSeek(ds, 0) && InUse(s.conns, PoolAt(s, ds[0]), n)
    ensures Solo(s, i, ch, n) == At(s, i, DrainSeek(ds, n))
  {
    hide Step;
    if n == 0 {
      assert s.pcs[i := DrainSeek(ds, 0)] == s.pcs;
    } else {
      SoloScan(s, i, ch, ds, n - 1);
      SoloNext(s, i, ch, n - 1);
      var t := At(s, i, DrainSeek(ds, n - 1));
      ScanOne(t, i, ch, ds, n - 1);
      assert t.pcs[i := DrainSeek(ds, n)] == s.pcs[i := DrainSeek(ds, n)];
    }
  }

  lemma OpenOne(s: State, i: nat, ch: Choice, ds: seq<nat>)
    requires i < |s.pcs| && !s.crashed && ds != [] && s.pcs[i] == DrainOpen(ds) && ds[0] in s.pools
    ensures Step(s, i, ch) == At(s, i, DrainSeek(ds, 0))
  {
  }

  /** From the head of the loop to the `n`-th connection of the pool, those before it in use. */
  lemma Approach(s: State, i: nat, ch: Choice, ds: seq<nat>, n: nat)
    requires i < |s.pcs| && !s.crashed && ds != [] && s.pcs[i] == DrainOpen(ds) && ds[0] in s.pools
    requires InUse(s.conns, s.pools[ds[0]], n)
    ensures Solo(s, i, ch, n + 1) == At(s, i, DrainSeek(ds, n))
  {
    hide Step;
    OpenOne(s, i, ch, ds);
    var t := At(s, i, DrainSeek(ds, 0));
    SoloScan(t, i, ch, ds, n);
    assert t.pcs[i := DrainSeek(ds, n)] == s.pcs[i := DrainSeek(ds, n)];
  }

  /** No connection of the domain is idle. */
  lemma PassBy(s: State, i: nat, ch: Choice, ds: seq<nat>) returns (n: nat)
    requires i < |s.pcs| && !s.crashed && ds != [] && s.pcs[i] == DrainOpen(ds) && ds[0] in s.pools
    requires InUse(s.conns, s.pools[ds[0]], |s.pools[ds[0]]|)
    ensures Solo(s, i, ch, n) == At(s, i, DrainOpen(ds[1..]))
  {
    hide Step;
    var m := |s.pools[ds[0]]|;
    Approach(s, i, ch, ds, m);
    SoloNext(s, i, ch, m + 1);
    PassOne(At(s, i, DrainSeek(ds, m)), i, ch, ds, m);
    assert At(s, i, DrainSeek(ds, m)).pcs[i := DrainOpen(ds[1..])] == s.pcs[i := DrainOpen(ds[1..])];
    n := m + 2;
  }

  lemma PassOne(s: State, i: nat, ch: Choice, ds: seq<nat>, n: nat)
    requires i < |s.pcs| && !s.crashed && ds != [] && s.pcs[i] == DrainSeek(ds, n) && n == |PoolAt(s, ds[0])|
    ensures Step(s, i, ch) == At(s, i, DrainOpen(ds[1..]))
  {
  }

  lemma WinOne(s: State, i: nat, ch: Choice, ds: seq<nat>, n: nat)
    requires i < |s.pcs| && !s.crashed && ds != [] && s.pcs[i] == DrainSeek(ds, n) && n < |PoolAt(s, ds[0])|
    requires var k := PoolAt(s, ds[0])[n]; k < |s.conns| && !s.conns[k].used
    ensures var t, k := Step(s, i, ch), PoolAt(s, ds[0])[n];
            && SameBut(s, t, i) && !t.crashed && t.pcs[i] == DrainWon(ds, k)
            && t.conns == s.conns[k := s.conns[k].(used := true)] && t.queues == s.queues
  {
  }

  lemma DequeueOne(s: State, i: nat, ch: Choice, ds: seq<nat>, k: nat)
    requires i < |s.pcs| && !s.crashed && ds != [] && s.pcs[i] == DrainWon(ds, k) && QueueOf(s, ds[0]) != []
    ensures var t, q := Step(s, i, ch), QueueOf(s, ds[0]);
            && SameBut(s, t, i) && !t.crashed && t.pcs[i] == DrainLoad(ds, k, q[0])
            && t.conns == s.conns && t.queues == s.queues[ds[0] := q[1..]]
  {
  }

  lemma ReleaseOne(s: State, i: nat, ch: Choice, ds: seq<nat>, k: nat)
    requires i < |s.pcs| && !s.crashed && ds != [] && s.pcs[i] == DrainWon(ds, k) && QueueOf(s, ds[0]) == [] && k < |s.conns|
    ensures var t := Step(s, i, ch);
            && SameBut(s, t, i) && !t.crashed && t.pcs[i] == DrainOpen(ds[1..])
            && t.conns == s.conns[k := s.conns[k].(used := false)] && t.queues == s.queues
  {
  }

  lemma LoadOne(s: State, i: nat, ch: Choice, ds: seq<nat>, k: nat, r: nat)
    requires i < |s.pcs| && !s.crashed && s.pcs[i] == DrainLoad(ds, k, r) && k < |s.conns|
    ensures var t := Step(s, i, ch);
            && SameBut(s, t, i) && t.pcs[i] == DrainOpen(ds)
            && t.conns == s.conns[k := s.conns[k].(entry := Some(r))] && t.queues == s.queues
  {
  }

  lemma SameButTrans(s: State, t: State, u: State, i: nat)
    requires SameBut(s, t, i) && SameBut(t, u, i)
    ensures SameBut(s, u, i)
  {
  }

  lemma SameButAt(s: State, i: nat, pc: Pc)
    requires i < |s.pcs|
    ensures SameBut(s, At(s, i, pc), i)
  {
  }

  /** The thread stands at the head of the loop for `ds[0]`, and connection `n` of the pool is the first idle one. */
  ghost predicate Heads(s: State, i: nat, ds: seq<nat>, n: nat) {
    && i < |s.pcs| && !s.crashed && ds != [] && s.pcs[i] == DrainOpen(ds) && ds[0] in s.pools
    && n < |s.pools[ds[0]]| && InUse(s.conns, s.pools[ds[0]], n)
    && s.pools[ds[0]][n] < |s.conns| && !s.conns[s.pools[ds[0]][n]].used
  }

  /** To the idle connection, and won. */
  lemma Winning(s: State, i: nat, ch: Choice, ds: seq<nat>, n: nat)
    requires Heads(s, i, ds, n)
    ensures var t, k := Solo(s, i, ch, n + 2), s.pools[ds[0]][n];
            && SameBut(s, t, i) && !t.crashed && t.pcs[i] == DrainWon(ds, k)
            && t.conns == s.conns[k := s.conns[k].(used := true)] && t.queues == s.queues
  {
    hide Step;
    Approach(s, i, ch, ds, n);
    SoloNext(s, i, ch, n + 1);
    var t := At(s, i, DrainSeek(ds, n));
    SameButAt(s, i, DrainSeek(ds, n));
    WinOne(t, i, ch, ds, n);
    SameButTrans(s, t, Step(t, i, ch), i);
  }

  /** A round with a request to hand out: the oldest one goes to the first idle connection. */
  lemma Round(s: State, i: nat, ch: Choice, ds: seq<nat>, n: nat)
    requires Heads(s, i, ds, n) && QueueOf(s, ds[0]) != []
    ensures var t, k, q := Solo(s, i, ch, n + 4), s.pools[ds[0]][n], QueueOf(s, ds[0]);
            && SameBut(s, t, i) && t.pcs[i] == DrainOpen(ds)
            && t.conns == s.conns[k := s.conns[k].(used := true, entry := Some(q[0]))]
            && t.queues == s.queues[ds[0] := q[1..]]
  {
    hide Step, SameBut;
    Winning(s, i, ch, ds, n);
    var k, q := s.pools[ds[0]][n], QueueOf(s, ds[0]);
    var a := Solo(s, i, ch, n + 2);
    RoundEnd(s, a, i, ch, ds, k);
    SoloNext(s, i, ch, n + 2);
    SoloNext(s, i, ch, n + 3);
  }

  lemma RoundEnd(s: State, a: State, i: nat, ch: Choice, ds: seq<nat>, k: nat)
    requires SameBut(s, a, i) && i < |s.pcs| && i < |a.pcs| && !a.crashed && ds != [] && k < |s.conns|
    requires QueueOf(s, ds[0]) != [] && a.queues == s.queues
    requires a.pcs[i] == DrainWon(ds, k) && a.conns == s.conns[k := s.conns[k].(used := true)]
    ensures var t, q := Step(Step(a, i, ch), i, ch), QueueOf(s, ds[0]);
            && SameBut(s, t, i) && t.pcs[i] == DrainOpen(ds)
            && t.conns == s.conns[k := s.conns[k].(used := true, entry := Some(q[0]))]
            && t.queues == s.queues[ds[0] := q[1..]]
  {
    hide Step;
    DequeueOne(a, i, ch, ds, k);
    var b := Step(a, i, ch);
    LoadOne(b, i, ch, ds, k, QueueOf(s, ds[0])[0]);
    SameButTrans(s, a, b, i);
    SameButTrans(s, b, Step(b, i, ch), i);
  }

  /** A round with nothing to hand out: the connection is put back. */
  lemma PutBack(s: State, i: nat, ch: Choice, ds: seq<nat>, n: nat)
    requires Heads(s, i, ds, n) && QueueOf(s, ds[0]) == []
    ensures var t := Solo(s, i, ch, n + 3);
            SameBut(s, t, i) && t.pcs[i] == DrainOpen(ds[1..]) && t.conns == s.conns && t.queues == s.queues
  {
    hide Step;
    Winning(s, i, ch, ds, n);
    var k, a := s.pools[ds[0]][n], Solo(s, i, ch, n + 2);
    ReleaseOne(a, i, ch, ds, k);
    SoloNext(s, i, ch, n + 2);
    assert s.conns[k].(used := true).(used := false) == s.conns[k];
    assert a.conns[k := a.conns[k].(used := false)] == s.conns;
    SameButTrans(s, a, Step(a, i, ch), i);
  }

  function Less(a: nat, b: nat): nat {
    if a < b then a else b
  }

  /** The oldest requests of `q` have gone to the idle connections of `pool`, in order, as far as both reach. */
  ghost predicate Handed(conns: seq<Conn>, conns': seq<Conn>, pool: seq<nat>, q: seq<nat>) {
    var idle := Idlers(conns, pool);
    var m := Less(|idle|, |q|);
    && |conns'| == |conns|
    && (forall x :: 0 <= x < m ==> idle[x] < |conns| && conns'[idle[x]] == conns[idle[x]].(used := true, entry := Some(q[x])))
    && (forall c :: 0 <= c < |conns| && c !in idle[..m] ==> conns'[c] == conns[c])
  }

  /** `mid` is `conns` with request `r` on the first idle connection. */
  ghost predicate HandedFirst(conns: seq<Conn>, mid: seq<Conn>, pool: seq<nat>, r: nat) {
    && (forall x :: 0 <= x < |pool| ==> pool[x] < |conns|) && Rising(pool) && Idlers(conns, pool) != []
    && Idlers(conns, pool)[0] < |conns|
    && mid == conns[Idlers(conns, pool)[0] := conns[Idlers(conns, pool)[0]].(used := true, entry := Some(r))]
  }

  lemma FirstGone(conns: seq<Conn>, mid: seq<Conn>, pool: seq<nat>, r: nat)
    requires HandedFirst(conns, mid, pool, r)
    ensures Idlers(mid, pool) == Idlers(conns, pool)[1..] && Idlers(conns, pool)[0] !in Idlers(conns, pool)[1..]
  {
    var k := Idlers(conns, pool)[0];
    IdlersLess(conns, pool, k, mid[k]);
    IdlersIn(mid, pool);
  }

  lemma HandedMore(conns: seq<Conn>, mid: seq<Conn>, conns': seq<Conn>, pool: seq<nat>, q: seq<nat>)
    requires q != [] && HandedFirst(conns, mid, pool, q[0]) && Handed(mid, conns', pool, q[1..])
    ensures Handed(conns, conns', pool, q)
  {
    hide Idlers, Rising;
    FirstGone(conns, mid, pool, q[0]);
    var idle := Idlers(conns, pool);
    var m := Less(|idle|, |q|);
    assert idle[..m] == [idle[0]] + idle[1..m] && idle[1..][..m - 1] == idle[1..m];
    forall x | 0 <= x < m ensures idle[x] < |conns| && conns'[idle[x]] == conns[idle[x]].(used := true, entry := Some(q[x])) {
      HandedOn(conns, mid, conns', pool, q, x);
    }
  }

  lemma HandedOn(conns: seq<Conn>, mid: seq<Conn>, conns': seq<Conn>, pool: seq<nat>, q: seq<nat>, x: nat)
    requires q != [] && HandedFirst(conns, mid, pool, q[0]) && Handed(mid, conns', pool, q[1..])
    requires Idlers(mid, pool) == Idlers(conns, pool)[1..] && Idlers(conns, pool)[0] !in Idlers(conns, pool)[1..]
    requires x < Less(|Idlers(conns, pool)|, |q|)
    ensures var k := Idlers(conns, pool)[x];
            k < |conns| && |conns'| == |conns| && conns'[k] == conns[k].(used := true, entry := Some(q[x]))
  {
    hide Idlers, Rising;
    var idle := Idlers(conns, pool);
    if x == 0 {
      assert idle[0] !in idle[1..][..Less(|idle| - 1, |q| - 1)];
    } else {
      assert idle[1..][x - 1] == idle[x] && q[1..][x - 1] == q[x];
      assert idle[x] in idle[1..];
    }
  }

  /** A thread at the head of the loop for `ds[0]`, with the pool as every run makes it. */
  ghost predicate AtDomain(s: State, i: nat, ds: seq<nat>) {
    && Ready(s) && Pooled(s) && i < |s.pcs| && ds != [] && s.pcs[i] == DrainOpen(ds)
  }

  lemma AtPool(s: State, i: nat, ds: seq<nat>)
    requires AtDomain(s, i, ds)
    ensures Sized(s) && !s.crashed && ds[0] in s.queues && ds[0] in s.pools && Rising(s.pools[ds[0]])
    ensures forall x :: 0 <= x < |s.pools[ds[0]]| ==> s.pools[ds[0]][x] < |s.conns| && s.conns[s.pools[ds[0]][x]].domain == ds[0]
  {
    ThreadIs(s, i);
    assert Passed(s, ds[0], |PoolAt(s, ds[0])|);
    PoolIs(s, ds[0]);
  }

  /** Thread `i` has gone on from domain `ds[0]`, having handed out what it could. */
  ghost predicate Done(s: State, t: State, i: nat, ds: seq<nat>)
    requires ds != []
  {
    var pool, q := PoolAt(s, ds[0]), QueueOf(s, ds[0]);
    && SameBut(s, t, i) && i < |t.pcs| && t.pcs[i] == DrainOpen(ds[1..])
    && Handed(s.conns, t.conns, pool, q)
    && ds[0] in s.queues && t.queues == s.queues[ds[0] := q[Less(|Idlers(s.conns, pool)|, |q|)..]]
  }

  lemma DoneNothing(s: State, t: State, i: nat, ds: seq<nat>)
    requires ds != [] && ds[0] in s.queues && SameBut(s, t, i) && i < |t.pcs| && t.pcs[i] == DrainOpen(ds[1..])
    requires t.conns == s.conns && t.queues == s.queues
    requires Idlers(s.conns, PoolAt(s, ds[0])) == [] || QueueOf(s, ds[0]) == []
    ensures Done(s, t, i, ds)
  {
    var q := QueueOf(s, ds[0]);
    assert q[0..] == q && s.queues[ds[0] := q] == s.queues;
  }

  lemma DoneMore(s: State, t: State, u: State, i: nat, ds: seq<nat>)
    requires ds != [] && ds[0] in s.queues && QueueOf(s, ds[0]) != [] && SameBut(s, t, i) && Done(t, u, i, ds)
    requires HandedFirst(s.conns, t.conns, PoolAt(s, ds[0]), QueueOf(s, ds[0])[0])
    requires t.queues == s.queues[ds[0] := QueueOf(s, ds[0])[1..]]
    ensures Done(s, u, i, ds)
  {
    hide Idlers, Rising, HandedFirst, Handed;
    var d, pool, q := ds[0], PoolAt(s, ds[0]), QueueOf(s, ds[0]);
    SameButTrans(s, t, u, i);
    HandedMore(s.conns, t.conns, u.conns, pool, q);
    FirstGone(s.conns, t.conns, pool, q[0]);
    var j := Less(|Idlers(t.conns, pool)|, |q[1..]|);
    assert q[1..][j..] == q[j + 1..];
    assert |Idlers(s.conns, pool)| == 0 || Less(|Idlers(s.conns, pool)|, |q|) == j + 1;
    assert u.queues == s.queues[d := q[j + 1..]];
    HandedSome(s.conns, t.conns, pool, q[0]);
  }

  lemma HandedSome(conns: seq<Conn>, mid: seq<Conn>, pool: seq<nat>, r: nat)
    requires HandedFirst(conns, mid, pool, r)
    ensures Idlers(conns, pool) != []
  {
  }

  /** The whole loop for one domain. */
  lemma {:induction false} LoneDomain(s: State, i: nat, ch: Choice, ds: seq<nat>) returns (n: nat)
    requires AtDomain(s, i, ds)
    ensures Done(s, Solo(s, i, ch, n), i, ds)
    decreases |QueueOf(s, ds[0])|
  {
    hide Step, Ready, Inv, Pooled, SameBut, Done;
    AtPool(s, i, ds);
    var pool, q := s.pools[ds[0]], QueueOf(s, ds[0]);
    var m := FirstIdler(s.conns, pool);
    if m == |pool| {
      n := PassBy(s, i, ch, ds);
      SameButAt(s, i, DrainOpen(ds[1..]));
      DoneNothing(s, At(s, i, DrainOpen(ds[1..])), i, ds);
    } else if q == [] {
      n := m + 3;
      PutBack(s, i, ch, ds, m);
      DoneNothing(s, Solo(s, i, ch, n), i, ds);
    } else {
      Round(s, i, ch, ds, m);
      SoloFit(s, i, ch, m + 4);
      var t := Solo(s, i, ch, m + 4);
      SameParts(s, t, i);
      var l := LoneDomain(t, i, ch, ds);
      SoloOn(s, i, ch, m + 4, l);
      n := m + 4 + l;
      DoneMore(s, t, Solo(t, i, ch, l), i, ds);
    }
  }

  lemma SameParts(s: State, t: State, i: nat)
    requires SameBut(s, t, i)
    ensures t.pools == s.pools && |t.pcs| == |s.pcs| && |t.conns| == |s.conns| && t.lock == s.lock && t.stopping == s.stopping
  {
  }

  /** Domain `d` has been served: its oldest requests are with the connections that were idle, in order, and either
      no request is left or no idle connection. */
  ghost predicate Served(s: State, t: State, d: nat) {
    var pool, q := PoolAt(s, d), QueueOf(s, d);
    var idle := Idlers(s.conns, pool);
    var m := Less(|idle|, |q|);
    && QueueOf(t, d) == q[m..] && |t.conns| == |s.conns|
    && (forall x :: 0 <= x < m ==> idle[x] < |s.conns| && t.conns[idle[x]] == s.conns[idle[x]].(used := true, entry := Some(q[x])))
    && (forall c :: c in pool && c !in idle[..m] ==> c < |s.conns| && t.conns[c] == s.conns[c])
  }

  /** What belongs to other domains is as it was. */
  ghost predicate Spared(s: State, t: State, ds: seq<nat>) {
    && |t.conns| == |s.conns| && t.pools == s.pools
    && (forall c :: 0 <= c < |s.conns| && s.conns[c].domain !in ds ==> t.conns[c] == s.conns[c])
    && (forall d :: d !in ds ==> QueueOf(t, d) == QueueOf(s, d))
  }

  ghost predicate PoolIn(s: State, d: nat) {
    forall c :: c in PoolAt(s, d) ==> c < |s.conns| && s.conns[c].domain == d
  }

  lemma DoneServes(s: State, t: State, i: nat, ds: seq<nat>)
    requires ds != [] && PoolIn(s, ds[0]) && Done(s, t, i, ds)
    ensures Served(s, t, ds[0]) && Spared(s, t, ds[..1])
    ensures forall c :: 0 <= c < |s.conns| ==> t.conns[c].domain == s.conns[c].domain
  {
    IdlersIn(s.conns, PoolAt(s, ds[0]));
    var idle, q := Idlers(s.conns, PoolAt(s, ds[0])), QueueOf(s, ds[0]);
    var m := Less(|idle|, |q|);
    assert ds[0] in ds[..1];
    forall c | 0 <= c < |s.conns| ensures t.conns[c].domain == s.conns[c].domain {
      if c in idle[..m] {
        var x :| 0 <= x < m && idle[x] == c;
      }
    }
    forall c | c in idle[..m] ensures s.conns[c].domain == ds[0] {
      assert c in idle;
    }
  }

  /** What is served stays so while other domains are. */
  lemma ServedStays(s: State, t: State, u: State, d: nat, ds: seq<nat>)
    requires Served(s, t, d) && PoolIn(s, d) && d !in ds && Spared(t, u, ds)
    requires forall c :: 0 <= c < |s.conns| ==> t.conns[c].domain == s.conns[c].domain
    ensures Served(s, u, d)
  {
    IdlersIn(s.conns, PoolAt(s, d));
  }

  /** And what was spared before is served as if nothing had happened. */
  lemma ServedLater(s: State, t: State, u: State, e: nat, ds: seq<nat>)
    requires Spared(s, t, ds) && e !in ds && PoolIn(s, e) && Served(t, u, e) && |t.conns| == |s.conns|
    ensures Served(s, u, e)
  {
    SameIdlers(s.conns, t.conns, PoolAt(s, e));
    IdlersIn(s.conns, PoolAt(s, e));
  }

  lemma SparedTrans(s: State, t: State, u: State, ds: seq<nat>)
    requires ds != [] && Spared(s, t, ds[..1]) && Spared(t, u, ds[1..])
    requires forall c :: 0 <= c < |s.conns| ==> t.conns[c].domain == s.conns[c].domain
    ensures Spared(s, u, ds)
  {
    forall d | d !in ds ensures d !in ds[..1] && d !in ds[1..] {
    }
  }

  /** A thread at the head of the loop, with the domains that it has before it. */
  ghost predicate Facing(s: State, i: nat, ds: seq<nat>) {
    && Ready(s) && Pooled(s) && i < |s.pcs| && s.pcs[i] == DrainOpen(ds)
    && forall j, k :: 0 <= j < k < |ds| ==> ds[j] != ds[k]
  }

  lemma FacingPool(s: State, i: nat, ds: seq<nat>, d: nat)
    requires Facing(s, i, ds) && d in ds
    ensures PoolIn(s, d)
  {
    ThreadIs(s, i);
    assert Passed(s, d, |PoolAt(s, d)|);
    PoolIs(s, d);
  }

  ghost predicate AllServed(s: State, t: State, ds: seq<nat>) {
    forall d :: d in ds ==> Served(s, t, d)
  }

  lemma {:induction false} LoneDomains(s: State, i: nat, ch: Choice, ds: seq<nat>) returns (n: nat)
    requires Facing(s, i, ds)
    ensures var t := Solo(s, i, ch, n); SameBut(s, t, i) && t.pcs[i] == DrainOpen([]) && AllServed(s, t, ds) && Spared(s, t, ds)
    decreases |ds|
  {
    hide Step, Ready, Inv, Pooled, SameBut, Served, Spared, PoolIn, Done;
    if ds == [] {
      n := 0;
      SparedSame(s, i);
    } else {
      var m := LoneDomain(s, i, ch, ds);
      var t := Solo(s, i, ch, m);
      FacingPool(s, i, ds, ds[0]);
      DoneServes(s, t, i, ds);
      DoneSame(s, t, i, ds);
      SoloFit(s, i, ch, m);
      var l := LoneDomains(t, i, ch, ds[1..]);
      SoloOn(s, i, ch, m, l);
      n := m + l;
      var u := Solo(t, i, ch, l);
      SameButTrans(s, t, u, i);
      SparedTrans(s, t, u, ds);
      forall d | d in ds ensures Served(s, u, d) {
        FacingPool(s, i, ds, d);
        ServedNext(s, t, u, d, ds);
      }
    }
  }

  lemma SparedSame(s: State, i: nat)
    ensures Spared(s, s, []) && SameBut(s, s, i)
  {
  }

  lemma DoneSame(s: State, t: State, i: nat, ds: seq<nat>)
    requires ds != [] && Done(s, t, i, ds)
    ensures SameBut(s, t, i) && |t.pcs| == |s.pcs| && i < |t.pcs| && t.pcs[i] == DrainOpen(ds[1..])
  {
  }

  lemma ServedNext(s: State, t: State, u: State, d: nat, ds: seq<nat>)
    requires ds != [] && d in ds && (forall j, k :: 0 <= j < k < |ds| ==> ds[j] != ds[k]) && PoolIn(s, d)
    requires Served(s, t, ds[0]) && Spared(s, t, ds[..1]) && AllServed(t, u, ds[1..]) && Spared(t, u, ds[1..])
    requires |t.conns| == |s.conns| && forall c :: 0 <= c < |s.conns| ==> t.conns[c].domain == s.conns[c].domain
    ensures Served(s, u, d)
  {
    hide Served, Spared, PoolIn;
    var x :| 0 <= x < |ds| && ds[x] == d;
    if x == 0 {
      assert d !in ds[1..];
      ServedStays(s, t, u, d, ds[1..]);
    } else {
      assert ds[1..][x - 1] == d && d !in ds[..1];
      ServedLater(s, t, u, d, ds[..1]);
    }
  }

  lemma LockOne(s: State, i: nat, ds: seq<nat>)
    requires i < |s.pcs| && !s.crashed && s.pcs[i].DrainLock? && !s.stopping && s.lock.None? && Lists(s, ds)
    ensures Step(s, i, Order(ds)) == At(s, i, DrainOpen(ds)).(lock := Some(i))
  {
  }

  lemma UnlockOne(s: State, i: nat, ch: Choice)
    requires i < |s.pcs| && !s.crashed && s.pcs[i] == DrainOpen([])
    ensures Step(s, i, ch) == At(s, i, Rest).(lock := None)
  {
  }

  lemma LockFit(s: State, i: nat, ds: seq<nat>)
    requires Ready(s) && Pooled(s) && i < |s.pcs| && s.pcs[i].DrainLock? && !s.stopping && s.lock.None? && Lists(s, ds)
    ensures Facing(Step(s, i, Order(ds)), i, ds) && !s.crashed
  {
    hide Inv, Step;
    ReadyStep(s, i, Order(ds));
    PooledStep(s, i, Order(ds));
    LockOne(s, i, ds);
  }

  /** A drain with nobody else moving serves every domain that has a queue, and touches nothing else. */
  lemma LoneDrain(s: State, i: nat, ds: seq<nat>) returns (n: nat)
    requires Ready(s) && Pooled(s) && i < |s.pcs| && s.pcs[i].DrainLock? && !s.stopping && s.lock.None? && Lists(s, ds)
    ensures var t := Solo(s, i, Order(ds), n);
            && t.pcs == s.pcs[i := Rest] && t.lock.None? && t.settled == s.settled
            && AllServed(s, t, ds) && Spared(s, t, ds)
  {
    hide Ready, Inv, Pooled, Step, Served, Spared, Lists;
    LockFit(s, i, ds);
    LockOne(s, i, ds);
    var ch, a := Order(ds), Step(s, i, Order(ds));
    var m := LoneDomains(a, i, ch, ds);
    var b := Solo(a, i, ch, m);
    SoloNext(a, i, ch, m);
    SoloFit(a, i, ch, m);
    Crashless(b);
    UnlockOne(b, i, ch);
    assert Solo(s, i, ch, m + 2) == Solo(a, i, ch, m + 1);
    n := m + 2;
    LockServes(s, i, ds, b);
    assert Step(b, i, ch).pcs == s.pcs[i := Rest];
  }

  lemma Crashless(s: State)
    requires Ready(s)
    ensures !s.crashed
  {
  }

  /** Where threads stand, and who has the lock, is no matter to what is served. */
  lemma ServedAs(a: State, b: State, s: State, t: State, d: nat)
    requires a.conns == s.conns && a.pools == s.pools && a.queues == s.queues
    requires b.conns == t.conns && b.queues == t.queues && Served(a, b, d)
    ensures Served(s, t, d)
  {
    assert QueueOf(a, d) == QueueOf(s, d) && QueueOf(b, d) == QueueOf(t, d) && PoolAt(a, d) == PoolAt(s, d);
  }

  lemma SparedAs(a: State, b: State, s: State, t: State, ds: seq<nat>)
    requires a.conns == s.conns && a.pools == s.pools && a.queues == s.queues
    requires b.conns == t.conns && b.queues == t.queues && b.pools == t.pools && Spared(a, b, ds)
    ensures Spared(s, t, ds)
  {
    forall d | d !in ds ensures QueueOf(t, d) == QueueOf(s, d) {
      assert QueueOf(b, d) == QueueOf(a, d);
    }
  }

  lemma LockServes(s: State, i: nat, ds: seq<nat>, b: State)
    requires i < |s.pcs| && i < |b.pcs|
    requires var a := At(s, i, DrainOpen(ds)).(lock := Some(i)); AllServed(a, b, ds) && Spared(a, b, ds)
    ensures var t := At(b, i, Rest).(lock := None); AllServed(s, t, ds) && Spared(s, t, ds)
  {
    hide Served, Spared;
    var a, t := At(s, i, DrainOpen(ds)).(lock := Some(i)), At(b, i, Rest).(lock := None);
    SparedAs(a, b, s, t, ds);
    forall d | d in ds ensures Served(s, t, d) {
      ServedAs(a, b, s, t, d);
    }
  }

  // ---------------------------------------------------------------------------------------------
  // An answer, a new link, a new request
  // ---------------------------------------------------------------------------------------------

  lemma FinishOne(s: State, i: nat, k: nat, reason: Arrival)
    requires i < |s.pcs| && !s.crashed && s.pcs[i].Rest? && k < |s.conns| && s.conns[k].entry.Some?
    ensures var t := Step(s, i, Arrive(k, reason));
            && !t.crashed && t.pcs == s.pcs[i := Freed(k)] && t.lock == s.lock && t.stopping == s.stopping && t.pools == s.pools
            && t.queues == s.queues && t.conns == s.conns[k := s.conns[k].(entry := None)]
            && t.settled == s.settled + [Settlement(s.conns[k].entry.value, reason)]
  {
  }

  lemma FreedOne(s: State, i: nat, ch: Choice, k: nat)
    requires i < |s.pcs| && !s.crashed && s.pcs[i] == Freed(k) && k < |s.conns|
    ensures var t := Step(s, i, ch);
            && !t.crashed && t.pcs == s.pcs[i := DrainLock] && t.lock == s.lock && t.stopping == s.stopping && t.pools == s.pools
            && t.queues == s.queues && t.conns == s.conns[k := s.conns[k].(used := false)] && t.settled == s.settled
  {
  }

  /** An answer arrives for connection `k` while nobody else moves: the request is settled as answered, and the domains
      are served as if `k` stood idle, so that the oldest request of its domain can go over it. */
  lemma LoneAnswer(s: State, i: nat, k: nat, reason: Arrival, ds: seq<nat>) returns (n: nat)
    requires Ready(s) && Pooled(s) && i < |s.pcs| && s.pcs[i].Rest? && k < |s.conns| && s.conns[k].entry.Some?
    requires !s.stopping && s.lock.None? && Lists(s, ds)
    ensures var freed := s.(conns := s.conns[k := s.conns[k].(used := false, entry := None)]);
            var t := Solo(Step(s, i, Arrive(k, reason)), i, Order(ds), n);
            && t.pcs == s.pcs && t.lock.None? && t.settled == s.settled + [Settlement(s.conns[k].entry.value, reason)]
            && AllServed(freed, t, ds) && Spared(freed, t, ds)
  {
    hide Ready, Inv, Pooled, Step, Served, Spared, Lists;
    Crashless(s);
    FinishOne(s, i, k, reason);
    ReadyStep(s, i, Arrive(k, reason));
    ReadyPooled(s, i, Arrive(k, reason));
    var a := Step(s, i, Arrive(k, reason));
    FreedOne(a, i, Order(ds), k);
    ReadyStep(a, i, Order(ds));
    ReadyPooled(a, i, Order(ds));
    var b := Step(a, i, Order(ds));
    SameLists(s, b, ds);
    var m := LoneDrain(b, i, ds);
    n := m + 1;
    assert Solo(a, i, Order(ds), m + 1) == Solo(b, i, Order(ds), m);
    AnswerServes(s, b, i, k, ds, Solo(b, i, Order(ds), m));
    assert s.pcs[i := Freed(k)][i := DrainLock][i := Rest] == s.pcs;
  }

  lemma ReadyPooled(s: State, i: nat, ch: Choice)
    requires Ready(s) && Pooled(s) && i < |s.pcs|
    ensures Pooled(Step(s, i, ch))
  {
    hide Inv, Step, Pooled;
    PooledStep(s, i, ch);
  }

  lemma SameLists(s: State, t: State, ds: seq<nat>)
    requires s.queues == t.queues && Lists(s, ds)
    ensures Lists(t, ds)
  {
  }

  lemma AnswerServes(s: State, b: State, i: nat, k: nat, ds: seq<nat>, t: State)
    requires k < |s.conns| && b.conns == s.conns[k := s.conns[k].(entry := None)][k := s.conns[k].(entry := None).(used := false)]
    requires b.pools == s.pools && b.queues == s.queues && AllServed(b, t, ds) && Spared(b, t, ds)
    ensures var freed := s.(conns := s.conns[k := s.conns[k].(used := false, entry := None)]); AllServed(freed, t, ds) && Spared(freed, t, ds)
  {
    hide Served, Spared;
    var freed := s.(conns := s.conns[k := s.conns[k].(used := false, entry := None)]);
    assert s.conns[k].(entry := None).(used := false) == s.conns[k].(used := false, entry := None);
    assert b.conns == freed.conns;
    SparedAs(b, t, freed, t, ds);
    forall d | d in ds ensures Served(freed, t, d) {
      ServedAs(b, t, freed, t, d);
    }
  }

  lemma LinkOne(s: State, i: nat, k: nat)
    requires i < |s.pcs| && !s.crashed && s.pcs[i].Rest? && k < |s.conns|
    ensures var t := Step(s, i, Connected(k));
            !t.crashed && t.pcs == s.pcs[i := ConnPop(k)] && t.conns == s.conns[k := s.conns[k].(connected := true)]
  {
  }

  lemma PopOne(s: State, i: nat, ch: Choice, k: nat)
    requires i < |s.pcs| && !s.crashed && s.pcs[i] == ConnPop(k) && k < |s.conns|
    ensures var t, q := Step(s, i, ch), s.conns[k].queue;
            && !t.crashed
            && if q == [] then t.pcs == s.pcs[i := Rest] && t.conns == s.conns
               else t.pcs == s.pcs[i := ConnLoad(k, q[0])] && t.conns == s.conns[k := s.conns[k].(queue := q[1..])]
  {
  }

  lemma ConnLoadOne(s: State, i: nat, ch: Choice, k: nat, r: nat)
    requires i < |s.pcs| && !s.crashed && s.pcs[i] == ConnLoad(k, r) && k < |s.conns| && s.conns[k].transport
    ensures var t := Step(s, i, ch);
            !t.crashed && t.pcs == s.pcs[i := ConnPop(k)] && t.conns == s.conns[k := s.conns[k].(entry := Some(r))]
  {
  }

  /** A connection has been set up while nobody else moves: the request that waited for it goes over it. */
  lemma LoneLink(s: State, i: nat, k: nat) returns (n: nat)
    requires Ready(s) && i < |s.pcs| && s.pcs[i].Rest? && k < |s.conns|
    ensures var t, c := Solo(Step(s, i, Connected(k)), i, Go, n), s.conns[k];
            && t.pcs == s.pcs
            && t.conns == s.conns[k := if c.queue == [] then c.(connected := true)
                                       else c.(connected := true, queue := [], entry := Some(c.queue[0]))]
  {
    hide Step, Inv;
    assert !s.crashed && |s.conns[k].queue| <= 1 && (s.conns[k].queue != [] ==> s.conns[k].transport) by {
      ConnIs(s, k);
    }
    LinkOne(s, i, k);
    var a := Step(s, i, Connected(k));
    PopOne(a, i, Go, k);
    SoloNext(a, i, Go, 0);
    n := 1;
    if s.conns[k].queue != [] {
      var b := Step(a, i, Go);
      ConnLoadOne(b, i, Go, k, s.conns[k].queue[0]);
      SoloNext(a, i, Go, 1);
      var c := Step(b, i, Go);
      PopOne(c, i, Go, k);
      SoloNext(a, i, Go, 2);
      n := 3;
    }
    var t := Solo(a, i, Go, n);
    assert t.pcs == s.pcs;
  }

  lemma SubmitOne(s: State, i: nat, d: nat)
    requires i < |s.pcs| && !s.crashed && s.pcs[i].Rest? && Sized(s)
    ensures var t := Step(s, i, Submit(d));
            && !t.crashed && t.pcs == s.pcs[i := Open(|s.loc|)] && t.domains == s.domains + [d] && Domain(t, |s.loc|) == d
            && t.conns == s.conns && t.pools == s.pools && t.queues == s.queues && t.lock == s.lock && t.settled == s.settled
            && t.perHost == s.perHost
  {
  }

  lemma OpenRequest(s: State, i: nat, r: nat)
    requires i < |s.pcs| && !s.crashed && s.pcs[i] == Open(r)
    ensures var t, d := Step(s, i, Go), Domain(s, r);
            && !t.crashed && t.pcs == s.pcs[i := Seek(r, 0)] && t.domains == s.domains && t.queues == s.queues
            && t.lock == s.lock && t.settled == s.settled
            && (d in s.pools ==> t.conns == s.conns && t.pools == s.pools)
            && (d !in s.pools ==> FreshPool(s, t, d))
  {
  }

  /** Domain `d` has been given its connections. */
  ghost predicate FreshPool(s: State, t: State, d: nat) {
    && |t.conns| == |s.conns| + s.perHost && t.conns[..|s.conns|] == s.conns
    && (forall c :: |s.conns| <= c < |t.conns| ==> t.conns[c] == Conn(d, false, false, false, None, []))
    && d in t.pools && t.pools == s.pools[d := t.pools[d]] && |t.pools[d]| == s.perHost
    && (forall x :: 0 <= x < s.perHost ==> t.pools[d][x] == |s.conns| + x)
  }

  lemma SeekOne(s: State, i: nat, r: nat, n: nat)
    requires i < |s.pcs| && !s.crashed && s.pcs[i] == Seek(r, n) && InUse(s.conns, PoolAt(s, Domain(s, r)), n + 1)
    ensures Step(s, i, Go) == At(s, i, Seek(r, n + 1))
  {
  }

  lemma {:induction false} SoloSeek(s: State, i: nat, r: nat, n: nat)
    requires i < |s.pcs| && !s.crashed && s.pcs[i] == Seek(r, 0) && InUse(s.conns, PoolAt(s, Domain(s, r)), n)
    ensures Solo(s, i, Go, n) == At(s, i, Seek(r, n))
  {
    hide Step;
    if n == 0 {
      assert s.pcs[i := Seek(r, 0)] == s.pcs;
    } else {
      SoloSeek(s, i, r, n - 1);
      SoloNext(s, i, Go, n - 1);
      var t := At(s, i, Seek(r, n - 1));
      assert Domain(t, r) == Domain(s, r);
      SeekOne(t, i, r, n - 1);
      assert t.pcs[i := Seek(r, n)] == s.pcs[i := Seek(r, n)];
    }
  }

  lemma SeekWins(s: State, i: nat, r: nat, n: nat)
    requires i < |s.pcs| && !s.crashed && s.pcs[i] == Seek(r, n) && n < |PoolAt(s, Domain(s, r))|
    requires var k := PoolAt(s, Domain(s, r))[n]; k < |s.conns| && !s.conns[k].used
    ensures var t, k := Step(s, i, Go), PoolAt(s, Domain(s, r))[n];
            && !t.crashed && t.pcs == s.pcs[i := Won(r, k)] && t.conns == s.conns[k := s.conns[k].(used := true)]
            && t.queues == s.queues && t.lock == s.lock && t.settled == s.settled && t.domains == s.domains && t.pools == s.pools
  {
  }

  lemma SeekFails(s: State, i: nat, r: nat, n: nat)
    requires i < |s.pcs| && !s.crashed && s.pcs[i] == Seek(r, n) && n == |PoolAt(s, Domain(s, r))|
    ensures Step(s, i, Go) == At(s, i, Overflow(r))
  {
  }

  lemma WonOne(s: State, i: nat, r: nat, k: nat)
    requires i < |s.pcs| && !s.crashed && s.pcs[i] == Won(r, k) && k < |s.conns| && s.conns[k].queue == []
    ensures var t, c := Step(s, i, Go), s.conns[k];
            && t.pcs == s.pcs[i := Rest]
            && t.conns == s.conns[k := if c.connected then c.(transport := true, entry := Some(r))
                                       else c.(transport := true, queue := [r])]
            && t.queues == s.queues && t.settled == s.settled && t.domains == s.domains && t.pools == s.pools
  {
    var c := s.conns[k].(transport := true);
    assert c.queue + [r] == [r];
    assert s.conns[k := c][k := c.(entry := Some(r))] == s.conns[k := c.(entry := Some(r))];
    assert s.conns[k := c][k := c.(queue := [r])] == s.conns[k := c.(queue := [r])];
  }

  lemma OverflowOne(s: State, i: nat, r: nat)
    requires i < |s.pcs| && !s.crashed && s.pcs[i] == Overflow(r) && s.lock.None?
    ensures var t, d := Step(s, i, Go), Domain(s, r); var q := QueueOf(s, d);
            && t.pcs == s.pcs[i := Rest] && t.conns == s.conns && t.domains == s.domains && t.pools == s.pools
            && (|q| < 2048 ==> t.queues == s.queues[d := q + [r]] && t.settled == s.settled)
            && (|q| >= 2048 ==> t.queues == s.queues[d := q] && t.settled == s.settled + [Settlement(r, QueueFull)])
  {
  }

  /** Request `r` of domain `d` has gone from `s` on: over the first idle connection of its pool, or into the domain's
      queue, or back to the caller. */
  ghost predicate Placed(s: State, t: State, i: nat, d: nat, r: nat)
    requires i < |s.pcs|
  {
    var idle, q := Idlers(s.conns, PoolAt(s, d)), QueueOf(s, d);
    && t.pcs == s.pcs[i := Rest] && t.domains == s.domains && t.pools == s.pools && |t.conns| == |s.conns|
    && (idle != [] ==>
          && t.queues == s.queues && t.settled == s.settled && idle[0] < |s.conns|
          && var c := s.conns[idle[0]];
             t.conns == s.conns[idle[0] := if c.connected then c.(used := true, transport := true, entry := Some(r))
                                           else c.(used := true, transport := true, queue := [r])])
    && (idle == [] ==> t.conns == s.conns)
    && (idle == [] && |q| < 2048 ==> t.queues == s.queues[d := q + [r]] && t.settled == s.settled)
    && (idle == [] && |q| >= 2048 ==> t.queues == s.queues[d := q] && t.settled == s.settled + [Settlement(r, QueueFull)])
  }

  lemma PlaceIdle(s: State, i: nat, r: nat, n: nat)
    requires i < |s.pcs| && !s.crashed && s.pcs[i] == Seek(r, 0)
    requires var pool := PoolAt(s, Domain(s, r));
             && InUse(s.conns, pool, n) && n < |pool| && pool[n] < |s.conns| && !s.conns[pool[n]].used && s.conns[pool[n]].queue == []
             && Idlers(s.conns, pool) != [] && Idlers(s.conns, pool)[0] == pool[n]
    ensures Placed(s, Solo(s, i, Go, n + 2), i, Domain(s, r), r)
  {
    hide Step, Idlers;
    var k := PoolAt(s, Domain(s, r))[n];
    SoloSeek(s, i, r, n);
    SoloNext(s, i, Go, n);
    SoloNext(s, i, Go, n + 1);
    var a := At(s, i, Seek(r, n));
    assert Domain(a, r) == Domain(s, r);
    SeekWins(a, i, r, n);
    var b := Step(a, i, Go);
    WonOne(b, i, r, k);
    assert b.pcs[i := Rest] == s.pcs[i := Rest];
  }

  lemma PlaceQueue(s: State, i: nat, r: nat)
    requires i < |s.pcs| && !s.crashed && s.pcs[i] == Seek(r, 0) && s.lock.None?
    requires var pool := PoolAt(s, Domain(s, r)); InUse(s.conns, pool, |pool|) && Idlers(s.conns, pool) == []
    ensures Placed(s, Solo(s, i, Go, |PoolAt(s, Domain(s, r))| + 2), i, Domain(s, r), r)
  {
    hide Step, Idlers;
    var n := |PoolAt(s, Domain(s, r))|;
    SoloSeek(s, i, r, n);
    SoloNext(s, i, Go, n);
    SoloNext(s, i, Go, n + 1);
    var a := At(s, i, Seek(r, n));
    assert Domain(a, r) == Domain(s, r);
    SeekFails(a, i, r, n);
    var b := At(a, i, Overflow(r));
    OverflowOne(b, i, r);
    assert b.pcs[i := Rest] == s.pcs[i := Rest];
  }

  /** An idle connection has no queue. */
  lemma IdleEmpty(s: State, d: nat)
    requires Inv(s)
    ensures var pool := PoolAt(s, d);
            forall x :: 0 <= x < |pool| ==> pool[x] < |s.conns| && (!s.conns[pool[x]].used ==> s.conns[pool[x]].queue == [])
  {
    hide Inv;
    if d in s.pools {
      PoolIs(s, d);
      var pool := s.pools[d];
      forall x | 0 <= x < |pool| ensures pool[x] < |s.conns| && (!s.conns[pool[x]].used ==> s.conns[pool[x]].queue == []) {
        ConnIs(s, pool[x]);
      }
    }
  }

  /** A new request for domain `d`, with nobody else moving. `o` is `s` with the request's domain noted and the
      connections of the domain there. */
  lemma LoneRequest(s: State, i: nat, d: nat) returns (o: State, n: nat)
    requires Ready(s) && i < |s.pcs| && s.pcs[i].Rest? && s.lock.None?
    ensures |o.pcs| == |s.pcs| && o.domains == s.domains + [d] && o.queues == s.queues && o.settled == s.settled
    ensures d in s.pools ==> o.conns == s.conns && o.pools == s.pools
    ensures d !in s.pools ==> FreshPool(s, o, d)
    ensures var t := Solo(Step(s, i, Submit(d)), i, Go, n); Placed(o, t, i, d, |s.loc|) && t.pcs == s.pcs
  {
    hide Step, Inv, Placed, Idlers;
    assert Sized(s) && !s.crashed by {
      SizedIs(s);
    }
    var r, a := |s.loc|, Step(s, i, Submit(d));
    SubmitOne(s, i, d);
    OpenRequest(a, i, r);
    SoloNext(a, i, Go, 0);
    o := Step(a, i, Go);
    ReadyStep(s, i, Submit(d));
    ReadyStep(a, i, Go);
    IdleEmpty(o, d);
    assert Domain(o, r) == d;
    var m := FirstIdler(o.conns, PoolAt(o, d));
    if m == |PoolAt(o, d)| {
      PlaceQueue(o, i, r);
    } else {
      PlaceIdle(o, i, r, m);
    }
    SoloOn(a, i, Go, 1, m + 2);
    n := m + 3;
    PlacedRests(o, Solo(a, i, Go, n), i, d, r);
    assert o.pcs[i := Rest] == s.pcs;
  }

  lemma PlacedRests(s: State, t: State, i: nat, d: nat, r: nat)
    requires i < |s.pcs| && Placed(s, t, i, d, r)
    ensures t.pcs == s.pcs[i := Rest]
  {
  }
}

/** When a request can be left in a queue beside an idle connection. */
module ClientStranded {
  import opened ClientMachine
  import opened ClientTheorems
  import opened ClientHistory
  import opened ClientFrame
  import opened ClientRuns
  import opened ClientQueues
  import opened Options

  /** Thread at `pc` has released a connection or is about to, and has not ended its drain. */
  predicate Draining(pc: Pc) {
    pc.Freed? || pc.DrainLock? || Locking(pc)
  }

  /** No completion is being dealt with. */
  ghost predicate Calm(s: State) {
    forall i :: 0 <= i < |s.pcs| ==> !Draining(s.pcs[i])
  }

  ghost predicate Idle(s: State, k: nat) {
    k < |s.conns| && !s.conns[k].used
  }

  ghost predicate IdleAt(perHost: nat, threads: nat, moves: seq<Move>, k: nat, n: nat)
    requires Legal(threads, moves) && n <= |moves|
  {
    Idle(Before(perHost, threads, moves, n), k)
  }

  ghost predicate QueuedAt(perHost: nat, threads: nat, moves: seq<Move>, d: nat, r: nat, n: nat)
    requires Legal(threads, moves) && n <= |moves|
  {
    r in QueueOf(Before(perHost, threads, moves, n), d)
  }

  /** From move `n` on connection `k` is idle and request `r` waits in the queue of domain `d`. */
  ghost predicate Beside(perHost: nat, threads: nat, moves: seq<Move>, d: nat, k: nat, r: nat, n: nat)
    requires Legal(threads, moves) && n <= |moves|
  {
    forall x :: n <= x <= |moves| ==> IdleAt(perHost, threads, moves, k, x) && QueuedAt(perHost, threads, moves, d, r, x)
  }

  /** At move `n` request `r` enters the queue of domain `d`, and connection `k` is idle from then on. */
  ghost predicate QueuedBeside(perHost: nat, threads: nat, moves: seq<Move>, d: nat, k: nat, r: nat, n: nat)
    requires Legal(threads, moves) && n < |moves|
  {
    && JoinedBy(Before(perHost, threads, moves, n), moves[n].tid, d) == [r]
    && forall x :: n <= x <= |moves| ==> IdleAt(perHost, threads, moves, k, x)
  }

  // ---------------------------------------------------------------------------------------------
  // The drain behind a release visits the domain
  // ---------------------------------------------------------------------------------------------

  /** The thread is on its way to domain `d`. */
  predicate Due(pc: Pc, d: nat) {
    pc.DrainLock? || (Locking(pc) && d in pc.ds)
  }

  lemma LockNext(s: State, i: nat, ch: Choice)
    requires i < |s.pcs| && s.pcs[i].DrainLock? && !s.stopping
    ensures var next := Step(s, i, ch).pcs[i]; next.DrainLock? || (next.DrainOpen? && Lists(s, next.ds))
  {
  }

  /** A thread under way to `d` stays so, unless it leaves `d` for the next domain. */
  lemma DueStep(s: State, i: nat, ch: Choice, d: nat)
    requires Inv(s) && !s.crashed && !s.stopping && i < |s.pcs| && Due(s.pcs[i], d) && d in s.queues
    ensures var pc, next := s.pcs[i], Step(s, i, ch).pcs[i];
            Due(next, d) || (Locking(pc) && pc.ds != [] && pc.ds[0] == d && !In(next, pc.ds))
  {
    hide Inv, Step;
    var pc := s.pcs[i];
    if pc.DrainLock? {
      LockNext(s, i, ch);
    } else if !In(Step(s, i, ch).pcs[i], pc.ds) {
      LeaveStep(s, i, ch, pc.ds);
    }
  }

  /** The scan that found a connection in use began after the thread stood before the lock. */
  lemma FoundSince(perHost: nat, threads: nat, moves: seq<Move>, i: nat, ds: seq<nat>, j: nat, n: nat, x: nat)
    requires Legal(threads, moves) && n <= x <= |moves| && i < threads && ds != []
    requires Before(perHost, threads, moves, n).pcs[i].DrainLock? && FoundUsed(perHost, threads, moves, i, ds, j, x)
    ensures exists m :: n <= m < x && FoundUsedAt(perHost, threads, moves, i, ds, j, m, x)
  {
    hide Before;
    var m :| 0 <= m < x && FoundUsedAt(perHost, threads, moves, i, ds, j, m, x);
    LockScans(perHost, threads, moves, i, ds, n);
  }

  lemma LockScans(perHost: nat, threads: nat, moves: seq<Move>, i: nat, ds: seq<nat>, n: nat)
    requires Legal(threads, moves) && n <= |moves| && i < threads && Before(perHost, threads, moves, n).pcs[i].DrainLock?
    ensures !ScansAt(perHost, threads, moves, i, ds, n)
  {
    hide Before;
  }

  lemma PoolsLater(perHost: nat, threads: nat, moves: seq<Move>, d: nat, m: nat, n: nat)
    requires Legal(threads, moves) && m <= n <= |moves| && d in Before(perHost, threads, moves, m).pools
    ensures d in Before(perHost, threads, moves, n).pools
    ensures Before(perHost, threads, moves, n).pools[d] == Before(perHost, threads, moves, m).pools[d]
    decreases n
  {
    hide Step, Ready, Inv;
    if m < n {
      PoolsLater(perHost, threads, moves, d, m, n - 1);
      BeforeNext(perHost, threads, moves, n - 1);
      BeforeReady(perHost, threads, moves, n - 1);
      ReadyInv(Before(perHost, threads, moves, n - 1));
      StepFramed(Before(perHost, threads, moves, n - 1), moves[n - 1].tid, moves[n - 1].choice);
    }
  }

  /** Connection `k`, idle all the while, cannot have been found in use. */
  lemma NotLeft(perHost: nat, threads: nat, moves: seq<Move>, i: nat, ds: seq<nat>, k: nat, j: nat, n: nat, x: nat)
    requires Legal(threads, moves) && n <= x < |moves| && i < threads && ds != [] && moves[x].tid == i
    requires Before(perHost, threads, moves, n).pcs[i].DrainLock? && In(Before(perHost, threads, moves, x).pcs[i], ds)
    requires forall y :: n <= y <= |moves| ==> IdleAt(perHost, threads, moves, k, y)
    requires var s := Before(perHost, threads, moves, x); j < |PoolAt(s, ds[0])| && PoolAt(s, ds[0])[j] == k && QueueOf(s, ds[0]) != []
    requires PoolAt(Before(perHost, threads, moves, n), ds[0]) != []
    ensures In(Before(perHost, threads, moves, x + 1).pcs[i], ds)
  {
    hide Before, FoundUsed, FoundUsedAt;
    if !In(Before(perHost, threads, moves, x + 1).pcs[i], ds) {
      LeftDrained(perHost, threads, moves, ds, x);
      assert FoundUsed(perHost, threads, moves, i, ds, j, x);
      FoundSince(perHost, threads, moves, i, ds, j, n, x);
      var m :| n <= m < x && FoundUsedAt(perHost, threads, moves, i, ds, j, m, x);
      PoolsLater(perHost, threads, moves, ds[0], n, m);
      PoolsLater(perHost, threads, moves, ds[0], n, x);
      FoundThen(perHost, threads, moves, i, ds, j, m, x);
    }
  }

  lemma FoundThen(perHost: nat, threads: nat, moves: seq<Move>, i: nat, ds: seq<nat>, j: nat, m: nat, n: nat)
    requires Legal(threads, moves) && m < n <= |moves| && i < threads && ds != [] && FoundUsedAt(perHost, threads, moves, i, ds, j, m, n)
    ensures var pool := PoolAt(Before(perHost, threads, moves, m), ds[0]);
            j < |pool| && !IdleAt(perHost, threads, moves, pool[j], m)
  {
    hide Before;
  }

  /** A thread that stood before the lock when the request was waiting beside the idle connection is still under way. */
  lemma {:induction false} StillDue(perHost: nat, threads: nat, moves: seq<Move>, i: nat, d: nat, k: nat, r: nat, j: nat, n: nat, x: nat)
    requires Legal(threads, moves) && n <= x <= |moves| && i < threads
    requires Before(perHost, threads, moves, n).pcs[i].DrainLock? && Beside(perHost, threads, moves, d, k, r, n)
    requires !Before(perHost, threads, moves, |moves|).stopping
    requires j < |PoolAt(Before(perHost, threads, moves, n), d)| && PoolAt(Before(perHost, threads, moves, n), d)[j] == k
    ensures Due(Before(perHost, threads, moves, x).pcs[i], d)
    decreases x
  {
    hide Step, Ready, Inv, LastReport, Before, IdleAt;
    if n < x {
      StillDue(perHost, threads, moves, i, d, k, r, j, n, x - 1);
      BeforeReady(perHost, threads, moves, x - 1);
      BeforeNext(perHost, threads, moves, x - 1);
      var s := Before(perHost, threads, moves, x - 1);
      ReadyInv(s);
      if moves[x - 1].tid != i {
        OthersStand(s, moves[x - 1].tid, moves[x - 1].choice, i);
      } else {
        NotStopping(perHost, threads, moves, x - 1);
        assert QueuedAt(perHost, threads, moves, d, r, x - 1);
        DueStep(s, i, moves[x - 1].choice, d);
        if !Due(Before(perHost, threads, moves, x).pcs[i], d) {
          PoolsLater(perHost, threads, moves, d, n, x - 1);
          BesideIdle(perHost, threads, moves, d, k, r, n);
          NotLeft(perHost, threads, moves, i, s.pcs[i].ds, k, j, n, x - 1);
        }
      }
    }
  }

  lemma BesideIdle(perHost: nat, threads: nat, moves: seq<Move>, d: nat, k: nat, r: nat, n: nat)
    requires Legal(threads, moves) && n <= |moves| && Beside(perHost, threads, moves, d, k, r, n)
    ensures forall y :: n <= y <= |moves| ==> IdleAt(perHost, threads, moves, k, y)
  {
    hide IdleAt, QueuedAt;
  }

  lemma NotStopping(perHost: nat, threads: nat, moves: seq<Move>, n: nat)
    requires Legal(threads, moves) && n <= |moves| && !Before(perHost, threads, moves, |moves|).stopping
    ensures !Before(perHost, threads, moves, n).stopping
  {
    hide Before, ShutAt;
    StoppedByShutdown(perHost, threads, moves, n);
    StoppedByShutdown(perHost, threads, moves, |moves|);
  }

  // ---------------------------------------------------------------------------------------------
  // Back to the moment it was queued
  // ---------------------------------------------------------------------------------------------

  /** Whoever releases a connection of a domain with a queue is on the way to its drain. */
  lemma ReleaseStep(s: State, i: nat, ch: Choice, d: nat, k: nat)
    requires Inv(s) && !s.crashed && i < |s.pcs| && d in s.pools && k in s.pools[d] && QueueOf(s, d) != []
    requires !Idle(s, k) && Idle(Step(s, i, ch), k)
    ensures Step(s, i, ch).pcs[i].DrainLock?
  {
    hide Step, Inv, ConnOk;
    PoolIs(s, d);
    ThreadIs(s, i);
    StepFramed(s, i, ch);
    if s.pcs[i].DrainWon? {
      KeepsIt(s, i, ch);
    } else {
      FreedNext(s, i, ch);
    }
  }

  lemma KeepsIt(s: State, i: nat, ch: Choice)
    requires Inv(s) && !s.crashed && i < |s.pcs| && s.pcs[i].DrainWon?
    ensures var pc := s.pcs[i];
            && pc.ds != [] && pc.conn < |s.conns| && |Step(s, i, ch).conns| == |s.conns|
            && (QueueOf(s, pc.ds[0]) != [] ==> Step(s, i, ch).conns[pc.conn] == s.conns[pc.conn])
  {
    ThreadIs(s, i);
  }

  lemma FreedNext(s: State, i: nat, ch: Choice)
    requires i < |s.pcs| && !s.crashed && s.pcs[i].Freed?
    ensures Step(s, i, ch).pcs[i] == DrainLock
  {
  }

  /** The domain of a queued request has its pool. */
  lemma QueuedPool(s: State, d: nat, r: nat)
    requires Ready(s) && r in QueueOf(s, d)
    ensures Sized(s) && d in s.pools && PoolOk(s, d)
  {
    assert Passed(s, d, |PoolAt(s, d)|);
    PoolIs(s, d);
  }

  lemma JoinStep(s: State, i: nat, ch: Choice, d: nat, r: nat, k: nat)
    requires Inv(s) && !s.crashed && i < |s.pcs| && r !in QueueOf(s, d) && r in QueueOf(Step(s, i, ch), d)
    ensures JoinedBy(s, i, d) == [r] && (Idle(Step(s, i, ch), k) ==> Idle(s, k))
  {
    hide Step, Inv;
    QueueStep(s, i, ch, d);
    var out := TakenBy(s.pcs[i], Step(s, i, ch).pcs[i], d);
    assert r in out + QueueOf(Step(s, i, ch), d);
    assert r in QueueOf(s, d) + JoinedBy(s, i, d);
    OverflowConns(s, i, ch);
  }

  lemma OverflowConns(s: State, i: nat, ch: Choice)
    requires i < |s.pcs| && s.pcs[i].Overflow?
    ensures Step(s, i, ch).conns == s.conns
  {
  }

  lemma {:induction false} Back(perHost: nat, threads: nat, moves: seq<Move>, d: nat, k: nat, r: nat, n: nat)
    requires Legal(threads, moves) && n <= |moves| && Beside(perHost, threads, moves, d, k, r, n)
    requires var s := Before(perHost, threads, moves, |moves|); Calm(s) && !s.stopping && d in s.pools && k in s.pools[d]
    ensures exists m :: 0 <= m < n && QueuedBeside(perHost, threads, moves, d, k, r, m)
    decreases n
  {
    hide Step, Ready, Inv, Before, Calm, Draining, QueuedBeside;
    assert QueuedAt(perHost, threads, moves, d, r, n) && IdleAt(perHost, threads, moves, k, n);
    BeforeFirst(perHost, threads, moves);
    BeforeNext(perHost, threads, moves, n - 1);
    BeforeReady(perHost, threads, moves, n - 1);
    var s, i, ch := Before(perHost, threads, moves, n - 1), moves[n - 1].tid, moves[n - 1].choice;
    ReadyInv(s);
    if !QueuedAt(perHost, threads, moves, d, r, n - 1) {
      JoinStep(s, i, ch, d, r, k);
      Earlier(perHost, threads, moves, d, k, r, n - 1);
    } else {
      QueuedPool(s, d, r);
      PoolsLater(perHost, threads, moves, d, n - 1, |moves|);
      if IdleAt(perHost, threads, moves, k, n - 1) {
        assert Beside(perHost, threads, moves, d, k, r, n - 1);
        Back(perHost, threads, moves, d, k, r, n - 1);
      } else {
        ReleaseStep(s, i, ch, d, k);
        PoolsLater(perHost, threads, moves, d, n - 1, n);
        var j :| 0 <= j < |s.pools[d]| && s.pools[d][j] == k;
        StillDue(perHost, threads, moves, i, d, k, r, j, n, |moves|);
        NotCalm(Before(perHost, threads, moves, |moves|), i, d);
      }
    }
  }

  lemma Earlier(perHost: nat, threads: nat, moves: seq<Move>, d: nat, k: nat, r: nat, n: nat)
    requires Legal(threads, moves) && n < |moves| && Beside(perHost, threads, moves, d, k, r, n + 1)
    requires JoinedBy(Before(perHost, threads, moves, n), moves[n].tid, d) == [r] && IdleAt(perHost, threads, moves, k, n)
    ensures QueuedBeside(perHost, threads, moves, d, k, r, n)
  {
    hide Before, IdleAt, QueuedAt;
  }

  lemma NotCalm(s: State, i: nat, d: nat)
    requires i < |s.pcs| && Due(s.pcs[i], d)
    ensures !Calm(s)
  {
  }

  /** At move `x` thread `i`, with request `r`, found connection `k` of domain `d` in use. */
  ghost predicate Passes(perHost: nat, threads: nat, moves: seq<Move>, i: nat, d: nat, k: nat, r: nat, x: nat)
    requires Legal(threads, moves) && x < |moves| && i < threads
  {
    var s := Before(perHost, threads, moves, x);
    && moves[x].tid == i && s.pcs[i].Seek? && s.pcs[i].req == r
    && s.pcs[i].i < |PoolAt(s, d)| && PoolAt(s, d)[s.pcs[i].i] == k && k < |s.conns| && s.conns[k].used
  }

  /** A request that is queued had passed the domain's connections, each in use. */
  lemma JoinedPassed(perHost: nat, threads: nat, moves: seq<Move>, d: nat, k: nat, r: nat, n: nat)
    requires Legal(threads, moves) && n < |moves| && JoinedBy(Before(perHost, threads, moves, n), moves[n].tid, d) == [r]
    requires k in PoolAt(Before(perHost, threads, moves, n), d)
    ensures exists x :: 0 <= x < n && Passes(perHost, threads, moves, moves[n].tid, d, k, r, x)
  {
    hide Step, Ready, Inv, Before;
    var s := Before(perHost, threads, moves, n);
    var j :| 0 <= j < |PoolAt(s, d)| && PoolAt(s, d)[j] == k;
    NoneIdle(perHost, threads, moves, moves[n].tid, r, j, n);
    var x :| 0 <= x < n && MetUsedAt(perHost, threads, moves, moves[n].tid, r, j, x);
    SoughtDomain(perHost, threads, moves, moves[n].tid, d, j, r, x, n);
    assert Passes(perHost, threads, moves, moves[n].tid, d, k, r, x);
  }

  /** The domain of a request and its pool are what they were. */
  lemma SoughtDomain(perHost: nat, threads: nat, moves: seq<Move>, i: nat, d: nat, j: nat, r: nat, x: nat, n: nat)
    requires Legal(threads, moves) && x <= n <= |moves| && x < |moves| && i < threads
    requires MetUsedAt(perHost, threads, moves, i, r, j, x) && Domain(Before(perHost, threads, moves, n), r) == d
    ensures Domain(Before(perHost, threads, moves, x), r) == d
    ensures PoolAt(Before(perHost, threads, moves, x), d) == PoolAt(Before(perHost, threads, moves, n), d)
  {
    hide Step, Ready, Inv, Before;
    var s := Before(perHost, threads, moves, x);
    BeforeReady(perHost, threads, moves, x);
    ReadyInv(s);
    SeekKnown(s, i, r);
    DomainsLater(perHost, threads, moves, x, n);
    if Domain(s, r) in s.pools {
      PoolsLater(perHost, threads, moves, Domain(s, r), x, n);
    }
  }

  lemma SeekKnown(s: State, i: nat, r: nat)
    requires Inv(s) && i < |s.pcs| && s.pcs[i].Seek? && s.pcs[i].req == r
    ensures r < |s.domains|
  {
    ThreadIs(s, i);
  }

  lemma {:induction false} DomainsLater(perHost: nat, threads: nat, moves: seq<Move>, m: nat, n: nat)
    requires Legal(threads, moves) && m <= n <= |moves|
    ensures Before(perHost, threads, moves, m).domains <= Before(perHost, threads, moves, n).domains
    decreases n
  {
    hide Step, Ready, Inv;
    if m < n {
      DomainsLater(perHost, threads, moves, m, n - 1);
      BeforeNext(perHost, threads, moves, n - 1);
      BeforeReady(perHost, threads, moves, n - 1);
      ReadyInv(Before(perHost, threads, moves, n - 1));
      StepFramed(Before(perHost, threads, moves, n - 1), moves[n - 1].tid, moves[n - 1].choice);
    }
  }

  lemma JoinedPool(perHost: nat, threads: nat, moves: seq<Move>, d: nat, k: nat, r: nat, n: nat)
    requires Legal(threads, moves) && n < |moves| && JoinedBy(Before(perHost, threads, moves, n), moves[n].tid, d) == [r]
    requires var s := Before(perHost, threads, moves, |moves|); d in s.pools && k in s.pools[d]
    ensures k in PoolAt(Before(perHost, threads, moves, n), d)
  {
    hide Step, Before;
    var s := Before(perHost, threads, moves, n);
    BeforeReady(perHost, threads, moves, n);
    assert ThreadPassed(s, moves[n].tid);
    PoolsLater(perHost, threads, moves, d, n, |moves|);
  }

  /** A request left in a domain's queue beside an idle connection, with every completion dealt with and no shutdown,
      was queued when that connection already stood idle: it had found the connection in use, and was queued only
      after the drain behind the connection's release. */
  lemma LeftBehind(perHost: nat, threads: nat, moves: seq<Move>, s: State, d: nat, k: nat, r: nat)
    requires Reached(perHost, threads, moves, s) && Calm(s) && !s.stopping
    requires d in s.pools && k in s.pools[d] && Idle(s, k) && r in QueueOf(s, d)
    ensures Legal(threads, moves)
    ensures exists m, x :: 0 <= x < m < |moves| && QueuedBeside(perHost, threads, moves, d, k, r, m)
                           && Passes(perHost, threads, moves, moves[m].tid, d, k, r, x)
  {
    hide Step, QueuedBeside, Calm, Passes;
    assert moves[..|moves|] == moves;
    assert Before(perHost, threads, moves, |moves|) == s;
    assert IdleAt(perHost, threads, moves, k, |moves|) && QueuedAt(perHost, threads, moves, d, r, |moves|);
    Back(perHost, threads, moves, d, k, r, |moves|);
    var m :| 0 <= m < |moves| && QueuedBeside(perHost, threads, moves, d, k, r, m);
    BesideJoined(perHost, threads, moves, d, k, r, m);
    JoinedPool(perHost, threads, moves, d, k, r, m);
    JoinedPassed(perHost, threads, moves, d, k, r, m);
  }

  lemma BesideJoined(perHost: nat, threads: nat, moves: seq<Move>, d: nat, k: nat, r: nat, n: nat)
    requires Legal(threads, moves) && n < |moves| && QueuedBeside(perHost, threads, moves, d, k, r, n)
    ensures JoinedBy(Before(perHost, threads, moves, n), moves[n].tid, d) == [r]
  {
  }

  // ---------------------------------------------------------------------------------------------
  // It happens
  // ---------------------------------------------------------------------------------------------

  lemma ExecuteOne(s: State, m: Move)
    requires m.tid < |s.pcs|
    ensures Execute(s, [m]) == Step(s, m.tid, m.choice)
  {
    hide Step;
    assert [m][1..] == [];
    assert Execute(Step(s, m.tid, m.choice), []) == Step(s, m.tid, m.choice);
  }

  lemma ExecuteCons(s: State, m: Move, rest: seq<Move>)
    requires m.tid < |s.pcs| && forall x :: x in rest ==> x.tid < |s.pcs|
    ensures Execute(s, [m] + rest) == Execute(Step(s, m.tid, m.choice), rest)
  {
    hide Step;
    assert ([m] + rest)[1..] == rest;
  }

  lemma ExecuteFour(s: State, a: Move, b: Move, c: Move, e: Move)
    requires a.tid < |s.pcs| && b.tid < |s.pcs| && c.tid < |s.pcs| && e.tid < |s.pcs|
    ensures Execute(s, [a, b, c, e]) == Execute(Step(s, a.tid, a.choice), [b, c, e])
    ensures Execute(s, [b, c, e]) == Execute(Step(s, b.tid, b.choice), [c, e])
    ensures Execute(s, [c, e]) == Execute(Step(s, c.tid, c.choice), [e])
  {
    hide Step, Execute;
    assert [a, b, c, e] == [a] + [b, c, e] && [b, c, e] == [b] + [c, e] && [c, e] == [c] + [e];
    ExecuteCons(s, a, [b, c, e]);
    ExecuteCons(s, b, [c, e]);
    ExecuteCons(s, c, [e]);
  }

  /** A client of two threads with one connection for domain 0. */
  function Small(conn: Conn, pcs: seq<Pc>, domains: seq<nat>, loc: seq<Loc>, owner: Owner, settled: seq<Settlement>): State {
    State(1, [conn], map[0 := [0]], map[], None, false, false, pcs, domains, loc, [owner], settled)
  }

  /** The first request waits for its connection to be set up. */
  function Deferred(): State {
    Small(Conn(0, true, false, true, None, [0]), [Rest, Rest], [0], [InConn(0)], ByRequest(0), [])
  }

  /** It is on its way. */
  function Busy(): State {
    Small(Conn(0, true, true, true, Some(0), []), [Rest, Rest], [0], [InEntry(0)], ByRequest(0), [])
  }

  /** The second has found the connection in use. */
  function Late(): State {
    Small(Conn(0, true, true, true, Some(0), []), [Rest, Overflow(1)], [0, 0], [InEntry(0), Hand(1)], ByRequest(0), [])
  }

  /** The first has been answered, the connection released and the queues, still empty, drained. */
  function Answered(): State {
    Small(Conn(0, false, true, true, None, []), [Rest, Overflow(1)], [0, 0], [Settled, Hand(1)], Free, [Settlement(0, Response)])
  }

  /** The second has been queued. */
  function Stuck(): State {
    Small(Conn(0, false, true, true, None, []), [Rest, Rest], [0, 0], [Settled, InQueue(0)], Free, [Settlement(0, Response)])
      .(queues := map[0 := [1]])
  }

  lemma SubmitSmall(s: State)
    requires s == Init(1, 2)
    ensures Step(s, 0, Submit(0)) == s.(pcs := [Open(0), Rest], loc := [Hand(0)], domains := [0])
  {
  }

  lemma TakeSmall()
    ensures Step(Sought(), 0, Go) == Held() && Step(Held(), 0, Go) == Deferred()
  {
    var q: seq<nat> := [];
    assert q + [0] == [0];
    var t := Step(Held(), 0, Go);
    assert t.conns[0].queue == [0];
    assert t.conns == Deferred().conns;
  }

  function Sought(): State {
    Small(Conn(0, false, false, false, None, []), [Seek(0, 0), Rest], [0], [Hand(0)], Free, [])
  }

  function Held(): State {
    Small(Conn(0, true, false, false, None, []), [Won(0, 0), Rest], [0], [Hand(0)], ByThread(0), [])
  }

  lemma ToDeferred()
    ensures Execute(Init(1, 2), [Move(0, Submit(0)), Move(0, Go), Move(0, Go), Move(0, Go)]) == Deferred()
  {
    hide Step;
    var s := Init(1, 2);
    var s1 := s.(pcs := [Open(0), Rest], loc := [Hand(0)], domains := [0]);
    SubmitSmall(s);
    OpenSmall(s1);
    TakeSmall();
    ExecuteFour(s, Move(0, Submit(0)), Move(0, Go), Move(0, Go), Move(0, Go));
    ExecuteFour(s1, Move(0, Go), Move(0, Go), Move(0, Go), Move(0, Go));
    ExecuteFour(Sought(), Move(0, Go), Move(0, Go), Move(0, Go), Move(0, Go));
    ExecuteOne(Held(), Move(0, Go));
  }

  lemma OpenSmall(s: State)
    requires s == Init(1, 2).(pcs := [Open(0), Rest], loc := [Hand(0)], domains := [0])
    ensures Step(s, 0, Go) == Sought()
  {
    var t := OpenPool(s, 0);
    assert t.conns == [Conn(0, false, false, false, None, [])] && t.owner == [Free];
    assert t.pools[0] == [0];
    assert At(t, 0, Seek(0, 0)) == Sought();
  }

  lemma PopSmall()
    ensures Step(Deferred(), 0, Connected(0)) == Linked() && Step(Linked(), 0, Go) == Popped()
  {
    assert [0][1..] == [];
  }

  /** Its connection has been set up. */
  function Linked(): State {
    Small(Conn(0, true, true, true, None, [0]), [ConnPop(0), Rest], [0], [InConn(0)], ByRequest(0), [])
  }

  function Popped(): State {
    Small(Conn(0, true, true, true, None, []), [ConnLoad(0, 0), Rest], [0], [Hand(0)], ByThread(0), [])
  }

  lemma LoadSmall()
    ensures Step(Popped(), 0, Go) == Busy().(pcs := [ConnPop(0), Rest])
    ensures Step(Busy().(pcs := [ConnPop(0), Rest]), 0, Go) == Busy()
  {
  }

  lemma ToBusy()
    ensures Execute(Deferred(), [Move(0, Connected(0)), Move(0, Go), Move(0, Go), Move(0, Go)]) == Busy()
  {
    hide Step;
    PopSmall();
    LoadSmall();
    ExecuteFour(Deferred(), Move(0, Connected(0)), Move(0, Go), Move(0, Go), Move(0, Go));
    ExecuteFour(Linked(), Move(0, Go), Move(0, Go), Move(0, Go), Move(0, Go));
    ExecuteFour(Popped(), Move(0, Go), Move(0, Go), Move(0, Go), Move(0, Go));
    ExecuteOne(Busy().(pcs := [ConnPop(0), Rest]), Move(0, Go));
  }

  lemma ToLate()
    ensures Execute(Busy(), [Move(1, Submit(0)), Move(1, Go), Move(1, Go), Move(1, Go)]) == Late()
  {
    var s := Busy();
    ExecuteFour(s, Move(1, Submit(0)), Move(1, Go), Move(1, Go), Move(1, Go));
    var s1 := Late().(pcs := [Rest, Open(1)]);
    assert Step(s, 1, Submit(0)) == s1;
    var s2 := Late().(pcs := [Rest, Seek(1, 0)]);
    assert Step(s1, 1, Go) == s2;
    var s3 := Late().(pcs := [Rest, Seek(1, 1)]);
    assert Step(s2, 1, Go) == s3;
    assert Step(s3, 1, Go) == Late();
    ExecuteFour(s1, Move(1, Go), Move(1, Go), Move(1, Go), Move(1, Go));
    ExecuteFour(s2, Move(1, Go), Move(1, Go), Move(1, Go), Move(1, Go));
    ExecuteOne(s3, Move(1, Go));
  }

  lemma ReleaseSmall()
    ensures Step(Late(), 0, Arrive(0, Response)) == Given() && Step(Given(), 0, Go) == Answered().(pcs := [DrainLock, Overflow(1)])
  {
  }

  /** The first has been answered. */
  function Given(): State {
    Answered().(pcs := [Freed(0), Overflow(1)], conns := [Conn(0, true, true, true, None, [])], owner := [ByThread(0)])
  }

  lemma DrainSmall()
    ensures var s := Answered().(pcs := [DrainLock, Overflow(1)]);
            var t := Answered().(pcs := [DrainOpen([]), Overflow(1)], lock := Some(0));
            Step(s, 0, Order([])) == t && Step(t, 0, Go) == Answered()
  {
  }

  lemma ToAnswered()
    ensures Execute(Late(), [Move(0, Arrive(0, Response)), Move(0, Go), Move(0, Order([])), Move(0, Go)]) == Answered()
  {
    hide Step;
    ReleaseSmall();
    DrainSmall();
    ExecuteFour(Late(), Move(0, Arrive(0, Response)), Move(0, Go), Move(0, Order([])), Move(0, Go));
    ExecuteFour(Given(), Move(0, Go), Move(0, Go), Move(0, Order([])), Move(0, Go));
    ExecuteFour(Answered().(pcs := [DrainLock, Overflow(1)]), Move(0, Go), Move(0, Go), Move(0, Order([])), Move(0, Go));
    ExecuteOne(Answered().(pcs := [DrainOpen([]), Overflow(1)], lock := Some(0)), Move(0, Go));
  }

  lemma ToStuck()
    ensures Execute(Answered(), [Move(1, Go)]) == Stuck()
  {
    ExecuteOne(Answered(), Move(1, Go));
    var q := [] + [1];
    assert q == [1];
    assert Step(Answered(), 1, Go).queues == map[0 := q];
  }

  /** A run from `s` to `t`, and one on to `u`. */
  lemma Chain(s: State, a: seq<Move>, t: State, b: seq<Move>, u: State)
    requires |s.pcs| == 2 && Legal(2, a) && Legal(2, b)
    requires Execute(s, a) == t && Execute(t, b) == u
    ensures Legal(2, a + b) && Execute(s, a + b) == u
  {
    hide Execute;
    ExecuteConcat(s, a, b);
  }

  lemma StuckIs()
    ensures Calm(Stuck()) && !Stuck().stopping
    ensures Idle(Stuck(), 0) && 0 in Stuck().pools && Stuck().pools[0] == [0] && QueueOf(Stuck(), 0) == [1] && Stuck().conns[0].connected
  {
  }

  /** A run at whose end every thread rests, nothing was shut down, and a request waits beside the idle connection. */
  lemma Stranded() returns (moves: seq<Move>, s: State)
    ensures Reached(1, 2, moves, s) && Calm(s) && !s.stopping
    ensures Idle(s, 0) && 0 in s.pools && s.pools[0] == [0] && QueueOf(s, 0) == [1] && s.conns[0].connected
  {
    hide Step, Execute, Deferred, Busy, Late, Answered, Stuck, Calm;
    s := Stuck();
    StuckIs();
    var a := [Move(0, Submit(0)), Move(0, Go), Move(0, Go), Move(0, Go)];
    var b := [Move(0, Connected(0)), Move(0, Go), Move(0, Go), Move(0, Go)];
    var c := [Move(1, Submit(0)), Move(1, Go), Move(1, Go), Move(1, Go)];
    var e := [Move(0, Arrive(0, Response)), Move(0, Go), Move(0, Order([])), Move(0, Go)];
    ToDeferred();
    ToBusy();
    ToLate();
    ToAnswered();
    ToStuck();
    Chain(Init(1, 2), a, Deferred(), b, Busy());
    Chain(Init(1, 2), a + b, Busy(), c, Late());
    Chain(Init(1, 2), a + b + c, Late(), e, Answered());
    Chain(Init(1, 2), a + b + c + e, Answered(), [Move(1, Go)], Stuck());
    moves := a + b + c + e + [Move(1, Go)];
  }
}

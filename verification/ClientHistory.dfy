/** What must have happened before a client turns a request away. */
module ClientHistory {
  import opened ClientMachine
  import opened ClientTheorems
  import opened Options

  predicate Legal(threads: nat, moves: seq<Move>) {
    forall m :: m in moves ==> m.tid < threads
  }

  /** The state before move `n` of a run. */
  function Before(perHost: nat, threads: nat, moves: seq<Move>, n: nat): (s: State)
    requires Legal(threads, moves) && n <= |moves|
    ensures |s.pcs| == threads
  {
    Execute(Init(perHost, threads), moves[..n])
  }

  lemma {:induction false} ExecuteConcat(s: State, a: seq<Move>, b: seq<Move>)
    requires (forall m :: m in a ==> m.tid < |s.pcs|) && (forall m :: m in b ==> m.tid < |s.pcs|)
    ensures forall m :: m in a + b ==> m.tid < |s.pcs|
    ensures Execute(s, a + b) == Execute(Execute(s, a), b)
    decreases a
  {
    hide Step;
    if a == [] {
      assert a + b == b;
    } else {
      assert (a + b)[0] == a[0] && (a + b)[1..] == a[1..] + b;
      ExecuteConcat(Step(s, a[0].tid, a[0].choice), a[1..], b);
    }
  }

  lemma BeforeNext(perHost: nat, threads: nat, moves: seq<Move>, n: nat)
    requires Legal(threads, moves) && n < |moves|
    ensures Before(perHost, threads, moves, n + 1) == Step(Before(perHost, threads, moves, n), moves[n].tid, moves[n].choice)
  {
    hide Step;
    assert moves[..n + 1] == moves[..n] + [moves[n]];
    ExecuteConcat(Init(perHost, threads), moves[..n], [moves[n]]);
    assert [moves[n]][1..] == [];
    var s := Before(perHost, threads, moves, n);
    var t := Step(s, moves[n].tid, moves[n].choice);
    assert Execute(t, []) == t;
  }

  lemma BeforeFirst(perHost: nat, threads: nat, moves: seq<Move>)
    requires Legal(threads, moves)
    ensures Before(perHost, threads, moves, 0) == Init(perHost, threads)
  {
    assert moves[..0] == [];
  }

  lemma BeforeReady(perHost: nat, threads: nat, moves: seq<Move>, n: nat)
    requires Legal(threads, moves) && n <= |moves|
    ensures Ready(Before(perHost, threads, moves, n))
  {
    ReachedReady(perHost, threads, moves[..n], Before(perHost, threads, moves, n));
  }

  // ---------------------------------------------------------------------------------------------
  // A connection with a transport has been in use
  // ---------------------------------------------------------------------------------------------

  /** Before move `n` connection `c` is in use. */
  ghost predicate UsedAt(perHost: nat, threads: nat, moves: seq<Move>, c: nat, n: nat)
    requires Legal(threads, moves) && n <= |moves|
  {
    var s := Before(perHost, threads, moves, n);
    c < |s.conns| && s.conns[c].used
  }

  ghost predicate WasUsed(perHost: nat, threads: nat, moves: seq<Move>, c: nat, n: nat)
    requires Legal(threads, moves) && n <= |moves|
  {
    exists m :: 0 <= m <= n && UsedAt(perHost, threads, moves, c, m)
  }

  lemma WonUsed(s: State, i: nat)
    requires Inv(s) && i < |s.pcs| && s.pcs[i].Won?
    ensures s.pcs[i].conn < |s.conns| && s.conns[s.pcs[i].conn].used
  {
    assert ThreadOk(s, i) && ConnOk(s, s.pcs[i].conn);
  }

  /** No connection gets a transport. */
  ghost predicate NoneGiven(s: State, s': State) {
    forall c :: 0 <= c < |s'.conns| && s'.conns[c].transport ==> c < |s.conns| && s.conns[c].transport
  }

  lemma BeginGives(s: State, i: nat, ch: Choice)
    requires i < |s.pcs|
    ensures NoneGiven(s, Begin(s, i, ch))
  {
  }

  lemma DoRequestGives(s: State, i: nat, ch: Choice)
    requires i < |s.pcs| && (s.pcs[i].Open? || s.pcs[i].Seek? || s.pcs[i].Overflow?)
    ensures NoneGiven(s, Step(s, i, ch))
  {
  }

  lemma DrainGives(s: State, i: nat, ch: Choice)
    requires i < |s.pcs|
    requires s.pcs[i].Freed? || s.pcs[i].DrainLock? || s.pcs[i].DrainOpen? || s.pcs[i].DrainSeek? || s.pcs[i].DrainWon?
    ensures NoneGiven(s, Step(s, i, ch))
  {
  }

  lemma LoadGives(s: State, i: nat, ch: Choice)
    requires i < |s.pcs| && (s.pcs[i].DrainLoad? || s.pcs[i].ConnPop? || s.pcs[i].ConnLoad?)
    ensures NoneGiven(s, Step(s, i, ch))
  {
  }

  /** Only `doRequest` gives a transport, to a connection it has. */
  lemma TransportStep(s: State, i: nat, ch: Choice, c: nat)
    requires i < |s.pcs| && c < |Step(s, i, ch).conns| && Step(s, i, ch).conns[c].transport
    ensures (c < |s.conns| && s.conns[c].transport) || (s.pcs[i].Won? && s.pcs[i].conn == c)
  {
    var pc := s.pcs[i];
    if pc.Won? {
    } else if pc.Rest? {
      BeginGives(s, i, ch);
    } else if pc.Open? || pc.Seek? || pc.Overflow? {
      DoRequestGives(s, i, ch);
    } else if pc.DrainLoad? || pc.ConnPop? || pc.ConnLoad? {
      LoadGives(s, i, ch);
    } else {
      DrainGives(s, i, ch);
    }
  }

  lemma {:induction false} TransportUsed(perHost: nat, threads: nat, moves: seq<Move>, c: nat, n: nat)
    requires Legal(threads, moves) && n <= |moves|
    requires var s := Before(perHost, threads, moves, n); c < |s.conns| && s.conns[c].transport
    ensures WasUsed(perHost, threads, moves, c, n)
  {
    hide Step, Ready, Inv;
    BeforeFirst(perHost, threads, moves);
    BeforeNext(perHost, threads, moves, n - 1);
    BeforeReady(perHost, threads, moves, n - 1);
    var s := Before(perHost, threads, moves, n - 1);
    ReadyInv(s);
    var i := moves[n - 1].tid;
    TransportStep(s, i, moves[n - 1].choice, c);
    if c < |s.conns| && s.conns[c].transport {
      TransportUsed(perHost, threads, moves, c, n - 1);
    } else {
      WonUsed(s, i);
      assert UsedAt(perHost, threads, moves, c, n - 1);
    }
  }

  lemma ReadyInv(s: State)
    requires Ready(s)
    ensures Inv(s) && Sized(s)
  {
  }

  lemma TouchedUsed(perHost: nat, threads: nat, moves: seq<Move>, c: nat, n: nat)
    requires Legal(threads, moves) && n <= |moves|
    requires var s := Before(perHost, threads, moves, n); Inv(s) && Touched(s, c)
    ensures WasUsed(perHost, threads, moves, c, n)
  {
    hide Step;
    var s := Before(perHost, threads, moves, n);
    if s.conns[c].transport {
      TransportUsed(perHost, threads, moves, c, n);
    } else {
      assert ConnOk(s, c);
      assert UsedAt(perHost, threads, moves, c, n);
    }
  }

  // ---------------------------------------------------------------------------------------------
  // When a request is turned away
  // ---------------------------------------------------------------------------------------------

  /** A thread is about to queue request `r`, and the queue is full. */
  ghost predicate Full(s: State, i: nat, r: nat)
    requires i < |s.pcs|
  {
    s.pcs[i] == Overflow(r) && s.lock.None? && !s.crashed && |QueueOf(s, Domain(s, r))| == CAPACITY
  }

  /** Every connection of request `r`'s domain has been in use by move `n`. */
  ghost predicate Exhausted(perHost: nat, threads: nat, moves: seq<Move>, r: nat, n: nat)
    requires Legal(threads, moves) && n <= |moves|
  {
    var s := Before(perHost, threads, moves, n);
    var d := Domain(s, r);
    d in s.pools && forall k :: 0 <= k < |s.pools[d]| ==> WasUsed(perHost, threads, moves, s.pools[d][k], n)
  }

  ghost predicate FullAt(perHost: nat, threads: nat, moves: seq<Move>, r: nat, n: nat)
    requires Legal(threads, moves) && n < |moves|
  {
    Full(Before(perHost, threads, moves, n), moves[n].tid, r)
  }

  /** Nothing is turned away. */
  ghost predicate NoneAway(s: State, s': State) {
    forall k :: |s.settled| <= k < |s'.settled| ==> !s'.settled[k].reason.QueueFull?
  }

  lemma BeginAway(s: State, i: nat, ch: Choice)
    requires i < |s.pcs|
    ensures NoneAway(s, Begin(s, i, ch))
  {
  }

  lemma DoRequestAway(s: State, i: nat, ch: Choice)
    requires i < |s.pcs| && (s.pcs[i].Open? || s.pcs[i].Seek? || s.pcs[i].Won?)
    ensures NoneAway(s, Step(s, i, ch))
  {
  }

  lemma DrainAway(s: State, i: nat, ch: Choice)
    requires i < |s.pcs| && !s.pcs[i].Rest? && HandOf(s.pcs[i]).None?
    ensures NoneAway(s, Step(s, i, ch))
  {
  }

  lemma LoadAway(s: State, i: nat, ch: Choice)
    requires i < |s.pcs| && (s.pcs[i].DrainLoad? || s.pcs[i].ConnLoad?)
    ensures NoneAway(s, Step(s, i, ch))
  {
  }

  lemma OverflowAway(s: State, i: nat, ch: Choice, k: nat)
    requires Inv(s) && i < |s.pcs| && s.pcs[i].Overflow? && |s.settled| <= k < |Step(s, i, ch).settled|
    ensures Full(s, i, Step(s, i, ch).settled[k].req)
  {
    var d := Domain(s, s.pcs[i].req);
    assert d in s.queues ==> QueueOk(s, d);
  }

  /** Only a full queue turns a request away. */
  lemma FullStep(s: State, i: nat, ch: Choice, k: nat)
    requires Inv(s) && i < |s.pcs| && |s.settled| <= k < |Step(s, i, ch).settled|
    requires Step(s, i, ch).settled[k].reason.QueueFull?
    ensures Full(s, i, Step(s, i, ch).settled[k].req)
  {
    hide Inv, Full;
    var pc := s.pcs[i];
    if pc.Overflow? {
      OverflowAway(s, i, ch, k);
    } else if pc.Rest? {
      BeginAway(s, i, ch);
    } else if pc.Open? || pc.Seek? || pc.Won? {
      DoRequestAway(s, i, ch);
    } else if pc.DrainLoad? || pc.ConnLoad? {
      LoadAway(s, i, ch);
    } else {
      DrainAway(s, i, ch);
    }
  }

  lemma {:induction false} FullFound(perHost: nat, threads: nat, moves: seq<Move>, n: nat, k: nat)
    requires Legal(threads, moves) && n <= |moves|
    requires var s := Before(perHost, threads, moves, n); k < |s.settled| && s.settled[k].reason.QueueFull?
    ensures exists m :: 0 <= m < n && FullAt(perHost, threads, moves, Before(perHost, threads, moves, n).settled[k].req, m)
  {
    hide Step, Ready, Inv, Full;
    BeforeFirst(perHost, threads, moves);
    BeforeNext(perHost, threads, moves, n - 1);
    BeforeReady(perHost, threads, moves, n - 1);
    var s := Before(perHost, threads, moves, n - 1);
    ReadyInv(s);
    StepFinal(s, moves[n - 1].tid, moves[n - 1].choice);
    if k < |s.settled| {
      FullFound(perHost, threads, moves, n - 1, k);
    } else {
      FullStep(s, moves[n - 1].tid, moves[n - 1].choice, k);
      assert FullAt(perHost, threads, moves, Before(perHost, threads, moves, n).settled[k].req, n - 1);
    }
  }

  lemma FullSettles(s: State, i: nat, ch: Choice, r: nat)
    requires i < |s.pcs| && Full(s, i, r)
    ensures Step(s, i, ch).settled == s.settled + [Settlement(r, QueueFull)]
  {
  }

  lemma FullStays(perHost: nat, threads: nat, moves: seq<Move>, r: nat, n: nat)
    requires Legal(threads, moves) && n < |moves| && FullAt(perHost, threads, moves, r, n)
    ensures Settlement(r, QueueFull) in Before(perHost, threads, moves, |moves|).settled
  {
    hide Step, Full;
    var s := Before(perHost, threads, moves, n);
    FullSettles(s, moves[n].tid, moves[n].choice, r);
    BeforeNext(perHost, threads, moves, n);
    var t := Before(perHost, threads, moves, n + 1);
    assert t.settled[|s.settled|] == Settlement(r, QueueFull);
    assert moves[..|moves|] == moves[..n + 1] + moves[n + 1..];
    ExecuteConcat(Init(perHost, threads), moves[..n + 1], moves[n + 1..]);
    Final(t, moves[n + 1..]);
    assert Before(perHost, threads, moves, |moves|).settled[|s.settled|] == Settlement(r, QueueFull);
  }

  /** Whoever finds the queue full has found all connections in use. */
  lemma FullExhausted(perHost: nat, threads: nat, moves: seq<Move>, r: nat, n: nat)
    requires Legal(threads, moves) && n < |moves| && FullAt(perHost, threads, moves, r, n)
    ensures Exhausted(perHost, threads, moves, r, n)
  {
    hide Step;
    BeforeReady(perHost, threads, moves, n);
    var s := Before(perHost, threads, moves, n);
    assert ThreadPassed(s, moves[n].tid);
    var d := Domain(s, r);
    forall k | 0 <= k < |s.pools[d]| ensures WasUsed(perHost, threads, moves, s.pools[d][k], n) {
      TouchedUsed(perHost, threads, moves, s.pools[d][k], n);
    }
  }

  /** In any run a request has been turned away exactly if some move found it at a full queue; by then every
      connection of its domain had been in use. */
  lemma TurnedAway(perHost: nat, threads: nat, moves: seq<Move>, s: State, r: nat)
    requires Reached(perHost, threads, moves, s)
    ensures Settlement(r, QueueFull) in s.settled <==> exists n :: 0 <= n < |moves| && FullAt(perHost, threads, moves, r, n)
    ensures forall n :: 0 <= n < |moves| && FullAt(perHost, threads, moves, r, n) ==> Exhausted(perHost, threads, moves, r, n)
  {
    hide Step, FullAt, Exhausted;
    assert moves[..|moves|] == moves;
    if Settlement(r, QueueFull) in s.settled {
      var k :| 0 <= k < |s.settled| && s.settled[k] == Settlement(r, QueueFull);
      FullFound(perHost, threads, moves, |moves|, k);
    }
    forall n | 0 <= n < |moves| && FullAt(perHost, threads, moves, r, n)
      ensures Exhausted(perHost, threads, moves, r, n) && Settlement(r, QueueFull) in s.settled
    {
      FullStays(perHost, threads, moves, r, n);
      FullExhausted(perHost, threads, moves, r, n);
    }
  }
}

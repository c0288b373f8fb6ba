/** What every run of the client keeps: exclusive connections, one place per request, no lost slot, no missing transport. */
module ClientTheorems {
  import opened ClientMachine
  import opened Options

  lemma BeginInv(s: State, i: nat, c: Choice)
    requires Inv(s) && i < |s.pcs| && s.pcs[i].Rest?
    ensures Inv(Begin(s, i, c))
  {
    hide Inv, ConnOk, RequestOk, QueueOk, PoolOk;
    ThreadIs(s, i);
    match c
    case Submit(d) => SubmitInv(s, i, d);
    case Arrive(k, reason) => FinishInv(s, i, k, reason);
    case Connected(k) =>
      if k < |s.conns| {
        FlagInv(s, k, true, false);
        MoveInv(Flagged(s, k, true, false), i, ConnPop(k));
      }
    case Lost(k) =>
      if k < |s.conns| {
        FlagInv(s, k, false, false);
      }
    case Shutdown => StopInv(s);
    case _ =>
  }

  lemma StopInv(s: State)
    requires Inv(s)
    ensures Inv(s.(stopping := true))
  {
    var s' := s.(stopping := true);
    forall j | 0 <= j < |s'.pcs| ensures ThreadOk(s', j) {
      assert ThreadOk(s, j);
    }
    forall k | 0 <= k < |s'.conns| ensures ConnOk(s', k) {
      assert ConnOk(s, k);
    }
    forall r | 0 <= r < |s'.loc| ensures RequestOk(s', r) {
      assert RequestOk(s, r);
    }
    forall d | d in s'.queues ensures QueueOk(s', d) {
      assert QueueOk(s, d);
    }
  }

  lemma DoRequestInv(s: State, i: nat, c: Choice)
    requires Inv(s) && i < |s.pcs| && !s.crashed
    requires s.pcs[i].Open? || s.pcs[i].Seek? || s.pcs[i].Won? || s.pcs[i].Overflow?
    ensures Inv(Step(s, i, c))
  {
    hide Inv, ConnOk, RequestOk, QueueOk, PoolOk;
    ThreadIs(s, i);
    match s.pcs[i]
    case Open(r) =>
      OpenPoolInv(s, Domain(s, r));
      MoveInv(OpenPool(s, Domain(s, r)), i, Seek(r, 0));
    case Seek(r, n) => SeekInv(s, i, r, n);
    case Won(r, k) =>
      FlagInv(s, k, s.conns[k].connected, true);
      var s1 := Flagged(s, k, s.conns[k].connected, true);
      if s.conns[k].connected {
        PerformInv(s1, i, k, r, Rest);
      } else {
        DeferInv(s1, i, k, r);
      }
    case Overflow(r) =>
      if s.lock.None? {
        EnqueueInv(s, i, r);
      }
  }

  lemma SeekInv(s: State, i: nat, r: nat, n: nat)
    requires Inv(s) && i < |s.pcs| && s.pcs[i] == Seek(r, n) && !s.crashed
    ensures Inv(Step(s, i, Go))
  {
    hide Inv, ConnOk, RequestOk, QueueOk;
    ThreadIs(s, i);
    var d := Domain(s, r);
    var pool := PoolAt(s, d);
    if n >= |pool| {
      MoveInv(s, i, Overflow(r));
    } else {
      PoolIs(s, d);
      var c := pool[n];
      if s.conns[c].used {
        MoveInv(s, i, Seek(r, n + 1));
      } else {
        TakeInv(s, i, c, Won(r, c));
      }
    }
  }

  lemma DrainInv(s: State, i: nat, c: Choice)
    requires Inv(s) && i < |s.pcs| && !s.crashed
    requires s.pcs[i].Freed? || s.pcs[i].DrainLock? || s.pcs[i].DrainOpen? || s.pcs[i].DrainSeek? || s.pcs[i].DrainWon? || s.pcs[i].DrainLoad?
    ensures Inv(Step(s, i, c))
  {
    hide Inv, ConnOk, RequestOk, QueueOk, PoolOk;
    ThreadIs(s, i);
    match s.pcs[i]
    case Freed(k) => ReleaseInv(s, i, k, DrainLock);
    case DrainLock =>
      if s.stopping {
        MoveInv(s, i, Rest);
      } else if s.lock.None? && c.Order? && Lists(s, c.ds) {
        LockInv(s, i, c.ds);
      }
    case DrainOpen(ds) =>
      if ds == [] {
        UnlockInv(s, i);
      } else {
        OpenPoolInv(s, ds[0]);
        MoveInv(OpenPool(s, ds[0]), i, DrainSeek(ds, 0));
      }
    case DrainSeek(ds, n) => DrainSeekInv(s, i, ds, n);
    case DrainWon(ds, k) =>
      if QueueOf(s, ds[0]) == [] {
        ReleaseInv(s, i, k, DrainOpen(ds[1..]));
      } else {
        DequeueInv(s, i, ds, k);
      }
    case DrainLoad(ds, k, r) => PerformInv(s, i, k, r, DrainOpen(ds));
  }

  lemma DrainSeekInv(s: State, i: nat, ds: seq<nat>, n: nat)
    requires Inv(s) && i < |s.pcs| && s.pcs[i] == DrainSeek(ds, n) && !s.crashed
    ensures Inv(Step(s, i, Go))
  {
    hide Inv, ConnOk, RequestOk, QueueOk;
    ThreadIs(s, i);
    var pool := PoolAt(s, ds[0]);
    if n >= |pool| {
      MoveInv(s, i, DrainOpen(ds[1..]));
    } else {
      PoolIs(s, ds[0]);
      var c := pool[n];
      if s.conns[c].used {
        MoveInv(s, i, DrainSeek(ds, n + 1));
      } else {
        TakeInv(s, i, c, DrainWon(ds, c));
      }
    }
  }

  lemma ConnDrainInv(s: State, i: nat, c: Choice)
    requires Inv(s) && i < |s.pcs| && !s.crashed && (s.pcs[i].ConnPop? || s.pcs[i].ConnLoad?)
    ensures Inv(Step(s, i, c))
  {
    hide Inv, ConnOk, RequestOk, QueueOk, PoolOk;
    ThreadIs(s, i);
    match s.pcs[i]
    case ConnPop(k) =>
      if s.conns[k].queue == [] {
        MoveInv(s, i, Rest);
      } else {
        PopConnInv(s, i, k);
      }
    case ConnLoad(k, r) => PerformInv(s, i, k, r, ConnPop(k));
  }

  lemma StepInv(s: State, i: nat, c: Choice)
    requires Inv(s) && i < |s.pcs|
    ensures Inv(Step(s, i, c))
  {
    hide Inv;
    var pc := s.pcs[i];
    if s.crashed {
    } else if pc.Rest? {
      BeginInv(s, i, c);
    } else if pc.Open? || pc.Seek? || pc.Won? || pc.Overflow? {
      DoRequestInv(s, i, c);
    } else if pc.ConnPop? || pc.ConnLoad? {
      ConnDrainInv(s, i, c);
    } else {
      DrainInv(s, i, c);
    }
  }

  // ---------------------------------------------------------------------------------------------
  // Whoever performs a request has a transport
  // ---------------------------------------------------------------------------------------------

  /** Connection `c` has a transport, or is with the `doRequest` that is about to give it one. */
  ghost predicate Touched(s: State, c: nat)
    requires Sized(s)
  {
    c < |s.conns| &&
    (s.conns[c].transport ||
     (s.owner[c].ByThread? && s.owner[c].tid < |s.pcs| && s.pcs[s.owner[c].tid].Won? && s.pcs[s.owner[c].tid].conn == c))
  }

  /** The first `n` connections of domain `d` have been found in use, and so are touched. */
  ghost predicate Passed(s: State, d: nat, n: nat)
    requires Sized(s)
  {
    d in s.pools && forall k :: 0 <= k < n && k < |s.pools[d]| ==> Touched(s, s.pools[d][k])
  }

  ghost predicate ThreadPassed(s: State, i: nat)
    requires Sized(s) && i < |s.pcs|
  {
    match s.pcs[i]
    case Seek(r, n) => Passed(s, Domain(s, r), n)
    case Overflow(r) => Passed(s, Domain(s, r), |PoolAt(s, Domain(s, r))|)
    case _ => true
  }

  /** A domain gets a queue only after all its connections had been in use. */
  ghost predicate Ready(s: State) {
    && Inv(s) && !s.crashed
    && (forall c :: 0 <= c < |s.conns| && s.conns[c].used ==> Touched(s, c))
    && (forall d :: d in s.queues ==> Passed(s, d, |PoolAt(s, d)|))
    && (forall i :: 0 <= i < |s.pcs| ==> ThreadPassed(s, i))
  }

  /** Touched connections stay touched. */
  ghost predicate Keeps(s: State, s': State)
    requires Sized(s) && Sized(s')
  {
    && (forall c :: Touched(s, c) ==> Touched(s', c))
    && (forall d :: d in s.pools ==> d in s'.pools && s'.pools[d] == s.pools[d])
    && |s.loc| <= |s'.loc| && s.domains <= s'.domains
  }

  /** A step that keeps what is touched only has to account for what it adds. */
  lemma KeepsReady(s: State, i: nat, s': State)
    requires Ready(s) && i < |s.pcs| && Inv(s') && Keeps(s, s') && !s'.crashed
    requires |s'.pcs| == |s.pcs| && forall j :: 0 <= j < |s.pcs| && j != i ==> s'.pcs[j] == s.pcs[j]
    requires ThreadPassed(s', i)
    requires forall c :: 0 <= c < |s'.conns| && s'.conns[c].used && !(c < |s.conns| && s.conns[c].used) ==> Touched(s', c)
    requires forall d :: d in s'.queues && d !in s.queues ==> Passed(s', d, |PoolAt(s', d)|)
    ensures Ready(s')
  {
    forall j | 0 <= j < |s'.pcs| ensures ThreadPassed(s', j) {
      if j != i {
        assert ThreadPassed(s, j) && ThreadOk(s, j);
      }
    }
    forall d | d in s'.queues ensures Passed(s', d, |PoolAt(s', d)|) {
      if d in s.queues {
        assert Passed(s, d, |PoolAt(s, d)|);
      }
    }
  }

  /** Outside `doRequest`, a thread that holds a connection holds one with a transport. */
  lemma HeldTransport(s: State, i: nat)
    requires Ready(s) && i < |s.pcs| && HoldOf(s.pcs[i]).Some? && !s.pcs[i].Won?
    ensures HoldOf(s.pcs[i]).value < |s.conns| && s.conns[HoldOf(s.pcs[i]).value].transport
  {
    var c := HoldOf(s.pcs[i]).value;
    assert ThreadOk(s, i) && ConnOk(s, c);
    assert Touched(s, c);
  }

  lemma MoveReady(s: State, i: nat, pc: Pc)
    requires Ready(s) && i < |s.pcs| && !s.pcs[i].Won? && Inv(At(s, i, pc)) && Sized(s)
    requires ThreadPassed(At(s, i, pc), i)
    ensures Ready(At(s, i, pc))
  {
    hide Inv;
    KeepsReady(s, i, At(s, i, pc));
  }

  lemma TakeReady(s: State, i: nat, c: nat, won: Pc)
    requires Ready(s) && i < |s.pcs| && c < |s.conns| && !s.conns[c].used && !s.pcs[i].Won? && Inv(Take(s, i, c, won, won))
    requires (won.Won? && won.conn == c) || (won.DrainWon? && s.conns[c].transport)
    ensures Ready(Take(s, i, c, won, won))
  {
    hide Inv;
    var s' := Take(s, i, c, won, won);
    SizedIs(s);
    SizedIs(s');
    KeepsReady(s, i, s');
  }

  /** Thread `i` goes on at `next` while connection `c`, which has a transport, changes hands or use. */
  lemma HandedReady(s: State, i: nat, c: nat, next: Pc, s': State, used: bool, entry: Option<nat>, queue: seq<nat>, owner: Owner)
    requires Ready(s) && i < |s.pcs| && c < |s.conns| && Sized(s) && s.conns[c].transport && !s.pcs[i].Won? && Inv(s')
    requires s' == At(s, i, next).(conns := s.conns[c := s.conns[c].(used := used, entry := entry, queue := queue)],
                                   owner := Put(s.owner, c, owner), loc := s'.loc, settled := s'.settled)
    requires |s.loc| == |s'.loc| && !next.Seek? && !next.Overflow?
    ensures Ready(s')
  {
    hide Inv;
    SizedIs(s');
    KeepsReady(s, i, s');
  }

  lemma OpenReady(s: State, d: nat)
    requires Ready(s)
    ensures Ready(OpenPool(s, d)) && d in OpenPool(s, d).pools
  {
    hide Inv;
    OpenPoolInv(s, d);
    var s' := OpenPool(s, d);
    SizedIs(s);
    SizedIs(s');
    forall i | 0 <= i < |s'.pcs| ensures ThreadPassed(s', i) {
      OpenPassed(s, d, i);
    }
    forall e | e in s'.queues ensures Passed(s', e, |PoolAt(s', e)|) {
      assert Passed(s, e, |PoolAt(s, e)|);
    }
  }

  lemma OpenPassed(s: State, d: nat, i: nat)
    requires Ready(s) && Sized(s) && Sized(OpenPool(s, d)) && i < |s.pcs|
    ensures ThreadPassed(OpenPool(s, d), i)
  {
    hide Inv;
    assert ThreadPassed(s, i);
  }

  lemma FlagReady(s: State, i: nat, c: nat, connected: bool, transport: bool)
    requires Ready(s) && i < |s.pcs| && c < |s.conns|
    ensures Ready(Flagged(s, c, connected, transport))
  {
    hide Inv;
    FlagInv(s, c, connected, transport);
    var s' := Flagged(s, c, connected, transport);
    SizedIs(s);
    SizedIs(s');
    assert ThreadPassed(s, i);
    KeepsReady(s, i, s');
  }

  lemma ReadyBegin(s: State, i: nat, c: Choice)
    requires Ready(s) && i < |s.pcs| && s.pcs[i].Rest?
    ensures Ready(Begin(s, i, c))
  {
    hide Inv, Touched;
    BeginInv(s, i, c);
    SizedIs(s);
    var s' := Begin(s, i, c);
    SizedIs(s');
    match c
    case Submit(d) => SubmitReady(s, i, d);
    case Arrive(k, reason) =>
      if k < |s.conns| && s.conns[k].entry.Some? {
        ArriveReady(s, i, k, reason);
      }
    case Connected(k) =>
      if k < |s.conns| {
        FlagReady(s, i, k, true, false);
        MoveReady(Flagged(s, k, true, false), i, ConnPop(k));
      }
    case Lost(k) =>
      if k < |s.conns| {
        FlagReady(s, i, k, false, false);
      }
    case _ => KeepsStill(s, i, s');
  }

  lemma SubmitReady(s: State, i: nat, d: nat)
    requires Ready(s) && i < |s.pcs| && s.pcs[i].Rest? && Inv(Begin(s, i, Submit(d)))
    ensures Ready(Begin(s, i, Submit(d)))
  {
    hide Inv;
    var s' := Begin(s, i, Submit(d));
    SizedIs(s);
    SizedIs(s');
    KeepsReady(s, i, s');
  }

  lemma ArriveReady(s: State, i: nat, k: nat, reason: Reason)
    requires Ready(s) && i < |s.pcs| && s.pcs[i].Rest? && Inv(Finish(s, i, k, reason))
    requires k < |s.conns| && s.conns[k].entry.Some?
    ensures Ready(Finish(s, i, k, reason))
  {
    hide Inv;
    var s' := Finish(s, i, k, reason);
    ConnIs(s, k);
    assert Touched(s, k);
    HandedReady(s, i, k, Freed(k), s', true, None, s.conns[k].queue, ByThread(i));
  }

  /** Nothing that `Ready` speaks of has changed. */
  lemma KeepsStill(s: State, i: nat, s': State)
    requires Ready(s) && Inv(s') && i < |s.pcs| && s' == s.(lock := s'.lock, stopping := s'.stopping, pcs := s'.pcs)
    requires |s'.pcs| == |s.pcs| && (forall j :: 0 <= j < |s.pcs| && j != i ==> s'.pcs[j] == s.pcs[j])
    requires s'.pcs[i] == s.pcs[i] || (!s.pcs[i].Won? && !s'.pcs[i].Seek? && !s'.pcs[i].Overflow?)
    ensures Ready(s')
  {
    hide Inv;
    SizedIs(s);
    SizedIs(s');
    assert ThreadPassed(s, i);
    KeepsReady(s, i, s');
  }

  lemma ReadyOpen(s: State, i: nat, c: Choice, r: nat)
    requires Ready(s) && i < |s.pcs| && s.pcs[i] == Open(r)
    ensures Ready(Step(s, i, c))
  {
    hide Inv, Touched;
    DoRequestInv(s, i, c);
    OpenReady(s, Domain(s, r));
    var s1 := OpenPool(s, Domain(s, r));
    SizedIs(s1);
    MoveReady(s1, i, Seek(r, 0));
  }

  lemma ReadyWon(s: State, i: nat, c: Choice, r: nat, k: nat)
    requires Ready(s) && i < |s.pcs| && s.pcs[i] == Won(r, k)
    ensures Ready(Step(s, i, c))
  {
    hide Inv;
    DoRequestInv(s, i, c);
    ThreadIs(s, i);
    ConnIs(s, k);
    var s' := Step(s, i, c);
    SizedIs(s');
    assert s'.conns[k].transport;
    forall x: nat | Touched(s, x) ensures Touched(s', x) {
      assert x != k ==> s'.conns[x] == s.conns[x] && s'.owner[x] == s.owner[x];
    }
    WonKeeps(s, i, s', r, k);
  }

  lemma WonKeeps(s: State, i: nat, s': State, r: nat, k: nat)
    requires Ready(s) && i < |s.pcs| && s.pcs[i] == Won(r, k) && Inv(s') && Sized(s) && Sized(s') && k < |s.conns|
    requires s' == s.(conns := s'.conns, owner := s'.owner, pcs := s'.pcs, loc := s'.loc)
    requires |s'.pcs| == |s.pcs| && (forall j :: 0 <= j < |s.pcs| && j != i ==> s'.pcs[j] == s.pcs[j]) && s'.pcs[i] == Rest
    requires |s'.conns| == |s.conns| && s'.conns[k].transport && (forall x :: 0 <= x < |s.conns| && x != k ==> s'.conns[x] == s.conns[x])
    requires (forall x: nat :: Touched(s, x) ==> Touched(s', x)) && |s.loc| == |s'.loc|
    ensures Ready(s')
  {
    hide Inv;
    KeepsReady(s, i, s');
  }

  lemma ReadySeek(s: State, i: nat, c: Choice, r: nat, n: nat)
    requires Ready(s) && i < |s.pcs| && s.pcs[i] == Seek(r, n)
    ensures Ready(Step(s, i, c))
  {
    hide Inv;
    SizedIs(s);
    assert ThreadPassed(s, i);
    var d := Domain(s, r);
    PoolIs(s, d);
    DoRequestInv(s, i, c);
    if n >= |s.pools[d]| {
      MoveReady(s, i, Overflow(r));
    } else if s.conns[s.pools[d][n]].used {
      MoveReady(s, i, Seek(r, n + 1));
    } else {
      TakeReady(s, i, s.pools[d][n], Won(r, s.pools[d][n]));
    }
  }

  lemma ReadyOverflow(s: State, i: nat, c: Choice, r: nat)
    requires Ready(s) && i < |s.pcs| && s.pcs[i] == Overflow(r)
    ensures Ready(Step(s, i, c))
  {
    hide Inv;
    DoRequestInv(s, i, c);
    SizedIs(s);
    if s.lock.None? {
      OverflowReady(s, i, r);
    }
  }

  lemma OverflowReady(s: State, i: nat, r: nat)
    requires Ready(s) && i < |s.pcs| && s.pcs[i] == Overflow(r) && Inv(Enqueue(s, i, r))
    ensures Ready(Enqueue(s, i, r))
  {
    hide Inv;
    var s' := Enqueue(s, i, r);
    SizedIs(s);
    SizedIs(s');
    assert ThreadPassed(s, i);
    KeepsReady(s, i, s');
  }

  lemma ReadyDrain(s: State, i: nat, c: Choice)
    requires Ready(s) && i < |s.pcs| && (s.pcs[i].Freed? || s.pcs[i].DrainLock? || s.pcs[i].DrainOpen?)
    ensures Ready(Step(s, i, c))
  {
    hide Inv, Touched;
    DrainInv(s, i, c);
    SizedIs(s);
    match s.pcs[i]
    case Freed(k) =>
      HeldTransport(s, i);
      HandedReady(s, i, k, DrainLock, Step(s, i, c), false, s.conns[k].entry, s.conns[k].queue, Free);
    case DrainLock => KeepsStill(s, i, Step(s, i, c));
    case DrainOpen(ds) =>
      if ds == [] {
        KeepsStill(s, i, Step(s, i, c));
      } else {
        OpenReady(s, ds[0]);
        SizedIs(OpenPool(s, ds[0]));
        MoveReady(OpenPool(s, ds[0]), i, DrainSeek(ds, 0));
      }
  }

  lemma ReadyDrainWon(s: State, i: nat, c: Choice, ds: seq<nat>, k: nat)
    requires Ready(s) && i < |s.pcs| && s.pcs[i] == DrainWon(ds, k)
    ensures Ready(Step(s, i, c))
  {
    hide Inv, Touched;
    DrainInv(s, i, c);
    ThreadIs(s, i);
    HeldTransport(s, i);
    if QueueOf(s, ds[0]) == [] {
      HandedReady(s, i, k, DrainOpen(ds[1..]), Step(s, i, c), false, s.conns[k].entry, s.conns[k].queue, Free);
    } else {
      DequeueReady(s, i, ds, k);
    }
  }

  lemma DequeueReady(s: State, i: nat, ds: seq<nat>, k: nat)
    requires Ready(s) && i < |s.pcs| && s.pcs[i] == DrainWon(ds, k) && ds != [] && QueueOf(s, ds[0]) != []
    requires Inv(Dequeue(s, i, ds, k))
    ensures Ready(Dequeue(s, i, ds, k))
  {
    hide Inv;
    var s' := Dequeue(s, i, ds, k);
    SizedIs(s);
    SizedIs(s');
    KeepsReady(s, i, s');
  }

  lemma ReadyDrainLoad(s: State, i: nat, c: Choice, ds: seq<nat>, k: nat, r: nat)
    requires Ready(s) && i < |s.pcs| && s.pcs[i] == DrainLoad(ds, k, r)
    ensures Ready(Step(s, i, c))
  {
    hide Inv, Touched;
    DrainInv(s, i, c);
    SizedIs(s);
    HeldTransport(s, i);
    LoadReady(s, i, k, r, DrainOpen(ds), Step(s, i, c));
  }

  /** A request is performed on a connection with a transport. */
  lemma LoadReady(s: State, i: nat, k: nat, r: nat, next: Pc, s': State)
    requires Ready(s) && i < |s.pcs| && !s.pcs[i].Won? && k < |s.conns| && s.conns[k].transport
    requires s' == Perform(s, i, k, r, next) && Inv(s') && (next.DrainOpen? || next.ConnPop?)
    ensures Ready(s')
  {
    hide Inv, Touched;
    SizedIs(s);
    HandedReady(s, i, k, next, s', s.conns[k].used, Some(r), s.conns[k].queue, ByRequest(r));
  }

  lemma ReadyDrainSeek(s: State, i: nat, c: Choice, ds: seq<nat>, n: nat)
    requires Ready(s) && i < |s.pcs| && s.pcs[i] == DrainSeek(ds, n)
    ensures Ready(Step(s, i, c))
  {
    hide Inv, Ready, Touched, ThreadPassed;
    DrainSeekAt(s, i, ds, n);
    DrainInv(s, i, c);
    var d := ds[0];
    if n >= |s.pools[d]| {
      MoveReady(s, i, DrainOpen(ds[1..]));
    } else if s.conns[s.pools[d][n]].used {
      MoveReady(s, i, DrainSeek(ds, n + 1));
    } else {
      var k := s.pools[d][n];
      IdleTransport(s, k);
      TakeReady(s, i, k, DrainWon(ds, k));
    }
  }

  /** A draining thread looks only at connections that have been in use. */
  lemma DrainSeekAt(s: State, i: nat, ds: seq<nat>, n: nat)
    requires Ready(s) && i < |s.pcs| && s.pcs[i] == DrainSeek(ds, n)
    ensures Inv(s) && Sized(s) && !s.crashed && ds != [] && ds[0] in s.pools
    ensures n < |s.pools[ds[0]]| ==> s.pools[ds[0]][n] < |s.conns| && Touched(s, s.pools[ds[0]][n])
    ensures ThreadPassed(At(s, i, DrainOpen(ds[1..])), i) && ThreadPassed(At(s, i, DrainSeek(ds, n + 1)), i)
  {
    hide Inv, ConnOk, Touched;
    ThreadIs(s, i);
    assert ds[0] in s.queues && Passed(s, ds[0], |PoolAt(s, ds[0])|);
    PoolIs(s, ds[0]);
  }

  /** A connection that has been in use and is idle has a transport. */
  lemma IdleTransport(s: State, k: nat)
    requires Inv(s) && Sized(s) && Touched(s, k) && !s.conns[k].used
    ensures s.conns[k].transport
  {
    ConnIs(s, k);
  }

  lemma ReadyConnDrain(s: State, i: nat, c: Choice)
    requires Ready(s) && i < |s.pcs| && (s.pcs[i].ConnPop? || s.pcs[i].ConnLoad?)
    ensures Ready(Step(s, i, c))
  {
    hide Inv, Touched;
    ConnDrainInv(s, i, c);
    ThreadIs(s, i);
    match s.pcs[i]
    case ConnPop(k) =>
      if s.conns[k].queue == [] {
        MoveReady(s, i, Rest);
      } else {
        ConnIs(s, k);
        HandedReady(s, i, k, ConnLoad(k, s.conns[k].queue[0]), Step(s, i, c), s.conns[k].used, s.conns[k].entry,
                    s.conns[k].queue[1..], ByThread(i));
      }
    case ConnLoad(k, r) => LoadReady(s, i, k, r, ConnPop(k), Step(s, i, c));
  }

  lemma ReadyStep(s: State, i: nat, c: Choice)
    requires Ready(s) && i < |s.pcs|
    ensures Ready(Step(s, i, c))
  {
    hide Inv;
    match s.pcs[i]
    case Rest => ReadyBegin(s, i, c);
    case Open(r) => ReadyOpen(s, i, c, r);
    case Won(r, k) => ReadyWon(s, i, c, r, k);
    case Seek(r, n) => ReadySeek(s, i, c, r, n);
    case Overflow(r) => ReadyOverflow(s, i, c, r);
    case DrainSeek(ds, n) => ReadyDrainSeek(s, i, c, ds, n);
    case DrainWon(ds, k) => ReadyDrainWon(s, i, c, ds, k);
    case DrainLoad(ds, k, r) => ReadyDrainLoad(s, i, c, ds, k, r);
    case ConnPop(_) => ReadyConnDrain(s, i, c);
    case ConnLoad(_, _) => ReadyConnDrain(s, i, c);
    case _ => ReadyDrain(s, i, c);
  }

  // ---------------------------------------------------------------------------------------------
  // Runs
  // ---------------------------------------------------------------------------------------------

  datatype Move = Move(tid: nat, choice: Choice)

  function Execute(s: State, moves: seq<Move>): (r: State)
    requires forall m :: m in moves ==> m.tid < |s.pcs|
    ensures |r.pcs| == |s.pcs|
    decreases moves
  {
    if moves == [] then s else Execute(Step(s, moves[0].tid, moves[0].choice), moves[1..])
  }

  ghost predicate Reached(perHost: nat, threads: nat, moves: seq<Move>, s: State) {
    (forall m :: m in moves ==> m.tid < threads) && s == Execute(Init(perHost, threads), moves)
  }

  lemma {:induction false} RunReady(s: State, moves: seq<Move>)
    requires Ready(s) && forall m :: m in moves ==> m.tid < |s.pcs|
    ensures Ready(Execute(s, moves))
    decreases moves
  {
    if moves != [] {
      ReadyStep(s, moves[0].tid, moves[0].choice);
      RunReady(Step(s, moves[0].tid, moves[0].choice), moves[1..]);
    }
  }

  lemma ReachedReady(perHost: nat, threads: nat, moves: seq<Move>, s: State)
    requires Reached(perHost, threads, moves, s)
    ensures Ready(s)
  {
    InitInv(perHost, threads);
    RunReady(Init(perHost, threads), moves);
  }

  /** `performImpl` never meets a connection without a transport, although only `doRequest` ever gives one. */
  lemma NeverCrashes(perHost: nat, threads: nat, moves: seq<Move>, s: State)
    requires Reached(perHost, threads, moves, s)
    ensures !s.crashed
  {
    ReachedReady(perHost, threads, moves, s);
  }

  /** An idle connection holds no request; a used one at most one, queue and slot together. */
  lemma AtMostOne(perHost: nat, threads: nat, moves: seq<Move>, s: State, c: nat)
    requires Reached(perHost, threads, moves, s) && c < |s.conns|
    ensures !s.conns[c].used ==> s.conns[c].entry.None? && s.conns[c].queue == []
    ensures |s.conns[c].queue| + (if s.conns[c].entry.Some? then 1 else 0) <= 1
  {
    ReachedReady(perHost, threads, moves, s);
    assert ConnOk(s, c);
  }

  /** A connection is with one thread at a time, and whoever writes a request entry finds it empty,
      on a connection of the request's own domain. */
  lemma ExclusiveUse(perHost: nat, threads: nat, moves: seq<Move>, s: State, i: nat, j: nat)
    requires Reached(perHost, threads, moves, s) && i < |s.pcs| && j < |s.pcs| && HoldOf(s.pcs[i]).Some?
    ensures HoldOf(s.pcs[j]) == HoldOf(s.pcs[i]) ==> i == j
    ensures var c := HoldOf(s.pcs[i]).value;
            && c < |s.conns| && s.conns[c].used && s.conns[c].entry.None? && s.conns[c].queue == []
            && (HandOf(s.pcs[i]).Some? ==> Domain(s, HandOf(s.pcs[i]).value) == s.conns[c].domain)
  {
    ReachedReady(perHost, threads, moves, s);
    assert ThreadOk(s, i) && ThreadOk(s, j);
    assert ConnOk(s, HoldOf(s.pcs[i]).value);
  }

  /** Where a request can be. */
  ghost predicate IsAt(s: State, r: nat, where: Loc) {
    match where
    case Hand(i) => i < |s.pcs| && HandOf(s.pcs[i]) == Some(r)
    case InQueue(d) => r in QueueOf(s, d)
    case InConn(c) => c < |s.conns| && r in s.conns[c].queue
    case InEntry(c) => c < |s.conns| && s.conns[c].entry == Some(r)
    case Settled => exists k :: 0 <= k < |s.settled| && s.settled[k].req == r
  }

  /** Every submitted request is in exactly one place. */
  lemma OnePlace(perHost: nat, threads: nat, moves: seq<Move>, s: State, r: nat, where: Loc)
    requires Reached(perHost, threads, moves, s) && r < |s.loc|
    ensures IsAt(s, r, where) <==> where == s.loc[r]
  {
    ReachedReady(perHost, threads, moves, s);
    assert RequestOk(s, r);
    match where
    case Hand(i) =>
      if i < |s.pcs| { assert ThreadOk(s, i); }
    case InQueue(d) =>
      if d in s.queues { assert QueueOk(s, d); }
    case InConn(c) =>
      if c < |s.conns| { assert ConnOk(s, c); }
      if s.loc[r].InConn? { assert ConnOk(s, s.loc[r].conn); }
    case InEntry(c) =>
      if c < |s.conns| { assert ConnOk(s, c); }
    case Settled =>
  }

  /** It is there once: queues and the record of settlements have no repetitions, and queues keep to their capacity. */
  lemma NoDuplicates(perHost: nat, threads: nat, moves: seq<Move>, s: State, d: nat, j: nat, k: nat)
    requires Reached(perHost, threads, moves, s) && j < k
    ensures |QueueOf(s, d)| <= CAPACITY
    ensures k < |QueueOf(s, d)| ==> QueueOf(s, d)[j] != QueueOf(s, d)[k]
    ensures k < |s.settled| ==> s.settled[j].req != s.settled[k].req
  {
    ReachedReady(perHost, threads, moves, s);
    if d in s.queues {
      assert QueueOk(s, d);
    }
  }

  /** What is settled stays settled, in the same way, and no submitted request is forgotten. */
  lemma {:induction false} Final(s: State, moves: seq<Move>)
    requires forall m :: m in moves ==> m.tid < |s.pcs|
    ensures s.settled <= Execute(s, moves).settled && |s.loc| <= |Execute(s, moves).loc|
    decreases moves
  {
    if moves != [] {
      StepFinal(s, moves[0].tid, moves[0].choice);
      Final(Step(s, moves[0].tid, moves[0].choice), moves[1..]);
    }
  }

  /** `s'` comes later than `s`. */
  ghost predicate Later(s: State, s': State) {
    s.settled <= s'.settled && |s.loc| <= |s'.loc|
  }

  lemma StepFinal(s: State, i: nat, c: Choice)
    requires i < |s.pcs|
    ensures Later(s, Step(s, i, c))
  {
    var pc := s.pcs[i];
    if s.crashed {
    } else if pc.Rest? {
      assert Later(s, Begin(s, i, c));
    } else if pc.Open? || pc.Seek? || pc.Won? || pc.Overflow? {
      DoRequestFinal(s, i, c);
    } else if pc.ConnPop? || pc.ConnLoad? {
      assert Later(s, Step(s, i, c));
    } else {
      DrainFinal(s, i, c);
    }
  }

  lemma DoRequestFinal(s: State, i: nat, c: Choice)
    requires i < |s.pcs| && (s.pcs[i].Open? || s.pcs[i].Seek? || s.pcs[i].Won? || s.pcs[i].Overflow?)
    ensures Later(s, Step(s, i, c))
  {
  }

  lemma DrainFinal(s: State, i: nat, c: Choice)
    requires i < |s.pcs|
    requires s.pcs[i].Freed? || s.pcs[i].DrainLock? || s.pcs[i].DrainOpen? || s.pcs[i].DrainSeek? || s.pcs[i].DrainWon? || s.pcs[i].DrainLoad?
    ensures Later(s, Step(s, i, c))
  {
  }
}

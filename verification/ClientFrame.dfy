/** What a step of one thread of the client leaves as it is. */
module ClientFrame {
  import opened ClientMachine
  import opened ClientTheorems
  import opened Options

  /** What a step of thread `i` leaves as it is, wherever the thread stands. */
  ghost predicate Apart(s: State, t: State, i: nat)
    requires i < |s.pcs|
  {
    && |t.pcs| == |s.pcs| && (forall j :: 0 <= j < |s.pcs| && j != i ==> t.pcs[j] == s.pcs[j])
    && s.domains <= t.domains && |s.conns| <= |t.conns| && t.perHost == s.perHost
    && (forall d :: d in s.pools ==> d in t.pools && t.pools[d] == s.pools[d])
    && (s.pcs[i].Open? || s.pcs[i].DrainOpen? || t.pools == s.pools)
    && (s.pcs[i].Overflow? || s.pcs[i].DrainWon? || t.queues == s.queues)
    && (s.pcs[i].Rest? || s.pcs[i].Overflow? || t.settled == s.settled)
    && (s.pcs[i].Rest? || (t.stopping == s.stopping && t.domains == s.domains))
  }

  /** What it does to no connection but the one that the thread deals with. */
  ghost predicate Around(s: State, t: State, i: nat)
    requires i < |s.pcs|
  {
    && |s.conns| <= |t.conns|
    && (forall c :: 0 <= c < |s.conns| && t.conns[c].used && !s.conns[c].used ==> s.pcs[i].Seek? || s.pcs[i].DrainSeek?)
    && (forall c :: 0 <= c < |s.conns| && s.conns[c].used && !t.conns[c].used ==>
          HoldOf(s.pcs[i]) == Some(c) && (s.pcs[i].Freed? || s.pcs[i].DrainWon?))
    && (s.pcs[i].Rest? || forall c :: 0 <= c < |s.conns| ==> t.conns[c].connected == s.conns[c].connected)
    && (forall c :: |s.conns| <= c < |t.conns| ==> !t.conns[c].connected)
  }

  /** Where a thread goes on that is not scanning a pool. */
  predicate Next(pc: Pc, next: Pc) {
    && (next.Seek? ==> next.i == 0) && (next.DrainSeek? ==> next.i == 0)
    && (next.Overflow? ==> next == pc)
    && (next.DrainLoad? ==> next == pc || (pc.DrainWon? && pc.conn == next.conn && pc.ds == next.ds))
    && (pc.DrainLoad? ==> next == DrainOpen(pc.ds))
    && (next.DrainLock? ==> next == pc || pc.Freed?)
  }

  ghost predicate Framed(s: State, t: State, i: nat)
    requires i < |s.pcs|
  {
    Apart(s, t, i) && Around(s, t, i) && (s.pcs[i].Seek? || s.pcs[i].DrainSeek? || Next(s.pcs[i], t.pcs[i]))
  }

  /** Nothing but the thread's place and the lock changes. */
  lemma AtFramed(s: State, i: nat, pc: Pc, lock: Option<nat>)
    requires i < |s.pcs| && (s.pcs[i].Seek? || s.pcs[i].DrainSeek? || Next(s.pcs[i], pc))
    ensures Framed(s, At(s, i, pc).(lock := lock), i)
  {
  }

  lemma StillFramed(s: State, i: nat)
    requires i < |s.pcs| && !s.pcs[i].DrainLoad?
    ensures Framed(s, s, i)
  {
  }

  lemma SubmitFramed(s: State, i: nat, d: nat)
    requires i < |s.pcs| && s.pcs[i].Rest?
    ensures Framed(s, Begin(s, i, Submit(d)), i)
  {
  }

  lemma FinishFramed(s: State, i: nat, c: nat, reason: Reason)
    requires i < |s.pcs| && s.pcs[i].Rest?
    ensures Framed(s, Finish(s, i, c, reason), i)
  {
  }

  lemma LinkFramed(s: State, i: nat, c: nat, up: bool, pc: Pc)
    requires i < |s.pcs| && s.pcs[i].Rest? && c < |s.conns| && (pc.Rest? || pc.ConnPop?)
    ensures Framed(s, At(s, i, pc).(conns := s.conns[c := s.conns[c].(connected := up)]), i)
  {
  }

  lemma BeginFramed(s: State, i: nat, ch: Choice)
    requires i < |s.pcs| && s.pcs[i].Rest?
    ensures Framed(s, Begin(s, i, ch), i)
  {
    hide Framed, Finish;
    match ch
    case Submit(d) => SubmitFramed(s, i, d);
    case Arrive(c, reason) => FinishFramed(s, i, c, reason);
    case Connected(c) =>
      StillFramed(s, i);
      if c < |s.conns| {
        LinkFramed(s, i, c, true, ConnPop(c));
      }
    case Lost(c) =>
      StillFramed(s, i);
      if c < |s.conns| {
        LinkFramed(s, i, c, false, Rest);
        assert At(s, i, Rest) == s;
      }
    case Shutdown => StopFramed(s, i);
    case _ => StillFramed(s, i);
  }

  lemma StopFramed(s: State, i: nat)
    requires i < |s.pcs| && s.pcs[i].Rest?
    ensures Framed(s, s.(stopping := true), i)
  {
  }

  lemma OpenFramed(s: State, i: nat, d: nat, pc: Pc)
    requires i < |s.pcs| && (s.pcs[i].Open? || s.pcs[i].DrainOpen?) && Next(s.pcs[i], pc)
    ensures Framed(s, At(OpenPool(s, d), i, pc), i)
  {
  }

  /** Connection `c` and its owner change, and the thread's place. */
  lemma HandedFramed(s: State, i: nat, c: nat, conn: Conn, owner: Owner, pc: Pc)
    requires i < |s.pcs| && c < |s.conns| && conn == s.conns[c].(used := conn.used)
    requires s.pcs[i].Seek? || s.pcs[i].DrainSeek? || Next(s.pcs[i], pc)
    requires conn.used ==> s.pcs[i].Seek? || s.pcs[i].DrainSeek?
    requires !conn.used ==> HoldOf(s.pcs[i]) == Some(c) && (s.pcs[i].Freed? || s.pcs[i].DrainWon?)
    ensures Framed(s, At(s, i, pc).(conns := s.conns[c := conn], owner := Put(s.owner, c, owner)), i)
  {
    hide Next, HoldOf;
  }

  lemma TakeFramed(s: State, i: nat, c: nat, won: Pc, lost: Pc)
    requires i < |s.pcs| && (s.pcs[i].Seek? || s.pcs[i].DrainSeek?)
    ensures Framed(s, Take(s, i, c, won, lost), i)
  {
    hide Framed;
    Moved(s, i, lost);
    if c < |s.conns| {
      HandedFramed(s, i, c, s.conns[c].(used := true), ByThread(i), won);
    }
  }

  lemma ReleaseFramed(s: State, i: nat, c: nat, pc: Pc)
    requires i < |s.pcs| && HoldOf(s.pcs[i]) == Some(c) && (s.pcs[i].Freed? || s.pcs[i].DrainWon?) && Next(s.pcs[i], pc)
    ensures Framed(s, Release(s, i, c, pc), i)
  {
    hide Framed;
    Moved(s, i, pc);
    if c < |s.conns| {
      HandedFramed(s, i, c, s.conns[c].(used := false), Free, pc);
    }
  }

  lemma PerformFramed(s: State, i: nat, c: nat, r: nat, pc: Pc)
    requires i < |s.pcs| && c < |s.conns| && Next(s.pcs[i], pc)
    ensures Framed(s, Perform(s, i, c, r, pc), i)
  {
  }

  lemma WonFramed(s: State, i: nat, ch: Choice)
    requires Inv(s) && i < |s.pcs| && !s.crashed && s.pcs[i].Won?
    ensures Framed(s, Step(s, i, ch), i)
  {
    hide ConnOk, RequestOk, QueueOk, PoolOk;
    ThreadIs(s, i);
    var r, k := s.pcs[i].req, s.pcs[i].conn;
    var s1 := s.(conns := s.conns[k := s.conns[k].(transport := true)]);
    if s.conns[k].connected {
      PerformFramed(s1, i, k, r, Rest);
    }
  }

  lemma EnqueueFramed(s: State, i: nat, r: nat)
    requires i < |s.pcs| && s.pcs[i].Overflow?
    ensures Framed(s, Enqueue(s, i, r), i)
  {
  }

  lemma DequeueFramed(s: State, i: nat, ds: seq<nat>, k: nat)
    requires i < |s.pcs| && s.pcs[i] == DrainWon(ds, k) && ds != [] && QueueOf(s, ds[0]) != []
    ensures Framed(s, Dequeue(s, i, ds, k), i)
  {
  }

  lemma PopFramed(s: State, i: nat, k: nat)
    requires i < |s.pcs| && s.pcs[i] == ConnPop(k) && k < |s.conns| && s.conns[k].queue != []
    ensures Framed(s, PopConn(s, i, k), i)
  {
  }

  lemma RequestFramed(s: State, i: nat, ch: Choice)
    requires Inv(s) && i < |s.pcs| && !s.crashed && (s.pcs[i].Open? || s.pcs[i].Seek? || s.pcs[i].Overflow?)
    ensures Framed(s, Step(s, i, ch), i)
  {
    hide Inv, Framed, At, OpenPool, Take, Enqueue;
    match s.pcs[i]
    case Open(r) => OpenFramed(s, i, Domain(s, r), Seek(r, 0));
    case Seek(r, n) =>
      var pool := PoolAt(s, Domain(s, r));
      if n >= |pool| {
        Moved(s, i, Overflow(r));
      } else {
        TakeFramed(s, i, pool[n], Won(r, pool[n]), Seek(r, n + 1));
      }
    case Overflow(r) =>
      EnqueueFramed(s, i, r);
      StillFramed(s, i);
  }

  lemma Moved(s: State, i: nat, pc: Pc)
    requires i < |s.pcs| && (s.pcs[i].Seek? || s.pcs[i].DrainSeek? || Next(s.pcs[i], pc))
    ensures Framed(s, At(s, i, pc), i)
  {
    hide Framed;
    AtFramed(s, i, pc, s.lock);
    assert At(s, i, pc) == At(s, i, pc).(lock := s.lock);
  }

  lemma LockFramed(s: State, i: nat, ch: Choice)
    requires Inv(s) && i < |s.pcs| && !s.crashed && (s.pcs[i].Freed? || s.pcs[i].DrainLock? || s.pcs[i].DrainOpen?)
    ensures Framed(s, Step(s, i, ch), i)
  {
    hide Inv, Framed, At, OpenPool, Release;
    match s.pcs[i]
    case Freed(k) => ReleaseFramed(s, i, k, DrainLock);
    case DrainLock =>
      Moved(s, i, Rest);
      StillFramed(s, i);
      if ch.Order? {
        AtFramed(s, i, DrainOpen(ch.ds), Some(i));
      }
    case DrainOpen(ds) =>
      AtFramed(s, i, Rest, None);
      if ds != [] {
        OpenFramed(s, i, ds[0], DrainSeek(ds, 0));
      }
  }

  lemma ScanFramed(s: State, i: nat, ch: Choice)
    requires Inv(s) && i < |s.pcs| && !s.crashed && (s.pcs[i].DrainSeek? || s.pcs[i].DrainWon? || s.pcs[i].DrainLoad?)
    ensures Framed(s, Step(s, i, ch), i)
  {
    hide Inv, Framed, ConnOk, At, Take, Release, Perform, Dequeue;
    ThreadIs(s, i);
    match s.pcs[i]
    case DrainSeek(ds, n) =>
      var pool := PoolAt(s, ds[0]);
      if n >= |pool| {
        Moved(s, i, DrainOpen(ds[1..]));
      } else {
        TakeFramed(s, i, pool[n], DrainWon(ds, pool[n]), DrainSeek(ds, n + 1));
      }
    case DrainWon(ds, k) =>
      if QueueOf(s, ds[0]) == [] {
        ReleaseFramed(s, i, k, DrainOpen(ds[1..]));
      } else {
        DequeueFramed(s, i, ds, k);
      }
    case DrainLoad(ds, k, r) => PerformFramed(s, i, k, r, DrainOpen(ds));
  }

  lemma ConnFramed(s: State, i: nat, ch: Choice)
    requires Inv(s) && i < |s.pcs| && !s.crashed && (s.pcs[i].ConnPop? || s.pcs[i].ConnLoad?)
    ensures Framed(s, Step(s, i, ch), i)
  {
    hide Inv, Framed, ConnOk, At, Perform, PopConn;
    ThreadIs(s, i);
    match s.pcs[i]
    case ConnPop(k) =>
      if s.conns[k].queue == [] {
        Moved(s, i, Rest);
      } else {
        PopFramed(s, i, k);
      }
    case ConnLoad(k, r) => PerformFramed(s, i, k, r, ConnPop(k));
  }

  lemma StepFramed(s: State, i: nat, ch: Choice)
    requires Inv(s) && i < |s.pcs| && !s.crashed
    ensures Framed(s, Step(s, i, ch), i)
  {
    hide Step, Inv, Framed;
    var pc := s.pcs[i];
    if pc.Rest? {
      BeginFramed(s, i, ch);
      StepBegins(s, i, ch);
    } else if pc.Open? || pc.Seek? || pc.Overflow? {
      RequestFramed(s, i, ch);
    } else if pc.Won? {
      WonFramed(s, i, ch);
    } else if pc.ConnPop? || pc.ConnLoad? {
      ConnFramed(s, i, ch);
    } else if pc.DrainSeek? || pc.DrainWon? || pc.DrainLoad? {
      ScanFramed(s, i, ch);
    } else {
      LockFramed(s, i, ch);
    }
  }

  lemma StepBegins(s: State, i: nat, ch: Choice)
    requires i < |s.pcs| && s.pcs[i].Rest? && !s.crashed
    ensures Step(s, i, ch) == Begin(s, i, ch)
  {
    hide Begin;
  }
}

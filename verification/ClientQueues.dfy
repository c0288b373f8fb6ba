/** What a run of the client does to its queues, its slots and its settlements. */
module ClientQueues {
  import opened ClientMachine
  import opened ClientTheorems
  import opened ClientHistory
  import opened ClientFrame
  import opened ClientRuns
  import opened Options

  // ---------------------------------------------------------------------------------------------
  // Domain queues are first in, first out
  // ---------------------------------------------------------------------------------------------

  /** The request that a move of thread `i` puts into the queue of domain `d`. */
  function JoinedBy(s: State, i: nat, d: nat): seq<nat>
    requires i < |s.pcs|
  {
    if s.pcs[i].Overflow? && Domain(s, s.pcs[i].req) == d && s.lock.None? && |QueueOf(s, d)| < 2048 then [s.pcs[i].req] else []
  }

  /** The request that a thread going from `pc` to `next` has taken out of the queue of domain `d`. */
  function TakenBy(pc: Pc, next: Pc, d: nat): seq<nat> {
    if next.DrainLoad? && next != pc && next.ds != [] && next.ds[0] == d then [next.req] else []
  }

  lemma EnqueueStep(s: State, i: nat, ch: Choice, d: nat)
    requires Inv(s) && !s.crashed && i < |s.pcs| && s.pcs[i].Overflow?
    ensures QueueOf(Step(s, i, ch), d) == QueueOf(s, d) + JoinedBy(s, i, d) && !Step(s, i, ch).pcs[i].DrainLoad?
  {
    hide ConnOk, RequestOk, PoolOk, ThreadOk;
    assert d in s.queues ==> QueueOk(s, d);
  }

  lemma DequeueStep(s: State, i: nat, ch: Choice, d: nat)
    requires Inv(s) && !s.crashed && i < |s.pcs| && s.pcs[i].DrainWon?
    ensures QueueOf(s, d) == TakenBy(s.pcs[i], Step(s, i, ch).pcs[i], d) + QueueOf(Step(s, i, ch), d)
  {
    hide ConnOk, RequestOk, PoolOk, QueueOk;
    ThreadIs(s, i);
  }

  lemma QueueStep(s: State, i: nat, ch: Choice, d: nat)
    requires Inv(s) && !s.crashed && i < |s.pcs|
    ensures QueueOf(s, d) + JoinedBy(s, i, d) == TakenBy(s.pcs[i], Step(s, i, ch).pcs[i], d) + QueueOf(Step(s, i, ch), d)
  {
    hide Step, Inv;
    if s.pcs[i].Overflow? {
      EnqueueStep(s, i, ch, d);
    } else if s.pcs[i].DrainWon? {
      DequeueStep(s, i, ch, d);
    } else {
      StepFramed(s, i, ch);
      NotTaken(s, i, ch, d);
    }
  }

  lemma NotTaken(s: State, i: nat, ch: Choice, d: nat)
    requires Inv(s) && !s.crashed && i < |s.pcs| && !s.pcs[i].DrainWon?
    ensures TakenBy(s.pcs[i], Step(s, i, ch).pcs[i], d) == []
  {
    hide Step, Inv, ConnOk;
    ThreadIs(s, i);
    if s.pcs[i].DrainSeek? {
      ScanNext(s, i, ch);
    } else if s.pcs[i].Seek? {
      SeekNext(s, i, ch);
    } else {
      StepFramed(s, i, ch);
    }
  }

  /** What has been put into the queue of domain `d` by the first `n` moves, in order. */
  ghost function Joined(perHost: nat, threads: nat, moves: seq<Move>, d: nat, n: nat): seq<nat>
    requires Legal(threads, moves) && n <= |moves|
  {
    if n == 0 then []
    else Joined(perHost, threads, moves, d, n - 1) + JoinedBy(Before(perHost, threads, moves, n - 1), moves[n - 1].tid, d)
  }

  /** What has been taken out of it. */
  ghost function Taken(perHost: nat, threads: nat, moves: seq<Move>, d: nat, n: nat): seq<nat>
    requires Legal(threads, moves) && n <= |moves|
  {
    if n == 0 then []
    else
      var i := moves[n - 1].tid;
      Taken(perHost, threads, moves, d, n - 1)
      + TakenBy(Before(perHost, threads, moves, n - 1).pcs[i], Before(perHost, threads, moves, n).pcs[i], d)
  }

  /** In every run, what went into a domain's queue comes out in the same order, and the rest is what the queue holds. */
  lemma {:induction false} FirstInFirstOut(perHost: nat, threads: nat, moves: seq<Move>, d: nat, n: nat)
    requires Legal(threads, moves) && n <= |moves|
    ensures Joined(perHost, threads, moves, d, n)
         == Taken(perHost, threads, moves, d, n) + QueueOf(Before(perHost, threads, moves, n), d)
  {
    hide Step, Ready, Inv, TakenBy, JoinedBy;
    BeforeFirst(perHost, threads, moves);
    if n > 0 {
      FirstInFirstOut(perHost, threads, moves, d, n - 1);
      BeforeNext(perHost, threads, moves, n - 1);
      BeforeReady(perHost, threads, moves, n - 1);
      var s, i := Before(perHost, threads, moves, n - 1), moves[n - 1].tid;
      ReadyInv(s);
      QueueStep(s, i, moves[n - 1].choice, d);
      var was := Taken(perHost, threads, moves, d, n - 1);
      var out := TakenBy(s.pcs[i], Step(s, i, moves[n - 1].choice).pcs[i], d);
      assert (was + QueueOf(s, d)) + JoinedBy(s, i, d) == was + (QueueOf(s, d) + JoinedBy(s, i, d));
      assert was + (out + QueueOf(Step(s, i, moves[n - 1].choice), d)) == (was + out) + QueueOf(Step(s, i, moves[n - 1].choice), d);
    }
  }

  lemma LoadStep(s: State, i: nat, ch: Choice)
    requires Inv(s) && !s.crashed && i < |s.pcs| && s.pcs[i].DrainLoad?
    ensures var t, k := Step(s, i, ch), s.pcs[i].conn;
            && k < |s.conns| && s.conns[k].entry.None? && t.pcs[i] == DrainOpen(s.pcs[i].ds)
            && |t.conns| == |s.conns| && t.conns[k] == s.conns[k].(entry := Some(s.pcs[i].req))
  {
    ThreadIs(s, i);
    ConnIs(s, s.pcs[i].conn);
  }

  lemma TakenStep(s: State, i: nat, ch: Choice, d: nat)
    requires Inv(s) && !s.crashed && i < |s.pcs| && TakenBy(s.pcs[i], Step(s, i, ch).pcs[i], d) != []
    ensures var next := Step(s, i, ch).pcs[i];
            && next.DrainLoad? && next.ds != [] && next.ds[0] == d
            && s.pcs[i] == DrainWon(next.ds, next.conn) && next.conn < |s.conns| && s.conns[next.conn].domain == d
  {
    hide Step, Inv, ConnOk, RequestOk, PoolOk, QueueOk;
    if !s.pcs[i].DrainWon? {
      NotTaken(s, i, ch, d);
    }
    StepFramed(s, i, ch);
    ThreadIs(s, i);
  }

  /** Whoever takes a request out of a domain's queue has a connection of the domain in hand, and the thread's next
      move puts the request into the slot of that connection. */
  lemma TakenToSlot(perHost: nat, threads: nat, moves: seq<Move>, d: nat, n: nat, m: nat)
    requires Legal(threads, moves) && n < m < |moves| && moves[m].tid == moves[n].tid
    requires forall x :: n < x < m ==> moves[x].tid != moves[n].tid
    requires var i := moves[n].tid;
             TakenBy(Before(perHost, threads, moves, n).pcs[i], Before(perHost, threads, moves, n + 1).pcs[i], d) != []
    ensures var s, t, i := Before(perHost, threads, moves, n), Before(perHost, threads, moves, m + 1), moves[n].tid;
            && s.pcs[i].DrainWon? && s.pcs[i].ds != [] && s.pcs[i].ds[0] == d && QueueOf(s, d) != []
            && s.pcs[i].conn < |s.conns| && s.conns[s.pcs[i].conn].domain == d
            && s.pcs[i].conn < |t.conns| && t.conns[s.pcs[i].conn].entry == Some(QueueOf(s, d)[0])
            && t.pcs[i] == DrainOpen(s.pcs[i].ds)
  {
    hide Step, Ready, Inv;
    var s, i := Before(perHost, threads, moves, n), moves[n].tid;
    BeforeNext(perHost, threads, moves, n);
    BeforeReady(perHost, threads, moves, n);
    ReadyInv(s);
    TakenStep(s, i, moves[n].choice, d);
    QueueStep(s, i, moves[n].choice, d);
    assert QueueOf(s, d) + [] == QueueOf(s, d);
    assert QueueOf(s, d)[0] == Step(s, i, moves[n].choice).pcs[i].req;
    Waits(perHost, threads, moves, i, n + 1, m);
    BeforeNext(perHost, threads, moves, m);
    BeforeReady(perHost, threads, moves, m);
    ReadyInv(Before(perHost, threads, moves, m));
    LoadStep(Before(perHost, threads, moves, m), i, moves[m].choice);
  }

  /** A thread stays where it is while the others move. */
  lemma {:induction false} Waits(perHost: nat, threads: nat, moves: seq<Move>, i: nat, n: nat, m: nat)
    requires Legal(threads, moves) && n <= m <= |moves| && i < threads && forall x :: n <= x < m ==> moves[x].tid != i
    ensures Before(perHost, threads, moves, m).pcs[i] == Before(perHost, threads, moves, n).pcs[i]
    decreases m
  {
    hide Step, Ready, Inv;
    if n < m {
      Waits(perHost, threads, moves, i, n, m - 1);
      BeforeNext(perHost, threads, moves, m - 1);
      BeforeReady(perHost, threads, moves, m - 1);
      ReadyInv(Before(perHost, threads, moves, m - 1));
      OthersStand(Before(perHost, threads, moves, m - 1), moves[m - 1].tid, moves[m - 1].choice, i);
    }
  }

  // ---------------------------------------------------------------------------------------------
  // A connection's own queue
  // ---------------------------------------------------------------------------------------------

  lemma PopStep(s: State, i: nat, ch: Choice)
    requires Inv(s) && !s.crashed && i < |s.pcs| && s.pcs[i].ConnPop?
    ensures var t, k := Step(s, i, ch), s.pcs[i].conn;
            && k < |s.conns| && |t.conns| == |s.conns|
            && if s.conns[k].queue == [] then t.pcs[i] == Rest && t.conns == s.conns
               else t.pcs[i] == ConnLoad(k, s.conns[k].queue[0]) && t.conns[k].queue == s.conns[k].queue[1..]
  {
    ThreadIs(s, i);
  }

  lemma ConnLoadStep(s: State, i: nat, ch: Choice)
    requires Inv(s) && !s.crashed && i < |s.pcs| && s.pcs[i].ConnLoad?
    ensures var t, k := Step(s, i, ch), s.pcs[i].conn;
            && k < |s.conns| && |t.conns| == |s.conns| && s.conns[k].entry.None?
            && t.pcs[i] == ConnPop(k) && t.conns[k] == s.conns[k].(entry := Some(s.pcs[i].req))
  {
    ThreadIs(s, i);
    ConnIs(s, s.pcs[i].conn);
  }

  /** A thread with a connection that has just been set up goes on only when the connection's queue is empty; a request
      that it takes out is the oldest, and goes into the connection's slot next. */
  lemma ConnDrained(perHost: nat, threads: nat, moves: seq<Move>, n: nat)
    requires Legal(threads, moves) && n < |moves|
    ensures var s, t := Before(perHost, threads, moves, n), Before(perHost, threads, moves, n + 1);
            var pc, next := s.pcs[moves[n].tid], t.pcs[moves[n].tid];
            && (pc.ConnPop? ==> pc.conn < |s.conns| && pc.conn < |t.conns|)
            && (pc.ConnPop? && s.conns[pc.conn].queue == [] ==> next == Rest)
            && (pc.ConnPop? && s.conns[pc.conn].queue != [] ==>
                  next == ConnLoad(pc.conn, s.conns[pc.conn].queue[0]) && t.conns[pc.conn].queue == s.conns[pc.conn].queue[1..])
            && (pc.ConnLoad? ==> pc.conn < |t.conns| && t.conns[pc.conn].entry == Some(pc.req) && next == ConnPop(pc.conn))
  {
    hide Step, Ready, Inv;
    BeforeNext(perHost, threads, moves, n);
    BeforeReady(perHost, threads, moves, n);
    var s := Before(perHost, threads, moves, n);
    ReadyInv(s);
    if s.pcs[moves[n].tid].ConnPop? {
      PopStep(s, moves[n].tid, moves[n].choice);
    } else if s.pcs[moves[n].tid].ConnLoad? {
      ConnLoadStep(s, moves[n].tid, moves[n].choice);
    }
  }

  // ---------------------------------------------------------------------------------------------
  // What a settlement says has arrived
  // ---------------------------------------------------------------------------------------------

  /** The reactor hands `reason` to a resting thread for the connection in whose slot request `r` is. */
  predicate Arrives(s: State, m: Move, r: nat, reason: Reason) {
    && m.tid < |s.pcs| && s.pcs[m.tid].Rest?
    && m.choice.Arrive? && m.choice.reason == reason
    && m.choice.conn < |s.conns| && s.conns[m.choice.conn].entry == Some(r)
  }

  ghost predicate ArrivesAt(perHost: nat, threads: nat, moves: seq<Move>, r: nat, reason: Reason, n: nat)
    requires Legal(threads, moves) && n < |moves|
  {
    Arrives(Before(perHost, threads, moves, n), moves[n], r, reason)
  }

  lemma BeginSettles(s: State, m: Move, r: nat, reason: Reason)
    requires m.tid < |s.pcs| && s.pcs[m.tid].Rest?
    ensures Settlement(r, reason) in Begin(s, m.tid, m.choice).settled <==> Settlement(r, reason) in s.settled || Arrives(s, m, r, reason)
  {
  }

  lemma OverflowSettles(s: State, i: nat, ch: Choice, r: nat, reason: Arrival)
    requires i < |s.pcs| && s.pcs[i].Overflow?
    ensures Settlement(r, reason) in Step(s, i, ch).settled <==> Settlement(r, reason) in s.settled
  {
  }

  lemma SettleStep(s: State, m: Move, r: nat, reason: Arrival)
    requires Inv(s) && !s.crashed && m.tid < |s.pcs|
    ensures Settlement(r, reason) in Step(s, m.tid, m.choice).settled <==> Settlement(r, reason) in s.settled || Arrives(s, m, r, reason)
  {
    hide Step, Inv;
    if s.pcs[m.tid].Rest? {
      StepBegins(s, m.tid, m.choice);
      BeginSettles(s, m, r, reason);
    } else if s.pcs[m.tid].Overflow? {
      OverflowSettles(s, m.tid, m.choice, r, reason);
    } else {
      StepFramed(s, m.tid, m.choice);
    }
  }

  /** In every run a request is settled with a response, a failure or a timeout exactly if that arrived for the
      connection that held the request in its slot. */
  lemma {:induction false} SettledAsArrived(perHost: nat, threads: nat, moves: seq<Move>, r: nat, reason: Arrival, n: nat)
    requires Legal(threads, moves) && n <= |moves|
    ensures Settlement(r, reason) in Before(perHost, threads, moves, n).settled
       <==> exists m :: 0 <= m < n && ArrivesAt(perHost, threads, moves, r, reason, m)
  {
    hide Step, Ready, Inv, Arrives;
    BeforeFirst(perHost, threads, moves);
    if n > 0 {
      SettledAsArrived(perHost, threads, moves, r, reason, n - 1);
      BeforeNext(perHost, threads, moves, n - 1);
      BeforeReady(perHost, threads, moves, n - 1);
      var s := Before(perHost, threads, moves, n - 1);
      ReadyInv(s);
      SettleStep(s, moves[n - 1], r, reason);
      assert ArrivesAt(perHost, threads, moves, r, reason, n - 1) <==> Arrives(s, moves[n - 1], r, reason);
    }
  }

  // ---------------------------------------------------------------------------------------------
  // Links, and the stop flag
  // ---------------------------------------------------------------------------------------------

  /** What the reactor has last reported of connection `k`. */
  ghost function LastReport(perHost: nat, threads: nat, moves: seq<Move>, k: nat, n: nat): bool
    requires Legal(threads, moves) && n <= |moves|
  {
    if n == 0 then false
    else
      var s, m := Before(perHost, threads, moves, n - 1), moves[n - 1];
      if k < |s.conns| && s.pcs[m.tid].Rest? && m.choice == Connected(k) then true
      else if k < |s.conns| && s.pcs[m.tid].Rest? && m.choice == Lost(k) then false
      else LastReport(perHost, threads, moves, k, n - 1)
  }

  ghost predicate ShutAt(perHost: nat, threads: nat, moves: seq<Move>, n: nat)
    requires Legal(threads, moves) && n < |moves|
  {
    Before(perHost, threads, moves, n).pcs[moves[n].tid].Rest? && moves[n].choice.Shutdown?
  }

  lemma BeginFlags(s: State, i: nat, ch: Choice, k: nat)
    requires i < |s.pcs| && s.pcs[i].Rest?
    ensures var t := Begin(s, i, ch);
            && |t.conns| == |s.conns| && (t.stopping <==> s.stopping || ch.Shutdown?)
            && (k < |s.conns| ==> (t.conns[k].connected <==> if ch == Connected(k) then true else ch != Lost(k) && s.conns[k].connected))
  {
  }

  lemma FlagStep(s: State, i: nat, ch: Choice, k: nat)
    requires Inv(s) && !s.crashed && i < |s.pcs|
    ensures var t := Step(s, i, ch);
            && |s.conns| <= |t.conns|
            && (t.stopping <==> s.stopping || (s.pcs[i].Rest? && ch.Shutdown?))
            && (k < |s.conns| && s.pcs[i].Rest? && ch == Connected(k) ==> t.conns[k].connected)
            && (k < |s.conns| && s.pcs[i].Rest? && ch == Lost(k) ==> !t.conns[k].connected)
            && (k < |s.conns| && !(s.pcs[i].Rest? && (ch == Connected(k) || ch == Lost(k))) ==> t.conns[k].connected == s.conns[k].connected)
            && (|s.conns| <= k < |t.conns| ==> !t.conns[k].connected)
  {
    hide Step, Inv, Begin;
    StepFramed(s, i, ch);
    if s.pcs[i].Rest? {
      StepBegins(s, i, ch);
      BeginFlags(s, i, ch, k);
    }
  }

  /** A connection counts as connected exactly if the last report of it said so. */
  lemma {:induction false} ConnectedAsReported(perHost: nat, threads: nat, moves: seq<Move>, k: nat, n: nat)
    requires Legal(threads, moves) && n <= |moves|
    ensures var s := Before(perHost, threads, moves, n);
            if k < |s.conns| then s.conns[k].connected == LastReport(perHost, threads, moves, k, n)
            else !LastReport(perHost, threads, moves, k, n)
  {
    hide Step, Ready, Inv;
    BeforeFirst(perHost, threads, moves);
    if n > 0 {
      ConnectedAsReported(perHost, threads, moves, k, n - 1);
      BeforeNext(perHost, threads, moves, n - 1);
      BeforeReady(perHost, threads, moves, n - 1);
      ReadyInv(Before(perHost, threads, moves, n - 1));
      FlagStep(Before(perHost, threads, moves, n - 1), moves[n - 1].tid, moves[n - 1].choice, k);
    }
  }

  /** Draining is off exactly from the first shutdown on. */
  lemma {:induction false} StoppedByShutdown(perHost: nat, threads: nat, moves: seq<Move>, n: nat)
    requires Legal(threads, moves) && n <= |moves|
    ensures Before(perHost, threads, moves, n).stopping <==> exists m :: 0 <= m < n && ShutAt(perHost, threads, moves, m)
  {
    hide Step, Ready, Inv;
    BeforeFirst(perHost, threads, moves);
    if n > 0 {
      StoppedByShutdown(perHost, threads, moves, n - 1);
      BeforeNext(perHost, threads, moves, n - 1);
      BeforeReady(perHost, threads, moves, n - 1);
      var s, m := Before(perHost, threads, moves, n - 1), moves[n - 1];
      ReadyInv(s);
      FlagStep(s, m.tid, m.choice, 0);
      assert ShutAt(perHost, threads, moves, n - 1) <==> s.pcs[m.tid].Rest? && m.choice.Shutdown?;
    }
  }
}

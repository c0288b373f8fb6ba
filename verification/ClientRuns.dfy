/** What a run of the client does to its queues, its slots and its flags, told from where the threads stood.

  Nothing here is said through the operations of the machine: the laws relate the state before a
  move to the moves that came earlier.
 */
module ClientRuns {
  import opened ClientMachine
  import opened ClientTheorems
  import opened ClientHistory
  import opened ClientFrame
  import opened Options

  // ---------------------------------------------------------------------------------------------
  // One step
  // ---------------------------------------------------------------------------------------------

  /** Thread `i` drains, and `ds` are the domains left to it. */
  predicate In(pc: Pc, ds: seq<nat>) {
    Locking(pc) && pc.ds == ds
  }

  lemma OthersStand(s: State, i: nat, ch: Choice, j: nat)
    requires Inv(s) && !s.crashed && i < |s.pcs| && j < |s.pcs| && j != i
    ensures Step(s, i, ch).pcs[j] == s.pcs[j]
  {
    hide Step, Inv;
    StepFramed(s, i, ch);
  }

  /** A thread leaves a domain when its queue is empty, or when its last connection was found in use. */
  lemma LeaveStep(s: State, i: nat, ch: Choice, ds: seq<nat>)
    requires Inv(s) && !s.crashed && i < |s.pcs| && ds != [] && In(s.pcs[i], ds) && !In(Step(s, i, ch).pcs[i], ds)
    ensures Step(s, i, ch).pcs[i] == DrainOpen(ds[1..])
    ensures || (s.pcs[i].DrainWon? && QueueOf(s, ds[0]) == [])
            || (s.pcs[i].DrainSeek? && s.pcs[i].i >= |PoolAt(s, ds[0])|)
  {
    hide ConnOk, RequestOk, QueueOk, PoolOk;
    ThreadIs(s, i);
  }

  lemma ScanNext(s: State, i: nat, ch: Choice)
    requires i < |s.pcs| && !s.crashed && s.pcs[i].DrainSeek? && s.pcs[i].ds != []
    ensures var t, ds, n := Step(s, i, ch).pcs[i], s.pcs[i].ds, s.pcs[i].i; var pool := PoolAt(s, ds[0]);
            if n >= |pool| then t == DrainOpen(ds[1..])
            else if pool[n] < |s.conns| && !s.conns[pool[n]].used then t == DrainWon(ds, pool[n])
            else t == DrainSeek(ds, n + 1)
  {
  }

  lemma SeekNext(s: State, i: nat, ch: Choice)
    requires i < |s.pcs| && !s.crashed && s.pcs[i].Seek?
    ensures var t, r, n := Step(s, i, ch).pcs[i], s.pcs[i].req, s.pcs[i].i; var pool := PoolAt(s, Domain(s, r));
            if n >= |pool| then t == Overflow(r)
            else if pool[n] < |s.conns| && !s.conns[pool[n]].used then t == Won(r, pool[n])
            else t == Seek(r, n + 1)
  {
  }

  /** A scan that has come to position `j` of the pool, `j > 0`, has just found connection `j - 1` in use. */
  lemma ScanStep(s: State, i: nat, ch: Choice, ds: seq<nat>, j: nat)
    requires Inv(s) && !s.crashed && i < |s.pcs| && ds != [] && Step(s, i, ch).pcs[i] == DrainSeek(ds, j) && j > 0
    ensures s.pcs[i] == DrainSeek(ds, j - 1) && j - 1 < |PoolAt(s, ds[0])|
    ensures var k := PoolAt(s, ds[0])[j - 1]; k < |s.conns| && s.conns[k].used
  {
    hide Step, Inv, ConnOk, RequestOk, QueueOk;
    ThreadIs(s, i);
    if s.pcs[i].DrainSeek? {
      ScanNext(s, i, ch);
      InPool(s, ds[0]);
    } else if s.pcs[i].Seek? {
      SeekNext(s, i, ch);
    } else {
      StepFramed(s, i, ch);
    }
  }

  lemma InPool(s: State, d: nat)
    requires Inv(s)
    ensures forall n :: 0 <= n < |PoolAt(s, d)| ==> PoolAt(s, d)[n] < |s.conns|
  {
    hide Inv;
    if d in s.pools {
      PoolIs(s, d);
    }
  }

  /** The same of `doRequest`. */
  lemma SeekStep(s: State, i: nat, ch: Choice, r: nat, j: nat)
    requires Inv(s) && !s.crashed && i < |s.pcs| && Step(s, i, ch).pcs[i] == Seek(r, j) && j > 0
    ensures s.pcs[i] == Seek(r, j - 1) && j - 1 < |PoolAt(s, Domain(s, r))|
    ensures var k := PoolAt(s, Domain(s, r))[j - 1]; k < |s.conns| && s.conns[k].used
  {
    hide Step, Inv, ConnOk, RequestOk, QueueOk;
    ThreadIs(s, i);
    if s.pcs[i].DrainSeek? {
      ScanNext(s, i, ch);
    } else if s.pcs[i].Seek? {
      SeekNext(s, i, ch);
      InPool(s, Domain(s, r));
    } else {
      StepFramed(s, i, ch);
    }
  }

  lemma OverflowStep(s: State, i: nat, ch: Choice, r: nat)
    requires Inv(s) && !s.crashed && i < |s.pcs| && Step(s, i, ch).pcs[i] == Overflow(r) && s.pcs[i] != Overflow(r)
    ensures s.pcs[i].Seek? && s.pcs[i].req == r && s.pcs[i].i >= |PoolAt(s, Domain(s, r))|
  {
    hide Step, Inv, ConnOk, RequestOk, QueueOk;
    ThreadIs(s, i);
    if s.pcs[i].DrainSeek? {
      ScanNext(s, i, ch);
    } else if s.pcs[i].Seek? {
      SeekNext(s, i, ch);
    } else {
      StepFramed(s, i, ch);
    }
  }

  // ---------------------------------------------------------------------------------------------
  // Whoever gives up a domain found it drained or its connections in use
  // ---------------------------------------------------------------------------------------------

  /** At move `m` thread `i`, draining `ds[0]`, found the `k`-th connection in use, and it has been scanning on until `n`. */
  ghost predicate FoundUsedAt(perHost: nat, threads: nat, moves: seq<Move>, i: nat, ds: seq<nat>, k: nat, m: nat, n: nat)
    requires Legal(threads, moves) && m < n <= |moves| && i < threads && ds != []
  {
    var s := Before(perHost, threads, moves, m);
    && moves[m].tid == i && s.pcs[i] == DrainSeek(ds, k)
    && k < |PoolAt(s, ds[0])| && PoolAt(s, ds[0])[k] < |s.conns| && s.conns[PoolAt(s, ds[0])[k]].used
    && forall x :: m < x <= n ==> ScansAt(perHost, threads, moves, i, ds, x)
  }

  ghost predicate ScansAt(perHost: nat, threads: nat, moves: seq<Move>, i: nat, ds: seq<nat>, n: nat)
    requires Legal(threads, moves) && n <= |moves| && i < threads
  {
    var pc := Before(perHost, threads, moves, n).pcs[i];
    pc.DrainSeek? && pc.ds == ds
  }

  ghost predicate FoundUsed(perHost: nat, threads: nat, moves: seq<Move>, i: nat, ds: seq<nat>, k: nat, n: nat)
    requires Legal(threads, moves) && n <= |moves| && i < threads && ds != []
  {
    exists m :: 0 <= m < n && FoundUsedAt(perHost, threads, moves, i, ds, k, m, n)
  }

  lemma FoundStays(perHost: nat, threads: nat, moves: seq<Move>, i: nat, ds: seq<nat>, k: nat, n: nat)
    requires Legal(threads, moves) && n < |moves| && i < threads && ds != []
    requires FoundUsed(perHost, threads, moves, i, ds, k, n) && ScansAt(perHost, threads, moves, i, ds, n + 1)
    ensures FoundUsed(perHost, threads, moves, i, ds, k, n + 1)
  {
    hide Before;
    var m :| 0 <= m < n && FoundUsedAt(perHost, threads, moves, i, ds, k, m, n);
    assert FoundUsedAt(perHost, threads, moves, i, ds, k, m, n + 1);
  }

  lemma {:induction false} Scanned(perHost: nat, threads: nat, moves: seq<Move>, i: nat, ds: seq<nat>, j: nat, k: nat, n: nat)
    requires Legal(threads, moves) && n <= |moves| && i < threads && ds != [] && k < j
    requires Before(perHost, threads, moves, n).pcs[i] == DrainSeek(ds, j)
    ensures FoundUsed(perHost, threads, moves, i, ds, k, n)
    decreases n
  {
    hide Step, Ready, Inv, FoundUsed;
    BeforeFirst(perHost, threads, moves);
    BeforeNext(perHost, threads, moves, n - 1);
    BeforeReady(perHost, threads, moves, n - 1);
    var s := Before(perHost, threads, moves, n - 1);
    ReadyInv(s);
    if moves[n - 1].tid != i {
      OthersStand(s, moves[n - 1].tid, moves[n - 1].choice, i);
      Scanned(perHost, threads, moves, i, ds, j, k, n - 1);
      FoundStays(perHost, threads, moves, i, ds, k, n - 1);
    } else {
      ScanStep(s, i, moves[n - 1].choice, ds, j);
      if k == j - 1 {
        FoundNow(perHost, threads, moves, i, ds, k, n - 1);
      } else {
        Scanned(perHost, threads, moves, i, ds, j - 1, k, n - 1);
        FoundStays(perHost, threads, moves, i, ds, k, n - 1);
      }
    }
  }

  lemma FoundNow(perHost: nat, threads: nat, moves: seq<Move>, i: nat, ds: seq<nat>, k: nat, n: nat)
    requires Legal(threads, moves) && n < |moves| && i < threads && ds != [] && moves[n].tid == i
    requires var s := Before(perHost, threads, moves, n);
             && s.pcs[i] == DrainSeek(ds, k) && k < |PoolAt(s, ds[0])| && PoolAt(s, ds[0])[k] < |s.conns|
             && s.conns[PoolAt(s, ds[0])[k]].used
    requires ScansAt(perHost, threads, moves, i, ds, n + 1)
    ensures FoundUsed(perHost, threads, moves, i, ds, k, n + 1)
  {
    hide Before;
    assert FoundUsedAt(perHost, threads, moves, i, ds, k, n, n + 1);
  }

  /** A thread that drains domain `ds[0]` leaves it only for the next one, and only with the domain's queue empty
      or every connection of the domain found in use in the scan that it has just ended. */
  lemma LeftDrained(perHost: nat, threads: nat, moves: seq<Move>, ds: seq<nat>, n: nat)
    requires Legal(threads, moves) && n < |moves| && ds != []
    requires In(Before(perHost, threads, moves, n).pcs[moves[n].tid], ds)
    requires !In(Before(perHost, threads, moves, n + 1).pcs[moves[n].tid], ds)
    ensures var s := Before(perHost, threads, moves, n); var i := moves[n].tid;
            && Before(perHost, threads, moves, n + 1).pcs[i] == DrainOpen(ds[1..])
            && (QueueOf(s, ds[0]) == []
                || forall k :: 0 <= k < |PoolAt(s, ds[0])| ==> FoundUsed(perHost, threads, moves, i, ds, k, n))
  {
    hide Step, Ready, Inv, FoundUsed;
    BeforeNext(perHost, threads, moves, n);
    BeforeReady(perHost, threads, moves, n);
    var s, i := Before(perHost, threads, moves, n), moves[n].tid;
    ReadyInv(s);
    LeaveStep(s, i, moves[n].choice, ds);
    if QueueOf(s, ds[0]) != [] {
      forall k | 0 <= k < |PoolAt(s, ds[0])| ensures FoundUsed(perHost, threads, moves, i, ds, k, n) {
        Scanned(perHost, threads, moves, i, ds, s.pcs[i].i, k, n);
      }
    }
  }

  /** At move `m` the thread with request `r` found the `k`-th connection of its domain in use. */
  ghost predicate MetUsedAt(perHost: nat, threads: nat, moves: seq<Move>, i: nat, r: nat, k: nat, m: nat)
    requires Legal(threads, moves) && m < |moves| && i < threads
  {
    var s := Before(perHost, threads, moves, m);
    var pool := PoolAt(s, Domain(s, r));
    moves[m].tid == i && s.pcs[i] == Seek(r, k) && k < |pool| && pool[k] < |s.conns| && s.conns[pool[k]].used
  }

  lemma {:induction false} MetUsed(perHost: nat, threads: nat, moves: seq<Move>, i: nat, r: nat, j: nat, k: nat, n: nat)
    requires Legal(threads, moves) && n <= |moves| && i < threads && k < j
    requires Before(perHost, threads, moves, n).pcs[i] == Seek(r, j)
    ensures exists m :: 0 <= m < n && MetUsedAt(perHost, threads, moves, i, r, k, m)
    decreases n
  {
    hide Step, Ready, Inv;
    BeforeFirst(perHost, threads, moves);
    BeforeNext(perHost, threads, moves, n - 1);
    BeforeReady(perHost, threads, moves, n - 1);
    var s := Before(perHost, threads, moves, n - 1);
    ReadyInv(s);
    if moves[n - 1].tid != i {
      OthersStand(s, moves[n - 1].tid, moves[n - 1].choice, i);
      MetUsed(perHost, threads, moves, i, r, j, k, n - 1);
    } else {
      SeekStep(s, i, moves[n - 1].choice, r, j);
      if k == j - 1 {
        assert MetUsedAt(perHost, threads, moves, i, r, k, n - 1);
      } else {
        MetUsed(perHost, threads, moves, i, r, j - 1, k, n - 1);
      }
    }
  }

  /** A `doRequest` gives up on a connection of its own only after it has found each connection of the domain in use. */
  lemma {:induction false} NoneIdle(perHost: nat, threads: nat, moves: seq<Move>, i: nat, r: nat, k: nat, n: nat)
    requires Legal(threads, moves) && n <= |moves| && i < threads
    requires Before(perHost, threads, moves, n).pcs[i] == Overflow(r)
    requires var s := Before(perHost, threads, moves, n); k < |PoolAt(s, Domain(s, r))|
    ensures exists m :: 0 <= m < n && MetUsedAt(perHost, threads, moves, i, r, k, m)
    decreases n
  {
    hide Step, Ready, Inv;
    BeforeFirst(perHost, threads, moves);
    BeforeNext(perHost, threads, moves, n - 1);
    BeforeReady(perHost, threads, moves, n - 1);
    var s, mv := Before(perHost, threads, moves, n - 1), moves[n - 1];
    ReadyInv(s);
    if s.pcs[i] == Overflow(r) {
      SameDomain(s, mv.tid, mv.choice, i);
      NoneIdle(perHost, threads, moves, i, r, k, n - 1);
    } else {
      if mv.tid != i {
        OthersStand(s, mv.tid, mv.choice, i);
      }
      OverflowStep(s, i, mv.choice, r);
      SeekPool(s, i, mv.choice);
      MetUsed(perHost, threads, moves, i, r, s.pcs[i].i, k, n - 1);
    }
  }

  /** The pool that a thread goes through stays as it is. */
  lemma SameDomain(s: State, i: nat, ch: Choice, j: nat)
    requires Ready(s) && i < |s.pcs| && j < |s.pcs| && s.pcs[j].Overflow?
    ensures var t, r := Step(s, i, ch), s.pcs[j].req; Domain(t, r) == Domain(s, r) && PoolAt(t, Domain(t, r)) == PoolAt(s, Domain(s, r))
  {
    hide Step;
    ThreadIs(s, j);
    assert ThreadPassed(s, j);
    StepFramed(s, i, ch);
  }

  lemma SeekPool(s: State, i: nat, ch: Choice)
    requires Ready(s) && i < |s.pcs| && s.pcs[i].Seek?
    ensures var t, r := Step(s, i, ch), s.pcs[i].req; Domain(t, r) == Domain(s, r) && PoolAt(t, Domain(t, r)) == PoolAt(s, Domain(s, r))
  {
    hide Step;
    ThreadIs(s, i);
    assert ThreadPassed(s, i);
    StepFramed(s, i, ch);
  }
}

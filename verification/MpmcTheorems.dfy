/** What every run of the ring promises: exclusive cells, first-in first-out order, no loss. */
module MpmcTheorems {
  import opened MpmcMachine
  import opened Options

  /** A scheduler's decision: which thread moves, and how. */
  datatype Move<T> = Move(tid: nat, choice: Choice<T>)

  /** The state after a whole schedule. */
  function Execute<T>(s: State<T>, moves: seq<Move<T>>): (r: State<T>)
    requires Shaped(s)
    requires forall m :: m in moves ==> m.tid < |s.pcs|
    ensures Shaped(r) && |r.pcs| == |s.pcs| && |r.sequence| == |s.sequence|
    decreases moves
  {
    if moves == [] then s else Execute(Step(s, moves[0].tid, moves[0].choice), moves[1..])
  }

  lemma {:induction false} RunInv<T>(s: State<T>, moves: seq<Move<T>>)
    requires Inv(s)
    requires forall m :: m in moves ==> m.tid < |s.pcs|
    ensures Inv(Execute(s, moves))
    decreases moves
  {
    if moves != [] {
      StepInv(s, moves[0].tid, moves[0].choice);
      RunInv(Step(s, moves[0].tid, moves[0].choice), moves[1..]);
    }
  }

  // ---------------------------------------------------------------------------------------------
  // Exclusive use of cells
  // ---------------------------------------------------------------------------------------------

  /** No two threads between their compare-and-swap and their sequence store share a cell. */
  lemma ExclusiveCells<T>(size: nat, threads: nat, blank: T, moves: seq<Move<T>>, i: nat, j: nat, t: nat, u: nat)
    requires size >= 2
    requires forall m :: m in moves ==> m.tid < threads
    ensures var s := Execute(Init(size, threads, blank), moves);
            && s.deq <= s.enq <= s.deq + size
            && (Holds(s, i, t) && Holds(s, j, u) && i != j ==> Cell(size, t) != Cell(size, u))
  {
    InitInv(size, threads, blank);
    RunInv(Init(size, threads, blank), moves);
    var s := Execute(Init(size, threads, blank), moves);
    if Holds(s, i, t) && Holds(s, j, u) && Cell(size, t) == Cell(size, u) {
      assert ThreadOk(s, i) && ThreadOk(s, j);
      assert TicketOk(s, t) && TicketOk(s, u);
      Apart(s, t, u);
    }
  }

  // ---------------------------------------------------------------------------------------------
  // History only grows
  // ---------------------------------------------------------------------------------------------

  /** Cell numbers and indices only grow, accepted values stay in order, deliveries are final. */
  ghost predicate Grows<T>(s: State<T>, s': State<T>) {
    && |s'.sequence| == |s.sequence|
    && (forall c :: 0 <= c < |s.sequence| ==> s.sequence[c] <= s'.sequence[c])
    && s.log <= s'.log
    && s.deq <= s'.deq
    && |s.delivered| <= |s'.delivered|
    && (forall t :: 0 <= t < |s.delivered| && s.delivered[t].Some? ==> s'.delivered[t] == s.delivered[t])
  }

  lemma StepGrows<T>(s: State<T>, i: nat, c: Choice<T>)
    requires Inv(s) && i < |s.pcs|
    ensures Grows(s, Step(s, i, c))
  {
    assert ThreadOk(s, i);
    if Owning(s.pcs[i]) {
      assert TicketOk(s, s.pcs[i].index);
    }
  }

  lemma {:induction false} RunGrows<T>(s: State<T>, moves: seq<Move<T>>)
    requires Inv(s)
    requires forall m :: m in moves ==> m.tid < |s.pcs|
    ensures Grows(s, Execute(s, moves))
    decreases moves
  {
    if moves != [] {
      StepGrows(s, moves[0].tid, moves[0].choice);
      StepInv(s, moves[0].tid, moves[0].choice);
      RunGrows(Step(s, moves[0].tid, moves[0].choice), moves[1..]);
    }
  }

  // ---------------------------------------------------------------------------------------------
  // Refinement to a first-in first-out queue
  // ---------------------------------------------------------------------------------------------

  /** A client's view of one thread. */
  datatype Call<T> = Ready | Putting(item: T) | PutDone(ok: bool) | Taking | TakeDone(result: Option<T>)

  /** The simple queue: one sequence, and calls that take effect in one instant. */
  datatype Fifo<T> = Fifo(queue: seq<T>, calls: seq<Call<T>>)

  /** One step of the simple queue by client `i`; `size` is the capacity. */
  ghost predicate FifoStep<T(!new)>(size: nat, a: Fifo<T>, i: nat, b: Fifo<T>) {
    && |a.calls| == |b.calls| && i < |a.calls|
    && (forall j :: 0 <= j < |a.calls| && j != i ==> b.calls[j] == a.calls[j])
    && match a.calls[i]
       case Ready => b.queue == a.queue && (b.calls[i].Ready? || b.calls[i].Putting? || b.calls[i].Taking?)
       case Putting(v) =>
         || (b.queue == a.queue && b.calls[i] == a.calls[i])
         || (b.calls[i] == PutDone(true) && b.queue == a.queue + [v] && |b.queue| <= size)
         || (b.calls[i] == PutDone(false) && b.queue == a.queue && (|a.queue| == size || SomeTake(a)))
       case Taking =>
         || (b.queue == a.queue && b.calls[i] == a.calls[i])
         || (a.queue != [] && b.calls[i] == TakeDone(Some(a.queue[0])) && b.queue == a.queue[1..])
         || (b.calls[i] == TakeDone(None) && b.queue == a.queue && (a.queue == [] || SomePut(a)))
       case PutDone(_) => b.queue == a.queue && (b.calls[i] == a.calls[i] || b.calls[i].Ready?)
       case TakeDone(_) => b.queue == a.queue && (b.calls[i] == a.calls[i] || b.calls[i].Ready?)
  }

  /** Some client has taken an item and its call has not returned yet. */
  ghost predicate SomeTake<T>(a: Fifo<T>) {
    exists j :: 0 <= j < |a.calls| && a.calls[j].TakeDone? && a.calls[j].result.Some?
  }

  /** Some client has put an item and its call has not returned yet. */
  ghost predicate SomePut<T>(a: Fifo<T>) {
    exists j :: 0 <= j < |a.calls| && a.calls[j] == PutDone(true)
  }

  function AbsCall<T>(s: State<T>, pc: Pc<T>): Call<T> {
    match pc
    case Idle => Ready
    case EnqLoadIndex(v) => Putting(v)
    case EnqLoadSeq(v, _) => Putting(v)
    case EnqCas(v, _) => Putting(v)
    case EnqWrite(_, _) => PutDone(true)
    case EnqPublish(_, _) => PutDone(true)
    case EnqReturn(_, ok) => PutDone(ok)
    case DeqLoadIndex => Taking
    case DeqLoadSeq(_) => Taking
    case DeqCas(_) => Taking
    case DeqRead(x) => TakeDone(if x < |s.log| then Some(s.log[x]) else None)
    case DeqRelease(_, v) => TakeDone(Some(v))
    case DeqReturn(r) => TakeDone(r)
  }

  function Abs<T>(s: State<T>): Fifo<T>
    requires s.deq <= |s.log|
  {
    Fifo(s.log[s.deq..], seq(|s.pcs|, i requires 0 <= i < |s.pcs| => AbsCall(s, s.pcs[i])))
  }

  /** A refused `enqueue` saw the ticket of one lap ago still unreleased. */
  lemma RefusedEnqueue<T>(s: State<T>, i: nat, c: Choice<T>)
    requires Inv(s) && i < |s.pcs| && s.pcs[i].EnqLoadSeq? && Step(s, i, c).pcs[i].EnqReturn?
    ensures var n := |s.sequence|; s.pcs[i].index == s.enq >= n && !s.phase[s.enq - n].Released?
  {
    assert ThreadOk(s, i);
    EnqueueSlot(s);
    if s.pcs[i].index < s.enq {
      PastSlot(s, s.pcs[i].index);
    }
  }

  /** A refused `dequeue` saw the head ticket either not handed out or not yet published. */
  lemma RefusedDequeue<T>(s: State<T>, i: nat, c: Choice<T>)
    requires Inv(s) && i < |s.pcs| && s.pcs[i].DeqLoadSeq? && Step(s, i, c).pcs[i].DeqReturn?
    ensures s.pcs[i].index == s.deq && (s.deq == s.enq || s.phase[s.deq].Writing?)
  {
    assert ThreadOk(s, i);
    DequeueSlot(s);
    if s.pcs[i].index < s.deq {
      PastSlot(s, s.pcs[i].index);
    }
    if s.deq < s.enq {
      assert TicketOk(s, s.deq);
    }
  }

  lemma RefinesPut<T(!new)>(s: State<T>, i: nat, c: Choice<T>)
    requires Inv(s) && i < |s.pcs| && Inv(Step(s, i, c))
    requires s.pcs[i].EnqLoadSeq?
    ensures FifoStep(|s.sequence|, Abs(s), i, Abs(Step(s, i, c)))
  {
    OthersStay(s, i, c);
    if Step(s, i, c).pcs[i].EnqReturn? {
      RefusedEnqueue(s, i, c);
      var t := s.enq - |s.sequence|;
      assert TicketOk(s, t);
      if s.phase[t].Reading? {
        var j := s.phase[t].tid;
        assert ThreadOk(s, j);
        assert Abs(s).calls[j].TakeDone?;
        assert SomeTake(Abs(s));
      }
    }
  }

  lemma RefinesCommit<T(!new)>(s: State<T>, i: nat, c: Choice<T>)
    requires Inv(s) && i < |s.pcs| && Inv(Step(s, i, c))
    requires s.pcs[i].EnqCas? || s.pcs[i].DeqCas?
    ensures FifoStep(|s.sequence|, Abs(s), i, Abs(Step(s, i, c)))
  {
    var s' := Step(s, i, c);
    assert ThreadOk(s, i);
    OthersStay(s, i, c);
    if s'.enq > s.enq {
      assert s'.log[s.deq..] == s.log[s.deq..] + [s.pcs[i].item];
    } else if s'.deq > s.deq {
      assert Abs(s).queue[0] == s.log[s.deq];
    }
  }

  lemma RefinesTake<T(!new)>(s: State<T>, i: nat, c: Choice<T>)
    requires Inv(s) && i < |s.pcs| && Inv(Step(s, i, c))
    requires s.pcs[i].DeqLoadSeq?
    ensures FifoStep(|s.sequence|, Abs(s), i, Abs(Step(s, i, c)))
  {
    OthersStay(s, i, c);
    if Step(s, i, c).pcs[i].DeqReturn? {
      RefusedDequeue(s, i, c);
      if s.deq < s.enq {
        assert TicketOk(s, s.deq);
        var j := s.phase[s.deq].tid;
        assert ThreadOk(s, j);
        assert Abs(s).calls[j] == PutDone(true);
        assert SomePut(Abs(s));
      }
    }
  }

  /** Every atomic access is one step, or no step, of the simple queue. */
  lemma StepRefines<T(!new)>(s: State<T>, i: nat, c: Choice<T>)
    requires Inv(s) && i < |s.pcs|
    ensures Inv(Step(s, i, c))
    ensures FifoStep(|s.sequence|, Abs(s), i, Abs(Step(s, i, c)))
  {
    StepInv(s, i, c);
    if s.pcs[i].EnqLoadSeq? {
      RefinesPut(s, i, c);
    } else if s.pcs[i].DeqLoadSeq? {
      RefinesTake(s, i, c);
    } else if s.pcs[i].EnqCas? || s.pcs[i].DeqCas? {
      RefinesCommit(s, i, c);
    } else {
      assert ThreadOk(s, i);
      OthersStay(s, i, c);
      if s.pcs[i].DeqRead? {
        assert TicketOk(s, s.pcs[i].index);
      }
    }
  }

  lemma OthersStay<T>(s: State<T>, i: nat, c: Choice<T>)
    requires Inv(s) && i < |s.pcs|
    requires Step(s, i, c).deq <= |Step(s, i, c).log|
    ensures forall j :: 0 <= j < |s.pcs| && j != i ==> Abs(Step(s, i, c)).calls[j] == Abs(s).calls[j]
  {
    forall j | 0 <= j < |s.pcs| && j != i
      ensures Abs(Step(s, i, c)).calls[j] == Abs(s).calls[j]
    {
      assert ThreadOk(s, j);
    }
  }

  /** Every run of the ring is a run of the simple queue, step by step. */
  lemma {:induction false} RunRefines<T(!new)>(size: nat, threads: nat, blank: T, moves: seq<Move<T>>, k: nat)
    requires size >= 2 && k < |moves|
    requires forall m :: m in moves ==> m.tid < threads
    ensures var s := Execute(Init(size, threads, blank), moves[..k]);
            var s' := Execute(Init(size, threads, blank), moves[..k + 1]);
            && Inv(s) && Inv(s')
            && Abs(Init(size, threads, blank)) == Fifo([], seq(threads, i => Ready))
            && FifoStep(size, Abs(s), moves[k].tid, Abs(s'))
  {
    var s0 := Init(size, threads, blank);
    InitInv(size, threads, blank);
    RunInv(s0, moves[..k]);
    assert moves[..k + 1] == moves[..k] + [moves[k]];
    ExecuteConcat(s0, moves[..k], [moves[k]]);
    StepRefines(Execute(s0, moves[..k]), moves[k].tid, moves[k].choice);
    assert Abs(s0) == Fifo([], seq(threads, i => Ready));
  }

  lemma {:induction false} ExecuteConcat<T>(s: State<T>, p: seq<Move<T>>, q: seq<Move<T>>)
    requires Shaped(s)
    requires forall m :: m in p + q ==> m.tid < |s.pcs|
    requires forall m :: m in p ==> m.tid < |s.pcs|
    requires forall m :: m in q ==> m.tid < |s.pcs|
    ensures Execute(s, p + q) == Execute(Execute(s, p), q)
    decreases p
  {
    if p == [] {
      assert p + q == q;
    } else {
      assert (p + q)[0] == p[0] && (p + q)[1..] == p[1..] + q;
      ExecuteConcat(Step(s, p[0].tid, p[0].choice), p[1..], q);
    }
  }

  // ---------------------------------------------------------------------------------------------
  // With no call in flight
  // ---------------------------------------------------------------------------------------------

  ghost predicate OthersIdle<T>(s: State<T>, i: nat) {
    forall j :: 0 <= j < |s.pcs| && j != i ==> s.pcs[j].Idle?
  }

  /** Once no call is in flight, consumer number t has received exactly the t-th accepted value, and the rest waits in order. */
  lemma QuietDelivery<T>(size: nat, threads: nat, blank: T, moves: seq<Move<T>>)
    requires size >= 2
    requires forall m :: m in moves ==> m.tid < threads
    ensures var s := Execute(Init(size, threads, blank), moves);
            OthersIdle(s, threads) ==>
              && |s.delivered| <= |s.log| <= |s.delivered| + size
              && (forall t :: 0 <= t < |s.delivered| ==> s.delivered[t] == Some(s.log[t]))
              && (forall t :: |s.delivered| <= t < |s.log| ==> s.data[Slot(s, t)] == s.log[t])
  {
    InitInv(size, threads, blank);
    RunInv(Init(size, threads, blank), moves);
    var s := Execute(Init(size, threads, blank), moves);
    if OthersIdle(s, threads) {
      forall t: nat | t < s.enq
        ensures if t < s.deq then s.delivered[t] == Some(s.log[t]) else s.data[Slot(s, t)] == s.log[t]
      {
        assert TicketOk(s, t);
      }
    }
  }

  /** `n` further accesses of thread `i`, no compare-and-swap failing without cause. */
  function Solo<T>(s: State<T>, i: nat, n: nat): (r: State<T>)
    requires Shaped(s) && i < |s.pcs|
    ensures Shaped(r) && |r.pcs| == |s.pcs|
    decreases n
  {
    if n == 0 then s else Solo(Step(s, i, Go), i, n - 1)
  }

  lemma {:induction false} SoloMore<T>(s: State<T>, i: nat, n: nat)
    requires Shaped(s) && i < |s.pcs|
    ensures Solo(s, i, n + 1) == Step(Solo(s, i, n), i, Go)
    decreases n
  {
    if n == 0 {
      var t := Step(s, i, Go);
      assert Solo(t, i, 0) == t;
    } else {
      SoloMore(Step(s, i, Go), i, n - 1);
    }
  }

  /** Two accesses of one thread. */
  lemma SoloTwice<T>(s: State<T>, i: nat, n: nat)
    requires Shaped(s) && i < |s.pcs|
    ensures Solo(s, i, n + 2) == Step(Step(Solo(s, i, n), i, Go), i, Go)
  {
    SoloMore(s, i, n);
    SoloMore(s, i, n + 1);
  }

  /** A whole `enqueue` with no other call in flight: refused exactly when `Size` items are held, and otherwise it
      has appended its item. `n` counts its accesses. */
  lemma AloneEnqueue<T>(s: State<T>, i: nat, item: T) returns (n: nat)
    requires Inv(s) && i < |s.pcs| && OthersIdle(s, i) && s.pcs[i] == EnqLoadIndex(item)
    ensures var full, r := |Abs(s).queue| == |s.sequence|, Solo(s, i, n);
            && n == (if full then 2 else 5) && r.pcs[i] == EnqReturn(item, !full) && r.deq <= |r.log|
            && Abs(r).queue == if full then Abs(s).queue else Abs(s).queue + [item]
  {
    n := 0;
    SoloTwice(s, i, n);
    n := n + 2;
    StepInv(s, i, Go);
    AloneEnqueueLoad(Step(s, i, Go), i, Go);
    if |Abs(s).queue| < |s.sequence| {
      SoloTwice(s, i, n);
      SoloMore(s, i, n + 2);
      n := n + 3;
      assert s.log[s.deq..] + [item] == (s.log + [item])[s.deq..];
    }
  }

  lemma CountedIs<T>(s: State<T>)
    requires Inv(s)
    ensures Counted(s)
  {
  }

  /** The oldest item is in its cell. */
  lemma FrontData<T>(s: State<T>, i: nat)
    requires Inv(s) && i < |s.pcs| && OthersIdle(s, i) && s.pcs[i] == DeqLoadIndex && s.deq < s.enq
    ensures Counted(s) && s.data[Slot(s, s.deq)] == s.log[s.deq]
  {
    assert TicketOk(s, s.deq);
  }

  /** A whole `dequeue` with no other call in flight: refused exactly when nothing is held, and otherwise it yields
      the oldest item. */
  lemma AloneDequeue<T>(s: State<T>, i: nat) returns (n: nat)
    requires Inv(s) && i < |s.pcs| && OthersIdle(s, i) && s.pcs[i] == DeqLoadIndex
    ensures var q, r := Abs(s).queue, Solo(s, i, n);
            && n == (if q == [] then 2 else 5) && r.pcs[i] == DeqReturn(if q == [] then None else Some(q[0]))
            && r.deq <= |r.log| && Abs(r).queue == if q == [] then q else q[1..]
  {
    n := 0;
    SoloTwice(s, i, n);
    n := n + 2;
    StepInv(s, i, Go);
    AloneDequeueLoad(Step(s, i, Go), i, Go);
    CountedIs(s);
    hide Inv;
    if s.deq < s.enq {
      FrontData(s, i);
      SoloTwice(s, i, n);
      SoloMore(s, i, n + 2);
      n := n + 3;
    }
  }

  /** The load that decides an `enqueue` on its own. */
  lemma AloneEnqueueLoad<T>(s: State<T>, i: nat, c: Choice<T>)
    requires Inv(s) && i < |s.pcs| && OthersIdle(s, i)
    requires s.pcs[i].EnqLoadSeq? && s.pcs[i].index == s.enq
    ensures Step(s, i, c).pcs[i] ==
            if |Abs(s).queue| == |s.sequence| then EnqReturn(s.pcs[i].item, false) else EnqCas(s.pcs[i].item, s.enq)
  {
    EnqueueSlot(s);
    if s.enq >= |s.sequence| {
      assert TicketOk(s, s.enq - |s.sequence|);
    }
  }

  /** The load that decides a `dequeue` on its own. */
  lemma AloneDequeueLoad<T>(s: State<T>, i: nat, c: Choice<T>)
    requires Inv(s) && i < |s.pcs| && OthersIdle(s, i)
    requires s.pcs[i].DeqLoadSeq? && s.pcs[i].index == s.deq
    ensures Step(s, i, c).pcs[i] == if Abs(s).queue == [] then DeqReturn(None) else DeqCas(s.deq)
  {
    DequeueSlot(s);
    if s.deq < s.enq {
      assert TicketOk(s, s.deq);
    }
  }
}

/** The bounded multi-producer multi-consumer ring of mailbox.h, as an interleaved machine.

  Every step is one atomic access of one thread: a load, a weak compare-and-swap, a data move or
  a sequence store. Ghost-like bookkeeping (`log`, `phase`, `delivered`) names the tickets that
  the two indices hand out; no step reads it to decide what to do.
 */
module MpmcMachine {
  import opened Options

  /** Where a thread stands inside `enqueue` or `dequeue`. */
  datatype Pc<T> =
    | Idle
    | EnqLoadIndex(item: T)
    | EnqLoadSeq(item: T, index: nat)
    | EnqCas(item: T, index: nat)
    | EnqWrite(item: T, index: nat)
    | EnqPublish(item: T, index: nat)
    | EnqReturn(item: T, ok: bool)
    | DeqLoadIndex
    | DeqLoadSeq(index: nat)
    | DeqCas(index: nat)
    | DeqRead(index: nat)
    | DeqRelease(index: nat, got: T)
    | DeqReturn(result: Option<T>)

  /** The life of a ticket that `enqueueIndex` has handed out. */
  datatype Phase = Writing(tid: nat) | Published | Reading(tid: nat) | Released

  datatype State<T> = State(
    sequence: seq<nat>,
    data: seq<T>,
    enq: nat,
    deq: nat,
    pcs: seq<Pc<T>>,
    log: seq<T>,
    phase: seq<Phase>,
    delivered: seq<Option<T>>)

  /** Slot of ticket `t` in a ring of `n` cells; `CellIsMask` shows that this is `t & Mask`. */
  function Cell(n: nat, t: nat): (c: nat)
    requires n > 0
    ensures c < n
  {
    t % n
  }

  /** The bitwise conjunction that `cellIndex` computes. */
  function BitAnd(a: nat, b: nat): nat
    decreases a
  {
    if a == 0 || b == 0 then 0
    else 2 * BitAnd(a / 2, b / 2) + (if a % 2 == 1 && b % 2 == 1 then 1 else 0)
  }

  function Pow2(k: nat): (p: nat)
    ensures p > 0
  {
    if k == 0 then 1 else 2 * Pow2(k - 1)
  }

  /** A non-zero multiple of `n` is at least `n` away from zero. */
  lemma MultipleApart(d: int, n: nat)
    ensures d >= 1 ==> d * n >= n
    ensures d <= -1 ==> d * n + n <= 0
  {
    if d >= 1 {
      assert d * n == (d - 1) * n + n;
    } else if d <= -1 {
      assert -d * n == (-d - 1) * n + n;
    }
  }

  lemma DivModUnique(q: int, r: nat, q': int, r': nat, n: nat)
    requires r < n && r' < n && q * n + r == q' * n + r'
    ensures q == q' && r == r'
  {
    MultipleApart(q - q', n);
    assert (q - q') * n == r' - r;
  }

  lemma ModOf(t: nat, q: nat, r: nat, n: nat)
    requires r < n && t == q * n + r
    ensures t % n == r && t / n == q
  {
    DivModUnique(t / n, t % n, q, r, n);
  }

  lemma {:induction false} CellIsMask(k: nat, t: nat)
    ensures BitAnd(t, Pow2(k) - 1) == Cell(Pow2(k), t)
    decreases t
  {
    if k == 0 {
    } else if t == 0 {
      ModOf(0, 0, 0, Pow2(k));
    } else {
      var p := Pow2(k - 1);
      CellIsMask(k - 1, t / 2);
      assert (Pow2(k) - 1) / 2 == p - 1 && (Pow2(k) - 1) % 2 == 1;
      MaskStep(t, p);
    }
  }

  lemma MaskStep(t: nat, p: nat)
    requires p > 0
    ensures t % (2 * p) == 2 * ((t / 2) % p) + t % 2
  {
    var q, r := (t / 2) / p, (t / 2) % p;
    assert q * (2 * p) == 2 * (q * p);
    ModOf(t, q, 2 * r + t % 2, 2 * p);
  }

  lemma NextLap(n: nat, t: nat)
    requires n > 0
    ensures Cell(n, t + n) == Cell(n, t)
  {
    var q := t / n;
    assert (q + 1) * n == q * n + n;
    ModOf(t + n, q + 1, t % n, n);
  }

  lemma OneLap(n: nat, t: nat, u: nat)
    requires n > 0 && t <= u < t + n && Cell(n, t) == Cell(n, u)
    ensures t == u
  {
    var d := u / n - t / n;
    assert (u / n) * n - (t / n) * n == d * n;
    MultipleApart(d, n);
  }

  /** Tickets closer than one lap apart never share a slot; tickets one lap apart do. */
  lemma CellWindow(n: nat, t: nat, u: nat)
    requires n > 0
    ensures Cell(n, t + n) == Cell(n, t)
    ensures t <= u < t + n && Cell(n, t) == Cell(n, u) ==> t == u
  {
    hide Cell;
    NextLap(n, t);
    if t <= u < t + n && Cell(n, t) == Cell(n, u) {
      OneLap(n, t, u);
    }
  }

  predicate Shaped<T>(s: State<T>) {
    |s.sequence| == |s.data| >= 2
  }

  function Slot<T>(s: State<T>, t: nat): (c: nat)
    requires Shaped(s)
    ensures c < |s.sequence|
  {
    Cell(|s.sequence|, t)
  }

  /** `MPMCQueue()` with `threads` idle threads around it; `blank` is the value of `T()`. */
  function Init<T>(size: nat, threads: nat, blank: T): State<T>
    requires size >= 2
  {
    State(seq(size, i => i), seq(size, i => blank), 0, 0, seq(threads, i => Idle), [], [], [])
  }

  datatype Choice<T> = Go | StartEnqueue(item: T) | StartDequeue | SpuriousFailure

  function At<T>(s: State<T>, i: nat, pc: Pc<T>): State<T>
    requires i < |s.pcs|
  {
    s.(pcs := s.pcs[i := pc])
  }

  /** One atomic access by thread `i`. A thread that waits for a call ignores the choices that are not calls. */
  function Step<T>(s: State<T>, i: nat, c: Choice<T>): State<T>
    requires Shaped(s) && i < |s.pcs|
  {
    match s.pcs[i]
    case Idle =>
      (match c
       case StartEnqueue(v) => At(s, i, EnqLoadIndex(v))
       case StartDequeue => At(s, i, DeqLoadIndex)
       case _ => s)
    case EnqLoadIndex(v) => At(s, i, EnqLoadSeq(v, s.enq))
    case EnqLoadSeq(v, x) =>
      var diff := s.sequence[Slot(s, x)] - x;
      At(s, i, if diff == 0 then EnqCas(v, x) else if diff < 0 then EnqReturn(v, false) else EnqLoadIndex(v))
    case EnqCas(v, x) =>
      if s.enq == x && !c.SpuriousFailure? then
        At(s, i, EnqWrite(v, x)).(enq := s.enq + 1, log := s.log + [v], phase := s.phase + [Writing(i)])
      else
        At(s, i, EnqLoadSeq(v, s.enq))
    case EnqWrite(v, x) =>
      At(s, i, EnqPublish(v, x)).(data := s.data[Slot(s, x) := v])
    case EnqPublish(v, x) =>
      At(s, i, EnqReturn(v, true)).(sequence := s.sequence[Slot(s, x) := x + 1], phase := Put(s.phase, x, Published))
    case EnqReturn(_, _) => At(s, i, Idle)
    case DeqLoadIndex => At(s, i, DeqLoadSeq(s.deq))
    case DeqLoadSeq(x) =>
      var diff := s.sequence[Slot(s, x)] - (x + 1);
      At(s, i, if diff == 0 then DeqCas(x) else if diff < 0 then DeqReturn(None) else DeqLoadIndex)
    case DeqCas(x) =>
      if s.deq == x && !c.SpuriousFailure? then
        At(s, i, DeqRead(x)).(deq := s.deq + 1, delivered := s.delivered + [None], phase := Put(s.phase, x, Reading(i)))
      else
        At(s, i, DeqLoadSeq(s.deq))
    case DeqRead(x) =>
      var v := s.data[Slot(s, x)];
      At(s, i, DeqRelease(x, v)).(delivered := Put(s.delivered, x, Some(v)))
    case DeqRelease(x, v) =>
      At(s, i, DeqReturn(Some(v))).(sequence := s.sequence[Slot(s, x) := x + |s.sequence|], phase := Put(s.phase, x, Released))
    case DeqReturn(_) => At(s, i, Idle)
  }

  // ---------------------------------------------------------------------------------------------
  // The inductive invariant
  // ---------------------------------------------------------------------------------------------

  /** Ticket `t` has been handed out and its cell agrees with the phase it is in. */
  ghost predicate TicketOk<T>(s: State<T>, t: nat)
    requires Counted(s) && t < s.enq
  {
    match s.phase[t]
    case Writing(i) => s.deq <= t && s.enq <= t + |s.sequence| && s.sequence[Slot(s, t)] == t && Holds(s, i, t)
    case Published => s.deq <= t && s.sequence[Slot(s, t)] == t + 1 && s.data[Slot(s, t)] == s.log[t]
    case Reading(i) =>
      && t < s.deq && s.enq <= t + |s.sequence| && s.sequence[Slot(s, t)] == t + 1
      && s.data[Slot(s, t)] == s.log[t] && Holds(s, i, t)
    case Released => t < s.deq && s.delivered[t] == Some(s.log[t])
  }

  /** Thread `i` is between its successful compare-and-swap on ticket `t` and its sequence store. */
  ghost predicate Holds<T>(s: State<T>, i: nat, t: nat) {
    i < |s.pcs| && match s.pcs[i]
                   case EnqWrite(_, x) => x == t
                   case EnqPublish(_, x) => x == t
                   case DeqRead(x) => x == t
                   case DeqRelease(x, _) => x == t
                   case _ => false
  }

  ghost predicate Counted<T>(s: State<T>) {
    && Shaped(s)
    && s.deq <= s.enq <= s.deq + |s.sequence|
    && s.enq == |s.log| == |s.phase|
    && |s.delivered| == s.deq
  }

  /** A slot whose previous lap is over carries the number of the ticket it waits for. */
  ghost predicate FreshOk<T>(s: State<T>, t: nat)
    requires Counted(s) && s.enq <= t < s.enq + |s.sequence|
  {
    var n := |s.sequence|;
    t < n || s.phase[t - n].Released? ==> s.sequence[Slot(s, t)] == t
  }

  ghost predicate ThreadOk<T>(s: State<T>, i: nat)
    requires Counted(s) && i < |s.pcs|
  {
    match s.pcs[i]
    case EnqLoadSeq(_, x) => x <= s.enq
    case EnqCas(_, x) => x <= s.enq && (x == s.enq ==> s.sequence[Slot(s, x)] == x)
    case EnqWrite(v, x) => x < s.enq && s.phase[x] == Writing(i) && s.log[x] == v
    case EnqPublish(v, x) => x < s.enq && s.phase[x] == Writing(i) && s.log[x] == v && s.data[Slot(s, x)] == v
    case DeqLoadSeq(x) => x <= s.deq
    case DeqCas(x) => x <= s.deq && (x == s.deq ==> x < s.enq && s.phase[x].Published?)
    case DeqRead(x) => x < s.deq && s.phase[x] == Reading(i) && s.delivered[x].None?
    case DeqRelease(x, v) =>
      x < s.deq && s.phase[x] == Reading(i) && v == s.log[x] && s.delivered[x] == Some(v)
    case _ => true
  }

  ghost predicate Inv<T>(s: State<T>) {
    && Counted(s)
    && (forall t :: 0 <= t < s.enq ==> TicketOk(s, t))
    && (forall t :: s.enq <= t < s.enq + |s.sequence| ==> FreshOk(s, t))
    && (forall i :: 0 <= i < |s.pcs| ==> ThreadOk(s, i))
  }

  lemma InitInv<T>(size: nat, threads: nat, blank: T)
    requires size >= 2
    ensures Inv(Init(size, threads, blank))
  {
    forall t: nat | t < size ensures Cell(size, t) == t {
      ModOf(t, 0, t, size);
    }
  }

  /** Distinct tickets that are still in a cell are in distinct cells. */
  lemma Apart<T>(s: State<T>, t: nat, u: nat)
    requires Shaped(s)
    ensures Slot(s, t) == Slot(s, u) && (t <= u < t + |s.sequence| || u <= t < u + |s.sequence|) ==> t == u
    ensures Slot(s, t) == Slot(s, u) && t < u < t + 2 * |s.sequence| ==> u == t + |s.sequence|
  {
    var n := |s.sequence|;
    CellWindow(n, t, u);
    CellWindow(n, u, t);
    CellWindow(n, t + n, u);
    CellWindow(n, u, t + n);
  }

  /** What a load of the cell sequence reveals at the enqueue index. */
  lemma EnqueueSlot<T>(s: State<T>)
    requires Inv(s)
    ensures var q, n := s.sequence[Slot(s, s.enq)], |s.sequence|;
            q <= s.enq && (q == s.enq <==> s.enq < n || s.phase[s.enq - n].Released?)
  {
    var n := |s.sequence|;
    assert FreshOk(s, s.enq);
    if s.enq >= n {
      CellWindow(n, s.enq - n, s.enq);
      assert TicketOk(s, s.enq - n);
    }
  }

  /** What a load of the cell sequence reveals at the dequeue index. */
  lemma DequeueSlot<T>(s: State<T>)
    requires Inv(s)
    ensures var q := s.sequence[Slot(s, s.deq)];
            q <= s.deq + 1 && (q == s.deq + 1 <==> s.deq < s.enq && s.phase[s.deq].Published?)
  {
    if s.deq < s.enq {
      assert TicketOk(s, s.deq);
    } else {
      EnqueueSlot(s);
    }
  }

  /** Behind the indices every cell has moved on. */
  lemma {:induction false} PastSlot<T>(s: State<T>, t: nat)
    requires Inv(s) && t < s.enq
    ensures s.sequence[Slot(s, t)] >= t
    ensures t < s.deq ==> s.sequence[Slot(s, t)] > t
    decreases s.enq - t
  {
    var n := |s.sequence|;
    assert TicketOk(s, t);
    if s.phase[t].Released? {
      CellWindow(n, t, t);
      if t + n < s.enq {
        PastSlot(s, t + n);
      } else {
        assert FreshOk(s, t + n);
      }
    }
  }

  /** A thread that holds no ticket may move freely, as long as its own facts hold. */
  lemma InvMove<T>(s: State<T>, i: nat, pc: Pc<T>)
    requires Inv(s) && i < |s.pcs|
    requires forall t :: !Holds(s, i, t)
    requires ThreadOk(At(s, i, pc), i)
    ensures Inv(At(s, i, pc))
  {
    var s' := At(s, i, pc);
    forall t | 0 <= t < s'.enq ensures TicketOk(s', t) {
      hide FreshOk;
      assert TicketOk(s, t);
      assert !Holds(s, i, t);
    }
    forall t | s'.enq <= t < s'.enq + |s'.sequence| ensures FreshOk(s', t) {
      hide ThreadOk;
      assert FreshOk(s, t);
    }
    forall j | 0 <= j < |s'.pcs| ensures ThreadOk(s', j) {
      hide FreshOk;
      assert ThreadOk(s, j);
    }
  }

  ghost predicate Owning<T>(pc: Pc<T>) {
    pc.EnqWrite? || pc.EnqPublish? || pc.DeqRead? || pc.DeqRelease?
  }

  lemma InvLoad<T>(s: State<T>, i: nat, c: Choice<T>)
    requires Inv(s) && i < |s.pcs|
    requires !Owning(s.pcs[i]) && !s.pcs[i].EnqCas? && !s.pcs[i].DeqCas?
    ensures Inv(Step(s, i, c))
  {
    var s' := Step(s, i, c);
    assert ThreadOk(s, i);
    DequeueSlot(s);
    assert ThreadOk(s', i);
    if s' == s {
    } else {
      assert s' == At(s, i, s'.pcs[i]);
      InvMove(s, i, s'.pcs[i]);
    }
  }

  lemma InvEnqCas<T>(s: State<T>, i: nat, c: Choice<T>)
    requires Inv(s) && i < |s.pcs| && s.pcs[i].EnqCas?
    ensures Inv(Step(s, i, c))
  {
    var s', n := Step(s, i, c), |s.sequence|;
    assert ThreadOk(s, i);
    EnqueueSlot(s);
    if s.enq >= n {
      assert TicketOk(s, s.enq - n);
    }
    forall t | 0 <= t < s'.enq ensures TicketOk(s', t) {
      hide FreshOk;
      if t < s.enq {
        assert TicketOk(s, t);
      }
    }
    forall t | s'.enq <= t < s'.enq + n ensures FreshOk(s', t) {
      hide ThreadOk;
      if t < s.enq + n {
        assert FreshOk(s, t);
      }
    }
    forall j | 0 <= j < |s'.pcs| ensures ThreadOk(s', j) {
      hide FreshOk;
      assert ThreadOk(s, j);
    }
  }

  lemma DeqCasTicket<T>(s: State<T>, i: nat, c: Choice<T>, t: nat)
    requires Inv(s) && i < |s.pcs| && s.pcs[i].DeqCas? && t < s.enq
    ensures Counted(Step(s, i, c)) && TicketOk(Step(s, i, c), t)
  {
    hide FreshOk;
    assert ThreadOk(s, i) && TicketOk(s, t);
  }

  lemma InvDeqCas<T>(s: State<T>, i: nat, c: Choice<T>)
    requires Inv(s) && i < |s.pcs| && s.pcs[i].DeqCas?
    ensures Inv(Step(s, i, c))
  {
    var s', n := Step(s, i, c), |s.sequence|;
    assert ThreadOk(s, i);
    forall t | 0 <= t < s'.enq ensures TicketOk(s', t) {
      hide TicketOk, FreshOk, ThreadOk;
      DeqCasTicket(s, i, c, t);
    }
    forall t | s'.enq <= t < s'.enq + n ensures FreshOk(s', t) {
      hide TicketOk;
      assert FreshOk(s, t);
    }
    forall j | 0 <= j < |s'.pcs| ensures ThreadOk(s', j) {
      hide TicketOk, FreshOk;
      assert ThreadOk(s, j);
    }
  }

  lemma InvEnqWrite<T>(s: State<T>, i: nat, c: Choice<T>)
    requires Inv(s) && i < |s.pcs| && s.pcs[i].EnqWrite?
    ensures Inv(Step(s, i, c))
  {
    var s', n, x := Step(s, i, c), |s.sequence|, s.pcs[i].index;
    assert ThreadOk(s, i) && TicketOk(s, x);
    forall t | 0 <= t < s'.enq ensures TicketOk(s', t) {
      hide FreshOk;
      assert TicketOk(s, t);
      Apart(s, t, x);
    }
    forall t | s'.enq <= t < s'.enq + n ensures FreshOk(s', t) {
      hide ThreadOk;
      assert FreshOk(s, t);
    }
    forall j | 0 <= j < |s'.pcs| ensures ThreadOk(s', j) {
      hide FreshOk;
      assert ThreadOk(s, j);
      if j != i && s.pcs[j].EnqPublish? {
        assert TicketOk(s, s.pcs[j].index);
        Apart(s, s.pcs[j].index, x);
      }
    }
  }

  lemma EnqPublishThread<T>(s: State<T>, i: nat, c: Choice<T>, j: nat)
    requires Inv(s) && i < |s.pcs| && s.pcs[i].EnqPublish? && j < |s.pcs| && Counted(Step(s, i, c))
    ensures ThreadOk(Step(s, i, c), j)
  {
    var x := s.pcs[i].index;
    assert ThreadOk(s, i) && ThreadOk(s, j) && TicketOk(s, x);
    if Slot(s, s.enq) == Slot(s, x) {
      EnqueueSlot(s);
      Apart(s, x, s.enq);
    }
  }

  lemma InvEnqPublish<T>(s: State<T>, i: nat, c: Choice<T>)
    requires Inv(s) && i < |s.pcs| && s.pcs[i].EnqPublish?
    ensures Inv(Step(s, i, c))
  {
    var s', n, x := Step(s, i, c), |s.sequence|, s.pcs[i].index;
    assert ThreadOk(s, i) && TicketOk(s, x);
    forall t | 0 <= t < s'.enq ensures TicketOk(s', t) {
      hide FreshOk;
      assert TicketOk(s, t);
      Apart(s, t, x);
    }
    forall t | s'.enq <= t < s'.enq + n ensures FreshOk(s', t) {
      hide ThreadOk;
      assert FreshOk(s, t);
      Apart(s, x, t);
    }
    forall j | 0 <= j < |s'.pcs| ensures ThreadOk(s', j) {
      hide FreshOk;
      EnqPublishThread(s, i, c, j);
    }
  }

  lemma InvDeqRead<T>(s: State<T>, i: nat, c: Choice<T>)
    requires Inv(s) && i < |s.pcs| && s.pcs[i].DeqRead?
    ensures Inv(Step(s, i, c))
  {
    var s', n, x := Step(s, i, c), |s.sequence|, s.pcs[i].index;
    assert ThreadOk(s, i) && TicketOk(s, x);
    forall t | 0 <= t < s'.enq ensures TicketOk(s', t) {
      hide FreshOk;
      assert TicketOk(s, t);
    }
    forall t | s'.enq <= t < s'.enq + n ensures FreshOk(s', t) {
      hide ThreadOk;
      assert FreshOk(s, t);
    }
    forall j | 0 <= j < |s'.pcs| ensures ThreadOk(s', j) {
      hide FreshOk;
      assert ThreadOk(s, j);
    }
  }

  lemma DeqReleaseTicket<T>(s: State<T>, i: nat, c: Choice<T>, t: nat)
    requires Inv(s) && i < |s.pcs| && s.pcs[i].DeqRelease? && t < s.enq
    ensures Counted(Step(s, i, c)) && TicketOk(Step(s, i, c), t)
  {
    hide FreshOk;
    var x := s.pcs[i].index;
    assert ThreadOk(s, i) && TicketOk(s, x) && TicketOk(s, t);
    Apart(s, t, x);
  }

  lemma DeqReleaseFresh<T>(s: State<T>, i: nat, c: Choice<T>, t: nat)
    requires Inv(s) && i < |s.pcs| && s.pcs[i].DeqRelease? && s.enq <= t < s.enq + |s.sequence|
    ensures Counted(Step(s, i, c)) && FreshOk(Step(s, i, c), t)
  {
    var n, x := |s.sequence|, s.pcs[i].index;
    assert ThreadOk(s, i) && TicketOk(s, x) && FreshOk(s, t);
    if Slot(s, t) == Slot(s, x) {
      Apart(s, x, t);
      CellWindow(n, x, x);
    } else if t == x + n {
      CellWindow(n, x, x);
    }
  }

  lemma DeqReleaseThread<T>(s: State<T>, i: nat, c: Choice<T>, j: nat)
    requires Inv(s) && i < |s.pcs| && s.pcs[i].DeqRelease? && j < |s.pcs|
    ensures Counted(Step(s, i, c)) && ThreadOk(Step(s, i, c), j)
  {
    hide FreshOk;
    var x := s.pcs[i].index;
    assert ThreadOk(s, i) && TicketOk(s, x) && ThreadOk(s, j);
    if Slot(s, s.enq) == Slot(s, x) {
      EnqueueSlot(s);
      Apart(s, x, s.enq);
    }
  }

  lemma InvDeqRelease<T>(s: State<T>, i: nat, c: Choice<T>)
    requires Inv(s) && i < |s.pcs| && s.pcs[i].DeqRelease?
    ensures Inv(Step(s, i, c))
  {
    hide TicketOk, FreshOk, ThreadOk;
    var s' := Step(s, i, c);
    forall t | 0 <= t < s.enq ensures Counted(s') && TicketOk(s', t) {
      DeqReleaseTicket(s, i, c, t);
    }
    forall t | s.enq <= t < s.enq + |s.sequence| ensures Counted(s') && FreshOk(s', t) {
      DeqReleaseFresh(s, i, c, t);
    }
    forall j | 0 <= j < |s.pcs| ensures Counted(s') && ThreadOk(s', j) {
      DeqReleaseThread(s, i, c, j);
    }
  }

  /** Every atomic access of every thread keeps the invariant. */
  lemma StepInv<T>(s: State<T>, i: nat, c: Choice<T>)
    requires Inv(s) && i < |s.pcs|
    ensures Inv(Step(s, i, c))
  {
    match s.pcs[i]
    case EnqCas(_, _) => InvEnqCas(s, i, c);
    case EnqWrite(_, _) => InvEnqWrite(s, i, c);
    case EnqPublish(_, _) => InvEnqPublish(s, i, c);
    case DeqCas(_) => InvDeqCas(s, i, c);
    case DeqRead(_) => InvDeqRead(s, i, c);
    case DeqRelease(_, _) => InvDeqRelease(s, i, c);
    case _ => InvLoad(s, i, c);
  }
}

/** The multi-producer single-consumer linked queue of mailbox.h and its eventfd wake-up.

  Producers run `push`, the consumer runs the drain loop that calls `popSafe` until it yields null.
  Each step is one shared access. `order`, `pushers`, `pushed`, `popped` and `taken` are bookkeeping:
  they record the order of the `head.exchange` calls and never decide a step.
 */
module MpscMachine {
  import opened Options

  /** A queue node; `storage` is empty once its value has been moved out. */
  datatype Node<T> = Node(storage: Option<T>, next: Option<nat>, freed: bool)

  datatype Producer =
    | Away
    | Exchange(node: nat)
    | Link(prev: nat, node: nat, pos: nat)
    | Notify(node: nat, pos: nat)

  datatype Consumer =
    | Asleep
    | Pop
    | ReadFd(ret: Option<nat>)
    | PopAgain
    | Take(ret: Option<nat>)

  datatype State<T> = State(
    nodes: seq<Node<T>>,
    head: nat,
    tail: nat,
    bound: bool,
    counter: nat,
    producers: seq<Producer>,
    consumer: Consumer,
    order: seq<nat>,
    pushers: seq<nat>,
    pushed: seq<T>,
    popped: seq<T>,
    taken: nat)

  datatype Move<T> = Produce(tid: nat, item: T) | Consume

  const MAX_COUNTER: nat := 0xffff_ffff_ffff_fffe

  predicate Shaped<T>(s: State<T>) {
    && s.head < |s.nodes| && s.tail < |s.nodes|
    && (forall p :: 0 <= p < |s.producers| ==> Known(s, s.producers[p]))
    && (forall n :: 0 <= n < |s.nodes| && s.nodes[n].next.Some? ==> s.nodes[n].next.value < |s.nodes|)
    && (s.consumer.Take? && s.consumer.ret.Some? ==> s.consumer.ret.value < |s.nodes|)
    && (s.consumer.ReadFd? && s.consumer.ret.Some? ==> s.consumer.ret.value < |s.nodes|)
  }

  predicate Known<T>(s: State<T>, p: Producer) {
    match p
    case Away => true
    case Exchange(n) => n < |s.nodes|
    case Link(prev, n, _) => prev < |s.nodes| && n < |s.nodes|
    case Notify(n, _) => n < |s.nodes|
  }

  /** `Queue()`: one sentinel, no value. */
  function Init<T>(bound: bool, threads: nat): State<T> {
    State([Node(None, None, false)], 0, 0, bound, 0, seq(threads, i => Away), Asleep, [0], [0], [], [], 0)
  }

  function Value<T>(s: State<T>, n: nat): seq<T>
    requires n < |s.nodes|
  {
    if s.nodes[n].storage.Some? then [s.nodes[n].storage.value] else []
  }

  /** One shared access of producer `p`; `item` matters only when a push starts. */
  function ProducerStep<T>(s: State<T>, p: nat, item: T): State<T>
    requires Shaped(s) && p < |s.producers|
  {
    match s.producers[p]
    case Away =>
      s.(nodes := s.nodes + [Node(Some(item), None, false)], producers := s.producers[p := Exchange(|s.nodes|)])
    case Exchange(n) =>
      s.(head := n, producers := s.producers[p := Link(s.head, n, |s.order|)],
         order := s.order + [n], pushers := s.pushers + [p], pushed := s.pushed + Value(s, n))
    case Link(prev, n, pos) =>
      s.(nodes := s.nodes[prev := s.nodes[prev].(next := Some(n))],
         producers := s.producers[p := if s.bound then Notify(n, pos) else Away])
    case Notify(_, _) =>
      s.(counter := if s.counter < MAX_COUNTER then s.counter + 1 else s.counter,
         producers := s.producers[p := Away])
  }

  /** `Queue::pop`: the node handed out, and the state after it. */
  function PopNode<T>(s: State<T>): (r: (Option<nat>, State<T>))
    requires Shaped(s)
  {
    match s.nodes[s.tail].next
    case None => (None, s)
    case Some(next) =>
      var moved := s.nodes[s.tail := s.nodes[s.tail].(storage := s.nodes[next].storage)];
      (Some(s.tail),
       s.(tail := next, taken := s.taken + 1, nodes := moved[next := moved[next].(storage := None)]))
  }

  /** One access of the consumer inside its drain loop. */
  function ConsumerStep<T>(s: State<T>): State<T>
    requires Shaped(s)
  {
    match s.consumer
    case Asleep => s.(consumer := Pop)
    case Pop =>
      var (ret, s1) := PopNode(s);
      s1.(consumer := if s.bound then ReadFd(ret) else Take(ret))
    case ReadFd(ret) =>
      if s.counter > 0 then s.(counter := 0, consumer := if ret.None? then PopAgain else Take(ret))
      else s.(consumer := Take(ret))
    case PopAgain =>
      var (ret, s1) := PopNode(s);
      s1.(consumer := Take(ret))
    case Take(None) => s.(consumer := Asleep)
    case Take(Some(n)) =>
      s.(popped := s.popped + Value(s, n), nodes := s.nodes[n := s.nodes[n].(storage := None, freed := true)],
         consumer := Pop)
  }

  function Step<T>(s: State<T>, m: Move<T>): State<T>
    requires Shaped(s) && (m.Produce? ==> m.tid < |s.producers|)
  {
    match m
    case Produce(p, item) => ProducerStep(s, p, item)
    case Consume => ConsumerStep(s)
  }

  // ---------------------------------------------------------------------------------------------
  // The inductive invariant
  // ---------------------------------------------------------------------------------------------

  ghost predicate Counted<T>(s: State<T>) {
    && Shaped(s)
    && |s.order| == |s.pushers| == |s.pushed| + 1
    && s.taken < |s.order|
    && s.order[s.taken] == s.tail && s.order[|s.order| - 1] == s.head
    && (forall j :: 0 <= j < |s.order| ==> s.order[j] < |s.nodes|)
    && (forall j :: 1 <= j < |s.pushers| ==> s.pushers[j] < |s.producers|)
    && (forall j, k :: 0 <= j < k < |s.order| ==> s.order[j] != s.order[k])
  }

  /** The node exchanged at position `j` and its link to the node exchanged right after it. */
  ghost predicate PlaceOk<T>(s: State<T>, j: nat)
    requires Counted(s) && j < |s.order|
  {
    var node := s.nodes[s.order[j]];
    && (j + 1 < |s.order| ==>
          || node.next == Some(s.order[j + 1])
          || (node.next.None? && s.taken <= j && s.producers[s.pushers[j + 1]] == Link(s.order[j], s.order[j + 1], j + 1)))
    && (j + 1 == |s.order| ==> node.next.None?)
    && (s.taken < j ==> node.storage == Some(s.pushed[j - 1]))
    && (s.taken <= j ==> !node.freed)
  }

  ghost predicate ProducerOk<T>(s: State<T>, p: nat)
    requires Counted(s) && p < |s.producers|
  {
    match s.producers[p]
    case Away => true
    case Exchange(n) =>
      && (forall j :: 0 <= j < |s.order| ==> s.order[j] != n)
      && s.nodes[n].storage.Some? && s.nodes[n].next.None? && !s.nodes[n].freed
      && (forall q :: 0 <= q < |s.producers| && q != p ==> s.producers[q] != Exchange(n))
    case Link(prev, n, pos) =>
      && s.taken < pos < |s.order| && s.order[pos - 1] == prev && s.order[pos] == n && s.pushers[pos] == p
      && s.nodes[prev].next.None?
    case Notify(n, pos) =>
      && 1 <= pos < |s.order| && s.order[pos] == n && s.pushers[pos] == p
      && s.nodes[s.order[pos - 1]].next == Some(n)
  }

  /** The node the consumer has popped and not yet emptied. */
  function InHand(c: Consumer): Option<nat> {
    match c
    case ReadFd(ret) => ret
    case Take(ret) => ret
    case _ => None
  }

  ghost predicate ConsumerOk<T>(s: State<T>)
    requires Counted(s)
  {
    && (match InHand(s.consumer)
        case None => |s.popped| == s.taken
        case Some(n) =>
          && |s.popped| + 1 == s.taken && n == s.order[s.taken - 1]
          && s.nodes[n].storage == Some(s.pushed[s.taken - 1]) && !s.nodes[n].freed)
    && s.popped == s.pushed[..|s.popped|]
  }

  /** The consumer has concluded that the queue is drained, or is about to. */
  predicate GivingUp(c: Consumer) {
    c.Asleep? || (c.ReadFd? && c.ret.None?) || (c.Take? && c.ret.None?)
  }

  /** Some node is linked after `tail`. */
  predicate Waiting<T>(s: State<T>)
    requires Shaped(s)
  {
    s.nodes[s.tail].next.Some?
  }

  ghost predicate WakeOk<T>(s: State<T>)
    requires Counted(s)
  {
    s.bound && GivingUp(s.consumer) && Waiting(s) ==>
      || s.counter > 0
      || (s.taken + 1 < |s.order| && s.producers[s.pushers[s.taken + 1]] == Notify(s.order[s.taken + 1], s.taken + 1))
  }

  ghost predicate Inv<T>(s: State<T>) {
    && Counted(s)
    && (forall j :: 0 <= j < |s.order| ==> PlaceOk(s, j))
    && (forall p :: 0 <= p < |s.producers| ==> ProducerOk(s, p))
    && ConsumerOk(s)
    && WakeOk(s)
  }

  lemma InitInv<T>(bound: bool, threads: nat)
    ensures Inv(Init<T>(bound, threads))
  {
  }

  lemma StartProducer<T>(s: State<T>, p: nat, item: T, q: nat)
    requires Inv(s) && p < |s.producers| && s.producers[p].Away? && q < |s.producers|
    requires Counted(ProducerStep(s, p, item))
    ensures ProducerOk(ProducerStep(s, p, item), q)
  {
    hide PlaceOk, ConsumerOk, WakeOk;
    assert ProducerOk(s, q);
  }

  lemma StartPlace<T>(s: State<T>, p: nat, item: T, j: nat)
    requires Inv(s) && p < |s.producers| && s.producers[p].Away? && j < |s.order|
    requires Counted(ProducerStep(s, p, item))
    ensures PlaceOk(ProducerStep(s, p, item), j)
  {
    hide ProducerOk, ConsumerOk, WakeOk;
    assert PlaceOk(s, j);
  }

  lemma InvStart<T>(s: State<T>, p: nat, item: T)
    requires Inv(s) && p < |s.producers| && s.producers[p].Away?
    ensures Inv(ProducerStep(s, p, item))
  {
    hide PlaceOk, ProducerOk;
    var s' := ProducerStep(s, p, item);
    assert Counted(s');
    forall j | 0 <= j < |s'.order| ensures PlaceOk(s', j) {
      StartPlace(s, p, item, j);
    }
    forall q | 0 <= q < |s'.producers| ensures ProducerOk(s', q) {
      StartProducer(s, p, item, q);
    }
  }

  lemma CountedExchange<T>(s: State<T>, p: nat, item: T)
    requires Inv(s) && p < |s.producers| && s.producers[p].Exchange?
    ensures Counted(ProducerStep(s, p, item))
  {
    assert ProducerOk(s, p);
  }

  lemma InvExchange<T>(s: State<T>, p: nat, item: T)
    requires Inv(s) && p < |s.producers| && s.producers[p].Exchange?
    ensures Inv(ProducerStep(s, p, item))
  {
    var s' := ProducerStep(s, p, item);
    CountedExchange(s, p, item);
    forall j | 0 <= j < |s'.order| ensures PlaceOk(s', j) {
      hide ConsumerOk, WakeOk;
      ExchangePlace(s, p, item, j);
    }
    forall q | 0 <= q < |s'.producers| ensures ProducerOk(s', q) {
      hide ConsumerOk, WakeOk;
      ExchangeProducer(s, p, item, q);
    }
    assert PlaceOk(s, s.taken);
  }

  lemma ExchangePlace<T>(s: State<T>, p: nat, item: T, j: nat)
    requires Inv(s) && p < |s.producers| && s.producers[p].Exchange?
    requires Counted(ProducerStep(s, p, item)) && j <= |s.order|
    ensures PlaceOk(ProducerStep(s, p, item), j)
  {
    assert ProducerOk(s, p);
    if j < |s.order| {
      assert PlaceOk(s, j);
    }
  }

  lemma ExchangeProducer<T>(s: State<T>, p: nat, item: T, q: nat)
    requires Inv(s) && p < |s.producers| && s.producers[p].Exchange?
    requires Counted(ProducerStep(s, p, item)) && q < |s.producers|
    ensures ProducerOk(ProducerStep(s, p, item), q)
  {
    assert ProducerOk(s, p) && ProducerOk(s, q);
    assert PlaceOk(s, |s.order| - 1);
  }

  lemma InvLink<T>(s: State<T>, p: nat, item: T)
    requires Inv(s) && p < |s.producers| && s.producers[p].Link?
    ensures Inv(ProducerStep(s, p, item))
  {
    var s', pos := ProducerStep(s, p, item), s.producers[p].pos;
    assert ProducerOk(s, p);
    forall j | 0 <= j < |s'.order| ensures PlaceOk(s', j) {
      hide ConsumerOk, WakeOk;
      LinkPlace(s, p, item, j);
    }
    forall q | 0 <= q < |s'.producers| ensures ProducerOk(s', q) {
      hide ConsumerOk, WakeOk;
      LinkProducer(s, p, item, q);
    }
    if pos - 1 > s.taken {
      assert s.order[pos - 1] != s.order[s.taken];
    }
  }

  lemma LinkPlace<T>(s: State<T>, p: nat, item: T, j: nat)
    requires Inv(s) && p < |s.producers| && s.producers[p].Link?
    requires Counted(ProducerStep(s, p, item)) && j < |s.order|
    ensures PlaceOk(ProducerStep(s, p, item), j)
  {
    assert ProducerOk(s, p) && PlaceOk(s, j);
  }

  lemma LinkProducer<T>(s: State<T>, p: nat, item: T, q: nat)
    requires Inv(s) && p < |s.producers| && s.producers[p].Link?
    requires Counted(ProducerStep(s, p, item)) && q < |s.producers|
    ensures ProducerOk(ProducerStep(s, p, item), q)
  {
    assert ProducerOk(s, p) && ProducerOk(s, q);
  }

  lemma InvNotify<T>(s: State<T>, p: nat, item: T)
    requires Inv(s) && p < |s.producers| && s.producers[p].Notify?
    ensures Inv(ProducerStep(s, p, item))
  {
    var s' := ProducerStep(s, p, item);
    forall j | 0 <= j < |s'.order| ensures PlaceOk(s', j) {
      hide ConsumerOk, WakeOk;
      assert PlaceOk(s, j);
    }
    forall q | 0 <= q < |s'.producers| ensures ProducerOk(s', q) {
      hide ConsumerOk, WakeOk;
      assert ProducerOk(s, q);
    }
  }

  /** The part of the invariant that `PopNode` keeps whatever the consumer is about to do. */
  ghost predicate Queued<T>(s: State<T>) {
    && Counted(s)
    && (forall j :: 0 <= j < |s.order| ==> PlaceOk(s, j))
    && (forall p :: 0 <= p < |s.producers| ==> ProducerOk(s, p))
  }

  lemma PopPlace<T>(s: State<T>, j: nat)
    requires Queued(s) && Waiting(s) && j < |s.order|
    requires Counted(PopNode(s).1)
    ensures PlaceOk(PopNode(s).1, j)
  {
    assert PlaceOk(s, s.taken) && PlaceOk(s, j);
  }

  lemma PopProducer<T>(s: State<T>, q: nat)
    requires Queued(s) && Waiting(s) && q < |s.producers|
    requires Counted(PopNode(s).1)
    ensures ProducerOk(PopNode(s).1, q)
  {
    assert PlaceOk(s, s.taken) && ProducerOk(s, q);
  }

  lemma PopQueued<T>(s: State<T>)
    requires Queued(s) && Waiting(s)
    ensures var s' := PopNode(s).1;
            && Queued(s') && s'.taken == s.taken + 1 && PopNode(s).0 == Some(s.order[s.taken])
            && s'.nodes[s.tail].storage == Some(s.pushed[s.taken]) && !s'.nodes[s.tail].freed
  {
    var s' := PopNode(s).1;
    assert PlaceOk(s, s.taken);
    assert PlaceOk(s, s.taken + 1);
    forall j | 0 <= j < |s'.order| ensures PlaceOk(s', j) {
      hide ConsumerOk, WakeOk;
      PopPlace(s, j);
    }
    forall q | 0 <= q < |s'.producers| ensures ProducerOk(s', q) {
      hide ConsumerOk, WakeOk;
      PopProducer(s, q);
    }
  }

  lemma InvPop<T>(s: State<T>)
    requires Inv(s) && (s.consumer.Pop? || s.consumer.PopAgain?)
    ensures Inv(ConsumerStep(s))
  {
    hide PlaceOk, ProducerOk;
    var s', s1 := ConsumerStep(s), PopNode(s).1;
    if Waiting(s) {
      PopQueued(s);
    }
    Repaint(s1, s'.consumer, s1.counter);
  }

  /** The queue part of the invariant looks neither at the consumer's position nor at the counter. */
  lemma Repaint<T>(s: State<T>, c: Consumer, k: nat)
    requires Queued(s) && Shaped(s.(consumer := c, counter := k))
    ensures Queued(s.(consumer := c, counter := k))
  {
    var s' := s.(consumer := c, counter := k);
    forall j | 0 <= j < |s'.order| ensures PlaceOk(s', j) {
      hide ConsumerOk, WakeOk;
      assert PlaceOk(s, j);
    }
    forall q | 0 <= q < |s'.producers| ensures ProducerOk(s', q) {
      hide ConsumerOk, WakeOk;
      assert ProducerOk(s, q);
    }
  }

  lemma InvTake<T>(s: State<T>)
    requires Inv(s) && s.consumer.Take? && s.consumer.ret.Some?
    ensures Inv(ConsumerStep(s))
  {
    var s' := ConsumerStep(s);
    forall j | 0 <= j < |s'.order| ensures PlaceOk(s', j) {
      hide ConsumerOk, WakeOk;
      assert PlaceOk(s, j);
    }
    forall q | 0 <= q < |s'.producers| ensures ProducerOk(s', q) {
      hide ConsumerOk, WakeOk;
      assert ProducerOk(s, q);
    }
  }

  lemma WaitConsumer<T>(s: State<T>)
    requires Inv(s) && (s.consumer.Asleep? || s.consumer.ReadFd? || (s.consumer.Take? && s.consumer.ret.None?))
    ensures var s' := ConsumerStep(s);
            && s' == s.(consumer := s'.consumer, counter := s'.counter) && Counted(s') && ConsumerOk(s') && WakeOk(s')
  {
    hide PopNode, PlaceOk, ProducerOk;
  }

  /** The steps that touch no node. */
  lemma InvWait<T>(s: State<T>)
    requires Inv(s) && (s.consumer.Asleep? || s.consumer.ReadFd? || (s.consumer.Take? && s.consumer.ret.None?))
    ensures Inv(ConsumerStep(s))
  {
    hide PlaceOk, ProducerOk, ConsumerOk, WakeOk, ConsumerStep;
    var s' := ConsumerStep(s);
    WaitConsumer(s);
    Repaint(s, s'.consumer, s'.counter);
  }

  lemma InvConsume<T>(s: State<T>)
    requires Inv(s)
    ensures Inv(ConsumerStep(s))
  {
    hide Inv, ConsumerStep;
    if s.consumer.Pop? || s.consumer.PopAgain? {
      InvPop(s);
    } else if s.consumer.Take? && s.consumer.ret.Some? {
      InvTake(s);
    } else {
      InvWait(s);
    }
  }

  /** Every shared access keeps the invariant. */
  lemma StepInv<T>(s: State<T>, m: Move<T>)
    requires Inv(s) && (m.Produce? ==> m.tid < |s.producers|)
    ensures Inv(Step(s, m))
  {
    match m
    case Consume => InvConsume(s);
    case Produce(p, item) =>
      match s.producers[p]
      case Away => InvStart(s, p, item);
      case Exchange(_) => InvExchange(s, p, item);
      case Link(_, _, _) => InvLink(s, p, item);
      case Notify(_, _) => InvNotify(s, p, item);
  }
}

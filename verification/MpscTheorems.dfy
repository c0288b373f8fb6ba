/** What every run of the linked queue and of its eventfd promises. */
module MpscTheorems {
  import opened MpscMachine
  import opened Options

  /** The state after a whole interleaving; the invariant holds all along. */
  ghost function Execute<T>(s: State<T>, moves: seq<Move<T>>): (r: State<T>)
    requires Inv(s)
    requires forall m :: m in moves && m.Produce? ==> m.tid < |s.producers|
    ensures Inv(r) && |r.producers| == |s.producers| && r.bound == s.bound
    decreases moves
  {
    if moves == [] then s
    else
      StepInv(s, moves[0]);
      SameThreads(s, moves[0]);
      Execute(Step(s, moves[0]), moves[1..])
  }

  lemma SameThreads<T>(s: State<T>, m: Move<T>)
    requires Shaped(s) && (m.Produce? ==> m.tid < |s.producers|)
    ensures |Step(s, m).producers| == |s.producers| && Step(s, m).bound == s.bound
  {
  }

  /** The state after `moves`, from a new queue with `threads` producers. */
  ghost function Reached<T>(bound: bool, threads: nat, moves: seq<Move<T>>): (r: State<T>)
    requires forall m :: m in moves && m.Produce? ==> m.tid < threads
    ensures Inv(r) && |r.producers| == threads && r.bound == bound
  {
    InitInv<T>(bound, threads);
    Execute(Init(bound, threads), moves)
  }

  /** Values already ordered stay ordered, values already popped stay popped. */
  ghost predicate Grows<T>(s: State<T>, s': State<T>) {
    s.pushed <= s'.pushed && s.popped <= s'.popped && s.taken <= s'.taken && s.order <= s'.order
  }

  lemma StepGrows<T>(s: State<T>, m: Move<T>)
    requires Inv(s) && (m.Produce? ==> m.tid < |s.producers|)
    ensures Grows(s, Step(s, m))
  {
  }

  lemma {:induction false} RunGrows<T>(s: State<T>, moves: seq<Move<T>>)
    requires Inv(s)
    requires forall m :: m in moves && m.Produce? ==> m.tid < |s.producers|
    ensures Grows(s, Execute(s, moves))
    decreases moves
  {
    if moves != [] {
      StepInv(s, moves[0]);
      SameThreads(s, moves[0]);
      StepGrows(s, moves[0]);
      RunGrows(Step(s, moves[0]), moves[1..]);
    }
  }

  /** The values popped are the first values pushed, in the order of the `head.exchange` calls, and stay so. */
  lemma PopsInOrder<T>(bound: bool, threads: nat, before: seq<Move<T>>, after: seq<Move<T>>)
    requires forall m :: m in before && m.Produce? ==> m.tid < threads
    requires forall m :: m in after && m.Produce? ==> m.tid < threads
    ensures var s := Reached(bound, threads, before); var s' := Execute(s, after);
            && s.popped <= s'.popped <= s'.pushed && s.pushed <= s'.pushed
            && |s.popped| <= s.taken <= |s.pushed| && s.taken <= |s.popped| + 1
  {
    RunGrows(Reached(bound, threads, before), after);
  }

  /** A null `pop` means the queue is empty, or the next producer has exchanged but not yet linked. */
  lemma NullPop<T>(s: State<T>)
    requires Inv(s)
    ensures PopNode(s).0.None? <==>
            || s.head == s.tail
            || (s.taken < |s.pushed| && s.producers[s.pushers[s.taken + 1]] == Link(s.tail, s.order[s.taken + 1], s.taken + 1))
  {
    assert PlaceOk(s, s.taken);
    if s.taken < |s.pushed| && s.producers[s.pushers[s.taken + 1]].Link? {
      assert ProducerOk(s, s.pushers[s.taken + 1]);
    }
  }

  /** A node that was handed to the consumer is never written by a producer, and no freed node is touched. */
  lemma NoTouchAfterHandOut<T>(bound: bool, threads: nat, before: seq<Move<T>>, after: seq<Move<T>>, j: nat, p: nat)
    requires forall m :: m in before && m.Produce? ==> m.tid < threads
    requires forall m :: m in after && m.Produce? ==> m.tid < threads
    requires j < Reached(bound, threads, before).taken && p < threads
    ensures var s := Reached(bound, threads, before); var s' := Execute(s, after);
            && j < |s.order|
            && !(s'.producers[p].Link? && s'.producers[p].prev == s.order[j])
            && (s'.producers[p].Link? ==> !s'.nodes[s'.producers[p].prev].freed)
            && !s'.nodes[s'.tail].freed && s'.tail != s.order[j]
  {
    var s := Reached(bound, threads, before);
    var s' := Execute(s, after);
    RunGrows(s, after);
    assert s'.order[j] == s.order[j];
    assert PlaceOk(s', s'.taken);
    assert ProducerOk(s', p);
    if s'.producers[p].Link? {
      assert PlaceOk(s', s'.producers[p].pos - 1);
    }
  }

  /** No lost wake-up: an item left behind by a sleeping consumer has its signal up or on its way,
      and once nobody is in the middle of a push, every item left behind keeps the counter positive. */
  lemma NoLostWakeup<T>(threads: nat, moves: seq<Move<T>>)
    requires forall m :: m in moves && m.Produce? ==> m.tid < threads
    ensures var s := Reached(true, threads, moves);
            && |s.pushers| == |s.order|
            && (s.consumer.Asleep? && Waiting(s) ==>
              || s.counter > 0
              || (s.taken + 1 < |s.order| && s.pushers[s.taken + 1] < threads
                  && s.producers[s.pushers[s.taken + 1]] == Notify(s.order[s.taken + 1], s.taken + 1)))
            && (s.consumer.Asleep? && (forall p :: 0 <= p < threads ==> s.producers[p].Away?) ==>
              s.counter > 0 || s.popped == s.pushed)
  {
    var s := Reached<T>(true, threads, moves);
    assert PlaceOk(s, s.taken);
  }

  /** The queue a client sees: values exchanged and not yet popped. */
  function Queue<T>(s: State<T>): seq<T>
    requires s.taken <= |s.pushed|
  {
    s.pushed[s.taken..]
  }

  /** Each access appends the value being exchanged, removes the oldest value, or leaves the queue as it is. */
  lemma StepRefines<T>(s: State<T>, m: Move<T>)
    requires Inv(s) && (m.Produce? ==> m.tid < |s.producers|)
    ensures var s' := Step(s, m);
            && s'.taken <= |s'.pushed|
            && Queue(s') ==
               if m.Produce? && s.producers[m.tid].Exchange? then Queue(s) + Value(s, s.producers[m.tid].node)
               else if m.Consume? && (s.consumer.Pop? || s.consumer.PopAgain?) && Waiting(s) then Queue(s)[1..]
               else Queue(s)
  {
    StepInv(s, m);
    assert PlaceOk(s, s.taken);
    if m.Produce? {
      assert ProducerOk(s, m.tid);
    }
  }
}

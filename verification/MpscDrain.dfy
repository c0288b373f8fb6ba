/** The eventfd of a bound queue seen from both sides, and what a drain with nobody pushing comes to. */
module MpscDrain {
  import opened MpscMachine
  import opened MpscTheorems
  import opened Options

  // ---------------------------------------------------------------------------------------------
  // The counter is the signals since the last read
  // ---------------------------------------------------------------------------------------------

  /** How many signals have been written since the consumer last read the eventfd with success, if `n` had before `m`. */
  function Unread<T>(s: State<T>, m: Move<T>, n: nat): nat
    requires m.Produce? ==> m.tid < |s.producers|
  {
    if m.Produce? && s.producers[m.tid].Notify? then n + 1
    else if m.Consume? && s.consumer.ReadFd? && s.counter > 0 then 0
    else n
  }

  ghost function Signals<T>(s: State<T>, moves: seq<Move<T>>, n: nat): nat
    requires Inv(s) && forall m :: m in moves && m.Produce? ==> m.tid < |s.producers|
    decreases moves
  {
    if moves == [] then n
    else
      StepInv(s, moves[0]);
      SameThreads(s, moves[0]);
      Signals(Step(s, moves[0]), moves[1..], Unread(s, moves[0], n))
  }

  /** What an eventfd holds after `n` writes of one. */
  function Held(n: nat): nat {
    if n <= 0xffff_ffff_ffff_fffe then n else 0xffff_ffff_ffff_fffe
  }

  lemma StepSignals<T>(s: State<T>, m: Move<T>, n: nat)
    requires Inv(s) && (m.Produce? ==> m.tid < |s.producers|) && s.counter == Held(n)
    ensures Step(s, m).counter == Held(Unread(s, m, n))
  {
  }

  lemma {:induction false} RunSignals<T>(s: State<T>, moves: seq<Move<T>>, n: nat)
    requires Inv(s) && (forall m :: m in moves && m.Produce? ==> m.tid < |s.producers|) && s.counter == Held(n)
    ensures Execute(s, moves).counter == Held(Signals(s, moves, n))
    decreases moves
  {
    if moves != [] {
      StepInv(s, moves[0]);
      SameThreads(s, moves[0]);
      StepSignals(s, moves[0], n);
      RunSignals(Step(s, moves[0]), moves[1..], Unread(s, moves[0], n));
    }
  }

  /** In every run the eventfd holds exactly the signals written since it was last read. */
  lemma CounterIsUnread<T>(bound: bool, threads: nat, moves: seq<Move<T>>)
    requires forall m :: m in moves && m.Produce? ==> m.tid < threads
    ensures Inv(Init<T>(bound, threads))
    ensures Reached(bound, threads, moves).counter == Held(Signals(Init<T>(bound, threads), moves, 0))
  {
    InitInv<T>(bound, threads);
    RunSignals(Init<T>(bound, threads), moves, 0);
  }

  // ---------------------------------------------------------------------------------------------
  // A drain on its own
  // ---------------------------------------------------------------------------------------------

  ghost predicate NobodyPushes<T>(s: State<T>) {
    forall p :: 0 <= p < |s.producers| ==> s.producers[p].Away?
  }

  /** `n` accesses of the consumer alone. */
  ghost function Alone<T>(s: State<T>, n: nat): State<T>
    requires Inv(s)
    decreases n
  {
    if n == 0 then s
    else
      InvConsume(s);
      Alone(ConsumerStep(s), n - 1)
  }

  lemma {:induction false} AloneOn<T>(s: State<T>, m: nat, n: nat)
    requires Inv(s)
    ensures Inv(Alone(s, m)) && Alone(Alone(s, m), n) == Alone(s, m + n)
    decreases m
  {
    hide PlaceOk, ProducerOk, ConsumerOk, WakeOk, ConsumerStep;
    if m > 0 {
      InvConsume(s);
      AloneOn(ConsumerStep(s), m - 1, n);
    }
  }

  lemma OneAlone<T>(s: State<T>)
    requires Inv(s)
    ensures Inv(ConsumerStep(s)) && Alone(s, 1) == ConsumerStep(s)
  {
    InvConsume(s);
    assert Alone(ConsumerStep(s), 0) == ConsumerStep(s);
  }

  /** With nobody pushing, the next item is linked. */
  lemma NextLinked<T>(s: State<T>)
    requires Inv(s) && NobodyPushes(s)
    ensures Waiting(s) <==> s.taken < |s.pushed|
  {
    assert PlaceOk(s, s.taken);
  }

  /** One round of the drain loop that finds an item. */
  lemma TakeRound<T>(s: State<T>) returns (n: nat)
    requires Inv(s) && NobodyPushes(s) && s.consumer.Pop? && s.taken < |s.pushed|
    ensures var r := Alone(s, n);
            && n > 0 && Inv(r) && NobodyPushes(r) && r.consumer.Pop? && r.bound == s.bound
            && r.pushed == s.pushed && r.taken == s.taken + 1
  {
    NextLinked(s);
    OneAlone(s);
    var a := ConsumerStep(s);
    OneAlone(a);
    AloneOn(s, 1, 1);
    n := 2;
    var b := ConsumerStep(a);
    if s.bound {
      OneAlone(b);
      AloneOn(s, 2, 1);
      n := 3;
    }
    AloneOn(s, n, 0);
  }

  /** The round that finds nothing, and goes to sleep. */
  lemma LastRound<T>(s: State<T>) returns (n: nat)
    requires Inv(s) && NobodyPushes(s) && s.consumer.Pop? && s.taken == |s.pushed|
    ensures var r := Alone(s, n);
            && Inv(r) && r.consumer.Asleep? && r.pushed == s.pushed && r.popped == r.pushed && (s.bound ==> r.counter == 0)
  {
    NextLinked(s);
    OneAlone(s);
    var a := ConsumerStep(s);
    OneAlone(a);
    AloneOn(s, 1, 1);
    n := 2;
    if s.bound {
      var b := ConsumerStep(a);
      OneAlone(b);
      AloneOn(s, 2, 1);
      n := 3;
      if s.counter > 0 {
        LastRead(s);
        OneAlone(ConsumerStep(b));
        AloneOn(s, 3, 1);
        n := 4;
      }
    }
    AloneOn(s, n, 0);
  }

  /** The second `pop`, behind the read, finds nothing either. */
  lemma LastRead<T>(s: State<T>)
    requires Inv(s) && NobodyPushes(s) && s.consumer.Pop? && s.taken == |s.pushed| && s.bound && s.counter > 0
    ensures var b := ConsumerStep(ConsumerStep(s)); b.consumer.PopAgain? && !Waiting(b) && b.counter == 0
  {
    NextLinked(s);
  }

  /** Woken up with nobody pushing, the consumer pops everything and sleeps again, with the eventfd at zero. */
  lemma {:induction false} LoneDrain<T>(s: State<T>) returns (n: nat)
    requires Inv(s) && NobodyPushes(s) && s.consumer.Pop?
    ensures var r := Alone(s, n);
            && r.consumer.Asleep? && r.pushed == s.pushed && r.popped == s.pushed && (s.bound ==> r.counter == 0)
    decreases |s.pushed| - s.taken
  {
    if s.taken < |s.pushed| {
      var k := TakeRound(s);
      var m := LoneDrain(Alone(s, k));
      AloneOn(s, k, m);
      n := k + m;
    } else {
      n := LastRound(s);
    }
  }
}

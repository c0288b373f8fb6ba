/** `whenAll` over a range: one shared record, changed under its lock by every input that settles. */
module WhenAllRange {
  import opened PromiseGraph

  /** Input `index` was fulfilled or rejected. */
  datatype Event = Value(index: nat, value: int) | Error(index: nat, exc: int)

  /** The state of the promise that `whenAll` returned. */
  datatype Verdict = Waiting | All(values: seq<int>) | Failed(exc: int)

  /** Inputs settle one after the other, each at most once. */
  ghost predicate History(total: nat, events: seq<Event>) {
    && (forall k :: 0 <= k < |events| ==> events[k].index < total)
    && (forall j, k :: 0 <= j < k < |events| ==> events[j].index != events[k].index)
  }

  /** The first rejection, if any. */
  function FirstError(events: seq<Event>): (k: nat)
    ensures k <= |events|
    ensures k < |events| ==> events[k].Error?
    ensures forall j :: 0 <= j < k ==> events[j].Value?
  {
    if events == [] || events[0].Error? then 0 else 1 + FirstError(events[1..])
  }

  /** What the returned promise has to be after `events`. */
  ghost predicate Decides(total: nat, events: seq<Event>, r: Verdict) {
    var k := FirstError(events);
    match r
    case Failed(e) => k < |events| && events[k].exc == e
    case All(vs) =>
      && k == |events| && 0 < total == |vs|
      && forall i :: 0 <= i < total ==> Value(i, vs[i]) in events
    case Waiting => k == |events| && (total == 0 || exists i :: 0 <= i < total && Missing(events, i))
  }

  ghost predicate Missing(events: seq<Event>, i: nat) {
    forall k :: 0 <= k < |events| ==> events[k].index != i
  }

  class WhenAll {
    const total: nat
    var resolved: nat
    var rejected: bool
    var results: seq<int>
    var promise: Verdict
    ghost var events: seq<Event>

    ghost predicate Valid()
      reads this
    {
      && History(total, events) && |results| == total
      && rejected == (FirstError(events) < |events|)
      && (!rejected ==> resolved == |events| && forall k :: 0 <= k < |events| ==> results[events[k].index] == events[k].value)
      && Decides(total, events, promise)
    }

    constructor (total: nat)
      ensures Valid() && events == [] && this.total == total && promise == Waiting
    {
      this.total, resolved, rejected, results, promise := total, 0, false, seq(total, _ => 0), Waiting;
      events := [];
      new;
      assert total > 0 ==> Missing(events, 0);
    }

    /** `data->resolve` or `data->reject`: raises when the promise is no longer pending. */
    method Conclude(verdict: Verdict) returns (raised: bool)
      modifies this`promise
      ensures raised == !old(promise).Waiting?
      ensures promise == if raised then old(promise) else verdict
    {
      if !promise.Waiting? {
        return true;
      }
      promise, raised := verdict, false;
    }

    /** `WhenContinuation::operator()`. */
    method OnValue(index: nat, value: int) returns (raised: bool)
      requires Valid() && index < total && Missing(events, index)
      modifies this
      ensures Valid() && events == old(events) + [Value(index, value)] && !raised
      ensures !old(promise).Waiting? ==> promise == old(promise)
    {
      ghost var before, e := events, Value(index, value);
      events := events + [e];
      FirstErrorSnoc(before, e);
      HistorySnoc(total, before, e);
      raised := false;
      if rejected {
        StillDecided(total, before, e, promise);
        return;
      }
      StillWaiting(total, before, promise, index);
      results := results[index := value];
      resolved := resolved + 1;
      Stored(before, e, old(results), results);
      hide Decides, History, Missing, FirstError;
      if resolved == total {
        AllDecided(total, events, results);
        raised := Conclude(All(results));
      } else {
        NoneDecided(total, events);
      }
    }

    /** The rejection handler given to `then`. */
    method OnError(index: nat, exc: int) returns (raised: bool)
      requires Valid() && index < total && Missing(events, index)
      modifies this
      ensures Valid() && events == old(events) + [Error(index, exc)] && !raised
      ensures !old(promise).Waiting? ==> promise == old(promise)
    {
      ghost var before, e := events, Error(index, exc);
      events := events + [e];
      FirstErrorSnoc(before, e);
      HistorySnoc(total, before, e);
      raised := false;
      if rejected {
        StillDecided(total, before, e, promise);
        return;
      }
      StillWaiting(total, before, promise, index);
      rejected := true;
      raised := Conclude(Failed(exc));
    }

    /** The loop that attaches to every input: those already settled answer at once, in order. */
    method AttachAll(inputs: seq<State>) returns (raised: bool)
      requires Valid() && events == [] && |inputs| == total
      modifies this
      ensures Valid() && !raised
      ensures forall k :: 0 <= k < |events| ==> Answers(events[k], inputs)
      ensures forall i :: 0 <= i < total ==> (Missing(events, i) <==> inputs[i].Pending?)
    {
      var index := 0;
      raised := false;
      while index < total
        invariant index <= total && Valid() && !raised
        invariant forall k :: 0 <= k < |events| ==> events[k].index < index && Answers(events[k], inputs)
        invariant forall i :: 0 <= i < index ==> (Missing(events, i) <==> inputs[i].Pending?)
      {
        ghost var before := events;
        match inputs[index] {
          case Pending =>
          case Fulfilled(v) =>
            raised := OnValue(index, v);
            MissingSnoc(before, Value(index, v));
          case Rejected(e) =>
            raised := OnError(index, e);
            MissingSnoc(before, Error(index, e));
        }
        index := index + 1;
      }
    }
  }

  predicate Answers(e: Event, inputs: seq<State>) {
    e.index < |inputs| && inputs[e.index] == match e case Value(_, v) => Fulfilled(v) case Error(_, x) => Rejected(x)
  }

  lemma {:induction false} FirstErrorSnoc(events: seq<Event>, e: Event)
    ensures FirstError(events + [e]) ==
            if FirstError(events) < |events| || e.Error? then FirstError(events) else |events| + 1
  {
    if events == [] {
      assert [e][1..] == [];
    } else {
      assert (events + [e])[1..] == events[1..] + [e];
      FirstErrorSnoc(events[1..], e);
    }
  }

  /** The results with one more value stored. */
  lemma Stored(events: seq<Event>, e: Event, results: seq<int>, results': seq<int>)
    requires e.Value? && e.index < |results| && Missing(events, e.index) && results' == results[e.index := e.value]
    requires forall k :: 0 <= k < |events| ==> events[k].Value? && events[k].index < |results| && results[events[k].index] == events[k].value
    ensures forall k :: 0 <= k < |events| + 1 ==>
              var x := (events + [e])[k]; x.Value? && x.index < |results'| && results'[x.index] == x.value
  {
  }

  lemma MissingSnoc(events: seq<Event>, e: Event)
    ensures forall i :: Missing(events + [e], i) <==> Missing(events, i) && e.index != i
  {
    forall i ensures Missing(events + [e], i) <==> Missing(events, i) && e.index != i {
      if Missing(events + [e], i) {
        assert (events + [e])[|events|] == e;
        assert forall k :: 0 <= k < |events| ==> events[k] == (events + [e])[k];
      }
    }
  }

  /** While an input is missing and none was rejected, nothing has been concluded. */
  lemma StillWaiting(total: nat, events: seq<Event>, r: Verdict, index: nat)
    requires Decides(total, events, r) && index < total && Missing(events, index) && FirstError(events) == |events|
    ensures r.Waiting?
  {
    if r.All? {
      Answered(total, events, r.values, index);
    }
  }

  lemma Answered(total: nat, events: seq<Event>, vs: seq<int>, i: nat)
    requires Decides(total, events, All(vs)) && i < total
    ensures !Missing(events, i)
  {
    var k :| 0 <= k < |events| && events[k] == Value(i, vs[i]);
    assert events[k].index == i;
  }

  ghost function Indices(events: seq<Event>): (s: set<nat>)
  {
    set k | 0 <= k < |events| :: events[k].index
  }

  lemma {:induction false} CountIndices(total: nat, events: seq<Event>)
    requires History(total, events)
    ensures |Indices(events)| == |events| && forall i :: i in Indices(events) ==> i < total
  {
    if events != [] {
      var n := |events| - 1;
      CountIndices(total, events[..n]);
      assert events[n].index !in Indices(events[..n]);
      forall i ensures i in Indices(events) <==> i in Indices(events[..n]) || i == events[n].index {
        if i in Indices(events) {
          var k :| 0 <= k < |events| && events[k].index == i;
          assert k < n ==> events[..n][k].index == i;
        }
        if i in Indices(events[..n]) {
          var k :| 0 <= k < n && events[..n][k].index == i;
          assert events[k].index == i;
        }
        assert i == events[n].index ==> i in Indices(events);
      }
      assert Indices(events) == Indices(events[..n]) + {events[n].index};
    }
  }

  ghost function Below(n: nat): (s: set<nat>)
    ensures |s| == n && forall i: nat :: i in s <==> i < n
  {
    if n == 0 then {} else Below(n - 1) + {n - 1}
  }

  lemma SubsetCount(a: set<nat>, b: set<nat>)
    requires a <= b
    ensures |a| <= |b| && (|a| == |b| ==> a == b)
  {
    assert b == a + (b - a);
  }

  /** As many events as inputs: every input has answered. */
  lemma AllThere(total: nat, events: seq<Event>, results: seq<int>)
    requires History(total, events) && |events| == total == |results| && FirstError(events) == |events|
    requires forall k :: 0 <= k < |events| ==> results[events[k].index] == events[k].value
    ensures forall i :: 0 <= i < total ==> Value(i, results[i]) in events
  {
    CountIndices(total, events);
    SubsetCount(Indices(events), Below(total));
    forall i | 0 <= i < total ensures Value(i, results[i]) in events {
      assert i in Below(total);
      var k :| 0 <= k < |events| && events[k].index == i;
      assert events[k] == Value(i, results[i]);
    }
  }

  lemma HistorySnoc(total: nat, events: seq<Event>, e: Event)
    requires History(total, events) && e.index < total && Missing(events, e.index)
    ensures History(total, events + [e])
  {
  }

  /** Once an input was rejected, nothing more is decided. */
  lemma StillDecided(total: nat, events: seq<Event>, e: Event, r: Verdict)
    requires Decides(total, events, r) && FirstError(events) < |events|
    ensures Decides(total, events + [e], r)
  {
    FirstErrorSnoc(events, e);
  }

  lemma AllDecided(total: nat, events: seq<Event>, results: seq<int>)
    requires History(total, events) && 0 < |events| == total == |results| && FirstError(events) == |events|
    requires forall k :: 0 <= k < |events| ==> results[events[k].index] == events[k].value
    ensures Decides(total, events, All(results))
  {
    AllThere(total, events, results);
  }

  lemma NoneDecided(total: nat, events: seq<Event>)
    requires History(total, events) && |events| != total && FirstError(events) == |events|
    ensures Decides(total, events, Waiting)
  {
    SomeMissing(total, events);
  }

  lemma SomeMissing(total: nat, events: seq<Event>)
    requires History(total, events) && |events| != total
    ensures |events| < total && exists i :: 0 <= i < total && Missing(events, i)
  {
    CountIndices(total, events);
    SubsetCount(Indices(events), Below(total));
    assert !(Below(total) <= Indices(events)) by {
      if Below(total) <= Indices(events) {
        SubsetCount(Below(total), Indices(events));
      }
    }
    var i :| i in Below(total) && i !in Indices(events);
    assert Missing(events, i);
  }

  /** `events` leave room for one verdict only, so `whenAll` has no say in it but the order of rejections. */
  lemma OneVerdict(total: nat, events: seq<Event>, r: Verdict, r': Verdict)
    requires History(total, events) && Decides(total, events, r) && Decides(total, events, r')
    ensures r == r'
  {
    if r.All? && r'.All? {
      forall i | 0 <= i < total ensures r.values[i] == r'.values[i] {
        var k :| 0 <= k < |events| && events[k] == Value(i, r.values[i]);
        var l :| 0 <= l < |events| && events[l] == Value(i, r'.values[i]);
        assert events[k].index == events[l].index;
      }
      assert r.values == r'.values;
    } else if r.All? && r'.Waiting? {
      NotBoth(total, events, r.values);
    } else if r.Waiting? && r'.All? {
      NotBoth(total, events, r'.values);
    }
  }

  lemma NotBoth(total: nat, events: seq<Event>, vs: seq<int>)
    requires Decides(total, events, All(vs))
    ensures !Decides(total, events, Waiting)
  {
    forall i | 0 <= i < total ensures !Missing(events, i) {
      Answered(total, events, vs, i);
    }
  }

  /** Without a rejection the order in which the inputs answer does not matter. */
  lemma OrderFree(total: nat, events: seq<Event>, events': seq<Event>, r: Verdict)
    requires History(total, events) && History(total, events') && FirstError(events) == |events| && FirstError(events') == |events'|
    requires forall e :: e in events <==> e in events'
    requires Decides(total, events, r)
    ensures Decides(total, events', r)
  {
    if r.Waiting? && total > 0 {
      var i :| 0 <= i < total && Missing(events, i);
      forall k | 0 <= k < |events'| ensures events'[k].index != i {
        assert events'[k] in events;
      }
      assert Missing(events', i);
    }
  }
}

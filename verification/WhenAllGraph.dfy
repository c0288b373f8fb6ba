/** `whenAll` attached to the promises of a graph: what its record is told, and what that makes of its promise. */
module WhenAllGraph {
  import opened PromiseGraph
  import opened PromiseDenotation
  import opened WhenAllRange

  // ---------------------------------------------------------------------------------------------
  // What the record is told
  // ---------------------------------------------------------------------------------------------

  function Told(e: Event): State {
    match e
    case Value(_, v) => Fulfilled(v)
    case Error(_, x) => Rejected(x)
  }

  /** What input `i` has reported, in order. */
  function Calls(events: seq<Event>, i: nat): seq<State> {
    if events == [] then []
    else if events[0].index == i then [Told(events[0])] + Calls(events[1..], i)
    else Calls(events[1..], i)
  }

  lemma {:induction false} CallsMissing(events: seq<Event>, i: nat)
    ensures Calls(events, i) == [] <==> Missing(events, i)
  {
    if events != [] {
      CallsMissing(events[1..], i);
      assert Missing(events, i) <==> events[0].index != i && Missing(events[1..], i) by {
        assert forall k :: 1 <= k < |events| ==> events[k] == events[1..][k - 1];
        assert forall k :: 0 <= k < |events[1..]| ==> events[1..][k] == events[k + 1];
      }
    }
  }

  lemma {:induction false} CallsIn(events: seq<Event>, e: Event)
    ensures e in events <==> Told(e) in Calls(events, e.index)
  {
    if events != [] {
      CallsIn(events[1..], e);
      assert e in events <==> e == events[0] || e in events[1..];
      assert e == events[0] <==> events[0].index == e.index && Told(events[0]) == Told(e);
    }
  }

  /** Inputs that report at most once make a history. */
  lemma {:induction false} CallsOnce(total: nat, events: seq<Event>)
    requires forall k :: 0 <= k < |events| ==> events[k].index < total
    requires forall i: nat :: |Calls(events, i)| <= 1
    ensures History(total, events)
  {
    if events != [] {
      var rest := events[1..];
      forall i: nat ensures |Calls(rest, i)| <= 1 {
        assert |Calls(events, i)| >= |Calls(rest, i)|;
      }
      CallsOnce(total, rest);
      assert |Calls(events, events[0].index)| == 1 + |Calls(rest, events[0].index)|;
      CallsMissing(rest, events[0].index);
      forall j, k | 0 <= j < k < |events| ensures events[j].index != events[k].index {
        assert events[k] == rest[k - 1];
        if j > 0 {
          assert events[j] == rest[j - 1];
        }
      }
    }
  }

  // ---------------------------------------------------------------------------------------------
  // In a graph
  // ---------------------------------------------------------------------------------------------

  /** Core `c` is what `then` returned for input `input`: a callback without result, and a handler that returns. */
  predicate GathersAt(w: World, input: nat, c: nat) {
    input < |w.cores| && c < |w.nodes| && w.nodes[c] == Derived(input, Void, Returns)
  }

  ghost predicate Gathers(w: World, inputs: seq<nat>, cs: seq<nat>) {
    |cs| == |inputs| && forall i :: 0 <= i < |inputs| ==> GathersAt(w, inputs[i], cs[i])
  }

  /** The calls that the continuation of core `c` has had. */
  function RunsOf(w: World, c: nat): seq<State> {
    if c < |w.first| && w.first[c] < |w.conts| then w.conts[w.first[c]].runs else []
  }

  /** The record was told the calls of these continuations, the inputs in any order. */
  ghost predicate Played(w: World, cs: seq<nat>, events: seq<Event>) {
    && (forall k :: 0 <= k < |events| ==> events[k].index < |cs|)
    && forall i :: 0 <= i < |cs| ==> Calls(events, i) == RunsOf(w, cs[i])
  }

  /** An input reports its settled state once, and nothing while it is pending. */
  lemma CallsAre(w: World, inputs: seq<nat>, cs: seq<nat>, events: seq<Event>, i: nat)
    requires Inv(w) && Quiet(w) && Gathers(w, inputs, cs) && Played(w, cs, events) && i < |inputs|
    ensures inputs[i] < |w.cores|
    ensures Calls(events, i) == if Meaning(w, inputs[i]).Pending? then [] else [Meaning(w, inputs[i])]
  {
    var c := cs[i];
    assert GathersAt(w, inputs[i], c) && CoreOk(w, c);
    ExactlyOnce(w, w.first[c]);
  }

  /** The graph tells the record a history: whatever is reported comes once, so every call finds its input missing. */
  lemma GraphHistory(w: World, inputs: seq<nat>, cs: seq<nat>, events: seq<Event>)
    requires Inv(w) && Quiet(w) && Gathers(w, inputs, cs) && Played(w, cs, events)
    ensures History(|cs|, events)
    ensures forall k :: 0 <= k < |events| ==> Missing(events[..k], events[k].index)
  {
    forall i: nat ensures |Calls(events, i)| <= 1 {
      if i < |cs| {
        CallsAre(w, inputs, cs, events, i);
      } else {
        CallsMissing(events, i);
      }
    }
    CallsOnce(|cs|, events);
  }

  /** Input `i` is reported as what the graph makes of it. */
  ghost predicate ReportedAs(events: seq<Event>, i: nat, s: State) {
    && (Missing(events, i) <==> s.Pending?)
    && (forall v :: Value(i, v) in events <==> s == Fulfilled(v))
    && (forall e :: Error(i, e) in events <==> s == Rejected(e))
  }

  lemma Reported(w: World, inputs: seq<nat>, cs: seq<nat>, events: seq<Event>, i: nat)
    requires Inv(w) && Quiet(w) && Gathers(w, inputs, cs) && Played(w, cs, events) && i < |inputs|
    ensures inputs[i] < |w.cores| && ReportedAs(events, i, Meaning(w, inputs[i]))
  {
    CallsAre(w, inputs, cs, events, i);
    CallsMissing(events, i);
    forall v ensures Value(i, v) in events <==> Meaning(w, inputs[i]) == Fulfilled(v) {
      CallsIn(events, Value(i, v));
    }
    forall e ensures Error(i, e) in events <==> Meaning(w, inputs[i]) == Rejected(e) {
      CallsIn(events, Error(i, e));
    }
  }

  /** What the states `ss` of the inputs make of the returned promise; of several rejections, any may come first. */
  ghost predicate Verdicts(ss: seq<State>, r: Verdict) {
    match r
    case All(vs) => 0 < |ss| == |vs| && forall i :: 0 <= i < |ss| ==> ss[i] == Fulfilled(vs[i])
    case Failed(e) => Rejected(e) in ss
    case Waiting => (forall i :: 0 <= i < |ss| ==> !ss[i].Rejected?) && (ss == [] || Pending in ss)
  }

  ghost function Meanings(w: World, inputs: seq<nat>): (ss: seq<State>)
    requires Sized(w) && forall i :: 0 <= i < |inputs| ==> inputs[i] < |w.cores|
    ensures |ss| == |inputs| && forall i :: 0 <= i < |inputs| ==> ss[i] == Meaning(w, inputs[i])
  {
    seq(|inputs|, i requires 0 <= i < |inputs| => Meaning(w, inputs[i]))
  }

  /** The promise that `whenAll` returned is what the graph makes of its inputs, in whatever order they settled. */
  lemma GraphVerdict(w: World, inputs: seq<nat>, cs: seq<nat>, events: seq<Event>, r: Verdict)
    requires Inv(w) && Quiet(w) && Gathers(w, inputs, cs) && Played(w, cs, events)
    requires Decides(|cs|, events, r)
    ensures forall i :: 0 <= i < |inputs| ==> inputs[i] < |w.cores|
    ensures Verdicts(Meanings(w, inputs), r)
  {
    forall i | 0 <= i < |inputs| ensures inputs[i] < |w.cores| && ReportedAs(events, i, Meaning(w, inputs[i])) {
      Reported(w, inputs, cs, events, i);
    }
    FromReports(Meanings(w, inputs), events, r);
  }

  lemma FromReports(ss: seq<State>, events: seq<Event>, r: Verdict)
    requires forall i :: 0 <= i < |ss| ==> ReportedAs(events, i, ss[i])
    requires forall k :: 0 <= k < |events| ==> events[k].index < |ss|
    requires Decides(|ss|, events, r)
    ensures Verdicts(ss, r)
  {
    match r
    case All(vs) =>
      forall i | 0 <= i < |ss| ensures ss[i] == Fulfilled(vs[i]) {
        assert ReportedAs(events, i, ss[i]) && Value(i, vs[i]) in events;
      }
    case Failed(e) =>
      var x := events[FirstError(events)];
      assert x in events && x == Error(x.index, e) && ReportedAs(events, x.index, ss[x.index]);
    case Waiting =>
      forall i | 0 <= i < |ss| ensures !ss[i].Rejected? {
        assert ReportedAs(events, i, ss[i]);
      }
      if ss != [] {
        var i :| 0 <= i < |ss| && Missing(events, i);
        assert ReportedAs(events, i, ss[i]);
      }
  }
}

/** `whenAll` on a runtime: its record, the continuations it attaches, and the promise it returns.

  What an input reports is passed on right behind the propagation that settled it, in any order.
 */
module WhenAllRuntime {
  import opened PromiseGraph
  import opened PromiseDenotation
  import opened PromiseRuntime
  import opened WhenAllRange
  import opened WhenAllGraph

  /** The state of the returned promise; `pack` makes one value of the results. */
  function StateOf(pack: seq<int> -> int, r: Verdict): State {
    match r
    case Waiting => Pending
    case All(vs) => Fulfilled(pack(vs))
    case Failed(e) => Rejected(e)
  }

  /** What the states `ss` of the inputs make of the returned promise; of several rejections, any may come first. */
  ghost predicate Gathered(pack: seq<int> -> int, ss: seq<State>, st: State) {
    match st
    case Pending => (forall i :: 0 <= i < |ss| ==> !ss[i].Rejected?) && (ss == [] || Pending in ss)
    case Fulfilled(v) => 0 < |ss| && (forall i :: 0 <= i < |ss| ==> ss[i].Fulfilled?) && v == pack(ValuesOf(ss))
    case Rejected(e) => Rejected(e) in ss
  }

  function ValuesOf(ss: seq<State>): (vs: seq<int>)
    ensures |vs| == |ss| && forall i :: 0 <= i < |ss| && ss[i].Fulfilled? ==> vs[i] == ss[i].value
  {
    seq(|ss|, i requires 0 <= i < |ss| => if ss[i].Fulfilled? then ss[i].value else 0)
  }

  lemma GatheredIs(pack: seq<int> -> int, ss: seq<State>, r: Verdict)
    requires Verdicts(ss, r)
    ensures Gathered(pack, ss, StateOf(pack, r))
  {
    if r.All? {
      assert ValuesOf(ss) == r.values;
    }
  }

  // ---------------------------------------------------------------------------------------------
  // What has been reported
  // ---------------------------------------------------------------------------------------------

  /** Some of the continuations of `cs` have reported their calls. */
  ghost predicate Reporting(w: World, cs: seq<nat>, events: seq<Event>) {
    && (forall k :: 0 <= k < |events| ==> events[k].index < |cs|)
    && forall i :: 0 <= i < |cs| ==> ReportingAt(w, cs[i], Calls(events, i))
  }

  predicate ReportingAt(w: World, c: nat, calls: seq<State>) {
    calls == [] || calls == RunsOf(w, c)
  }

  lemma RootState(w: World, c: nat)
    requires |w.cores| == |w.nodes| && c < |w.nodes| && w.nodes[c].Root?
    ensures |Roots(w)| == |w.nodes| && Roots(w)[c] == w.cores[c].state
  {
  }

  lemma AsManyCores(w: World)
    requires Inv(w)
    ensures |w.cores| == |w.nodes|
  {
  }

  /** A continuation of a settled input has had one call, of a pending one none. */
  lemma RunsAre(w: World, input: nat, c: nat)
    requires Inv(w) && Quiet(w) && GathersAt(w, input, c)
    ensures RunsOf(w, c) == if w.cores[input].state.Pending? then [] else [w.cores[input].state]
  {
    assert CoreOk(w, c) && ContOk(w, w.first[c]) && !Owed(w, w.first[c]);
  }

  lemma {:induction false} CallsSnoc(events: seq<Event>, e: Event, i: nat)
    ensures Calls(events + [e], i) == Calls(events, i) + if e.index == i then [Told(e)] else []
  {
    if events == [] {
      assert [e][1..] == [];
    } else {
      assert (events + [e])[1..] == events[1..] + [e];
      CallsSnoc(events[1..], e, i);
    }
  }

  lemma ReportedOne(w: World, cs: seq<nat>, events: seq<Event>, e: Event)
    requires Reporting(w, cs, events) && e.index < |cs| && Missing(events, e.index) && RunsOf(w, cs[e.index]) == [Told(e)]
    ensures Reporting(w, cs, events + [e])
  {
    forall i | 0 <= i < |cs| ensures ReportingAt(w, cs[i], Calls(events + [e], i)) {
      assert ReportingAt(w, cs[i], Calls(events, i));
      CallsSnoc(events, e, i);
      CallsMissing(events, e.index);
    }
  }

  lemma GathersKept(w: World, v: World, inputs: seq<nat>, cs: seq<nat>)
    requires Gathers(w, inputs, cs) && w.nodes <= v.nodes && |w.cores| <= |v.cores|
    ensures Gathers(v, inputs, cs)
  {
    forall i | 0 <= i < |inputs| ensures GathersAt(v, inputs[i], cs[i]) {
      assert GathersAt(w, inputs[i], cs[i]);
    }
  }

  /** What has been reported stays as it was when the graph goes on. */
  lemma ReportingKept(w: World, v: World, inputs: seq<nat>, cs: seq<nat>, events: seq<Event>)
    requires Inv(w) && Gathers(w, inputs, cs) && Reporting(w, cs, events)
    requires Stable(w, v) && w.first <= v.first && w.nodes <= v.nodes
    ensures Gathers(v, inputs, cs) && Reporting(v, cs, events)
  {
    GathersKept(w, v, inputs, cs);
    forall i | 0 <= i < |cs| ensures ReportingAt(v, cs[i], Calls(events, i)) {
      assert GathersAt(w, inputs[i], cs[i]);
      assert ReportingAt(w, cs[i], Calls(events, i)) && CoreOk(w, cs[i]);
      var k := w.first[cs[i]];
      assert ContOk(w, k) && KeptCont(w.conts[k], v.conts[k]);
    }
  }

  /** When every settled input has reported, the record was told all calls. */
  lemma AllPlayed(w: World, inputs: seq<nat>, cs: seq<nat>, events: seq<Event>)
    requires Inv(w) && Quiet(w) && Gathers(w, inputs, cs) && Reporting(w, cs, events)
    requires forall i :: 0 <= i < |inputs| ==> inputs[i] < |w.cores| && (Missing(events, i) ==> w.cores[inputs[i]].state.Pending?)
    ensures Played(w, cs, events)
  {
    forall i | 0 <= i < |cs| ensures Calls(events, i) == RunsOf(w, cs[i]) {
      assert GathersAt(w, inputs[i], cs[i]) && ReportingAt(w, cs[i], Calls(events, i));
      RunsAre(w, inputs[i], cs[i]);
      CallsMissing(events, i);
    }
  }

  // ---------------------------------------------------------------------------------------------
  // The promise that `whenAll` returns
  // ---------------------------------------------------------------------------------------------

  class Gathering {
    const rt: Runtime
    const record: WhenAll
    const inputs: seq<nat>
    const pack: seq<int> -> int
    const result: nat
    var told: set<nat>
    ghost var cs: seq<nat>

    ghost predicate Valid()
      reads this, rt, record
    {
      Linked() && rt.cores[result].state == StateOf(pack, record.promise)
    }

    /** All but that the returned promise keeps up with the record. */
    ghost predicate Linked()
      reads this, rt, record
    {
      && rt.Valid() && record.Valid() && record.total == |inputs| && |cs| <= |inputs|
      && (forall i :: 0 <= i < |inputs| ==> inputs[i] < |rt.cores|)
      && Gathers(rt.View(), inputs[..|cs|], cs) && Reporting(rt.View(), cs, record.events)
      && result < |rt.nodes| == |rt.cores| && rt.nodes[result] == Root(true)
      && (forall i :: i in told ==> i < |cs|)
      && forall i :: 0 <= i < |cs| ==> (i in told <==> !Missing(record.events, i))
    }

    /** Every input is watched, and what is settled has been reported. */
    ghost predicate Delivered()
      reads this, rt, record
    {
      Valid() && |cs| == |inputs| && forall i :: 0 <= i < |inputs| && i !in told ==> rt.cores[inputs[i]].state.Pending?
    }

    /** The returned promise is what the graph makes of the inputs. */
    ghost predicate Concluded()
      reads this, rt, record
    {
      && Delivered() && Sized(rt.View())
      && Gathered(pack, Meanings(rt.View(), inputs), rt.cores[result].state)
      && rt.cores[result].state == Meaning(rt.View(), result)
    }

    lemma Conclude()
      requires Delivered()
      ensures Concluded()
    {
      var w := rt.View();
      assert inputs[..|cs|] == inputs;
      AllPlayed(w, inputs, cs, record.events);
      GraphVerdict(w, inputs, cs, record.events, record.promise);
      GatheredIs(pack, Meanings(w, inputs), record.promise);
      QuietDenotes(w, result);
    }

    /** `whenAll`: a promise with a value, and two callbacks on every input. */
    constructor (rt: Runtime, inputs: seq<nat>, pack: seq<int> -> int)
      requires rt.Valid() && forall i :: 0 <= i < |inputs| ==> inputs[i] < |rt.cores|
      modifies rt
      ensures Concluded() && fresh(record) && this.rt == rt && this.inputs == inputs && this.pack == pack
      ensures result == |old(rt.nodes)| && old(rt.nodes) < rt.nodes
    {
      this.rt, this.inputs, this.pack, this.cs, this.told := rt, inputs, pack, [], {};
      var total := |inputs|;
      record := new WhenAll(total);
      var c := rt.MakePromise(true, 0);
      result := c;
      new;
      var index := 0;
      while index < total
        invariant index == |cs| <= total == |inputs| && Valid() && old(rt.nodes) < rt.nodes
      {
        Watch(index);
        index := index + 1;
      }
      Deliver();
    }

    /** Attaches to the next input, which reports at once if it is settled. */
    method Watch(index: nat)
      requires Valid() && index == |cs| < |inputs|
      modifies this`cs, this`told, rt, record
      ensures Valid() && |cs| == old(|cs|) + 1 && old(rt.nodes) < rt.nodes
    {
      ghost var w := rt.View();
      var d := rt.Then(inputs[index], Void, Returns, rt.rank[inputs[index]] + 1);
      Watched(w, rt.View(), inputs, cs, record.events, index, d);
      cs := cs + [d];
      if !rt.cores[inputs[index]].state.Pending? {
        Report(index);
      }
    }

    /** The callback on input `i` tells the record. */
    method Tell(i: nat)
      requires Linked() && i < |cs| && i !in told && !rt.cores[inputs[i]].state.Pending?
      modifies this`told, record
      ensures Linked() && told == old(told) + {i}
      ensures !old(record.promise).Waiting? ==> record.promise == old(record.promise)
    {
      hide Inv, Quiet, RunsOf, Calls, Decides, History, FirstError;
      ghost var w, before := rt.View(), record.events;
      assert GathersAt(w, inputs[..|cs|][i], cs[i]);
      RunsAre(w, inputs[i], cs[i]);
      var raised;
      match rt.cores[inputs[i]].state {
        case Fulfilled(v) =>
          ReportedOne(w, cs, before, Value(i, v));
          MissingSnoc(before, Value(i, v));
          raised := record.OnValue(i, v);
        case Rejected(e) =>
          ReportedOne(w, cs, before, Error(i, e));
          MissingSnoc(before, Error(i, e));
          raised := record.OnError(i, e);
      }
      told := told + {i};
    }

    /** A settled input tells the record, which may settle the promise. */
    method Report(i: nat)
      requires Valid() && i < |cs| && i !in told && !rt.cores[inputs[i]].state.Pending?
      modifies this`told, rt, record
      ensures Valid() && rt.nodes == old(rt.nodes) && told == old(told) + {i}
    {
      hide Inv, Quiet, Stable, Gathers, Reporting, Missing, Decides, History, Meaning, Roots;
      ghost var before := record.promise;
      Tell(i);
      assert rt.cores[result].state == StateOf(pack, before) && (before.Waiting? <==> rt.cores[result].state.Pending?);
      if rt.cores[result].state.Pending? && !record.promise.Waiting? {
        ghost var w := rt.View();
        var ok := rt.Settle(result, StateOf(pack, record.promise), true);
        ReportingKept(w, rt.View(), inputs[..|cs|], cs, record.events);
        AsManyCores(rt.View());
        RootState(w, result);
        RootState(rt.View(), result);
      }
    }

    /** The callbacks that a propagation has run, in any order; what they settle may run further ones. */
    method Deliver()
      requires Valid() && |cs| == |inputs|
      modifies this`told, rt, record
      ensures Concluded() && rt.nodes == old(rt.nodes) && old(told) <= told
    {
      while exists i :: 0 <= i < |inputs| && i !in told && !rt.cores[inputs[i]].state.Pending?
        invariant Valid() && |cs| == |inputs| && rt.nodes == old(rt.nodes) && old(told) <= told
        decreases set i | 0 <= i < |inputs| && i !in told
      {
        var i :| 0 <= i < |inputs| && i !in told && !rt.cores[inputs[i]].state.Pending?;
        ghost var before := set j | 0 <= j < |inputs| && j !in told;
        assert i in before;
        Report(i);
      }
      Conclude();
    }

    /** Somebody settles a root of the graph, an input or not, that is not the promise of `whenAll`. */
    method SettleRoot(c: nat, st: State, argument: bool) returns (ok: bool)
      requires Delivered() && c < |rt.cores| && rt.nodes[c].Root? && c != result && !st.Pending?
      modifies this`told, rt, record
      ensures Concluded() && rt.nodes == old(rt.nodes) && old(told) <= told
      ensures ok == (old(rt.cores[c].state.Pending?) && (st.Rejected? || argument == rt.nodes[c].valued))
    {
      ghost var w := rt.View();
      ok := rt.Settle(c, st, argument);
      ReportingKept(w, rt.View(), inputs[..|cs|], cs, record.events);
      Deliver();
    }

    /** Somebody attaches to any promise of the graph, the one of `whenAll` included. */
    method AttachTo(src: nat, kind: Kind, onReject: Handler, ghost r: nat) returns (c: nat)
      requires Delivered() && src < |rt.cores| && Attachable(rt.View(), Derived(src, kind, onReject), r)
      requires VoidThrows(rt.nodes[src], kind, onReject)
      modifies this`told, rt, record
      ensures Concluded() && c == |old(rt.nodes)| && rt.nodes == old(rt.nodes) + [Derived(src, kind, onReject)]
    {
      ghost var w := rt.View();
      c := rt.Then(src, kind, onReject, r);
      ReportingKept(w, rt.View(), inputs[..|cs|], cs, record.events);
      Deliver();
    }
  }

  /** One more input is watched. */
  lemma Watched(w: World, v: World, inputs: seq<nat>, cs: seq<nat>, events: seq<Event>, index: nat, d: nat)
    requires Inv(w) && Inv(v) && index == |cs| < |inputs| && inputs[index] < |w.cores|
    requires Gathers(w, inputs[..index], cs) && Reporting(w, cs, events) && Stable(w, v) && w.first <= v.first
    requires d == |w.nodes| && v.nodes == w.nodes + [Derived(inputs[index], Void, Returns)]
    ensures Gathers(v, inputs[..index + 1], cs + [d]) && Reporting(v, cs + [d], events) && Missing(events, index)
  {
    ReportingKept(w, v, inputs[..index], cs, events);
    CallsMissing(events, index);
    forall i | 0 <= i < |cs + [d]| ensures ReportingAt(v, (cs + [d])[i], Calls(events, i)) {
      if i < index {
        assert ReportingAt(v, cs[i], Calls(events, i));
      }
    }
    forall i | 0 <= i < |inputs[..index + 1]| ensures GathersAt(v, inputs[..index + 1][i], (cs + [d])[i]) {
      if i < index {
        assert GathersAt(v, inputs[..index][i], cs[i]);
      }
    }
  }
}

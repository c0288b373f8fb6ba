/** The event registry of eventmeth.cc: pollers, their interest and ready sets, and who may delete what.

  Every operation runs under the mutexes it takes; one that meets a mutex kept by
  `getReadyEmEvents` is `Blocked` and changes nothing. Pollers and events are named by numbers,
  and an event that has been deleted is no longer in `events`.
 */
module EventRegistry {
  import opened EventMask
  import opened Options

  datatype Op = Add | Mod | Del

  /** What libevent and the system calls answered inside `EmEvent::ctl`. */
  datatype Libevent = NoDescriptor | NoEvent | Refused | Accepted

  datatype Outcome = Done(result: int) | Raised | Blocked

  /** `owner` is the back pointer, `hasEv` whether a libevent event exists, `flags` the EVM_ mask. */
  datatype Event = Event(owner: Option<nat>, hasEv: bool, flags: nat)

  /** `kept` is set while the interest mutex is left locked for the caller of `getReadyEmEvents`. */
  datatype Poller = Poller(interest: set<nat>, ready: set<nat>, kept: bool)

  type Pollers = map<nat, Poller>

  type Events = map<nat, Event>

  // ---------------------------------------------------------------------------------------------
  // The invariant
  // ---------------------------------------------------------------------------------------------

  ghost predicate PollerOk(ps: Pollers, es: Events, p: nat)
    requires p in ps
  {
    && ps[p].ready <= ps[p].interest
    && forall e :: e in ps[p].interest ==> e in es && es[e].owner == Some(p)
  }

  /** What the callers of `getReadyEmEvents` have in hand is alive and still points back to their poller. */
  ghost predicate HeldOk(ps: Pollers, es: Events, held: map<nat, set<nat>>, p: nat)
    requires p in ps
  {
    && p in held && (held[p] != {} ==> ps[p].kept)
    && forall e :: e in held[p] ==> e in es && es[e].owner == Some(p)
  }

  ghost predicate Sound(ps: Pollers, es: Events, held: map<nat, set<nat>>) {
    forall p :: p in ps ==> PollerOk(ps, es, p) && HeldOk(ps, es, held, p)
  }

  /** No event is in two interest sets, or in one set and another caller's hands. */
  lemma OnePlace(ps: Pollers, es: Events, held: map<nat, set<nat>>, p: nat, q: nat, e: nat)
    requires Sound(ps, es, held) && p in ps && q in ps
    requires e in ps[p].interest + ps[p].ready + held[p] && e in ps[q].interest + ps[q].ready + held[q]
    ensures p == q
  {
    assert PollerOk(ps, es, p) && HeldOk(ps, es, held, p) && PollerOk(ps, es, q) && HeldOk(ps, es, held, q);
  }

  /** An event that is deleted by no poller's leave is in no set at all. */
  lemma Ownerless(ps: Pollers, es: Events, held: map<nat, set<nat>>, e: nat)
    requires Sound(ps, es, held) && e in es && (es[e].owner.None? || es[e].owner.value !in ps)
    ensures forall p :: p in ps ==> e !in ps[p].interest && e !in ps[p].ready && e !in held[p]
  {
    forall p | p in ps ensures e !in ps[p].interest && e !in ps[p].ready && e !in held[p] {
      assert PollerOk(ps, es, p) && HeldOk(ps, es, held, p);
    }
  }

  /** Changing an event that no poller but `p` knows, and `p`'s own sets, disturbs nobody else. */
  lemma LocalChange(ps: Pollers, es: Events, held: map<nat, set<nat>>, p: nat, np: Poller, nh: set<nat>, es': Events, e: nat)
    requires Sound(ps, es, held) && p in ps
    requires forall x :: x != e ==> (x in es' <==> x in es) && (x in es ==> es'[x] == es[x])
    requires forall q :: q in ps && q != p ==> e !in ps[q].interest && e !in held[q]
    requires PollerOk(ps[p := np], es', p) && HeldOk(ps[p := np], es', held[p := nh], p)
    ensures Sound(ps[p := np], es', held[p := nh])
  {
    forall q | q in ps ensures PollerOk(ps[p := np], es', q) && HeldOk(ps[p := np], es', held[p := nh], q) {
      assert PollerOk(ps, es, q) && HeldOk(ps, es, held, q);
    }
  }

  /** The interest and ready sets after a successful `ctlEx`. */
  function Registered(op: Op, po: Poller, e: nat): Poller {
    match op
    case Del => po.(interest := po.interest - {e}, ready := po.ready - {e})
    case _ => po.(interest := po.interest + {e})
  }

  class Registry {
    var pollers: Pollers
    var events: Events
    ghost var held: map<nat, set<nat>>

    ghost predicate Valid()
      reads this
    {
      Sound(pollers, events, held)
    }

    constructor ()
      ensures Valid() && pollers == map[] && events == map[]
    {
      pollers, events, held := map[], map[], map[];
    }

    /** Nothing keeps a new poller from an address that stale back pointers still name. */
    method NewPoller(p: nat)
      requires Valid() && p !in pollers
      modifies this
      ensures Valid() && pollers == old(pollers)[p := Poller({}, {}, false)] && events == old(events)
    {
      ghost var ps, es, h := pollers, events, held;
      pollers := pollers[p := Poller({}, {}, false)];
      held := held[p := {}];
      forall q | q in pollers ensures PollerOk(pollers, events, q) && HeldOk(pollers, events, held, q) {
        if q != p {
          assert PollerOk(ps, es, q) && HeldOk(ps, es, h, q);
        }
      }
    }

    /** `make_new`. */
    method NewEvent(e: nat, flags: nat)
      requires Valid() && e !in events
      modifies this
      ensures Valid() && events == old(events)[e := Event(None, false, Stored(flags))] && pollers == old(pollers) && held == old(held)
    {
      ghost var es := events;
      events := events[e := Event(None, false, Stored(flags))];
      forall q | q in pollers ensures PollerOk(pollers, events, q) && HeldOk(pollers, events, held, q) {
        assert PollerOk(pollers, es, q) && HeldOk(pollers, es, held, q);
      }
    }

    /** No other poller than `p` has any of `es`, in a set or in its caller's hands. */
    ghost predicate OnlyWith(p: nat, es: set<nat>)
      reads this
    {
      forall q, e :: q in pollers && q != p && q in held && e in es ==>
        e !in pollers[q].interest && e !in pollers[q].ready && e !in held[q]
    }

    lemma OthersLack(p: nat, es: set<nat>)
      requires Valid() && p in pollers && p in held && es <= pollers[p].interest + pollers[p].ready + held[p]
      ensures OnlyWith(p, es)
    {
      forall q, e | q in pollers && q != p && q in held && e in es
        ensures e !in pollers[q].interest && e !in pollers[q].ready && e !in held[q]
      {
        if e in pollers[q].interest + pollers[q].ready + held[q] {
          OnePlace(pollers, events, held, p, q, e);
        }
      }
    }

    /** `findEmEventInAnInterestSet`, visiting the pollers in the order of their addresses. */
    method Find(e: nat, addresses: seq<nat>) returns (found: Option<nat>, blocked: bool)
      requires Valid() && forall p :: p in addresses <==> p in pollers
      ensures found.Some? ==> !blocked && found.value in pollers && e in pollers[found.value].interest && !pollers[found.value].kept
      ensures found.Some? ==> OnlyWith(found.value, {e})
      ensures blocked ==> exists p :: p in pollers && pollers[p].kept
      ensures found.None? && !blocked ==> forall p :: p in pollers ==> !pollers[p].kept && e !in pollers[p].interest
    {
      var i := 0;
      while i < |addresses|
        invariant i <= |addresses|
        invariant forall k :: 0 <= k < i ==> !pollers[addresses[k]].kept && e !in pollers[addresses[k]].interest
      {
        var p := addresses[i];
        if pollers[p].kept {
          return None, true;
        }
        if e in pollers[p].interest {
          OthersLack(p, {e});
          return Some(p), false;
        }
        i := i + 1;
      }
      forall p | p in pollers ensures !pollers[p].kept && e !in pollers[p].interest {
        assert p in addresses;
      }
      return None, false;
    }

    /** Some other poller than `p` has `e`, in its interest set or in its caller's hands. */
    ghost predicate Elsewhere(p: nat, e: nat)
      reads this
    {
      exists q :: q in pollers && q != p && q in held && (e in pollers[q].interest || e in held[q])
    }

    /** `EmEvent::ctl`: the back pointer moves to `p` unless another poller still has the event. */
    method EventCtl(op: Op, p: nat, e: nat, mask: nat, answer: Libevent, addresses: seq<nat>) returns (outcome: Outcome)
      requires Valid() && p in pollers && e in events
      requires forall q :: q in addresses <==> q in pollers
      modifies this`events
      ensures Valid()
      ensures Elsewhere(p, e) ==> outcome.Blocked? || outcome.Raised?
      ensures (exists q :: q in pollers && q != p && e in held[q]) ==> outcome.Blocked?
      ensures outcome.Blocked? ==> exists q :: q in pollers && pollers[q].kept
      ensures outcome.Blocked? || Elsewhere(p, e) ==> events == old(events)
      ensures !outcome.Blocked? && !Elsewhere(p, e) ==>
                && OnlyEvent(old(events), events, e) && Worked(op, old(events[e]), events[e], p, mask, answer)
                && outcome == if Replaces(op, old(events[e]), mask) && answer.NoEvent? then Raised
                              else Done(if answer.Accepted? then 0 else -1)
    {
      ghost var es := events;
      var ev := events[e];
      if ev.owner != Some(p) {
        if ev.owner.Some? {
          var found, blocked := Find(e, addresses);
          if blocked {
            return Blocked;
          }
          HeldBlocks(pollers, es, held, p, e, found);
          if found.Some? && found.value != p {
            return Raised;
          }
        }
      }
      OnlyHere(pollers, es, held, p, e);
      events := events[e := Reworked(op, ev, p, mask, answer)];
      OwnerMoved(pollers, es, held, p, e, events);
      ReworkedFields(op, ev, p, mask, answer);
      if Replaces(op, ev, mask) && answer.NoEvent? {
        return Raised;
      }
      outcome := Done(if answer.Accepted? then 0 else -1);
    }

    /** `ctlEx`. */
    method Ctl(op: Op, p: nat, e: nat, mask: nat, wasArtificial: bool, answer: Libevent, addresses: seq<nat>) returns (outcome: Outcome)
      requires Valid() && p in pollers && e in events
      requires forall q :: q in addresses <==> q in pollers
      modifies this`events, this`pollers
      ensures Valid()
      ensures (exists q :: q in pollers && e in held[q]) ==> outcome.Blocked?
      ensures outcome.Blocked? ==> events == old(events)
      ensures p in pollers && pollers == if outcome == Done(0) then old(pollers)[p := pollers[p]] else old(pollers)
      ensures op.Add? && e in old(pollers[p].interest) && !wasArtificial && !old(pollers[p].kept) ==>
                outcome == Done(-1) && events == old(events)
      ensures outcome == Done(0) ==> answer.Accepted? && !old(Elsewhere(p, e))
      ensures events.Keys == old(events).Keys
      ensures outcome == Done(0) ==>
                var o, n := old(events[e]), events[e];
                && OnlyEvent(old(events), events, e) && n.owner == Some(p)
                && (op.Del? ==> n.flags == o.flags && n.hasEv == o.hasEv)
                && (!op.Del? ==> n.hasEv)
                && (!op.Del? && o.hasEv && mask == 0 ==> n.flags == o.flags)
                && (!op.Del? && !(o.hasEv && (mask == 0 || mask == o.flags)) ==> n.flags % 2 == 0 && (n.flags == mask || n.flags + 1 == mask))
      ensures outcome == Done(0) ==>
                && pollers[p].kept == old(pollers[p].kept) && OthersStay(old(pollers[p]), pollers[p], {e})
                && (e in pollers[p].interest <==> !op.Del?)
                && (e in pollers[p].ready <==> !op.Del? && e in old(pollers[p].ready))
    {
      assert forall q :: q in pollers ==> HeldOk(pollers, events, held, q);
      if pollers[p].kept {
        return Blocked;
      }
      var found := e in pollers[p].interest;
      if op.Add? && found && !wasArtificial {
        return Done(-1);
      }
      outcome := EventCtl(op, p, e, mask, answer, addresses);
      if outcome == Done(0) {
        assert PollerOk(pollers, events, p);
        outcome := CtlFinish(op, p, e, found);
      }
    }

    /** The second half of `ctlEx`, under its own lock: other operations on other events may have come between. */
    method CtlFinish(op: Op, p: nat, e: nat, found: bool) returns (outcome: Outcome)
      requires Valid() && p in pollers && e in events && events[e].owner == Some(p)
      modifies this`pollers
      ensures Valid()
      ensures old(pollers[p].kept) ==> outcome.Blocked?
      ensures !old(pollers[p].kept) ==>
                outcome == Done(if !op.Del? && !found && e in old(pollers[p].interest) then -1 else 0)
      ensures p in pollers && pollers == if outcome == Done(0) then old(pollers)[p := pollers[p]] else old(pollers)
      ensures outcome == Done(0) ==>
                && pollers[p].kept == old(pollers[p].kept) && OthersStay(old(pollers[p]), pollers[p], {e})
                && (e in pollers[p].interest <==> if op.Del? then e in old(pollers[p].interest) && !found else !found || e in old(pollers[p].interest))
                && (e in pollers[p].ready <==> !op.Del? && e in old(pollers[p].ready))
    {
      assert e in pollers[p].interest ==> pollers[p].interest + {e} == pollers[p].interest;
      assert e !in pollers[p].interest ==> pollers[p].interest - {e} == pollers[p].interest;
      if pollers[p].kept {
        return Blocked;
      }
      ghost var ps := pollers;
      assert PollerOk(ps, events, p) && HeldOk(ps, events, held, p);
      var po := pollers[p];
      match op {
        case Del =>
          po := Poller(if found then po.interest - {e} else po.interest, po.ready - {e}, po.kept);
        case _ =>
          if !found {
            if e in po.interest {
              return Done(-1);
            }
            po := po.(interest := po.interest + {e});
          }
      }
      pollers := pollers[p := po];
      assert held[p := held[p]] == held;
      LocalChange(ps, events, held, p, po, held[p], events, e);
      outcome := Done(0);
    }

    /** `handleEventCallback`: what has left the interest set since `Find` is not touched, alive or not. */
    method HandleEventCallback(p: nat, e: nat) returns (outcome: Outcome)
      requires Valid() && p in pollers
      modifies this`pollers
      ensures Valid()
      ensures outcome == if old(pollers[p].kept) then Blocked else Done(0)
      ensures pollers == if outcome.Blocked? || e !in old(pollers[p].interest) then old(pollers)
                         else old(pollers)[p := old(pollers[p]).(ready := old(pollers[p].ready) + {e})]
    {
      if pollers[p].kept {
        return Blocked;
      }
      if e !in pollers[p].interest {
        return Done(0);
      }
      ghost var ps := pollers;
      assert PollerOk(ps, events, p) && HeldOk(ps, events, held, p);
      pollers := pollers[p := pollers[p].(ready := pollers[p].ready + {e})];
      assert held[p := held[p]] == held;
      LocalChange(ps, events, held, p, pollers[p], held[p], events, e);
      outcome := Done(0);
    }

    /** The loop of `getReadyEmEventsHelper` over the ready events. */
    method WithoutOneShots(interest: set<nat>, out: set<nat>) returns (left: set<nat>)
      requires forall e :: e in out ==> e in events
      ensures left == interest - OneShots(events, out)
    {
      var rest := out;
      left := interest;
      while rest != {}
        invariant rest <= out
        invariant left == interest - OneShots(events, out - rest)
        decreases |rest|
      {
        var e :| e in rest;
        if !Persists(events[e].flags) {
          left := left - {e};
        }
        assert out - (rest - {e}) == (out - rest) + {e};
        rest := rest - {e};
      }
      assert out - rest == out;
    }

    /** The tail of `getReadyEmEventsHelper`: the ready events change hands, with the interest mutex left locked. */
    method TakeReady(p: nat) returns (out: set<nat>, outcome: Outcome)
      requires Valid() && p in pollers
      modifies this`pollers, this`held
      ensures Valid()
      ensures outcome == if old(pollers[p].kept) then Blocked else Done(|out|)
      ensures outcome.Blocked? ==> pollers == old(pollers) && held == old(held) && out == {}
      ensures !outcome.Blocked? ==>
                var po := old(pollers[p]);
                && out == po.ready && held == old(held)[p := out]
                && p in pollers && pollers == old(pollers)[p := Poller(pollers[p].interest, {}, true)]
      ensures OnlyWith(p, out)
      ensures !outcome.Blocked? ==>
                && (forall e :: e in out && e in old(pollers[p].interest) ==>
                      e in events && (e in pollers[p].interest <==> events[e].flags / 16 % 2 == 1))
                && pollers[p].interest <= old(pollers[p].interest) <= pollers[p].interest + out
    {
      out := {};
      if pollers[p].kept {
        return out, Blocked;
      }
      hide Persists, OnlyWith;
      ghost var ps, h := pollers, held;
      assert PollerOk(ps, events, p) && HeldOk(ps, events, h, p);
      out := pollers[p].ready;
      var interest := WithoutOneShots(pollers[p].interest, out);
      pollers := pollers[p := Poller(interest, {}, true)];
      held := held[p := out];
      forall q | q in pollers ensures PollerOk(pollers, events, q) && HeldOk(pollers, events, held, q) {
        assert PollerOk(ps, events, q) && HeldOk(ps, events, h, q);
      }
      OthersLack(p, out);
      OneShotsAre(events, out, ps[p].interest);
      outcome := Done(|out|);
    }

    /** `unlockInterestMutexIfLocked`: what was handed out may be closed from now on. */
    method Unlock(p: nat)
      requires Valid() && p in pollers
      modifies this`pollers, this`held
      ensures Valid() && held == old(held)[p := {}]
      ensures pollers == old(pollers)[p := old(pollers[p]).(kept := false)]
    {
      ghost var ps, h := pollers, held;
      if pollers[p].kept {
        pollers := pollers[p := pollers[p].(kept := false)];
      }
      held := held[p := {}];
      forall q | q in pollers ensures PollerOk(pollers, events, q) && HeldOk(pollers, events, held, q) {
        assert PollerOk(ps, events, q) && HeldOk(ps, events, h, q);
      }
    }

    /** The part of `closeEvent` under the locks of the event's poller; None when the event has to be closed without them. */
    method CloseRegistered(e: nat, closes: bool) returns (outcome: Option<Outcome>)
      requires Valid() && e in events
      modifies this`pollers, this`events
      ensures Valid()
      ensures (exists q :: q in pollers && e in held[q]) ==> outcome == Some(Blocked)
      ensures outcome == Some(Done(0)) || outcome == Some(Done(-1)) || outcome == Some(Blocked) || outcome.None?
      ensures outcome.None? || outcome == Some(Blocked) ==> pollers == old(pollers) && events == old(events)
      ensures outcome.None? ==> Nobodys(e)
      ensures outcome == Some(Done(0)) ==>
                && closes && events == old(events) - {e} && Nobodys(e)
                && pollers.Keys == old(pollers).Keys && forall q :: q in pollers ==> WithoutEvent(old(pollers)[q], pollers[q], e)
      ensures outcome == Some(Done(-1)) ==>
                && !closes && pollers == old(pollers)
                && events == old(events)[e := Event(Owner(old(events[e]), pollers), false, old(events[e].flags))]
    {
      ghost var ps, es := pollers, events;
      assert forall q :: q in pollers ==> PollerOk(ps, es, q) && HeldOk(ps, es, held, q);
      var owner := Owner(events[e], pollers);
      outcome := None;
      if owner.Some? {
        var p := owner.value;
        if pollers[p].kept {
          return Some(Blocked);
        }
        if e in pollers[p].interest {
          if !closes {
            events := events[e := events[e].(hasEv := false)];
            OwnerMoved(ps, es, held, p, e, events);
            return Some(Done(-1));
          }
          pollers := pollers[p := Registered(Del, pollers[p], e)];
          events := events - {e};
          Deleted(ps, es, held, e, pollers, events);
          outcome := Some(Done(0));
        }
      } else {
        Ownerless(pollers, events, held, e);
      }
    }

    /** `e` is in no set and in nobody's hands. */
    ghost predicate Nobodys(e: nat)
      reads this
    {
      forall q :: q in pollers ==> e !in pollers[q].interest && e !in pollers[q].ready && (q in held ==> e !in held[q])
    }

    /** The part without locks: other operations on other events may have come between, and cannot have given `e` to anybody. */
    method CloseAlone(e: nat, closes: bool) returns (outcome: Outcome)
      requires Valid() && e in events && Nobodys(e)
      modifies this`events
      ensures Valid() && outcome == Done(if closes then 0 else -1)
      ensures events == if closes then old(events) - {e}
                        else old(events)[e := Event(Owner(old(events[e]), pollers), false, old(events[e].flags))]
    {
      ghost var es := events;
      assert forall q :: q in pollers ==> PollerOk(pollers, es, q) && HeldOk(pollers, es, held, q);
      if !closes {
        events := events[e := Event(Owner(events[e], pollers), false, events[e].flags)];
        Forgotten(pollers, es, held, e, events);
        return Done(-1);
      }
      events := events - {e};
      Deleted(pollers, es, held, e, pollers, events);
      outcome := Done(0);
    }

    /** `closeEvent`: what it deletes is in no set and in nobody's hands. */
    method CloseEvent(e: nat, closes: bool) returns (outcome: Outcome)
      requires Valid() && e in events
      modifies this`pollers, this`events
      ensures Valid()
      ensures (exists q :: q in pollers && e in held[q]) ==> outcome.Blocked?
      ensures outcome.Blocked? ==> pollers == old(pollers) && events == old(events)
      ensures !outcome.Blocked? ==> outcome == Done(if closes then 0 else -1)
      ensures outcome == Done(0) ==>
                && events == old(events) - {e} && Nobodys(e)
                && pollers.Keys == old(pollers).Keys && forall q :: q in pollers ==> WithoutEvent(old(pollers)[q], pollers[q], e)
      ensures outcome == Done(-1) ==> pollers == old(pollers)
      ensures outcome == Done(-1) ==> events == old(events)[e := Event(Owner(old(events[e]), pollers), false, old(events[e].flags))]
    {
      var early := CloseRegistered(e, closes);
      if early.Some? {
        return early.value;
      }
      assert forall q :: q in pollers ==> Registered(Del, pollers[q], e) == pollers[q];
      outcome := CloseAlone(e, closes);
    }

    /** `removeSpecialTimerFromInterestAndReady`, and the end of the loop timer `t` of one poll. */
    method DropLoopTimer(p: nat, t: nat) returns (outcome: Outcome)
      requires Valid() && p in pollers && t in events && events[t].owner == Some(p)
      modifies this`pollers, this`events
      ensures Valid()
      ensures old(pollers[p].kept) ==> outcome.Blocked? && pollers == old(pollers) && events == old(events)
      ensures !old(pollers[p].kept) ==>
                && outcome == Done(if t in old(pollers[p].ready) then 1 else if t in old(pollers[p].interest) then 0 else -1)
                && p in pollers && t !in pollers[p].interest && t !in pollers[p].ready && pollers[p].kept == old(pollers[p].kept)
                && OthersStay(old(pollers[p]), pollers[p], {t})
                && pollers == old(pollers)[p := pollers[p]] && events == old(events) - {t}
    {
      if pollers[p].kept {
        return Blocked;
      }
      ghost var ps, es := pollers, events;
      assert forall q :: q in pollers ==> PollerOk(ps, es, q) && HeldOk(ps, es, held, q);
      outcome := Done(if t in pollers[p].ready then 1 else if t in pollers[p].interest then 0 else -1);
      pollers := pollers[p := Registered(Del, pollers[p], t)];
      events := events - {t};
      Deleted(ps, es, held, t, pollers, events);
    }

    /** The destructor of a poller that nobody polls: its events forget it. */
    method DestroyPoller(p: nat) returns (outcome: Outcome)
      requires Valid() && p in pollers
      modifies this`pollers, this`events
      ensures Valid()
      ensures outcome == if old(pollers[p].kept) then Blocked else Done(0)
      ensures outcome.Blocked? ==> pollers == old(pollers) && events == old(events)
      ensures !outcome.Blocked? ==>
                && pollers == old(pollers) - {p}
                && events.Keys == old(events).Keys
                && forall e :: e in events ==>
                     var o := old(events)[e];
                     events[e] == if e in old(pollers[p].interest) then Event(None, false, o.flags) else o
    {
      ghost var ps, es := pollers, events;
      if pollers[p].kept {
        return Blocked;
      }
      var interest := pollers[p].interest;
      events := Detached(events, interest);
      pollers := pollers - {p};
      forall q | q in pollers ensures PollerOk(pollers, events, q) && HeldOk(pollers, events, held, q) {
        assert PollerOk(ps, es, q) && HeldOk(ps, es, held, q) && PollerOk(ps, es, p);
      }
      outcome := Done(0);
    }
  }

  /** `getEventMethEpollEquivImpl`: a back pointer to a poller that no longer exists counts as none. */
  function Owner(ev: Event, ps: Pollers): Option<nat> {
    if ev.owner.Some? && ev.owner.value in ps then ev.owner else None
  }

  /** The events of `es` that fire once, among `out`. */
  function OneShots(es: Events, out: set<nat>): set<nat> {
    set e | e in out && e in es && !Persists(es[e].flags)
  }

  lemma OneShotsAre(es: Events, out: set<nat>, interest: set<nat>)
    requires forall e :: e in out ==> e in es
    ensures var left := interest - OneShots(es, out);
            && (forall e :: e in out && e in interest ==> (e in left <==> es[e].flags / 16 % 2 == 1))
            && left <= interest <= left + out
  {
  }

  function Detached(es: Events, interest: set<nat>): Events {
    map e | e in es :: if e in interest then es[e].(owner := None, hasEv := false) else es[e]
  }

  /** Nothing is different but event `e`. */
  ghost predicate OnlyEvent(es: Events, es': Events, e: nat) {
    e in es && e in es' && forall x :: x != e ==> (x in es' <==> x in es) && (x in es ==> es'[x] == es[x])
  }

  /** A poller's sets are as they were outside `es`. */
  ghost predicate OthersStay(po: Poller, po': Poller, es: set<nat>) {
    forall x :: x !in es ==> (x in po'.interest <==> x in po.interest) && (x in po'.ready <==> x in po.ready)
  }

  /** A poller's sets after event `e` has left them. */
  ghost predicate WithoutEvent(po: Poller, po': Poller, e: nat) {
    po'.kept == po.kept && OthersStay(po, po', {e}) && e !in po'.interest && e !in po'.ready
  }

  /** What `EmEvent::ctl` makes of the event record, field by field. */
  ghost predicate Worked(op: Op, o: Event, n: Event, p: nat, mask: nat, answer: Libevent) {
    && n.owner == Some(p)
    && (op.Del? ==> n.hasEv == o.hasEv && n.flags == o.flags)
    && (!op.Del? && !o.hasEv ==>
          && (n.hasEv <==> answer.Accepted? || answer.Refused?)
          && n.flags % 2 == 0 && (n.flags == mask || n.flags + 1 == mask))
    && (!op.Del? && o.hasEv && (mask == 0 || mask == o.flags) ==> n.hasEv && n.flags == o.flags)
    && (!op.Del? && o.hasEv && mask != 0 && mask != o.flags ==>
          && (n.hasEv <==> !answer.NoEvent?)
          && (if n.hasEv then n.flags % 2 == 0 && (n.flags == mask || n.flags + 1 == mask) else n.flags == o.flags))
  }

  lemma ReworkedFields(op: Op, ev: Event, p: nat, mask: nat, answer: Libevent)
    ensures Worked(op, ev, Reworked(op, ev, p, mask, answer), p, mask, answer)
  {
    hide Persists, Reads, Writes;
  }

  /** An accepted or refused `ctl` gives the event its mask, and a libevent event if one could be made. */
  function Reworked(op: Op, ev: Event, p: nat, mask: nat, answer: Libevent): Event {
    var mine := ev.(owner := Some(p));
    if op.Del? then mine
    else if !ev.hasEv then mine.(flags := Stored(mask), hasEv := !answer.NoDescriptor? && !answer.NoEvent?)
    else if !Replaces(op, ev, mask) then mine
    else if answer.NoEvent? then mine.(hasEv := false)
    else mine.(flags := Stored(mask))
  }

  predicate Replaces(op: Op, ev: Event, mask: nat) {
    !op.Del? && ev.hasEv && mask != 0 && mask != ev.flags
  }

  /** A scan that came to its end, or to an interest set, met no caller that holds the event. */
  lemma HeldBlocks(ps: Pollers, es: Events, held: map<nat, set<nat>>, p: nat, e: nat, found: Option<nat>)
    requires Sound(ps, es, held) && e in es
    requires found.Some? ==> found.value in ps && e in ps[found.value].interest && !ps[found.value].kept
    requires found.None? ==> forall q :: q in ps ==> !ps[q].kept && e !in ps[q].interest
    ensures forall q :: q in ps ==> e !in held[q]
  {
    forall q | q in ps ensures e !in held[q] {
      assert PollerOk(ps, es, q) && HeldOk(ps, es, held, q);
      if found.Some? {
        assert PollerOk(ps, es, found.value);
      }
    }
  }

  /** A back pointer to a poller that no longer exists may be cleared. */
  lemma Forgotten(ps: Pollers, es: Events, held: map<nat, set<nat>>, e: nat, es': Events)
    requires Sound(ps, es, held) && e in es && e in es'
    requires es'[e].owner == es[e].owner || es[e].owner.None? || es[e].owner.value !in ps
    requires forall x :: x != e ==> (x in es' <==> x in es) && (x in es ==> es'[x] == es[x])
    ensures Sound(ps, es', held)
  {
    forall q | q in ps ensures PollerOk(ps, es', q) && HeldOk(ps, es', held, q) {
      assert PollerOk(ps, es, q) && HeldOk(ps, es, held, q);
    }
  }

  /** Taking an event out of the only sets that have it, and then deleting it. */
  lemma Deleted(ps: Pollers, es: Events, held: map<nat, set<nat>>, e: nat, ps': Pollers, es': Events)
    requires Sound(ps, es, held) && e in es && es' == es - {e}
    requires forall q :: q in ps ==> e !in held[q]
    requires ps'.Keys == ps.Keys && forall q :: q in ps ==> ps'[q] == Registered(Del, ps[q], e)
    ensures Sound(ps', es', held)
  {
    forall q | q in ps' ensures PollerOk(ps', es', q) && HeldOk(ps', es', held, q) {
      assert PollerOk(ps, es, q) && HeldOk(ps, es, held, q);
    }
  }

  /** The back pointer names `p` or nobody who has the event. */
  lemma OnlyHere(ps: Pollers, es: Events, held: map<nat, set<nat>>, p: nat, e: nat)
    requires Sound(ps, es, held) && p in ps && e in es
    requires es[e].owner == Some(p) || es[e].owner.None? ||
             forall q :: q in ps ==> (!ps[q].kept && e !in ps[q].interest) || (q == p && e in ps[q].interest)
    ensures forall q :: q in ps && q != p ==> e !in ps[q].interest && e !in held[q]
  {
    forall q | q in ps && q != p ensures e !in ps[q].interest && e !in held[q] {
      assert PollerOk(ps, es, q) && HeldOk(ps, es, held, q);
    }
  }

  lemma OwnerMoved(ps: Pollers, es: Events, held: map<nat, set<nat>>, p: nat, e: nat, es': Events)
    requires Sound(ps, es, held) && p in ps && e in es' && es'[e].owner == Some(p)
    requires forall q :: q in ps && q != p ==> e !in ps[q].interest && e !in held[q]
    requires forall x :: x != e ==> (x in es' <==> x in es) && (x in es ==> es'[x] == es[x])
    ensures Sound(ps, es', held)
  {
    forall q | q in ps ensures PollerOk(ps, es', q) && HeldOk(ps, es', held, q) {
      assert PollerOk(ps, es, q) && HeldOk(ps, es, held, q);
    }
  }
}

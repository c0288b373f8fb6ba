/** `EmEventCtr` in non-blocking mode: a bounded counter that wakes its poller through a libevent event.

  A notification goes two ways. `activeRead` and `activeWrite` are what the event loop has been told
  and has not dispatched yet; freeing the libevent event forgets both. `ready`, `readyRead` and
  `readyWrite` are what has been dispatched and the poller has not handed out yet. `registered` says
  that a living poller has the event in its interest set. The event has no file descriptor.
 */
module EventCounter {
  import opened EventMask

  const MAX: nat := 0xffff_ffff_ffff_fffe

  type u64 = n: nat | n <= 0xffff_ffff_ffff_ffff

  datatype Errno = EINVAL | EAGAIN

  datatype Reply<T> = Value(value: T) | Fails(errno: Errno) | Raises

  // ---------------------------------------------------------------------------------------------
  // An eventfd as a ledger
  // ---------------------------------------------------------------------------------------------

  /** What is in the counter, what was accepted into it, what was read out of it, and what a raising read lost. */
  datatype Ledger = Ledger(counter: nat, accepted: nat, drained: nat, lost: nat)

  /** A read may raise after it has zeroed the counter; then nobody gets the value. */
  datatype Act = DoRead(raises: bool) | DoWrite(val: u64)

  function Act1(l: Ledger, a: Act): Ledger {
    match a
    case DoRead(raises) =>
      if raises then l.(counter := 0, lost := l.lost + l.counter) else l.(counter := 0, drained := l.drained + l.counter)
    case DoWrite(val) =>
      if l.counter + val > MAX then l else l.(counter := l.counter + val, accepted := l.accepted + val)
  }

  function Acts(l: Ledger, acts: seq<Act>): Ledger
    decreases acts
  {
    if acts == [] then l else Acts(Act1(l, acts[0]), acts[1..])
  }

  /** Some read of the run raises while the counter is not zero. */
  predicate Loses(l: Ledger, acts: seq<Act>)
    decreases acts
  {
    acts != [] && ((acts[0].DoRead? && acts[0].raises && l.counter > 0) || Loses(Act1(l, acts[0]), acts[1..]))
  }

  /** Over any run: initial value plus accepted writes is values read plus what was lost plus the counter, which
      keeps its bound; and without the loss the balance holds exactly when no read raised on a counter above zero. */
  lemma {:induction false} Balance(l: Ledger, acts: seq<Act>)
    requires l.counter <= MAX
    ensures var r := Acts(l, acts);
            && r.counter <= MAX && r.lost >= l.lost
            && l.counter + (r.accepted - l.accepted) == (r.drained - l.drained) + (r.lost - l.lost) + r.counter
            && (l.counter + (r.accepted - l.accepted) == (r.drained - l.drained) + r.counter <==> !Loses(l, acts))
    decreases acts
  {
    if acts != [] {
      var m := Act1(l, acts[0]);
      ActBalance(l, acts[0]);
      Balance(m, acts[1..]);
      assert Acts(l, acts) == Acts(m, acts[1..]);
      assert Loses(l, acts) <==> m.lost > l.lost || Loses(m, acts[1..]);
    }
  }

  lemma ActBalance(l: Ledger, a: Act)
    requires l.counter <= MAX
    ensures var m := Act1(l, a);
            && m.counter <= MAX && m.lost >= l.lost
            && l.counter + (m.accepted - l.accepted) == (m.drained - l.drained) + (m.lost - l.lost) + m.counter
            && (m.lost > l.lost <==> a.DoRead? && a.raises && l.counter > 0)
  {
  }

  class Counter {
    const timer: bool
    var counter: nat
    var ev: bool
    var flags: nat
    var registered: bool
    var activeRead: bool
    var activeWrite: bool
    var ready: bool
    var readyRead: bool
    var readyWrite: bool
    ghost var initial: nat
    ghost var accepted: nat
    ghost var drained: nat
    ghost var lost: nat
    ghost var seen: bool

    predicate Readable()
      reads this
    {
      Reads(flags) && counter > 0
    }

    predicate Writable()
      reads this
    {
      !timer && Writes(flags) && counter < MAX
    }

    /** Nothing is created or destroyed, the bound is kept, and no notification is stale. `seen` says that a poller
        has been handed a read notification since the counter last rose from zero. */
    ghost predicate Valid()
      reads this
    {
      && counter <= MAX
      && initial + accepted == drained + lost + counter
      && (activeRead ==> ev && Readable())
      && (activeWrite ==> ev && Writable())
      && (registered ==> ev)
      && (ready ==> registered)
      && (readyRead ==> ready && Readable())
      && (readyWrite ==> ready && Writable())
      && (seen ==> counter > 0)
    }

    ghost function Books(): Ledger
      reads this
    {
      Ledger(counter, accepted, drained, lost)
    }

    /** A poller interested in reading has been told, or will be, of a counter that is not zero. */
    ghost predicate Told()
      reads this
    {
      registered && Readable() ==> activeRead || readyRead || seen
    }

    /** Neither the event loop nor a poller has a notification in store. */
    predicate Silent()
      reads this
    {
      !activeRead && !activeWrite && !ready && !readyRead && !readyWrite
    }

    constructor (timer: bool, initval: u64)
      requires initval <= MAX
      ensures Valid() && Told() && counter == initial == initval && accepted == drained == lost == 0
      ensures !ev && !registered && !seen && Silent() && flags == 0 && this.timer == timer
    {
      this.timer, counter := timer, initval;
      ev, flags, registered, activeRead, activeWrite := false, 0, false, false, false;
      ready, readyRead, readyWrite := false, false, false;
      initial, accepted, drained, lost, seen := initval, 0, 0, 0, false;
    }

    /** `renewEv`: the libevent event is freed and, for a registered one, made anew. `EmEvent::ctl` refuses to make one
        that asks for writing without a descriptor, so such an event raises and has left its poller. */
    method RenewEv() returns (raised: bool)
      requires counter <= MAX && ev
      modifies this`ev, this`registered, this`activeRead, this`activeWrite, this`ready, this`readyRead, this`readyWrite
      ensures ev == registered == (old(registered) && !Writes(flags))
      ensures raised == if old(registered) then Writes(flags) else Readable() || Writable()
      ensures activeRead == (registered && Readable()) && !activeWrite
      ensures old(registered) ==> !ready && !readyRead && !readyWrite
      ensures !old(registered) ==> ready == old(ready) && readyRead == old(readyRead) && readyWrite == old(readyWrite)
    {
      var inPoller := registered;
      if inPoller {
        registered, ready, readyRead, readyWrite := false, false, false, false;
      }
      ev, activeRead, activeWrite := false, false, false;
      if inPoller {
        if Writes(flags) {
          return true;
        }
        ev, registered := true, true;
      }
      if Readable() || Writable() {
        if !ev {
          return true;
        }
        activeRead, activeWrite := Readable(), Writable();
      }
      raised := false;
    }

    /** `resetCounterValMutexAlreadyLocked`. */
    method Reset() returns (old_: nat, raised: bool)
      requires Valid()
      modifies this`counter, this`seen, this`ev, this`registered, this`activeRead, this`activeWrite,
               this`ready, this`readyRead, this`readyWrite
      ensures counter == 0 && old_ == old(counter) && !seen && !activeRead && !readyRead
      ensures raised == (old_ > 0 && old(ev) && Reads(flags) && Writes(flags) && (old(registered) || !timer))
      ensures old_ > 0 && old(ev) && Reads(flags) ==> ev == registered == (old(registered) && !Writes(flags)) && Silent()
      ensures !(old_ > 0 && old(ev) && Reads(flags)) ==>
                && ev == old(ev) && registered == old(registered) && ready == old(ready) && readyWrite == old(readyWrite)
                && activeWrite == (old(activeWrite) || (ev && Writable() && old_ == MAX))
    {
      old_, raised := counter, false;
      if counter != 0 {
        counter, seen := 0, false;
        if ev {
          if Reads(flags) {
            raised := RenewEv();
          } else if !timer && Writes(flags) && old_ >= MAX {
            activeWrite := true;
          }
        }
      }
    }

    /** `read`: hands out the whole counter, or reports that it is zero. */
    method Read() returns (r: Reply<nat>)
      requires Valid()
      modifies this`counter, this`seen, this`ev, this`registered, this`activeRead, this`activeWrite,
               this`ready, this`readyRead, this`readyWrite, this`drained, this`lost
      ensures Valid() && Told() && counter == 0 && !seen && !activeRead && !readyRead
      ensures r == if old(counter) == 0 then Fails(EAGAIN)
                   else if old(ev) && Reads(flags) && Writes(flags) && (old(registered) || !timer) then Raises
                   else Value(old(counter))
      ensures Books() == Act1(old(Books()), DoRead(r.Raises?))
      ensures old(counter) > 0 && old(ev) && Reads(flags) ==>
                ev == registered == (old(registered) && !Writes(flags)) && Silent()
      ensures !(old(counter) > 0 && old(ev) && Reads(flags)) ==>
                && ev == old(ev) && registered == old(registered) && ready == old(ready) && readyWrite == old(readyWrite)
                && activeWrite == (old(activeWrite) || (ev && Writable() && old(counter) == MAX))
    {
      var n, raised := Reset();
      if raised {
        lost := lost + n;
        return Raises;
      }
      if n != 0 {
        drained := drained + n;
        return Value(n);
      }
      r := Fails(EAGAIN);
    }

    /** A write of `val` fills the counter of an event that asks for writing. */
    predicate Fills(val: nat)
      reads this
    {
      val > 0 && counter + val == MAX && ev && !timer && Writes(flags)
    }

    /** `writeProt`: refused exactly when the counter would pass its bound. */
    method Write(val: u64) returns (r: Reply<()>)
      requires Valid()
      modifies this`counter, this`ev, this`registered, this`activeRead, this`activeWrite,
               this`ready, this`readyRead, this`readyWrite, this`accepted
      ensures Valid() && seen == old(seen)
      ensures Told() <==> old(Told()) || old(Fills(val))
      ensures r == if val == 0xffff_ffff_ffff_ffff then Fails(EINVAL)
                   else if old(counter) + val > 0xffff_ffff_ffff_fffe then Fails(EAGAIN)
                   else if old(Fills(val)) && (old(registered) || Reads(flags)) then Raises
                   else Value(())
      ensures Books() == Act1(old(Books()), DoWrite(val))
      ensures counter == if r.Fails? then old(counter) else old(counter) + val
      ensures old(Fills(val)) ==> !ev && !registered && Silent()
      ensures !old(Fills(val)) ==>
                var rise := old(counter) == 0 < counter && ev && Reads(flags);
                && ev == old(ev) && registered == old(registered)
                && ready == old(ready) && readyRead == old(readyRead) && readyWrite == old(readyWrite)
                && activeRead == (rise || old(activeRead)) && activeWrite == (old(activeWrite) || (rise && Writable()))
    {
      hide Reads, Writes, Persists;
      if val == 0 {
        return Value(());
      }
      if val == 0xffff_ffff_ffff_ffff {
        return Fails(EINVAL);
      }
      var maxWritable := MAX - counter;
      if val > maxWritable {
        return Fails(EAGAIN);
      }
      var old_ := counter;
      counter, accepted := counter + val, accepted + val;
      if ev {
        if !timer && old_ < MAX && Writes(flags) && counter >= MAX {
          var raised := RenewEv();
          if raised {
            return Raises;
          }
        } else if Reads(flags) && old_ == 0 {
          activeRead := true;
          if !timer && Writes(flags) && counter < MAX {
            activeWrite := true;
          }
        }
      }
      r := Value(());
    }

    /** The event loop runs the callback of an active event, which is ignored unless a poller has it. */
    method Dispatch()
      requires Valid()
      modifies this`activeRead, this`activeWrite, this`ready, this`readyRead, this`readyWrite
      ensures Valid() && (Told() <==> old(Told())) && !activeRead && !activeWrite
      ensures ready == (old(ready) || (registered && (old(activeRead) || old(activeWrite))))
      ensures readyRead == (old(readyRead) || (registered && old(activeRead)))
      ensures readyWrite == (old(readyWrite) || (registered && old(activeWrite)))
    {
      var read, write := activeRead, activeWrite;
      activeRead, activeWrite := false, false;
      if registered && (read || write) {
        ready, readyRead, readyWrite := true, readyRead || read, readyWrite || write;
      }
    }

    /** The poller hands out what is ready, and drops a one-shot event. */
    method Collect() returns (handed: bool, read: bool, write: bool)
      requires Valid()
      modifies this`registered, this`ready, this`readyRead, this`readyWrite, this`seen
      ensures Valid() && (Told() <==> old(Told()) || (handed && !Persists(flags)))
      ensures handed == old(ready) && read == old(readyRead) && write == old(readyWrite)
      ensures (read ==> Readable()) && (write ==> Writable())
      ensures !ready && !readyRead && !readyWrite && seen == (old(seen) || read)
      ensures registered == (old(registered) && !(handed && !Persists(flags)))
    {
      hide Reads, Writes, Persists;
      handed, read, write := ready, readyRead, readyWrite;
      ready, readyRead, readyWrite, seen := false, false, false, seen || read;
      if handed && !Persists(flags) {
        registered := false;
      }
    }

    /** `ctl` for Del. */
    method Unregister()
      requires Valid() && ev
      modifies this`registered, this`activeRead, this`activeWrite, this`ready, this`readyRead, this`readyWrite
      ensures Valid() && Told() && !registered && Silent()
    {
      registered, activeRead, activeWrite, ready, readyRead, readyWrite := false, false, false, false, false, false;
    }

    /** `EmEventCtr::ctl` for Add and Mod. A first libevent event that asks for writing is refused, with the mask already
        stored. Otherwise a new mask replaces the libevent event, whatever was dispatched is forgotten, and only what
        the old mask did not ask for is made active again. */
    method Register(mask: nat) returns (ok: bool)
      requires Valid()
      modifies this`ev, this`flags, this`registered, this`activeRead, this`activeWrite, this`readyRead, this`readyWrite
      ensures Valid() && ok == (old(ev) || !Writes(mask))
      ensures flags == if old(ev) && mask == 0 then old(flags) else if old(ev) && mask == old(flags) then mask else Stored(mask)
      ensures !ok ==> !ev && !registered && Silent()
      ensures ok ==>
                var kept := old(ev) && (mask == 0 || mask == old(flags));
                var anew := (Readable() && (!old(ev) || !Reads(old(flags)))) || (Writable() && (!old(ev) || !Writes(old(flags))));
                && registered && ev && !readyRead && !readyWrite
                && activeRead == ((kept && old(activeRead)) || (anew && Readable()))
                && activeWrite == ((kept && old(activeWrite)) || (anew && Writable()))
      ensures Told() <==> !(Readable() && !seen && Mutes(old(ev), old(flags), mask, old(activeRead))
                            && !(Writable() && !Writes(old(flags))))
    {
      hide Reads, Writes, Persists, Stored;
      var oldEv, oldFlags := ev, flags;
      if !ev {
        flags := Stored(mask);
        if Writes(flags) {
          return false;
        }
        ev, activeRead, activeWrite := true, false, false;
      } else if mask != 0 && mask != flags {
        flags := Stored(mask);
        activeRead, activeWrite := false, false;
      }
      registered, readyRead, readyWrite := true, false, false;
      var read := Readable();
      var write := Writable();
      var changed := (read && (!oldEv || !Reads(oldFlags))) || (write && (!oldEv || !Writes(oldFlags)));
      if changed {
        activeRead, activeWrite := activeRead || read, activeWrite || write;
      }
      ok := true;
    }
  }

  /** What the event loop or a poller has in store is never stale, whatever has been called. */
  lemma NoStale(c: Counter)
    requires c.Valid()
    ensures c.activeRead || c.readyRead ==> c.counter > 0 && c.flags / 2 % 2 == 1
    ensures c.activeWrite || c.readyWrite ==> !c.timer && c.counter < 0xffff_ffff_ffff_fffe && c.flags / 4 % 2 == 1
  {
  }

  /** A registration that makes reading active neither anew, since the old mask asked for it already, nor still. */
  predicate Mutes(ev: bool, flags: nat, mask: nat, activeRead: bool) {
    ev && Reads(flags) && (!activeRead || (mask != 0 && mask != flags))
  }

  // ---------------------------------------------------------------------------------------------
  // Runs that go wrong
  // ---------------------------------------------------------------------------------------------

  /** A new mask before the dispatch: the poller is never told of the value, however much is written on top of it. */
  method MutedByMask(more: u64) returns (c: Counter)
    ensures fresh(c) && c.Valid() && c.registered && c.Readable() && !c.Told()
    ensures c.counter == if 1 + more <= MAX then 1 + more else 1
  {
    Masks();
    hide Reads, Writes, Persists, Stored;
    c := new Counter(false, 0);
    var ok := c.Register(EVM_READ);
    var r := c.Write(1);
    assert c.Told() && c.activeRead;
    ok := c.Register(EVM_READ + EVM_PERSIST);
    r := c.Write(more);
  }

  /** The same mask again, between the dispatch and the poll: the poller is handed the event, without its flags. */
  method MutedByRepeat() returns (c: Counter, handed: bool, read: bool)
    ensures fresh(c) && c.Valid() && c.registered && c.Readable() && !c.Told() && handed && !read
  {
    Masks();
    hide Reads, Writes, Persists, Stored;
    c := new Counter(false, 0);
    var mask := EVM_READ + EVM_PERSIST;
    var ok := c.Register(mask);
    var r := c.Write(1);
    c.Dispatch();
    assert c.Told() && c.readyRead;
    ok := c.Register(mask);
    var write;
    handed, read, write := c.Collect();
  }

  /** An event that has come to ask for writing as well: its first read raises, the value is lost, and the event has left
      its poller and cannot be registered under that mask again. */
  method LosingRead(val: u64) returns (c: Counter, r: Reply<nat>, again: bool)
    requires 0 < val < MAX
    ensures fresh(c) && c.Valid() && r.Raises? && c.Books() == Ledger(0, val, 0, val)
    ensures !c.registered && !again
  {
    Masks();
    hide Reads, Writes, Persists, Stored;
    c := new Counter(false, 0);
    var mask := EVM_READ + EVM_WRITE;
    var ok := c.Register(EVM_READ);
    ok := c.Register(mask);
    var w := c.Write(val);
    assert c.registered && w == Value(());
    r := c.Read();
    again := c.Register(mask);
  }

  /** The write that fills such an event's counter is accepted, raises, and takes the event out of its poller. */
  method RaisingWrite() returns (c: Counter, r: Reply<()>)
    ensures fresh(c) && c.Valid() && r.Raises? && c.Books() == Ledger(MAX, MAX, 0, 0) && !c.registered
  {
    Masks();
    hide Reads, Writes, Persists, Stored;
    c := new Counter(false, 0);
    var ok := c.Register(EVM_READ);
    ok := c.Register(EVM_READ + EVM_WRITE);
    r := c.Write(MAX);
  }
}

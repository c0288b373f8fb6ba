/** `Queue` as its consumer sees it while no push is in flight: a linked list behind a sentinel. */
module MpscQueue {
  import opened Options

  /** `Queue::Entry`; `storage` is None before a value is constructed and after it is destroyed. */
  class Entry<T> {
    var storage: Option<T>
    var next: Entry?<T>

    constructor (storage: Option<T>)
      ensures this.storage == storage && next == null
    {
      this.storage, next := storage, null;
    }
  }

  class Queue<T> {
    var head: Entry<T>
    var tail: Entry<T>
    ghost var spine: seq<Entry<T>>

    /** `spine` runs along the links from the sentinel at `tail` to `head`. */
    ghost predicate Valid()
      reads this, spine
    {
      && spine != [] && spine[0] == tail && spine[|spine| - 1] == head
      && (forall i, j :: 0 <= i < j < |spine| ==> spine[i] != spine[j])
      && head.next == null
      && (forall i :: 0 <= i < |spine| - 1 ==> spine[i].next == spine[i + 1])
      && tail.storage.None?
      && (forall i :: 1 <= i < |spine| ==> spine[i].storage.Some?)
    }

    /** The values held, oldest first. */
    ghost function Contents(): (s: seq<T>)
      requires Valid()
      reads this, spine
    {
      var nodes := spine;
      seq(|nodes| - 1, i requires 0 <= i < |nodes| - 1 && nodes[i + 1].storage.Some? reads nodes => nodes[i + 1].storage.value)
    }

    constructor ()
      ensures Valid() && Contents() == [] && fresh(spine)
    {
      var sentinel := new Entry<T>(None);
      head, tail, spine := sentinel, sentinel, [sentinel];
    }

    method Push(u: T)
      requires Valid()
      modifies this, spine
      ensures Valid() && Contents() == old(Contents()) + [u]
      ensures fresh(spine[|old(spine)|..]) && spine[..|old(spine)|] == old(spine)
    {
      var entry := new Entry<T>(Some(u));
      var prev := head;
      head := entry;
      prev.next := entry;
      spine := spine + [entry];
    }

    /** Hands out the old sentinel, with the oldest value moved into it; that value's node is the new sentinel. */
    method Pop() returns (res: Entry?<T>)
      requires Valid()
      modifies this, spine
      ensures Valid() && (res == null <==> old(Contents()) == [])
      ensures res == null ==> spine == old(spine) && Contents() == old(Contents())
      ensures res != null ==> res == old(spine)[0] && res !in spine && spine == old(spine)[1..]
      ensures res != null ==> res.storage == Some(old(Contents())[0]) && Contents() == old(Contents())[1..]
    {
      ghost var nodes := spine;
      assert |nodes| > 1 ==> nodes[0].next == nodes[1];
      res := tail;
      var next := res.next;
      if next == null {
        return null;
      }
      tail := next;
      res.storage := next.storage;
      next.storage := None;
      spine := spine[1..];
      forall i | 0 <= i < |spine| - 1 ensures spine[i].next == spine[i + 1] {
        assert old(nodes[i + 1].next) == nodes[i + 2];
      }
    }

    method PopSafe() returns (object_: Option<T>)
      requires Valid()
      modifies this, spine
      ensures Valid()
      ensures object_ == if old(Contents()) == [] then None else Some(old(Contents())[0])
      ensures Contents() == if old(Contents()) == [] then [] else old(Contents())[1..]
    {
      object_ := None;
      var entry := Pop();
      if entry != null {
        object_ := entry.storage;
        entry.storage := None;
      }
    }

    predicate Empty()
      reads this
    {
      head == tail
    }

    /** `empty` tells the truth. */
    lemma EmptyIsEmpty()
      requires Valid()
      ensures Empty() <==> Contents() == []
    {
      if |spine| > 1 {
        assert spine[0] != spine[|spine| - 1];
      }
    }
  }
}

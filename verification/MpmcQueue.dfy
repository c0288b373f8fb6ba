/** `MPMCQueue` as one caller sees it while no other call is in flight. */
module MpmcQueue {
  import opened MpmcMachine

  /** Every residue occurs in any window of `n` tickets. */
  lemma CellCover(n: nat, d: nat, t: nat) returns (u: nat)
    requires n > 0
    ensures d <= u < d + n && Cell(n, u) == Cell(n, t)
  {
    var c, e, q := t % n, d % n, d / n;
    if e <= c {
      u := d + (c - e);
      ModOf(u, q, c, n);
    } else {
      u := d + (n - e + c);
      assert (q + 1) * n == q * n + n;
      ModOf(u, q + 1, c, n);
    }
  }

  class Ring<T(0)> {
    const sequence: array<nat>
    const data: array<T>
    var enqueueIndex: nat
    var dequeueIndex: nat

    ghost predicate Valid()
      reads this, sequence, data
    {
      && sequence != data as object
      && sequence.Length == data.Length >= 2
      && dequeueIndex <= enqueueIndex <= dequeueIndex + sequence.Length
      && (forall t :: dequeueIndex <= t < enqueueIndex ==> sequence[Cell(sequence.Length, t)] == t + 1)
      && (forall t :: enqueueIndex <= t < dequeueIndex + sequence.Length ==> sequence[Cell(sequence.Length, t)] == t)
    }

    /** The items held, oldest first. */
    ghost function Contents(): (s: seq<T>)
      requires Valid()
      reads this, sequence, data
    {
      var d, held, cells := dequeueIndex, enqueueIndex - dequeueIndex, data[..];
      seq(held, k requires 0 <= k < held => cells[Cell(|cells|, d + k)])
    }

    constructor (size: nat)
      requires size >= 2
      ensures Valid() && fresh(sequence) && fresh(data)
      ensures sequence.Length == size && Contents() == []
    {
      sequence := new nat[size](i => i);
      data := new T[size];
      enqueueIndex, dequeueIndex := 0, 0;
      new;
      forall t: nat | t < size ensures Cell(size, t) == t {
        ModOf(t, 0, t, size);
      }
    }

    /** A cell looked up through an index that others have overtaken is ahead of it. */
    lemma StaleSlot(t: nat)
      requires Valid() && t < dequeueIndex
      ensures sequence[Cell(sequence.Length, t)] >= dequeueIndex
    {
      var u := CellCover(sequence.Length, dequeueIndex, t);
      if u < enqueueIndex {
        assert sequence[Cell(sequence.Length, u)] == u + 1;
      } else {
        assert sequence[Cell(sequence.Length, u)] == u;
      }
    }

    /** The slot of the next ticket: free, or still holding the item of one lap ago. */
    lemma NextSlot()
      requires Valid()
      ensures var q := sequence[Cell(sequence.Length, enqueueIndex)];
              if enqueueIndex - dequeueIndex == sequence.Length then q < enqueueIndex else q == enqueueIndex
    {
      CellWindow(sequence.Length, dequeueIndex, dequeueIndex);
    }

    /** `seen` is the value the first load of the index returned; the weak compare-and-swap fails spuriously `spurious` times. */
    method Enqueue(item: T, seen: nat, spurious: nat) returns (ok: bool)
      requires Valid() && seen <= enqueueIndex
      modifies this`enqueueIndex, sequence, data
      ensures Valid() && dequeueIndex == old(dequeueIndex)
      ensures ok == (|old(Contents())| < sequence.Length)
      ensures Contents() == if ok then old(Contents()) + [item] else old(Contents())
    {
      var index: nat, failures: nat := seen, spurious;
      NextSlot();
      while true
        invariant Valid() && index <= enqueueIndex == old(enqueueIndex)
        invariant unchanged(sequence) && unchanged(data)
        decreases failures, enqueueIndex - index
      {
        if index < dequeueIndex {
          StaleSlot(index);
        }
        var diff := sequence[Cell(sequence.Length, index)] - index;
        if diff == 0 {
          if failures == 0 {
            enqueueIndex := index + 1;
            break;
          }
          failures, index := failures - 1, enqueueIndex;
        } else if diff < 0 {
          return false;
        } else {
          index := enqueueIndex;
        }
      }
      var cell := Cell(sequence.Length, index);
      forall t | dequeueIndex <= t < dequeueIndex + sequence.Length && t != index
        ensures Cell(sequence.Length, t) != cell
      {
        CellWindow(sequence.Length, t, index);
        CellWindow(sequence.Length, index, t);
      }
      data[cell] := item;
      sequence[cell] := index + 1;
      ok := true;
    }

    method Dequeue(seen: nat, spurious: nat, blank: T) returns (ok: bool, item: T)
      requires Valid() && seen <= dequeueIndex
      modifies this`dequeueIndex, sequence
      ensures Valid() && enqueueIndex == old(enqueueIndex)
      ensures ok == (old(Contents()) != [])
      ensures ok ==> item == old(Contents())[0] && Contents() == old(Contents())[1..]
      ensures !ok ==> item == blank && Contents() == old(Contents())
    {
      item := blank;
      var index: nat, failures: nat := seen, spurious;
      NextSlot();
      while true
        invariant Valid() && index <= dequeueIndex == old(dequeueIndex) && item == blank
        invariant unchanged(sequence)
        decreases failures, dequeueIndex - index
      {
        if index < dequeueIndex {
          StaleSlot(index);
          StaleByLap(index);
        }
        var diff := sequence[Cell(sequence.Length, index)] - (index + 1);
        if diff == 0 {
          if failures == 0 {
            dequeueIndex := index + 1;
            break;
          }
          failures, index := failures - 1, dequeueIndex;
        } else if diff < 0 {
          return false, item;
        } else {
          index := dequeueIndex;
        }
      }
      var n := sequence.Length;
      var cell := Cell(n, index);
      item := data[cell];
      CellWindow(n, index, index);
      forall t | index < t < index + n ensures Cell(n, t) != cell {
        CellWindow(n, index, t);
      }
      sequence[cell] := index + n;
      ok := true;
    }

    /** An overtaken dequeue index finds a cell at least one lap further on. */
    lemma StaleByLap(t: nat)
      requires Valid() && t < dequeueIndex
      ensures sequence[Cell(sequence.Length, t)] > t + 1
    {
      var n := sequence.Length;
      var u := CellCover(n, dequeueIndex, t);
      if u == t + 1 {
        CellWindow(n, t, u);
      }
      assert sequence[Cell(n, u)] >= u;
    }
  }
}

/** Contents of a circular buffer: `count` slots from `head` on, wrapping around. */
module Rings {
  /** The slot `i` places after `head`. */
  function At(head: nat, i: nat, size: nat): (r: nat)
    requires head < size && i <= size
    ensures r < size
  {
    if head + i < size then head + i else head + i - size
  }

  /** The index arithmetic of the code. */
  lemma Wraps(head: nat, i: nat, size: nat)
    requires head < size && i <= size
    ensures (head + i) % size == At(head, i, size)
  {
  }

  function Window<T>(slots: seq<T>, head: nat, count: nat): (r: seq<T>)
    requires head < |slots| && count <= |slots|
    ensures |r| == count
  {
    seq(count, i requires 0 <= i < count => slots[At(head, i, |slots|)])
  }

  /** Filling the next free slot appends. */
  lemma PushAppends<T>(slots: seq<T>, head: nat, count: nat, x: T)
    requires head < |slots| && count < |slots|
    ensures Window(slots[At(head, count, |slots|) := x], head, count + 1) == Window(slots, head, count) + [x]
  {
    assert forall i: nat :: i < count ==> At(head, i, |slots|) != At(head, count, |slots|);
  }

  /** Advancing the head drops the oldest. */
  lemma PopDrops<T>(slots: seq<T>, head: nat, count: nat)
    requires head < |slots| && 0 < count <= |slots|
    ensures Window(slots, head, count)[0] == slots[head]
    ensures Window(slots, At(head, 1, |slots|), count - 1) == Window(slots, head, count)[1..]
  {
    assert forall i: nat :: i < count - 1 ==> At(At(head, 1, |slots|), i, |slots|) == At(head, i + 1, |slots|);
  }

  /** A bounded queue in a fixed array. */
  class Ring<T(0)> {
    const slots: array<T>
    var head: nat
    var count: nat

    ghost predicate Valid()
      reads this
    {
      head < slots.Length && count <= slots.Length
    }

    ghost function Contents(): seq<T>
      requires Valid()
      reads this, slots
    {
      Window(slots[..], head, count)
    }

    constructor (size: nat)
      requires size > 0
      ensures Valid() && fresh(slots) && slots.Length == size && Contents() == []
    {
      slots := new T[size];
      head, count := 0, 0;
    }

    method Push(x: T)
      requires Valid() && count < slots.Length
      modifies this`count, slots
      ensures Valid() && Contents() == old(Contents()) + [x]
    {
      PushAppends(slots[..], head, count, x);
      Wraps(head, count, slots.Length);
      ghost var was := slots[..];
      slots[(head + count) % slots.Length] := x;
      assert slots[..] == was[At(head, count, slots.Length) := x];
      count := count + 1;
    }

    method Peek() returns (x: T)
      requires Valid() && count > 0
      ensures x == Contents()[0]
    {
      PopDrops(slots[..], head, count);
      x := slots[head];
    }

    method Pop() returns (x: T)
      requires Valid() && count > 0
      modifies this`head, this`count
      ensures Valid() && [x] + Contents() == old(Contents())
    {
      PopDrops(slots[..], head, count);
      Wraps(head, 1, slots.Length);
      x := slots[head];
      head := (head + 1) % slots.Length;
      count := count - 1;
    }

    method Clear()
      requires Valid()
      modifies this`count
      ensures Valid() && Contents() == []
    {
      count := 0;
    }
  }

  /** A bounded queue that keeps its write index as well. It is coherent while the write index
      agrees with the read index and the count. */
  class StagingRing<T(0)> {
    const slots: array<T>
    var read: nat
    var write: nat
    var count: nat

    ghost predicate Valid()
      reads this
    {
      read < slots.Length && write < slots.Length && count <= slots.Length
    }

    ghost predicate Coherent()
      requires Valid()
      reads this
    {
      write == At(read, count, slots.Length)
    }

    ghost function Contents(): seq<T>
      requires Valid()
      reads this, slots
    {
      Window(slots[..], read, count)
    }

    constructor (size: nat)
      requires size > 0
      ensures Valid() && fresh(slots) && slots.Length == size && Coherent() && Contents() == []
    {
      slots := new T[size];
      read, write, count := 0, 0, 0;
    }

    method Put(x: T)
      requires Valid() && Coherent() && count < slots.Length
      modifies this`write, this`count, slots
      ensures Valid() && Coherent() && Contents() == old(Contents()) + [x]
    {
      PushAppends(slots[..], read, count, x);
      Wraps(write, 1, slots.Length);
      ghost var was := slots[..];
      slots[write] := x;
      assert slots[..] == was[At(read, count, slots.Length) := x];
      write := (write + 1) % slots.Length;
      count := count + 1;
    }

    method Take() returns (x: T)
      requires Valid() && Coherent() && count > 0
      modifies this`read, this`count
      ensures Valid() && Coherent() && [x] + Contents() == old(Contents())
    {
      PopDrops(slots[..], read, count);
      Wraps(read, 1, slots.Length);
      x := slots[read];
      read := (read + 1) % slots.Length;
      count := count - 1;
    }

    method Reset()
      requires Valid()
      modifies this`read, this`write, this`count
      ensures Valid() && Coherent() && Contents() == []
    {
      read, write, count := 0, 0, 0;
    }

    /** Forgets the frames but not the indices: coherent afterwards only if they met. */
    method ZeroCount()
      requires Valid()
      modifies this`count
      ensures Valid() && Contents() == [] && (Coherent() <==> read == write)
    {
      count := 0;
    }
  }
}

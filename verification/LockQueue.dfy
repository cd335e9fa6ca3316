/**
 * The queues under a mutex: a ring with wrapping 64-bit indices, and an unbounded queue
 * whose size counter is kept outside the mutex.
 */
module LockQueue {
  import opened Common
  import opened Bits
  import opened BitMap
  import Cyclic

  type Item = nat

  /** Position number k of the ring. */
  function At(k: nat, cap: nat): nat
    requires cap > 0
  {
    Cyclic.Slot(k, cap)
  }

  /** Slot j is that of one of the n positions after `from`. */
  ghost predicate InUse(j: nat, from: nat, n: nat, cap: nat)
    requires cap > 0
  {
    exists p :: from < p <= from + n && j == At(p, cap)
  }

  /** The items are in the ring, the first one after position `from`, and nothing else is. */
  ghost predicate Holds(ring: seq<Option<Item>>, from: nat, items: seq<Item>) {
    && 0 < |ring| && |items| <= |ring|
    && (forall i | 0 <= i < |items| :: ring[At(from + 1 + i, |ring|)] == Some(items[i]))
    && (forall j | 0 <= j < |ring| && ring[j].Some? :: InUse(j, from, |items|, |ring|))
  }

  lemma HoldsPush(ring: seq<Option<Item>>, from: nat, items: seq<Item>, x: Item)
    requires Holds(ring, from, items) && |items| < |ring|
    ensures Holds(ring[At(from + 1 + |items|, |ring|) := Some(x)], from, items + [x])
  {
    var cap, n := |ring|, |items|;
    var ring' := ring[At(from + 1 + n, cap) := Some(x)];
    forall i | 0 <= i < n + 1 ensures ring'[At(from + 1 + i, cap)] == Some((items + [x])[i]) {
      if i < n && At(from + 1 + i, cap) == At(from + 1 + n, cap) {
        Cyclic.Gap(from + 1 + i, from + 1 + n, cap);
      }
    }
    forall j | 0 <= j < cap && ring'[j].Some? ensures InUse(j, from, n + 1, cap) {
      assert j == At(from + 1 + n, cap) || InUse(j, from, n, cap);
    }
  }

  lemma HoldsPop(ring: seq<Option<Item>>, from: nat, items: seq<Item>)
    requires Holds(ring, from, items) && items != []
    ensures Holds(ring[At(from + 1, |ring|) := None], from + 1, items[1..])
  {
    var cap := |ring|;
    var ring' := ring[At(from + 1, cap) := None];
    forall i | 0 <= i < |items| - 1 ensures ring'[At(from + 1 + 1 + i, cap)] == Some(items[1..][i]) {
      assert ring[At(from + 1 + (i + 1), cap)] == Some(items[i + 1]);
      if At(from + 1 + 1 + i, cap) == At(from + 1, cap) {
        Cyclic.Gap(from + 1, from + 1 + 1 + i, cap);
      }
    }
    forall j | 0 <= j < cap && ring'[j].Some? ensures InUse(j, from + 1, |items| - 1, cap) {
      assert InUse(j, from, |items|, cap);
      var p :| from < p <= from + |items| && j == At(p, cap);
      assert p != from + 1;
    }
  }

  /** The wrapping tests tell the true difference of the indices, whichever way they have wrapped. */
  lemma TestsExact(head: nat, tail: nat, cap: nat)
    requires head <= tail <= head + cap && 0 < cap < TWO64
    ensures Word(head) == Word(tail) <==> head == tail
    ensures Word(Word(tail) - cap) == Word(head) <==> tail == head + cap
    ensures Word(Word(tail) - Word(head)) == tail - head
  {
    WordDiff(tail, head);
    WordAdd(tail, 0 - cap);
    WordDiff(tail - cap, head);
    assert Word(tail) + (0 - cap) == Word(tail) - cap && tail + (0 - cap) == tail - cap;
    assert Word(0) == 0;
  }

  /** One step of an index, and the slot it leads to. */
  lemma NextSlot(k: nat, log: nat)
    requires log <= 30
    ensures Word(Word(k) + 1) == Word(k + 1)
    ensures And(Word(Word(k) + 1), Pow2(log) - 1) == At(k + 1, Pow2(log))
  {
    WordAdd(k, 1);
    IndexIsSlot(k + 1, log);
  }

  lemma PopsFirst(ring: seq<Option<Item>>, from: nat, items: seq<Item>, log: nat)
    requires log <= 30 && |ring| == Pow2(log) && Holds(ring, from, items) && items != []
    ensures Word(Word(from) + 1) == Word(from + 1)
    ensures var idx := And(Word(Word(from) + 1), |ring| - 1);
      idx < |ring| && ring[idx] == Some(items[0]) && Holds(ring[idx := None], from + 1, items[1..])
  {
    NextSlot(from, log);
    assert ring[At(from + 1 + 0, |ring|)] == Some(items[0]);
    HoldsPop(ring, from, items);
  }

  lemma PushesLast(ring: seq<Option<Item>>, from: nat, items: seq<Item>, log: nat, x: Item)
    requires log <= 30 && |ring| == Pow2(log) && Holds(ring, from, items) && |items| < |ring|
    ensures Word(Word(from + |items|) + 1) == Word(from + |items| + 1)
    ensures var idx := And(Word(Word(from + |items|) + 1), |ring| - 1);
      idx < |ring| && Holds(ring[idx := Some(x)], from, items + [x])
  {
    NextSlot(from + |items|, log);
    HoldsPush(ring, from, items, x);
  }

  class LimitQueue {
    const vec: array<Option<Item>>
    const capacity: nat
    const capacityBitmap: nat
    var head: nat
    var tail: nat
    ghost const log: nat
    ghost var items: seq<Item>
    ghost var first: nat // the unbounded value of head

    ghost predicate Valid()
      reads this, vec
    {
      && log <= 30 && capacity == Pow2(log) == vec.Length && capacity <= 0x4000_0000 && capacityBitmap == capacity - 1
      && Holds(vec[..], first, items)
      && head == Word(first) && tail == Word(first + |items|)
    }

    /** Any equal start of head and tail will do; the program starts at zero. */
    constructor (size: nat, start: nat)
      requires 1 <= size <= 0x4000_0000
      ensures Valid() && items == [] && capacity == AlignSize(size) && fresh(vec)
    {
      AlignedLog(size);
      CapacityBound(LogOf(size));
      hide AlignSize, Pow2, LogOf, Word;
      capacity, capacityBitmap := AlignSize(size), AlignSize(size) - 1;
      vec := new Option<Item>[AlignSize(size)](_ => None);
      head, tail := Word(start), Word(start);
      log, items, first := LogOf(size), [], start;
    }

    method IsEmpty() returns (r: bool)
      requires Valid()
      ensures r <==> items == []
    {
      TestsExact(first, first + |items|, capacity);
      r := head == tail;
    }

    method IsFull() returns (r: bool)
      requires Valid()
      ensures r <==> |items| == capacity
    {
      TestsExact(first, first + |items|, capacity);
      r := Word(tail - capacity) == head;
    }

    method SizeApprox() returns (n: nat)
      requires Valid()
      ensures n == |items|
    {
      var full := IsFull();
      if full {
        return capacity;
      }
      TestsExact(first, first + |items|, capacity);
      MaskIsRemainder(|items|, log);
      hide Pow2, And, Word;
      Cyclic.Unique(|items|, capacity, 0, |items|);
      n := And(Word(tail - head), capacityBitmap);
    }

    method TryDequeue() returns (item: Option<Item>)
      requires Valid()
      modifies vec, this`head, this`items, this`first
      ensures Valid()
      ensures item.None? <==> old(items) == []
      ensures if item.None? then items == old(items) else old(items) == [item.value] + items
    {
      hide Pow2, And, Word, Holds;
      var empty := IsEmpty();
      if empty {
        return None;
      }
      PopsFirst(vec[..], first, items, log);
      head := Word(head + 1);
      var idx := And(head, capacityBitmap);
      item := vec[idx];
      ghost var before := vec[..];
      vec[idx] := None;
      assert vec[..] == before[idx := None];
      first, items := first + 1, items[1..];
    }

    method TryEnqueue(item: Item) returns (ok: bool)
      requires Valid()
      modifies vec, this`tail, this`items
      ensures Valid()
      ensures ok <==> |old(items)| < capacity
      ensures items == if ok then old(items) + [item] else old(items)
    {
      assert |items| <= capacity;
      hide Pow2, And, Word, Holds;
      var full := IsFull();
      if full {
        return false;
      }
      PushesLast(vec[..], first, items, log, item);
      tail := Word(tail + 1);
      var idx := And(tail, capacityBitmap);
      ghost var before := vec[..];
      vec[idx] := Some(item);
      assert vec[..] == before[idx := Some(item)];
      items := items + [item];
      ok := true;
    }
  }

  /**
   * The unbounded queue: its size counter is changed after the mutex is given up, so calls
   * that have changed the queue may still owe it one, up or down.
   */
  class UnLimitQueue {
    var innerQueue: seq<Item>
    var innerSize: nat
    ghost var owedUp: nat
    ghost var owedDown: nat

    ghost predicate Valid()
      reads this
    {
      innerSize == Word(|innerQueue| - owedUp + owedDown)
    }

    constructor ()
      ensures Valid() && innerQueue == [] && owedUp == owedDown == 0
    {
      innerQueue, innerSize, owedUp, owedDown := [], 0, 0, 0;
    }

    /** try_enqueue under the mutex. */
    method Push(item: Item)
      requires Valid()
      modifies this`innerQueue, this`owedUp
      ensures Valid() && innerQueue == old(innerQueue) + [item] && owedUp == old(owedUp) + 1
    {
      innerQueue := innerQueue + [item];
      owedUp := owedUp + 1;
    }

    method CountUp()
      requires Valid() && owedUp > 0
      modifies this`innerSize, this`owedUp
      ensures Valid() && owedUp == old(owedUp) - 1
    {
      WordAdd(|innerQueue| - owedUp + owedDown, 1);
      hide Word;
      innerSize := Word(innerSize + 1);
      owedUp := owedUp - 1;
    }

    /** try_dequeue under the mutex. */
    method Pop() returns (item: Option<Item>)
      requires Valid()
      modifies this`innerQueue, this`owedDown
      ensures Valid()
      ensures item.None? <==> old(innerQueue) == []
      ensures if item.None? then innerQueue == old(innerQueue) && owedDown == old(owedDown)
              else old(innerQueue) == [item.value] + innerQueue && owedDown == old(owedDown) + 1
    {
      if innerQueue == [] {
        return None;
      }
      item := Some(innerQueue[0]);
      innerQueue := innerQueue[1..];
      owedDown := owedDown + 1;
    }

    method CountDown()
      requires Valid() && owedDown > 0
      modifies this`innerSize, this`owedDown
      ensures Valid() && owedDown == old(owedDown) - 1
    {
      WordAdd(|innerQueue| - owedUp + owedDown, 0 - 1);
      hide Word;
      innerSize := Word(innerSize + (0 - 1));
      owedDown := owedDown - 1;
    }

    /** The approximate size is exact when no call is between its two parts, and may lag otherwise. */
    method SizeApprox() returns (n: nat)
      requires Valid()
      ensures n == Word(|innerQueue| - owedUp + owedDown)
    {
      n := innerSize;
    }
  }

  /** With a queue of less than 2^64 items the counter is right exactly when as many calls owe it one up as down. */
  lemma LagExact(size: nat, up: nat, down: nat)
    requires size < TWO64 && up < TWO64 && down < TWO64
    ensures Word(size - up + down) == size <==> up == down
  {
    var x := size - up + down;
    if x < 0 {
      assert Word(x) == Word(x + TWO64) == x + TWO64;
    } else if x >= TWO64 {
      assert Word(x) == Word(x - TWO64) == x - TWO64;
    }
  }
}

/**
 * TaskQueue on its machine fields: the 64-bit counter, read through a 32-bit local or
 * through its high word, and the spinner count. One method per atomic operation of a
 * thread; the ghost state is the interleaving state machine, kept reachable throughout.
 */
module TaskQueueMachine {
  import opened Common
  import opened TaskQueue

  const TWO31: int := 0x8000_0000
  const TWO32: int := 0x1_0000_0000

  /** What an int32_t local holds of a 64-bit value. */
  function Narrow(m: int): int {
    var low := m % TWO32;
    if low < TWO31 then low else low - TWO32
  }

  /** The upper half of the 64-bit counter: the word the sleepers compare with zero. */
  function HighWord(m: int): int {
    m / TWO32
  }

  lemma NarrowExact(m: int)
    ensures Narrow(m) == m <==> -TWO31 <= m < TWO31
  {
  }

  /** The kernel's comparison lets a consumer sleep exactly while the counter is in [0, 2^32). */
  lemma HighWordExact(m: int)
    ensures HighWord(m) == 0 <==> 0 <= m < TWO32
  {
  }

  class Queue {
    var mCount: int
    var bigSpin: int
    var queue: multiset<Item>
    const spinCycle: nat
    ghost var s: State

    ghost predicate Valid()
      reads this
    {
      && Reachable(s) && mCount == s.mCount && bigSpin == s.bigSpin && queue == s.queue
      && spinCycle == s.spinCycle && -TWO31 < mCount < TWO31 - 1
    }

    constructor (threads: nat, spin: nat)
      ensures Valid() && Init(s) && |s.threads| == threads
    {
      mCount, bigSpin, queue, spinCycle := 0, 0, multiset{}, spin;
      s := State(0, 0, multiset{}, spin, multiset{}, multiset{}, 0, seq(threads, _ => Idle));
      new;
      ReachableStart(s);
    }

    /** A thread enters enqueue or wait_dequeue. */
    ghost method Enter(a: Action)
      requires Valid() && Enabled(s, a) && (a.BeginEnqueue? || a.BeginDequeue?)
      modifies this`s
      ensures Valid() && s == Apply(old(s), a)
    {
      ReachableStep(s, a);
      s := Apply(s, a);
    }

    method Put(ghost t: nat, item: Item)
      requires Valid() && t < |s.threads| && s.threads[t] == Insert(item)
      modifies this`s, this`queue
      ensures Valid() && s == Apply(old(s), Step(t))
    {
      hide Reachable;
      queue := queue + multiset{item};
      ReachableStep(s, Step(t));
      s := Apply(s, Step(t));
    }

    /** signal(): whether a sleeper may have to be woken. */
    method SignalFetchSub(ghost t: nat) returns (toRelease: bool)
      requires Valid() && t < |s.threads| && s.threads[t].SignalSub? && mCount - 1 > -TWO31
      modifies this`s, this`mCount
      ensures Valid() && s == Apply(old(s), Step(t)) && (toRelease <==> s.threads[t].SignalSpin?)
    {
      hide Reachable;
      var oldCount := Narrow(mCount);
      mCount := mCount - 1;
      toRelease := oldCount <= 0;
      ReachableStep(s, Step(t));
      s := Apply(s, Step(t));
    }

    method SignalLoadSpin(ghost t: nat) returns (alone: bool)
      requires Valid() && t < |s.threads| && s.threads[t].SignalSpin?
      modifies this`s
      ensures Valid() && s == Apply(old(s), Step(t)) && (alone <==> s.threads[t].SignalLoad?)
    {
      hide Reachable;
      alone := bigSpin == 0;
      ReachableStep(s, Step(t));
      s := Apply(s, Step(t));
    }

    method SignalLoadCount(ghost t: nat) returns (wake: bool)
      requires Valid() && t < |s.threads| && s.threads[t].SignalLoad?
      modifies this`s
      ensures Valid() && s == Apply(old(s), Step(t)) && (wake <==> s.threads[t].SignalWake?)
    {
      hide Reachable;
      wake := mCount < 0;
      ReachableStep(s, Step(t));
      s := Apply(s, Step(t));
    }

    method HoldFetchAdd(ghost t: nat)
      requires Valid() && t < |s.threads| && (s.threads[t] == EntryHold(Inc) || s.threads[t] == WaitHold(Inc))
      modifies this`s, this`bigSpin
      ensures Valid() && s == Apply(old(s), Step(t))
    {
      hide Reachable;
      bigSpin := bigSpin + 1;
      ReachableStep(s, Step(t));
      s := Apply(s, Step(t));
    }

    method HoldFetchSub(ghost t: nat) returns (last: bool)
      requires Valid() && t < |s.threads| && (s.threads[t] == EntryHold(Dec) || s.threads[t] == WaitHold(Dec))
      modifies this`s, this`bigSpin
      ensures Valid() && s == Apply(old(s), Step(t))
      ensures last <==> (s.threads[t] == EntryHold(Load) || s.threads[t] == WaitHold(Load))
    {
      hide Reachable;
      var oldCount := bigSpin;
      bigSpin := bigSpin - 1;
      last := oldCount == 1;
      ReachableStep(s, Step(t));
      s := Apply(s, Step(t));
    }

    /** The compensating load: how many sleepers the last spinner wakes, zero for none. */
    method HoldLoadCount(ghost t: nat) returns (wakes: nat)
      requires Valid() && t < |s.threads| && (s.threads[t] == EntryHold(Load) || s.threads[t] == WaitHold(Load))
      modifies this`s
      ensures Valid() && s == Apply(old(s), Step(t))
      ensures wakes > 0 <==> OwesWake(s.threads[t])
      ensures wakes > 0 ==> s.threads[t].hold.n == wakes
    {
      hide Reachable;
      var cur := Narrow(mCount) + 1;
      wakes := if cur < 0 then -1 * cur else 0;
      ReachableStep(s, Step(t));
      s := Apply(s, Step(t));
    }

    method RegisterFetchAdd(ghost t: nat)
      requires Valid() && t < |s.threads| && s.threads[t].Register? && mCount + 2 < TWO31
      modifies this`s, this`mCount
      ensures Valid() && s == Apply(old(s), Step(t))
    {
      hide Reachable;
      mCount := mCount + 1;
      ReachableStep(s, Step(t));
      s := Apply(s, Step(t));
    }

    /** inner_dequeue: `fail` models the failures the lock-free queue permits itself. */
    method Attempt(ghost t: nat, fail: bool) returns (item: Option<Item>)
      requires Valid() && t < |s.threads| && s.threads[t].Try?
      modifies this`s, this`queue
      ensures Valid()
      ensures item.None? ==> s == Apply(old(s), Miss(t))
      ensures item.Some? ==> item.value in old(s).queue && s == Apply(old(s), Take(t, item.value))
      ensures item.None? <==> fail || old(s).queue == multiset{}
    {
      hide Reachable;
      if fail || queue == multiset{} {
        ReachableStep(s, Miss(t));
        s := Apply(s, Miss(t));
        return None;
      }
      var x :| x in queue;
      queue := queue - multiset{x};
      ReachableStep(s, Take(t, x));
      s := Apply(s, Take(t, x));
      item := Some(x);
    }

    method WaitFetchSub(ghost t: nat) returns (stay: bool)
      requires Valid() && t < |s.threads| && s.threads[t].WaitSub? && mCount - 1 > -TWO31
      modifies this`s, this`mCount
      ensures Valid() && s == Apply(old(s), Step(t)) && (stay <==> s.threads[t].WaitHold?)
    {
      hide Reachable;
      var cur := mCount;
      mCount := mCount - 1;
      stay := !(cur < 0);
      ReachableStep(s, Step(t));
      s := Apply(s, Step(t));
    }

    /** The futex call: the thread sleeps exactly if the high word is zero. */
    method FutexWait(ghost t: nat) returns (sleeps: bool)
      requires Valid() && t < |s.threads| && s.threads[t].Futex?
      modifies this`s
      ensures Valid() && s == Apply(old(s), Step(t)) && (sleeps <==> s.threads[t].Asleep?)
    {
      hide Reachable;
      sleeps := HighWord(mCount) == 0;
      ReachableStep(s, Step(t));
      s := Apply(s, Step(t));
    }

    /** The counter goes up again on leaving wait(), after a sleep or without one. */
    method LeaveFetchAdd(ghost t: nat)
      requires Valid() && t < |s.threads| && (s.threads[t].WaitAdd? || s.threads[t].WaitBack?)
      requires mCount + 2 < TWO31
      modifies this`s, this`mCount
      ensures Valid() && s == Apply(old(s), Step(t)) && s.threads[t] == Try(0)
    {
      hide Reachable;
      mCount := mCount + 1;
      ReachableStep(s, Step(t));
      s := Apply(s, Step(t));
    }
  }

  lemma ReachableStart(s: State)
    requires Init(s)
    ensures Reachable(s)
  {
    var states, acts: seq<Action> := [s], [];
    assert IsRun(states, acts) && Init(states[0]) && states[|acts|] == s;
  }
}

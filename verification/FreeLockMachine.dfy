/**
 * The lock-free queue on machine words: six wrapping 64-bit counters, an array of item
 * pointers and an array of slot versions, changed in place by one method per atomic
 * operation. Each method is one action of the interleaving state machine, whose state the
 * object carries as a ghost.
 */
module FreeLockMachine {
  import opened Common
  import opened Bits
  import opened BitMap
  import opened FreeLockWords
  import opened FreeLockGate
  import opened FreeLockQueue
  import opened FreeLockProgress
  import opened FreeLockStale
  import opened Cyclic

  class LimitQueue {
    const capacity: nat
    const mask: nat
    const vec: array<Option<Item>>
    const flags: array<nat>
    ghost const log: nat

    var read: nat
    var readMissed: nat
    var readAhead: nat
    var write: nat
    var writeMissed: nat
    var writeAhead: nat

    ghost var s: State

    ghost predicate Shape()
      reads this
    {
      && 1 <= log <= 30 && capacity == Pow2(log) && mask == capacity - 1
      && vec.Length == flags.Length == capacity && capacity == s.cap
    }

    /** The words are the unbounded counters modulo 2^64, the arrays the slots. */
    ghost predicate Represents()
      reads this, vec, flags
    {
      && Shape() && Sized(s)
      && read == Word(|s.rOwner|) && readMissed == Word(s.r.missed) && readAhead == Word(s.r.ahead)
      && write == Word(|s.wOwner|) && writeMissed == Word(s.w.missed) && writeAhead == Word(s.w.ahead)
      && (forall i | 0 <= i < capacity :: vec[i] == s.vec[i] && flags[i] == Word(s.ver[i]))
    }

    ghost predicate Valid()
      reads this, vec, flags
    {
      Represents() && Reachable(s)
    }

    ghost predicate EnqAt(c: nat, pc: GatePc)
      reads this
    {
      c < |s.calls| && s.calls[c].Enq? && s.calls[c].gate == pc
    }

    ghost predicate DeqAt(c: nat, pc: GatePc)
      reads this
    {
      c < |s.calls| && s.calls[c] == Deq(pc)
    }

    constructor (size: nat)
      requires 2 <= size <= 0x4000_0000
      ensures Valid() && s == Init(capacity) && capacity == AlignSize(size)
      ensures fresh(vec) && fresh(flags)
    {
      hide AlignSize, LogOf, Pow2, Init, Word, Reachable, Slot;
      var cap := AlignSize(size);
      AlignedLog(size);
      capacity, mask := cap, cap - 1;
      log := LogOf(size);
      var items, versions := EmptySlots(cap);
      vec, flags := items, versions;
      read, readMissed, readAhead, write, writeMissed, writeAhead := 0, 0, 0, 0, 0, 0;
      s := Init(cap);
      new;
      ReachableInit(cap);
      InitIsInit(cap);
      WordZero();
    }

    ghost method Enter(a: Action)
      requires Valid() && !a.Step?
      modifies this`s
      ensures Valid() && s == Apply(old(s), a)
    {
      hide Word, Slot, Reachable;
      ReachableStep(s, a);
      s := Apply(s, a);
    }

    // -------------------------------------------------------------- try_enqueue

    method EnqLoadRead(ghost c: nat) returns (r: nat)
      requires Valid() && EnqAt(c, LoadPeer)
      modifies this`s
      ensures Valid() && s == Apply(old(s), Step(c)) && r == Word(|old(s).rOwner|)
    {
      hide Word, Slot, Reachable;
      r := read;
      ReachableStep(s, Step(c));
      s := Apply(s, Step(c));
    }

    method EnqLoadMissed(ghost c: nat, ghost peer: nat) returns (m: nat)
      requires Valid() && EnqAt(c, LoadMissed(peer))
      modifies this`s
      ensures Valid() && s == Apply(old(s), Step(c)) && m == Word(old(s).w.missed)
    {
      hide Word, Slot, Reachable;
      m := writeMissed;
      ReachableStep(s, Step(c));
      s := Apply(s, Step(c));
    }

    /** The first check is right while its loads are fresh. */
    method EnqFirstCheck(ghost c: nat, ghost peer: nat, ghost missed: nat, r: nat, m: nat) returns (ok: bool)
      requires Valid() && EnqAt(c, LoadAhead(peer, missed)) && r == Word(peer) && m == Word(missed)
      requires LoadFresh(s.w, Undecided(s.calls, WriteEnd), |s.rOwner|, peer, missed)
      modifies this`s
      ensures Valid() && s == Apply(old(s), Step(c))
      ensures ok <==> !s.calls[c].Failed?
    {
      hide Word, Slot, Reachable, Undecided;
      CapacityBound(log);
      EnqFirstWindow(s, c, peer, missed);
      ok := !IsFull(r, Word(writeAhead - m), capacity);
      FullTest(s.w.ahead, missed, peer, capacity);
      ReachableStep(s, Step(c));
      s := Apply(s, Step(c));
    }

    method EnqFetchAhead(ghost c: nat, ghost missed: nat) returns (a: nat)
      requires Valid() && EnqAt(c, FetchAhead(missed))
      modifies this`s, this`writeAhead
      ensures Valid() && s == Apply(old(s), Step(c)) && a == Word(old(s).w.ahead)
    {
      hide Word, Slot, Reachable;
      a := writeAhead;
      WordAdd(s.w.ahead, 1);
      writeAhead := Word(writeAhead + 1);
      ReachableStep(s, Step(c));
      s := Apply(s, Step(c));
    }

    method EnqRecheck(ghost c: nat, ghost missed: nat, ghost number: nat, m: nat, a: nat) returns (ok: bool)
      requires Valid() && EnqAt(c, Recheck(missed, number)) && m == Word(missed) && a == Word(number)
      requires RecheckFresh(s.w, Undecided(s.calls, WriteEnd), missed, number)
      modifies this`s
      ensures Valid() && s == Apply(old(s), Step(c))
      ensures EnqAt(c, if ok then Take(number) else Miss(number))
    {
      hide Word, Slot, Reachable, Undecided;
      CapacityBound(log);
      EnqRecheckWindow(s, c, missed, number);
      var r := read;
      ok := !IsFull(r, Word(a - m), capacity);
      FullTest(number, missed, |s.rOwner|, capacity);
      ReachableStep(s, Step(c));
      s := Apply(s, Step(c));
    }

    method EnqTakeTicket(ghost c: nat, ghost number: nat) returns (k: nat)
      requires Valid() && EnqAt(c, Take(number))
      modifies this`s, this`write
      ensures Valid() && s == Apply(old(s), Step(c)) && k == Word(|old(s).wOwner|)
    {
      hide Word, Slot, Reachable;
      k := write;
      WordAdd(|s.wOwner|, 1);
      write := Word(write + 1);
      ReachableStep(s, Step(c));
      s := Apply(s, Step(c));
    }

    method EnqMiss(ghost c: nat, ghost number: nat)
      requires Valid() && EnqAt(c, Miss(number))
      modifies this`s, this`writeMissed
      ensures Valid() && s == Apply(old(s), Step(c)) && s.calls[c].Failed?
    {
      hide Word, Slot, Reachable;
      WordAdd(s.w.missed, 1);
      writeMissed := Word(writeMissed + 1);
      ReachableStep(s, Step(c));
      s := Apply(s, Step(c));
    }

    /** One turn of the wait loop: the version of the slot against write_ - capacity_bitmap. */
    method EnqPoll(ghost c: nat, ghost ticket: nat, k: nat, ghost item: Item) returns (ready: bool)
      requires Valid() && c < |s.calls| && s.calls[c] == Writing(item, ticket, WWait)
      requires k == Word(ticket) && ticket - s.ver[Slot(ticket, s.cap)] < TWO64
      modifies this`s
      ensures Valid() && (ready <==> old(Enabled(s, Step(c))))
      ensures s == if ready then Apply(old(s), Step(c)) else old(s)
    {
      hide Word, Slot, Reachable;
      IndexIsSlot(ticket, log);
      var idx := And(k, mask);
      var version := flags[idx];
      ready := version == Word(k - mask);
      WordAdd(ticket, 0 - mask);
      WriterVersion(s, c);
      CapacityBound(log);
      WriterTestExact(s.ver[idx], ticket - mask);
      if ready {
        ReachableStep(s, Step(c));
        s := Apply(s, Step(c));
      }
    }

    method EnqStore(ghost c: nat, ghost ticket: nat, k: nat, item: Item)
      requires Valid() && c < |s.calls| && s.calls[c] == Writing(item, ticket, WReady) && k == Word(ticket)
      modifies this`s, vec
      ensures Valid() && s == Apply(old(s), Step(c))
    {
      hide Word, Slot, Reachable;
      IndexIsSlot(ticket, log);
      vec[And(k, mask)] := Some(item);
      ReachableStep(s, Step(c));
      s := Apply(s, Step(c));
    }

    method EnqPublish(ghost c: nat, ghost ticket: nat, k: nat, ghost item: Item)
      requires Valid() && c < |s.calls| && s.calls[c] == Writing(item, ticket, WStored) && k == Word(ticket)
      modifies this`s, flags
      ensures Valid() && s == Apply(old(s), Step(c))
    {
      hide Word, Slot, Reachable;
      IndexIsSlot(ticket, log);
      flags[And(k, mask)] := k;
      ReachableStep(s, Step(c));
      s := Apply(s, Step(c));
    }

    // -------------------------------------------------------------- try_dequeue

    method DeqLoadWrite(ghost c: nat) returns (w: nat)
      requires Valid() && DeqAt(c, LoadPeer)
      modifies this`s
      ensures Valid() && s == Apply(old(s), Step(c)) && w == Word(|old(s).wOwner|)
    {
      hide Word, Slot, Reachable;
      w := write;
      ReachableStep(s, Step(c));
      s := Apply(s, Step(c));
    }

    method DeqLoadMissed(ghost c: nat, ghost peer: nat) returns (m: nat)
      requires Valid() && DeqAt(c, LoadMissed(peer))
      modifies this`s
      ensures Valid() && s == Apply(old(s), Step(c)) && m == Word(old(s).r.missed)
    {
      hide Word, Slot, Reachable;
      m := readMissed;
      ReachableStep(s, Step(c));
      s := Apply(s, Step(c));
    }

    method DeqFirstCheck(ghost c: nat, ghost peer: nat, ghost missed: nat, w: nat, m: nat) returns (ok: bool)
      requires Valid() && DeqAt(c, LoadAhead(peer, missed)) && w == Word(peer) && m == Word(missed)
      requires LoadFresh(s.r, Undecided(s.calls, ReadEnd), |s.wOwner|, peer, missed)
      modifies this`s
      ensures Valid() && s == Apply(old(s), Step(c))
      ensures ok <==> !s.calls[c].Failed?
    {
      hide Word, Slot, Reachable, Undecided;
      CapacityBound(log);
      DeqFirstWindow(s, c, peer, missed);
      ok := !IsEmpty(Word(readAhead - m), w);
      EmptyTest(s.r.ahead, missed, peer);
      ReachableStep(s, Step(c));
      s := Apply(s, Step(c));
    }

    method DeqFetchAhead(ghost c: nat, ghost missed: nat) returns (a: nat)
      requires Valid() && DeqAt(c, FetchAhead(missed))
      modifies this`s, this`readAhead
      ensures Valid() && s == Apply(old(s), Step(c)) && a == Word(old(s).r.ahead)
    {
      hide Word, Slot, Reachable;
      a := readAhead;
      WordAdd(s.r.ahead, 1);
      readAhead := Word(readAhead + 1);
      ReachableStep(s, Step(c));
      s := Apply(s, Step(c));
    }

    method DeqRecheck(ghost c: nat, ghost missed: nat, ghost number: nat, m: nat, a: nat) returns (ok: bool)
      requires Valid() && DeqAt(c, Recheck(missed, number)) && m == Word(missed) && a == Word(number)
      requires RecheckFresh(s.r, Undecided(s.calls, ReadEnd), missed, number)
      modifies this`s
      ensures Valid() && s == Apply(old(s), Step(c))
      ensures DeqAt(c, if ok then Take(number) else Miss(number))
    {
      hide Word, Slot, Reachable, Undecided;
      CapacityBound(log);
      DeqRecheckWindow(s, c, missed, number);
      var w := write;
      ok := !IsEmpty(Word(a - m), w);
      EmptyTest(number, missed, |s.wOwner|);
      ReachableStep(s, Step(c));
      s := Apply(s, Step(c));
    }

    method DeqTakeTicket(ghost c: nat, ghost number: nat) returns (k: nat)
      requires Valid() && DeqAt(c, Take(number))
      modifies this`s, this`read
      ensures Valid() && s == Apply(old(s), Step(c)) && k == Word(|old(s).rOwner|)
    {
      hide Word, Slot, Reachable;
      k := read;
      WordAdd(|s.rOwner|, 1);
      read := Word(read + 1);
      ReachableStep(s, Step(c));
      s := Apply(s, Step(c));
    }

    method DeqMiss(ghost c: nat, ghost number: nat)
      requires Valid() && DeqAt(c, Miss(number))
      modifies this`s, this`readMissed
      ensures Valid() && s == Apply(old(s), Step(c)) && s.calls[c].Failed?
    {
      hide Word, Slot, Reachable;
      WordAdd(s.r.missed, 1);
      readMissed := Word(readMissed + 1);
      ReachableStep(s, Step(c));
      s := Apply(s, Step(c));
    }

    /** One turn of the wait loop: the version, narrowed to an int, against the ticket. */
    method DeqPoll(ghost c: nat, ghost ticket: nat, k: nat) returns (ready: bool)
      requires Valid() && c < |s.calls| && s.calls[c] == Reading(ticket, RWait)
      requires k == Word(ticket) && ticket - s.ver[Slot(ticket, s.cap)] < 0x1_0000_0000
      modifies this`s
      ensures Valid() && (ready <==> old(Enabled(s, Step(c))) && Survives(ticket))
      ensures s == if ready then Apply(old(s), Step(c)) else old(s)
    {
      hide Word, Slot, Reachable;
      IndexIsSlot(ticket, log);
      var idx := And(k, mask);
      ready := ReaderTest(flags[idx], k);
      ReaderVersion(s, c);
      CapacityBound(log);
      ReaderTestIs(s.ver[idx], ticket);
      if ready {
        ReachableStep(s, Step(c));
        s := Apply(s, Step(c));
      }
    }

    /** The null assertion after the load always holds. */
    method DeqLoad(ghost c: nat, ghost ticket: nat, k: nat) returns (item: Option<Item>)
      requires Valid() && c < |s.calls| && s.calls[c] == Reading(ticket, RReady) && k == Word(ticket)
      modifies this`s
      ensures Valid() && s == Apply(old(s), Step(c))
      ensures ticket < |s.items| && item == Some(s.items[ticket])
      ensures s.calls[c] == Reading(ticket, RLoaded(s.items[ticket]))
    {
      hide Word, Slot, Reachable;
      IndexIsSlot(ticket, log);
      item := vec[And(k, mask)];
      ReaderItem(s, c);
      ReachableStep(s, Step(c));
      s := Apply(s, Step(c));
    }

    method DeqClear(ghost c: nat, ghost ticket: nat, k: nat, ghost x: Item)
      requires Valid() && c < |s.calls| && s.calls[c] == Reading(ticket, RLoaded(x)) && k == Word(ticket)
      modifies this`s, vec
      ensures Valid() && s == Apply(old(s), Step(c))
    {
      hide Word, Slot, Reachable;
      IndexIsSlot(ticket, log);
      vec[And(k, mask)] := None;
      ReachableStep(s, Step(c));
      s := Apply(s, Step(c));
    }

    method DeqPublish(ghost c: nat, ghost ticket: nat, k: nat, ghost x: Item)
      requires Valid() && c < |s.calls| && s.calls[c] == Reading(ticket, RCleared(x)) && k == Word(ticket)
      modifies this`s, flags
      ensures Valid() && s == Apply(old(s), Step(c))
    {
      hide Word, Slot, Reachable;
      IndexIsSlot(ticket, log);
      WordAdd(ticket, 1);
      var idx := And(k, mask);
      flags[idx] := Word(k + 1);
      ReachableStep(s, Step(c));
      s := Apply(s, Step(c));
      assert s.ver == old(s).ver[idx := ticket + 1] && s.vec == old(s).vec;
      assert flags[idx] == Word(ticket + 1);
    }

    // -------------------------------------------------------------- a call without company

    /** What call c, alone since s0, leaves behind. */
    lemma QuietNow(s0: State, c: nat)
      requires Valid() && Quiescent(s0) && c == |s0.calls| && |s.calls| == c + 1 && s.calls[..c] == s0.calls
      requires Returned(s.calls[c])
      ensures Quiet(s)
    {
      hide *;
      assert Reachable(s) by { ReachableNow(); }
      QuietAgain(s0, s, c);
    }

    lemma ReachableNow()
      requires Valid()
      ensures Reachable(s) && Sized(s) && s.cap == capacity <= 0x4000_0000
    {
      CapacityBound(log);
    }

    /** The first half of the gate of try_enqueue, alone: the check fails exactly if the queue is full. */
    method EnqLook(ghost c: nat, item: Item) returns (ok: bool, m: nat)
      requires Valid() && c == |s.calls| && |s.rOwner| <= |s.wOwner| <= |s.rOwner| + capacity
      requires s.w.ahead == |s.wOwner| + s.w.missed
      modifies this`s
      ensures Valid() && m == Word(s.w.missed) && ok == old(|s.wOwner| - |s.rOwner| < capacity)
      ensures |s.calls| == c + 1 && s.calls[..c] == old(s).calls
      ensures s.calls[c] == if ok then Enq(item, FetchAhead(s.w.missed)) else Failed
      ensures s.w.ahead == |s.wOwner| + s.w.missed && s.rOwner == old(s).rOwner && s.wOwner == old(s).wOwner && s.items == old(s).items
    {
      hide Word, Slot, Reachable, Represents, Shape, Pow2, GateStep, Apply, Enabled, EnqStep, Sized, Undecided;
      ReachableNow();
      ghost var peer, missed := |s.rOwner|, s.w.missed;
      BeginIs(s, BeginEnqueue(item));
      Enter(BeginEnqueue(item));
      ghost var s1 := s;
      var p := EnqLoadRead(c);
      EnqGateIs(s1, c);
      ghost var s2 := s;
      m := EnqLoadMissed(c, peer);
      EnqGateIs(s2, c);
      ghost var s3 := s;
      ReachableNow();
      UndecidedIs(s);
      ok := EnqFirstCheck(c, peer, missed, p, m);
      EnqGateIs(s3, c);
    }

    /** The second half, alone: a number, the check again, a ticket. */
    method EnqDraw(ghost c: nat, ghost item: Item, m: nat) returns (k: nat)
      requires Valid() && c < |s.calls| && s.calls[c] == Enq(item, FetchAhead(s.w.missed)) && m == Word(s.w.missed)
      requires |s.rOwner| <= |s.wOwner| <= |s.rOwner| + capacity && |s.wOwner| - |s.rOwner| < capacity
      requires s.w.ahead == |s.wOwner| + s.w.missed
      modifies this`s, this`write, this`writeAhead
      ensures Valid() && k == Word(|old(s).wOwner|)
      ensures |s.calls| == |old(s).calls| && s.calls[..c] == old(s).calls[..c] && s.calls[c] == Writing(item, |old(s).wOwner|, WWait)
      ensures s.wOwner == old(s).wOwner + [c] && s.rOwner == old(s).rOwner && s.items == old(s).items + [item]
    {
      hide Word, Slot, Reachable, Represents, Shape, Pow2, GateStep, Apply, Enabled, EnqStep, Sized, Undecided;
      ReachableNow();
      ghost var missed, number := s.w.missed, s.w.ahead;
      ghost var s1 := s;
      var a := EnqFetchAhead(c, missed);
      EnqGateIs(s1, c);
      ghost var s2 := s;
      ReachableNow();
      UndecidedIs(s);
      var ok := EnqRecheck(c, missed, number, m, a);
      EnqGateIs(s2, c);
      ghost var s3 := s;
      k := EnqTakeTicket(c, number);
      EnqGateIs(s3, c);
    }

    /** The first half of the gate of try_dequeue, alone: the check fails exactly if the queue is empty. */
    method DeqLook(ghost c: nat) returns (ok: bool, m: nat)
      requires Valid() && c == |s.calls| && |s.rOwner| <= |s.wOwner| <= |s.rOwner| + capacity
      requires s.r.ahead == |s.rOwner| + s.r.missed
      modifies this`s
      ensures Valid() && m == Word(s.r.missed) && ok == old(|s.rOwner| < |s.wOwner|)
      ensures |s.calls| == c + 1 && s.calls[..c] == old(s).calls
      ensures s.calls[c] == if ok then Deq(FetchAhead(s.r.missed)) else Failed
      ensures s.r.ahead == |s.rOwner| + s.r.missed && s.rOwner == old(s).rOwner && s.wOwner == old(s).wOwner && s.items == old(s).items
    {
      hide Word, Slot, Reachable, Represents, Shape, Pow2, GateStep, Apply, Enabled, DeqStep, Sized, Undecided;
      ReachableNow();
      ghost var peer, missed := |s.wOwner|, s.r.missed;
      BeginIs(s, BeginDequeue);
      Enter(BeginDequeue);
      ghost var s1 := s;
      var p := DeqLoadWrite(c);
      DeqGateIs(s1, c);
      ghost var s2 := s;
      m := DeqLoadMissed(c, peer);
      DeqGateIs(s2, c);
      ghost var s3 := s;
      ReachableNow();
      UndecidedIs(s);
      ok := DeqFirstCheck(c, peer, missed, p, m);
      DeqGateIs(s3, c);
    }

    /** The second half, alone: a number, the check again, a ticket. */
    method DeqDraw(ghost c: nat, m: nat) returns (k: nat)
      requires Valid() && c < |s.calls| && s.calls[c] == Deq(FetchAhead(s.r.missed)) && m == Word(s.r.missed)
      requires |s.rOwner| <= |s.wOwner| <= |s.rOwner| + capacity && |s.rOwner| < |s.wOwner|
      requires s.r.ahead == |s.rOwner| + s.r.missed
      modifies this`s, this`read, this`readAhead
      ensures Valid() && k == Word(|old(s).rOwner|)
      ensures |s.calls| == |old(s).calls| && s.calls[..c] == old(s).calls[..c] && s.calls[c] == Reading(|old(s).rOwner|, RWait)
      ensures s.rOwner == old(s).rOwner + [c] && s.wOwner == old(s).wOwner && s.items == old(s).items
    {
      hide Word, Slot, Reachable, Represents, Shape, Pow2, GateStep, Apply, Enabled, DeqStep, Sized, Undecided;
      ReachableNow();
      ghost var missed, number := s.r.missed, s.r.ahead;
      ghost var s1 := s;
      var a := DeqFetchAhead(c, missed);
      DeqGateIs(s1, c);
      ghost var s2 := s;
      ReachableNow();
      UndecidedIs(s);
      var ok := DeqRecheck(c, missed, number, m, a);
      DeqGateIs(s2, c);
      ghost var s3 := s;
      k := DeqTakeTicket(c, number);
      DeqGateIs(s3, c);
    }

    /** Alone, try_enqueue fails exactly when the queue is full, and appends otherwise. */
    method TryEnqueue(item: Item) returns (ok: bool)
      requires Valid() && Quiet(s)
      modifies this, vec, flags
      ensures Valid() && Quiet(s)
      ensures ok <==> |old(s).items| - |old(s).rOwner| < capacity
      ensures s.items == (if ok then old(s).items + [item] else old(s).items) && s.rOwner == old(s).rOwner
    {
      hide Word, Slot, Reachable, Represents, Shape, Pow2;
      ReachableNow();
      QuietCounters(s);
      ghost var s0, c, n := s, |s.calls|, |s.wOwner|;
      var m;
      ok, m := EnqLook(c, item);
      if ok {
        var k := EnqDraw(c, item, m);
        ReachableNow();
        OnlyOne(s0, s, c);
        var ready := EnqPoll(c, n, k, item);
        EnqStore(c, n, k, item);
        EnqPublish(c, n, k, item);
      }
      QuietNow(s0, c);
    }

    /** Alone, try_dequeue fails exactly when the queue is empty, and takes the first item otherwise. */
    method TryDequeue() returns (item: Option<Item>)
      requires Valid() && Quiet(s) && Survives(|s.rOwner|)
      modifies this, vec, flags
      ensures Valid() && Quiet(s)
      ensures item.None? <==> |old(s).items| == |old(s).rOwner|
      ensures s.items == old(s).items
      ensures if item.None? then s.rOwner == old(s).rOwner
              else |s.rOwner| == |old(s).rOwner| + 1 && item.value == s.items[|old(s).rOwner|]
    {
      hide Word, Slot, Reachable, Represents, Shape, Pow2;
      ReachableNow();
      QuietCounters(s);
      ghost var s0, c, n := s, |s.calls|, |s.rOwner|;
      item := None;
      var ok, m := DeqLook(c);
      if ok {
        var k := DeqDraw(c, m);
        ReachableNow();
        OnlyOne(s0, s, c);
        var ready := DeqPoll(c, n, k);
        item := DeqLoad(c, n, k);
        DeqClear(c, n, k, item.value);
        DeqPublish(c, n, k, item.value);
      }
      QuietNow(s0, c);
    }

    /** With no call under way the approximate size is exact. */
    method SizeApprox() returns (n: nat)
      requires Valid() && Quiet(s)
      ensures n == |s.items| - |s.rOwner|
    {
      hide Word, Slot, Reachable, Pow2, And;
      QuietCounters(s);
      SizeWords(|s.rOwner|, |s.wOwner|, log);
      if IsFull(read, write, capacity) {
        return capacity;
      }
      n := And(Word(write - read), mask);
    }
  }

  /** Null items, and version i - capacity_bitmap in slot i: free for writer i. */
  method EmptySlots(cap: nat) returns (items: array<Option<Item>>, versions: array<nat>)
    ensures fresh(items) && fresh(versions) && items.Length == versions.Length == cap
    ensures forall i | 0 <= i < cap :: items[i] == None && versions[i] == Word(i - cap + 1)
  {
    items := new Option<Item>[cap](_ => None);
    versions := new nat[cap];
    hide Word;
    for i := 0 to cap
      invariant forall j | 0 <= j < i :: versions[j] == Word(j - cap + 1)
      invariant forall j | 0 <= j < cap :: items[j] == None
    {
      versions[i] := Word(i - cap + 1);
    }
  }

  lemma WordZero()
    ensures Word(0) == 0
  {
  }

  /** No call is under way. */
  ghost predicate Quiet(s: State) {
    Quiescent(s) && |s.rOwner| <= |s.items|
  }

  lemma QuietCounters(s: State)
    requires Reachable(s) && Quiescent(s)
    ensures s.w.ahead == |s.wOwner| + s.w.missed && s.r.ahead == |s.rOwner| + s.r.missed
    ensures |s.rOwner| <= |s.wOwner| == |s.items| && |s.wOwner| <= |s.rOwner| + s.cap
  {
    ReachableInv(s);
    NothingLost(s);
    TicketBounds(s);
  }

  lemma QuietAgain(s0: State, s: State, c: nat)
    requires Quiescent(s0) && c == |s0.calls| && |s.calls| == c + 1 && s.calls[..c] == s0.calls
    requires Returned(s.calls[c]) && Reachable(s)
    ensures Quiet(s)
  {
    assert forall d | 0 <= d < c :: s.calls[d] == s0.calls[d];
    assert Quiescent(s);
    QuietCounters(s);
  }

  /** A call alone in its wait is the one that can step. */
  lemma OnlyOne(s0: State, s: State, c: nat)
    requires Reachable(s) && Quiescent(s0) && c == |s0.calls| && |s.calls| == c + 1 && s.calls[..c] == s0.calls
    requires !Returned(s.calls[c])
    ensures Sized(s) && Enabled(s, Step(c))
  {
    ReachableInv(s);
    assert forall d | 0 <= d < c :: s.calls[d] == s0.calls[d];
    var d := NoDeadlock(s, c);
  }

  /** The size of a queue that is not over- or underrun, from the words of its counters. */
  lemma SizeWords(r: nat, w: nat, log: nat)
    requires log <= 30 && r <= w <= r + Pow2(log)
    ensures IsFull(Word(r), Word(w), Pow2(log)) <==> w - r == Pow2(log)
    ensures w - r < Pow2(log) ==> And(Word(Word(w) - Word(r)), Pow2(log) - 1) == w - r
  {
    CapacityBound(log);
    IsFullExact(r, w, Pow2(log));
    WordDiff(w, r);
    if w - r < Pow2(log) {
      SmallMask(w - r, log);
    }
  }

  lemma SmallMask(d: nat, n: nat)
    requires d < Pow2(n) && n <= 30
    ensures And(Word(d), Pow2(n) - 1) == d
  {
    CapacityBound(n);
    MaskIsRemainder(d, n);
    hide Pow2, And;
    Unique(d, Pow2(n), 0, d);
  }
}

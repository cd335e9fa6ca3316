/**
 * What the lock-free queue promises its callers: it is a bounded first-in first-out queue,
 * no call waits for ever, and the capacity has to be at least two.
 */
module FreeLockProgress {
  import opened Common
  import opened FreeLockGate
  import opened FreeLockQueue
  import opened Cyclic

  // ---------------------------------------------------------------- bounded FIFO

  /** The abstract queue: items whose enqueue has a ticket and whose dequeue has none yet. */
  function Fifo(s: State): seq<Item>
    requires |s.rOwner| <= |s.items|
  {
    s.items[|s.rOwner|..]
  }

  datatype Op = Push(item: Item) | Pop | Nothing

  /** The linearisation point of a call is the operation that draws its ticket. */
  function OpOf(s: State, a: Action): Op
    requires Sized(s) && Enabled(s, a)
  {
    if a.Step? && s.calls[a.call].Enq? && s.calls[a.call].gate.Take? then Push(s.calls[a.call].item)
    else if a.Step? && s.calls[a.call].Deq? && s.calls[a.call].gate.Take? then Pop
    else Nothing
  }

  /** The bounded FIFO: a push needs room, a pop needs an item and takes the oldest. */
  ghost predicate FifoStep(cap: nat, q: seq<Item>, op: Op, q': seq<Item>) {
    match op
    case Push(x) => |q| < cap && q' == q + [x]
    case Pop => |q| > 0 && q' == q[1..]
    case Nothing => q' == q
  }

  /** Which tickets and items a step adds. */
  lemma StepTickets(s: State, a: Action)
    requires Sized(s) && Enabled(s, a)
    ensures var s', op := Apply(s, a), OpOf(s, a);
      && s'.cap == s.cap
      && s'.items == (if op.Push? then s.items + [op.item] else s.items)
      && |s'.wOwner| == (if op.Push? then |s.wOwner| + 1 else |s.wOwner|)
      && |s'.rOwner| == (if op.Pop? then |s.rOwner| + 1 else |s.rOwner|)
  {
  }

  /** A ticket is drawn only when the bounded FIFO allows the operation. */
  lemma OpAllowed(s: State, a: Action)
    requires Inv(s) && Enabled(s, a)
    ensures OpOf(s, a).Push? ==> |s.wOwner| < |s.rOwner| + s.cap
    ensures OpOf(s, a).Pop? ==> |s.rOwner| < |s.wOwner|
  {
    TicketBounds(s);
    if OpOf(s, a).Push? {
      AdmittedCounted(s.calls, a.call, WriteEnd);
    } else if OpOf(s, a).Pop? {
      AdmittedCounted(s.calls, a.call, ReadEnd);
    }
  }

  lemma FifoOf(s: State, s': State, op: Op)
    requires |s.rOwner| <= |s.items| && |s'.rOwner| <= |s'.items|
    requires s'.items == (if op.Push? then s.items + [op.item] else s.items)
    requires |s'.rOwner| == (if op.Pop? then |s.rOwner| + 1 else |s.rOwner|)
    requires op.Push? ==> |s.items| < |s.rOwner| + s.cap
    requires op.Pop? ==> |s.rOwner| < |s.items|
    ensures FifoStep(s.cap, Fifo(s), op, Fifo(s'))
  {
  }

  /** The queue refines the bounded FIFO, step by step, in every reachable state. */
  lemma StepRefinesFifo(s: State, a: Action)
    requires Inv(s) && Enabled(s, a)
    ensures Inv(Apply(s, a)) && FifoStep(s.cap, Fifo(s), OpOf(s, a), Fifo(Apply(s, a)))
  {
    StepKeeps(s, a);
    StepTickets(s, a);
    OpAllowed(s, a);
    FifoOf(s, Apply(s, a), OpOf(s, a));
  }

  /**
   * A dequeue that drew ticket k returns the k-th item ever pushed, which is the item of
   * the one enqueue that drew ticket k; no other call returns for that ticket.
   */
  lemma DequeueReturnsItsTicket(s: State, c: nat)
    requires Inv(s) && c < |s.calls| && s.calls[c].Dequeued?
    ensures var Dequeued(x, k) := s.calls[c];
      && k < |s.rOwner| && s.rOwner[k] == c
      && x == s.items[k] == s.calls[s.wOwner[k]].item
      && s.calls[s.wOwner[k]] == Enqueued(x, k)
      && (forall d | 0 <= d < |s.calls| && d != c && s.calls[d].Dequeued? :: s.calls[d].ticket != k)
  {
    var Dequeued(x, k) := s.calls[c];
    assert ReadOk(s, s.calls[c]);
    assert WriteOk(s, s.calls[s.wOwner[k]]);
    assert GotItem(s.calls[c]) == Some(x);
  }

  ghost predicate Quiescent(s: State) {
    forall c | 0 <= c < |s.calls| :: Returned(s.calls[c])
  }

  lemma QuietGate(calls: seq<Call>, side: Side, g: Gate, ticket: nat)
    requires CountsOk(calls, side, g, ticket)
    requires forall c | 0 <= c < |calls| :: Returned(calls[c])
    ensures g.ahead == ticket + g.missed
  {
    forall k ensures Count(calls, side, k) == 0 {
      SumZero(calls, WeightOf(side, k));
    }
  }

  /**
   * Once all calls have returned, nothing is lost and nothing duplicated: every ticket of
   * either end was served with its own item, the slots hold exactly the abstract queue,
   * and both over-commit counters balance.
   */
  lemma NothingLost(s: State)
    requires Inv(s) && Quiescent(s)
    ensures s.w.ahead == |s.wOwner| + s.w.missed && s.r.ahead == |s.rOwner| + s.r.missed
    ensures forall k | 0 <= k < |s.wOwner| :: s.calls[s.wOwner[k]] == Enqueued(s.items[k], k)
    ensures forall k | 0 <= k < |s.rOwner| :: s.calls[s.rOwner[k]] == Dequeued(s.items[k], k)
    ensures forall k | |s.rOwner| <= k < |s.wOwner| :: s.vec[Slot(k, s.cap)] == Some(s.items[k])
  {
    QuietGate(s.calls, WriteEnd, s.w, |s.wOwner|);
    QuietGate(s.calls, ReadEnd, s.r, |s.rOwner|);
    TicketBounds(s);
    forall k | |s.rOwner| <= k < |s.wOwner| ensures s.vec[Slot(k, s.cap)] == Some(s.items[k]) {
      QuietSlot(s, k);
    }
  }

  /** In a quiescent state the turn of a slot with an undelivered ticket is that ticket's. */
  lemma QuietSlot(s: State, k: nat)
    requires Inv(s) && Quiescent(s) && |s.rOwner| <= k < |s.wOwner|
    ensures s.turn[Slot(k, s.cap)] == Full(k) && s.vec[Slot(k, s.cap)] == Some(s.items[k])
  {
    var i := Slot(k, s.cap);
    var t := s.turn[i];
    assert WriteOk(s, s.calls[s.wOwner[k]]);
    assert Written(t, k);
    if k < t.at {
      Gap(k, t.at, s.cap);
    }
    assert s.vec[i] == Expected(s, i);
  }

  // ---------------------------------------------------------------- slot exclusion

  /** The call is between leaving its wait and publishing its version. */
  predicate InSlot(call: Call) {
    (call.Writing? && !call.wphase.WWait?) || (call.Reading? && !call.rphase.RWait?)
  }

  /** At most one call at a time is at work on a slot, be it a writer or a reader. */
  lemma SlotExclusion(s: State, c: nat, d: nat)
    requires Inv(s) && c < |s.calls| && d < |s.calls| && InSlot(s.calls[c]) && InSlot(s.calls[d])
    requires Slot(s.calls[c].ticket, s.cap) == Slot(s.calls[d].ticket, s.cap)
    ensures c == d
  {
    hide Slot, GatesInv, SlotsOk, GotOk;
    assert WriteOk(s, s.calls[c]) && ReadOk(s, s.calls[c]);
    assert WriteOk(s, s.calls[d]) && ReadOk(s, s.calls[d]);
  }

  /**
   * The version of slot i runs through i-capacity+1, i, i+1, i+capacity, i+capacity+1, ...:
   * an operation changes it only from t-capacity+1 to t or from t to t+1, for a ticket t of
   * the slot, and the next ticket then waits for exactly the version published.
   */
  ghost predicate VersionMoves(cap: nat, i: nat, v: int, v': int, t: nat)
    requires cap > 0
  {
    Slot(t, cap) == i && ((v == t - cap + 1 && v' == t) || (v == t && v' == t + 1))
  }

  lemma VersionSchedule(s: State, a: Action, i: nat)
    requires Inv(s) && Enabled(s, a) && i < s.cap
    ensures |Apply(s, a).ver| == s.cap
    ensures Apply(s, a).ver[i] == s.ver[i] || exists t :: VersionMoves(s.cap, i, s.ver[i], Apply(s, a).ver[i], t)
  {
    hide Slot, GatesInv, SlotsOk, GotOk;
    var s' := Apply(s, a);
    if s'.ver[i] != s.ver[i] {
      var call := s.calls[a.call];
      assert WriteOk(s, call) && ReadOk(s, call);
      assert s.ver[i] == Version(s.turn[i], s.cap);
      assert VersionMoves(s.cap, i, s.ver[i], s'.ver[i], call.ticket);
    }
  }

  // ---------------------------------------------------------------- no deadlock

  /**
   * Whoever holds write ticket k uncompleted, some call can step: either the writer of k
   * itself or, going down, the least ticket still at work on that slot.
   */
  lemma {:induction false} WriterChain(s: State, k: nat) returns (c: nat)
    requires Inv(s) && k < |s.wOwner| && s.calls[s.wOwner[k]].Writing?
    ensures Enabled(s, Step(c))
    decreases k, 0
  {
    c := s.wOwner[k];
    var t := s.turn[Slot(k, s.cap)];
    TicketBounds(s);
    WriterSees(s, k);
    assert WriteOk(s, s.calls[c]);
    if s.calls[c].wphase.WWait? && t != Free(k) {
      if t.Free? {
        assert WriteOk(s, s.calls[s.wOwner[t.at]]);
        c := WriterChain(s, t.at);
      } else {
        Gap(t.at, k, s.cap);
        assert ReadOk(s, s.calls[s.rOwner[t.at]]);
        c := ReaderChain(s, t.at);
      }
    }
  }

  lemma {:induction false} ReaderChain(s: State, k: nat) returns (c: nat)
    requires Inv(s) && k < |s.rOwner| && s.calls[s.rOwner[k]].Reading?
    ensures Enabled(s, Step(c))
    decreases k, 1
  {
    c := s.rOwner[k];
    var t := s.turn[Slot(k, s.cap)];
    TicketBounds(s);
    ReaderSees(s, k);
    assert ReadOk(s, s.calls[c]);
    if s.calls[c].rphase.RWait? && t != Full(k) {
      if t.Free? {
        assert WriteOk(s, s.calls[s.wOwner[t.at]]);
        c := WriterChain(s, t.at);
      } else {
        assert ReadOk(s, s.calls[s.rOwner[t.at]]);
        c := ReaderChain(s, t.at);
      }
    }
  }

  /** As long as a call has not returned, some call can perform its next operation. */
  lemma NoDeadlock(s: State, d: nat) returns (c: nat)
    requires Inv(s) && d < |s.calls| && !Returned(s.calls[d])
    ensures Enabled(s, Step(c))
  {
    c := d;
    if s.calls[d].Writing? {
      c := WriterChain(s, s.calls[d].ticket);
    } else if s.calls[d].Reading? {
      c := ReaderChain(s, s.calls[d].ticket);
    }
  }

  /** An upper bound on the operations a call still performs. */
  function Rank(call: Call): nat {
    match call
    case Enq(_, g) => GateRank(g)
    case Deq(g) => GateRank(g)
    case Writing(_, _, phase) => (match phase case WWait => 3 case WReady => 2 case WStored => 1)
    case Reading(_, phase) =>
      (match phase case RWait => 4 case RReady => 3 case RLoaded(_) => 2 case RCleared(_) => 1)
    case _ => 0
  }

  function GateRank(g: GatePc): nat {
    match g
    case LoadPeer => 10
    case LoadMissed(_) => 9
    case LoadAhead(_, _) => 8
    case FetchAhead(_) => 7
    case Recheck(_, _) => 6
    case Take(_) => 5
    case Miss(_) => 1
  }

  function RankOf(): Call -> nat {
    (call: Call) => Rank(call)
  }

  function Work(s: State): nat {
    Sum(s.calls, RankOf())
  }

  /** Every operation brings the outstanding calls nearer their end. */
  lemma StepWorks(s: State, c: nat)
    requires Sized(s) && Enabled(s, Step(c))
    ensures Work(Apply(s, Step(c))) < Work(s)
  {
    var s' := Apply(s, Step(c));
    SumUpdate(s.calls, RankOf(), c, s'.calls[c]);
    assert s'.calls == s.calls[c := s'.calls[c]];
  }

  /**
   * From every reachable state all outstanding calls can be run to their return, and any
   * schedule does it: each operation uses up work, and an operation is always possible.
   */
  lemma {:induction false} AllReturn(s: State) returns (states: seq<State>, acts: seq<Action>)
    requires Inv(s)
    ensures IsRun(states, acts) && states[0] == s && Quiescent(states[|acts|]) && Inv(states[|acts|])
    ensures |acts| <= Work(s) && forall i | 0 <= i < |acts| :: acts[i].Step?
    decreases Work(s)
  {
    hide GatesInv, WritersOk, ReadersOk, SlotsOk, GotOk, CallsOk, Apply;
    if Quiescent(s) {
      states, acts := [s], [];
    } else {
      var d :| 0 <= d < |s.calls| && !Returned(s.calls[d]);
      var c := NoDeadlock(s, d);
      var s' := Apply(s, Step(c));
      StepWorks(s, c);
      CallStepKeeps(s, c);
      var rest, racts := AllReturn(s');
      states, acts := [s] + rest, [Step(c)] + racts;
      forall i | 0 <= i < |acts|
        ensures Sized(states[i]) && Enabled(states[i], acts[i]) && states[i + 1] == Apply(states[i], acts[i])
      {
        if i > 0 {
          assert states[i] == rest[i - 1] && acts[i] == racts[i - 1] && states[i + 1] == rest[i];
        }
      }
    }
  }

  /** Any schedule: a run that begins no new call is no longer than the work at its start. */
  lemma {:induction false} RunsAreFinite(states: seq<State>, acts: seq<Action>, n: nat)
    requires IsRun(states, acts) && n <= |acts|
    requires forall i | 0 <= i < |acts| :: acts[i].Step?
    ensures n + Work(states[n]) <= Work(states[0])
  {
    if n > 0 {
      RunsAreFinite(states, acts, n - 1);
      assert acts[n - 1].Step?;
      StepWorks(states[n - 1], acts[n - 1].call);
    }
  }

  // ---------------------------------------------------------------- which capacities work

  ghost predicate Crashes(s: State) {
    exists c | 0 <= c < |s.calls| :: s.calls[c].Crashed?
  }

  ghost predicate Reaches(states: seq<State>, acts: seq<Action>, s: State) {
    IsRun(states, acts) && states[|acts|] == s && Sized(s)
  }

  /** An enqueue running alone through its gate, from its first load to its ticket. */
  lemma EnqueueEnters(states: seq<State>, acts: seq<Action>, s: State, c: nat)
    returns (states': seq<State>, acts': seq<Action>, s': State)
    requires Reaches(states, acts, s) && c < |s.calls| && s.calls[c].Enq? && s.calls[c].gate.LoadPeer?
    requires s.w.ahead - s.w.missed < |s.rOwner| + s.cap
    ensures Reaches(states', acts', s') && states'[0] == states[0]
    ensures s'.calls == s.calls[c := Writing(s.calls[c].item, |s.wOwner|, WWait)]
    ensures s'.cap == s.cap && s'.ver == s.ver && s'.vec == s.vec && s'.r == s.r && s'.rOwner == s.rOwner
    ensures |s'.wOwner| == |s.wOwner| + 1
  {
    hide IsRun;
    states', acts', s' := Extend(states, acts, s, Step(c));
    states', acts', s' := Extend(states', acts', s', Step(c));
    states', acts', s' := Extend(states', acts', s', Step(c));
    states', acts', s' := Extend(states', acts', s', Step(c));
    states', acts', s' := Extend(states', acts', s', Step(c));
    states', acts', s' := Extend(states', acts', s', Step(c));
  }

  lemma DequeueEnters(states: seq<State>, acts: seq<Action>, s: State, c: nat)
    returns (states': seq<State>, acts': seq<Action>, s': State)
    requires Reaches(states, acts, s) && c < |s.calls| && s.calls[c].Deq? && s.calls[c].gate.LoadPeer?
    requires s.r.ahead - s.r.missed < |s.wOwner|
    ensures Reaches(states', acts', s') && states'[0] == states[0]
    ensures s'.calls == s.calls[c := Reading(|s.rOwner|, RWait)]
    ensures s'.cap == s.cap && s'.ver == s.ver && s'.vec == s.vec
  {
    hide IsRun;
    states', acts', s' := Extend(states, acts, s, Step(c));
    states', acts', s' := Extend(states', acts', s', Step(c));
    states', acts', s' := Extend(states', acts', s', Step(c));
    states', acts', s' := Extend(states', acts', s', Step(c));
    states', acts', s' := Extend(states', acts', s', Step(c));
    states', acts', s' := Extend(states', acts', s', Step(c));
  }

  lemma Extend(states: seq<State>, acts: seq<Action>, s: State, a: Action)
    returns (states': seq<State>, acts': seq<Action>, s': State)
    requires Reaches(states, acts, s) && Enabled(s, a)
    ensures s' == Apply(s, a) && (Sized(s') ==> Reaches(states', acts', s')) && states'[0] == states[0]
  {
    s' := Apply(s, a);
    states', acts' := states + [s'], acts + [a];
  }

  /**
   * With capacity one the empty and the full version of the only slot coincide: a dequeue
   * admitted while the enqueue has only drawn its ticket reads a null item.
   */
  lemma CapacityOneCrashes() returns (states: seq<State>, acts: seq<Action>, s: State)
    ensures Reaches(states, acts, s) && states[0] == Init(1) && Crashes(s)
  {
    s := Init(1);
    states, acts := [s], [];
    states, acts, s := Extend(states, acts, s, BeginEnqueue(7));
    states, acts, s := EnqueueEnters(states, acts, s, 0);
    states, acts, s := Extend(states, acts, s, BeginDequeue);
    states, acts, s := DequeueEnters(states, acts, s, 1);
    states, acts, s := Extend(states, acts, s, Step(1));
    states, acts, s := Extend(states, acts, s, Step(1));
    assert s.calls[1].Crashed?;
  }

  lemma TwoSlotsNeverCrash(states: seq<State>, acts: seq<Action>)
    requires IsRun(states, acts) && IsInit(states[0])
    ensures !Crashes(states[|acts|])
  {
    InitInv(states[0]);
    RunKeeps(states, acts, |acts|);
    var s := states[|acts|];
    forall c | 0 <= c < |s.calls| ensures !s.calls[c].Crashed? {
      assert ReadOk(s, s.calls[c]);
    }
  }

  /** The null check of the dequeue never fires exactly when the capacity is at least two. */
  lemma NullCheckHoldsIffTwoSlots(cap: nat)
    requires cap > 0
    ensures cap >= 2 <==>
      forall states: seq<State>, acts: seq<Action> | IsRun(states, acts) && states[0] == Init(cap) ::
        !Crashes(states[|acts|])
  {
    if cap >= 2 {
      InitIsInit(cap);
      forall states: seq<State>, acts: seq<Action> | IsRun(states, acts) && states[0] == Init(cap)
        ensures !Crashes(states[|acts|])
      {
        TwoSlotsNeverCrash(states, acts);
      }
    } else {
      var states, acts, s := CapacityOneCrashes();
    }
  }
}

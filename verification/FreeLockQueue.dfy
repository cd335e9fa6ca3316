/**
 * The lock-free bounded queue as an interleaving state machine. Any number of calls of
 * try_enqueue and try_dequeue are outstanding at once; an action is one atomic operation
 * of one call. Memory is sequentially consistent and counters are unbounded here; the
 * machine words are the business of FreeLockMachine.
 */
module FreeLockQueue {
  import opened Common
  import opened FreeLockGate
  import opened Cyclic

  /** Whose turn a slot is: the writer of ticket `at`, or (its item stored) the reader of it. */
  datatype Turn = Free(at: nat) | Full(at: nat)

  /**
   * `wOwner[k]` is the call that drew write ticket k, so the ticket counter `write` is
   * the length of `wOwner`, and likewise for `read`. `ver` and `vec` are the version and
   * the item of each slot; `turn` explains the version, and `items[k]` is the item of write
   * ticket k.
   */
  datatype State = State(
    cap: nat,
    w: Gate, r: Gate,
    wOwner: seq<nat>, rOwner: seq<nat>, items: seq<Item>,
    ver: seq<int>, vec: seq<Option<Item>>, turn: seq<Turn>,
    calls: seq<Call>)

  datatype Action = BeginEnqueue(item: Item) | BeginDequeue | Step(call: nat)

  function Version(t: Turn, cap: nat): int {
    match t
    case Free(k) => k - cap + 1
    case Full(k) => k
  }

  function Init(cap: nat): State {
    State(cap, Gate(0, 0, {}, {}), Gate(0, 0, {}, {}), [], [], [],
          seq(cap, i => i - cap + 1), seq(cap, i => None), seq(cap, (i: nat) => Free(i)), [])
  }

  predicate Returned(call: Call) {
    call.Enqueued? || call.Dequeued? || call.Failed? || call.Crashed?
  }

  /** The arrays have one entry per slot (capacity never changes). */
  ghost predicate Sized(s: State) {
    s.cap > 0 && |s.ver| == |s.vec| == |s.turn| == s.cap
  }

  /** A call is held up only while its slot does not show the version it waits for. */
  predicate Enabled(s: State, a: Action)
    requires s.cap > 0 && |s.ver| == s.cap
  {
    match a
    case BeginEnqueue(_) => true
    case BeginDequeue => true
    case Step(c) =>
      c < |s.calls| &&
      match s.calls[c]
      case Writing(_, k, WWait) => s.ver[Slot(k, s.cap)] == k - s.cap + 1
      case Reading(k, RWait) => s.ver[Slot(k, s.cap)] == k
      case Enqueued(_, _) => false
      case Dequeued(_, _) => false
      case Failed => false
      case Crashed => false
      case _ => true
  }

  function EnqStep(s: State, c: nat): State
    requires c < |s.calls| && s.calls[c].Enq?
  {
    var x := s.calls[c].item;
    var (g, out) := GateStep(s.calls[c].gate, s.w, |s.rOwner|, s.cap);
    match out
    case Go(pc) => s.(w := g, calls := s.calls[c := Enq(x, pc)])
    case Reject => s.(w := g, calls := s.calls[c := Failed])
    case Admit => s.(w := g, calls := s.calls[c := Writing(x, |s.wOwner|, WWait)], wOwner := s.wOwner + [c], items := s.items + [x])
  }

  function DeqStep(s: State, c: nat): State
    requires c < |s.calls| && s.calls[c].Deq?
  {
    var (g, out) := GateStep(s.calls[c].gate, s.r, |s.wOwner|, 0);
    match out
    case Go(pc) => s.(r := g, calls := s.calls[c := Deq(pc)])
    case Reject => s.(r := g, calls := s.calls[c := Failed])
    case Admit => s.(r := g, calls := s.calls[c := Reading(|s.rOwner|, RWait)], rOwner := s.rOwner + [c])
  }

  function WriteStep(s: State, c: nat): State
    requires Sized(s) && c < |s.calls| && s.calls[c].Writing?
  {
    var Writing(x, k, phase) := s.calls[c];
    var i := Slot(k, s.cap);
    match phase
    case WWait => s.(calls := s.calls[c := Writing(x, k, WReady)])
    case WReady => s.(vec := s.vec[i := Some(x)], calls := s.calls[c := Writing(x, k, WStored)])
    case WStored => s.(ver := s.ver[i := k], turn := s.turn[i := Full(k)], calls := s.calls[c := Enqueued(x, k)])
  }

  /** Reading an empty slot would violate the assertion of the dequeue, which throws. */
  function ReadStep(s: State, c: nat): State
    requires Sized(s) && c < |s.calls| && s.calls[c].Reading?
  {
    var Reading(k, phase) := s.calls[c];
    var i := Slot(k, s.cap);
    match phase
    case RWait => s.(calls := s.calls[c := Reading(k, RReady)])
    case RReady =>
      if s.vec[i].None? then s.(calls := s.calls[c := Crashed])
      else s.(calls := s.calls[c := Reading(k, RLoaded(s.vec[i].value))])
    case RLoaded(x) => s.(vec := s.vec[i := None], calls := s.calls[c := Reading(k, RCleared(x))])
    case RCleared(x) => s.(ver := s.ver[i := k + 1], turn := s.turn[i := Free(k + s.cap)],
                           calls := s.calls[c := Dequeued(x, k)])
  }

  function Apply(s: State, a: Action): State
    requires Sized(s) && Enabled(s, a)
  {
    match a
    case BeginEnqueue(x) => s.(calls := s.calls + [Enq(x, LoadPeer)])
    case BeginDequeue => s.(calls := s.calls + [Deq(LoadPeer)])
    case Step(c) =>
      match s.calls[c]
      case Enq(_, _) => EnqStep(s, c)
      case Deq(_) => DeqStep(s, c)
      case Writing(_, _, _) => WriteStep(s, c)
      case Reading(_, _) => ReadStep(s, c)
      case _ => s
  }

  /** An execution: every state follows from the one before by an enabled action. */
  ghost predicate IsRun(states: seq<State>, acts: seq<Action>) {
    && |states| == |acts| + 1
    && (forall i | 0 <= i < |acts| ::
          Sized(states[i]) && Enabled(states[i], acts[i]) && states[i + 1] == Apply(states[i], acts[i]))
  }

  // ---------------------------------------------------------------- invariant of the ring

  function WTicket(call: Call): Option<nat> {
    if call.Writing? || call.Enqueued? then Some(call.ticket) else None
  }

  function RTicket(call: Call): Option<nat> {
    if call.Reading? || call.Dequeued? then Some(call.ticket) else None
  }

  /** Tickets and the calls that drew them correspond one to one. */
  ghost predicate WritersOk(s: State) {
    && |s.items| == |s.wOwner|
    && (forall k | 0 <= k < |s.wOwner| :: s.wOwner[k] < |s.calls| && WTicket(s.calls[s.wOwner[k]]) == Some(k))
    && (forall c | 0 <= c < |s.calls| :: WTicket(s.calls[c]).Some? ==>
          && s.calls[c].ticket < |s.wOwner|
          && s.wOwner[s.calls[c].ticket] == c
          && s.items[s.calls[c].ticket] == s.calls[c].item)
  }

  ghost predicate ReadersOk(s: State) {
    && (forall k | 0 <= k < |s.rOwner| :: s.rOwner[k] < |s.calls| && RTicket(s.calls[s.rOwner[k]]) == Some(k))
    && (forall c | 0 <= c < |s.calls| :: RTicket(s.calls[c]).Some? ==>
          s.calls[c].ticket < |s.rOwner| && s.rOwner[s.calls[c].ticket] == c)
  }

  /** Every slot shows the version of its turn, and turns follow the tickets. */
  ghost predicate TurnsOk(s: State) {
    && Sized(s) && s.cap >= 2
    && (forall i | 0 <= i < s.cap ::
          && Slot(s.turn[i].at, s.cap) == i
          && s.ver[i] == Version(s.turn[i], s.cap)
          && s.turn[i].at < |s.rOwner| + s.cap
          && (s.turn[i].Full? ==> s.turn[i].at < |s.wOwner|))
  }

  /** Slot turn `t` has moved past write ticket k. */
  predicate Written(t: Turn, k: nat) {
    k < t.at || t == Full(k)
  }

  /** A write ticket is completed exactly when its slot has moved past it; likewise a read ticket. */
  ghost predicate WriteOk(s: State, call: Call)
    requires Sized(s)
  {
    match call
    case Writing(_, k, phase) =>
      && !Written(s.turn[Slot(k, s.cap)], k)
      && (!phase.WWait? ==> s.turn[Slot(k, s.cap)] == Free(k))
    case Enqueued(_, k) => Written(s.turn[Slot(k, s.cap)], k)
    case _ => true
  }

  ghost predicate ReadOk(s: State, call: Call)
    requires Sized(s)
  {
    match call
    case Reading(k, phase) =>
      && s.turn[Slot(k, s.cap)].at <= k
      && (!phase.RWait? ==> s.turn[Slot(k, s.cap)] == Full(k))
    case Dequeued(_, k) => k < s.turn[Slot(k, s.cap)].at
    case Crashed => false
    case _ => true
  }

  ghost predicate CallsOk(s: State)
    requires Sized(s)
  {
    forall c | 0 <= c < |s.calls| :: WriteOk(s, s.calls[c]) && ReadOk(s, s.calls[c])
  }

  /** The item slot i holds: that of its writer from the store on, until its reader clears it. */
  ghost function Expected(s: State, i: nat): Option<Item>
    requires Sized(s) && i < s.cap && |s.items| == |s.wOwner|
    requires s.turn[i].Full? ==> s.turn[i].at < |s.wOwner|
  {
    match s.turn[i]
    case Free(k) =>
      if k < |s.wOwner| && s.wOwner[k] < |s.calls| && Stored(s.calls[s.wOwner[k]]) then Some(s.items[k]) else None
    case Full(k) =>
      if k < |s.rOwner| && s.rOwner[k] < |s.calls| && Cleared(s.calls[s.rOwner[k]]) then None else Some(s.items[k])
  }

  predicate Stored(call: Call) {
    call.Writing? && call.wphase.WStored?
  }

  predicate Cleared(call: Call) {
    call.Reading? && call.rphase.RCleared?
  }

  ghost predicate SlotsOk(s: State)
    requires TurnsOk(s) && |s.items| == |s.wOwner|
  {
    forall i | 0 <= i < s.cap :: s.vec[i] == Expected(s, i)
  }

  /** The item a dequeue has in hand, or has returned. */
  function GotItem(call: Call): Option<Item> {
    match call
    case Reading(_, RLoaded(x)) => Some(x)
    case Reading(_, RCleared(x)) => Some(x)
    case Dequeued(x, _) => Some(x)
    case _ => None
  }

  /** A dequeue holds the item of the enqueue with the same ticket. */
  ghost predicate GotOk(s: State) {
    forall c | 0 <= c < |s.calls| :: GotItem(s.calls[c]).Some? ==>
      s.calls[c].ticket < |s.items| && GotItem(s.calls[c]).value == s.items[s.calls[c].ticket]
  }

  ghost predicate RingInv(s: State) {
    && WritersOk(s) && ReadersOk(s) && TurnsOk(s)
    && |s.rOwner| <= |s.wOwner|
    && CallsOk(s) && SlotsOk(s) && GotOk(s)
  }

  ghost predicate GatesInv(s: State) {
    && GateInv(s.calls, WriteEnd, s.w, |s.wOwner|, |s.rOwner| + s.cap)
    && GateInv(s.calls, ReadEnd, s.r, |s.rOwner|, |s.wOwner|)
  }

  ghost predicate Inv(s: State) {
    RingInv(s) && GatesInv(s)
  }

  // ---------------------------------------------------------------- initial state

  /** The state the constructor sets up, field by field. */
  ghost predicate IsInit(s: State) {
    && s.cap >= 2 && Sized(s)
    && |s.calls| == |s.wOwner| == |s.rOwner| == |s.items| == 0
    && IdleGate(s.w) && IdleGate(s.r)
    && (forall i | 0 <= i < s.cap :: s.turn[i] == Free(i) && s.ver[i] == i - s.cap + 1 && s.vec[i].None?)
  }

  ghost predicate IdleGate(g: Gate) {
    g.ahead == g.missed == 0 && g.lost == {} && g.won == {}
  }

  lemma InitIsInit(cap: nat)
    requires cap >= 2
    ensures IsInit(Init(cap)) && Init(cap).cap == cap
  {
  }

  lemma EmptyGate(calls: seq<Call>, side: Side, g: Gate, ticket: nat, limit: nat)
    requires |calls| == 0 && IdleGate(g) && ticket == 0
    ensures GateInv(calls, side, g, ticket, limit)
  {
  }

  lemma InitRing(s: State)
    requires IsInit(s)
    ensures RingInv(s)
  {
    assert TurnsOk(s);
    assert CallsOk(s);
    assert SlotsOk(s);
  }

  lemma InitInv(s: State)
    requires IsInit(s)
    ensures Inv(s)
  {
    EmptyGate(s.calls, WriteEnd, s.w, |s.wOwner|, |s.rOwner| + s.cap);
    EmptyGate(s.calls, ReadEnd, s.r, |s.rOwner|, |s.wOwner|);
    InitRing(s);
  }

  // ---------------------------------------------------------------- the two ends

  /**
   * The admission protocol: dequeue tickets never overtake enqueue tickets, and enqueue
   * tickets never get more than a capacity ahead, whatever the interleaving. The calls
   * already admitted but without a ticket are counted in.
   */
  lemma TicketBounds(s: State)
    requires GatesInv(s)
    ensures |s.rOwner| + Count(s.calls, ReadEnd, AtTake) <= |s.wOwner|
    ensures |s.wOwner| + Count(s.calls, WriteEnd, AtTake) <= |s.rOwner| + s.cap
  {
    WonBounded(s.w, |s.rOwner| + s.cap);
    WonBounded(s.r, |s.wOwner|);
  }

  lemma AdmittedCounted(calls: seq<Call>, c: nat, side: Side)
    requires c < |calls| && At(calls[c], side).Some? && At(calls[c], side).value.Take?
    ensures Count(calls, side, AtTake) >= 1
  {
    SumUpdate(calls, WeightOf(side, AtTake), c, calls[c]);
  }

  lemma EnqStepGates(s: State, c: nat)
    requires GatesInv(s) && c < |s.calls| && s.calls[c].Enq?
    ensures GatesInv(EnqStep(s, c))
  {
    var s' := EnqStep(s, c);
    GateStepKeeps(s.calls, c, s'.calls[c], WriteEnd, s.w, |s.wOwner|, |s.rOwner|, s.cap);
    GateFrame(s.calls, c, s'.calls[c], ReadEnd, s.r, |s.rOwner|, |s.wOwner|, |s'.wOwner|);
  }

  lemma DeqStepGates(s: State, c: nat)
    requires GatesInv(s) && c < |s.calls| && s.calls[c].Deq?
    ensures GatesInv(DeqStep(s, c))
  {
    var s' := DeqStep(s, c);
    GateStepKeeps(s.calls, c, s'.calls[c], ReadEnd, s.r, |s.rOwner|, |s.wOwner|, 0);
    GateFrame(s.calls, c, s'.calls[c], WriteEnd, s.w, |s.wOwner|, |s.rOwner| + s.cap, |s'.rOwner| + s.cap);
  }

  // ---------------------------------------------------------------- the ring, away from the slots

  ghost predicate SameSlots(s: State, s': State) {
    s'.cap == s.cap && s'.ver == s.ver && s'.vec == s.vec && s'.turn == s.turn
  }

  predicate Ticketless(call: Call) {
    WTicket(call).None? && RTicket(call).None?
  }

  /** A call that holds no ticket, before and after, changes nothing in the ring. */
  lemma RingFrame(s: State, s': State, c: nat, x: Call)
    requires RingInv(s) && c < |s.calls|
    requires SameSlots(s, s') && s'.wOwner == s.wOwner && s'.rOwner == s.rOwner && s'.items == s.items
    requires s'.calls == s.calls[c := x] && Ticketless(s.calls[c]) && Ticketless(x) && !x.Crashed?
    ensures RingInv(s')
  {
    hide SlotsOk, Slot;
    assert WritersOk(s') && ReadersOk(s') && TurnsOk(s');
    assert CallsOk(s') && GotOk(s');
    SlotsFrame(s, s', c, x);
  }

  /** Which items the slots should hold depends only on calls that hold tickets. */
  lemma SlotsFrame(s: State, s': State, c: nat, x: Call)
    requires WritersOk(s) && ReadersOk(s) && TurnsOk(s) && SlotsOk(s)
    requires WritersOk(s') && ReadersOk(s') && TurnsOk(s')
    requires SameSlots(s, s') && s.wOwner <= s'.wOwner && s.rOwner <= s'.rOwner && s.items <= s'.items
    requires c < |s.calls| && s'.calls == s.calls[c := x]
    requires !Stored(s.calls[c]) && !Stored(x) && !Cleared(s.calls[c]) && !Cleared(x)
    ensures SlotsOk(s')
  {
    forall i | 0 <= i < s.cap ensures s'.vec[i] == Expected(s', i) {
      assert s.vec[i] == Expected(s, i);
      var k := s.turn[i].at;
      if |s.wOwner| <= k < |s'.wOwner| {
        assert !Stored(s'.calls[s'.wOwner[k]]) by {
          if s'.wOwner[k] != c {
            assert WTicket(s.calls[s'.wOwner[k]]) == Some(k);
          }
        }
      }
      if |s.rOwner| <= k < |s'.rOwner| {
        assert !Cleared(s'.calls[s'.rOwner[k]]) by {
          if s'.rOwner[k] != c {
            assert RTicket(s.calls[s'.rOwner[k]]) == Some(k);
          }
        }
      }
    }
  }

  lemma TurnsFrame(s: State, s': State)
    requires TurnsOk(s) && SameSlots(s, s') && |s.wOwner| <= |s'.wOwner| && |s.rOwner| <= |s'.rOwner|
    ensures TurnsOk(s')
  {
  }

  /** Drawing the next ticket keeps the tables of ticket owners. */
  lemma WriteTicketDrawn(s: State, s': State, c: nat, x: Item)
    requires WritersOk(s) && ReadersOk(s) && GotOk(s) && c < |s.calls| && Ticketless(s.calls[c])
    requires s'.calls == s.calls[c := Writing(x, |s.wOwner|, WWait)]
    requires s'.rOwner == s.rOwner && s'.wOwner == s.wOwner + [c] && s'.items == s.items + [x]
    ensures WritersOk(s') && ReadersOk(s') && GotOk(s')
  {
  }

  lemma ReadTicketDrawn(s: State, s': State, c: nat)
    requires WritersOk(s) && ReadersOk(s) && GotOk(s) && c < |s.calls| && Ticketless(s.calls[c])
    requires s'.calls == s.calls[c := Reading(|s.rOwner|, RWait)]
    requires s'.rOwner == s.rOwner + [c] && s'.wOwner == s.wOwner && s'.items == s.items
    ensures WritersOk(s') && ReadersOk(s') && GotOk(s')
  {
  }

  /** A new write ticket finds its slot at an earlier turn or at its own. */
  lemma NewWriteTicket(s: State, s': State, c: nat, x: Item)
    requires RingInv(s) && c < |s.calls| && Ticketless(s.calls[c])
    requires SameSlots(s, s') && s'.rOwner == s.rOwner
    requires s'.wOwner == s.wOwner + [c] && s'.items == s.items + [x]
    requires s'.calls == s.calls[c := Writing(x, |s.wOwner|, WWait)]
    ensures RingInv(s')
  {
    var n := |s.wOwner|;
    var t := s.turn[Slot(n, s.cap)];
    if n < t.at {
      Gap(n, t.at, s.cap);
    }
    TurnsFrame(s, s');
    WriteTicketDrawn(s, s', c, x);
    assert CallsOk(s');
    SlotsFrame(s, s', c, Writing(x, n, WWait));
  }

  lemma NewReadTicket(s: State, s': State, c: nat)
    requires RingInv(s) && c < |s.calls| && |s.rOwner| < |s.wOwner| && Ticketless(s.calls[c])
    requires SameSlots(s, s') && s'.wOwner == s.wOwner && s'.items == s.items
    requires s'.rOwner == s.rOwner + [c] && s'.calls == s.calls[c := Reading(|s.rOwner|, RWait)]
    ensures RingInv(s')
  {
    var n := |s.rOwner|;
    var t := s.turn[Slot(n, s.cap)];
    if n < t.at {
      Gap(n, t.at, s.cap);
    }
    TurnsFrame(s, s');
    ReadTicketDrawn(s, s', c);
    assert CallsOk(s');
    SlotsFrame(s, s', c, Reading(n, RWait));
  }

  // ---------------------------------------------------------------- the slots

  /** A writer leaves its wait exactly when it is its turn. */
  lemma WriterSees(s: State, k: nat)
    requires TurnsOk(s)
    ensures s.ver[Slot(k, s.cap)] == k - s.cap + 1 <==> s.turn[Slot(k, s.cap)] == Free(k)
  {
    Neighbours(s.turn[Slot(k, s.cap)].at, k, s.cap);
  }

  /** A reader leaves its wait exactly when the item of its ticket is there. */
  lemma ReaderSees(s: State, k: nat)
    requires TurnsOk(s)
    ensures s.ver[Slot(k, s.cap)] == k <==> s.turn[Slot(k, s.cap)] == Full(k)
  {
    Neighbours(s.turn[Slot(k, s.cap)].at, k, s.cap);
  }

  ghost predicate SameTickets(s: State, s': State) {
    s'.cap == s.cap && s'.wOwner == s.wOwner && s'.rOwner == s.rOwner && s'.items == s.items
  }

  ghost predicate SameHolder(x: Call, y: Call) {
    && WTicket(x) == WTicket(y) && RTicket(x) == RTicket(y)
    && (WTicket(x).Some? ==> x.item == y.item)
  }

  /** A call that keeps its ticket keeps the tables of ticket owners. */
  lemma TicketsFrame(s: State, s': State, c: nat, x: Call)
    requires WritersOk(s) && ReadersOk(s) && GotOk(s) && SameTickets(s, s')
    requires c < |s.calls| && s'.calls == s.calls[c := x] && SameHolder(s.calls[c], x)
    requires GotItem(x).Some? ==> x.ticket < |s.items| && GotItem(x).value == s.items[x.ticket]
    ensures WritersOk(s') && ReadersOk(s') && GotOk(s')
  {
  }

  /** The call leaves its wait, or loads the item: only its own program point changes. */
  lemma LocalStep(s: State, s': State, c: nat, x: Call)
    requires RingInv(s) && SameTickets(s, s') && SameSlots(s, s')
    requires c < |s.calls| && s'.calls == s.calls[c := x] && SameHolder(s.calls[c], x)
    requires GotItem(x).Some? ==> x.ticket < |s.items| && GotItem(x).value == s.items[x.ticket]
    requires WriteOk(s, x) && ReadOk(s, x)
    requires !Stored(s.calls[c]) && !Stored(x) && !Cleared(s.calls[c]) && !Cleared(x)
    ensures RingInv(s')
  {
    TicketsFrame(s, s', c, x);
    assert TurnsOk(s');
    assert CallsOk(s');
    SlotsFrame(s, s', c, x);
  }

  /** The writer of ticket k fills its slot, or the reader of ticket k clears it. */
  ghost predicate Touches(s: State, s': State, c: nat, x: Call, i: nat, v: Option<Item>)
    requires Sized(s)
  {
    && SameTickets(s, s') && s'.ver == s.ver && s'.turn == s.turn
    && c < |s.calls| && s'.calls == s.calls[c := x] && SameHolder(s.calls[c], x)
    && GotItem(x) == GotItem(s.calls[c]) && !Ticketless(x)
    && WriteOk(s, x) && ReadOk(s, x)
    && i == Slot(x.ticket, s.cap) && s'.vec == s.vec[i := v]
    && !Stored(s.calls[c]) && !Cleared(s.calls[c])
    && ((x.Writing? && Stored(x) && v == Some(x.item)) || (x.Reading? && Cleared(x) && v == None))
  }

  lemma TouchItem(s: State, s': State, c: nat, x: Call, i: nat, v: Option<Item>)
    requires RingInv(s) && Touches(s, s', c, x, i, v)
    ensures RingInv(s')
  {
    hide WritersOk, ReadersOk, SlotsOk, Slot;
    TicketsFrame(s, s', c, x);
    TurnsFrame0(s, s');
    assert CallsOk(s');
    TouchSlots(s, s', c, x, i, v);
  }

  lemma TurnsFrame0(s: State, s': State)
    requires TurnsOk(s) && SameTickets(s, s') && s'.ver == s.ver && s'.turn == s.turn && |s'.vec| == |s.vec|
    ensures TurnsOk(s')
  {
  }

  lemma TouchSlots(s: State, s': State, c: nat, x: Call, i: nat, v: Option<Item>)
    requires WritersOk(s) && ReadersOk(s) && TurnsOk(s) && SlotsOk(s)
    requires Touches(s, s', c, x, i, v) && TurnsOk(s')
    ensures SlotsOk(s')
  {
    hide Slot;
    forall j | 0 <= j < s.cap ensures s'.vec[j] == Expected(s', j) {
      assert s.vec[j] == Expected(s, j);
      var n := s.turn[j].at;
      if j != i {
        assert n < |s.wOwner| ==> WTicket(s.calls[s.wOwner[n]]) == Some(n);
        assert n < |s.rOwner| ==> RTicket(s.calls[s.rOwner[n]]) == Some(n);
      } else {
        assert n == x.ticket;
      }
    }
  }

  /** Publishing the version of ticket k hands the slot on; other tickets keep their side of it. */
  lemma PublishCalls(s: State, s': State, c: nat, x: Call, i: nat, t: Turn)
    requires RingInv(s) && c < |s.calls| && !Ticketless(s.calls[c]) && SameTickets(s, s')
    requires s'.calls == s.calls[c := x] && SameHolder(s.calls[c], x)
    requires i == Slot(s.calls[c].ticket, s.cap) && s'.turn == s.turn[i := t] && s'.vec == s.vec
    requires var k := s.calls[c].ticket;
      || (x.Enqueued? && s.turn[i] == Free(k) && t == Full(k))
      || (x.Dequeued? && s.turn[i] == Full(k) && t == Free(k + s.cap))
    requires |s'.ver| == s.cap
    ensures CallsOk(s')
  {
    var k := s.calls[c].ticket;
    AddCap(k, s.cap);
    forall d | 0 <= d < |s'.calls| ensures WriteOk(s', s'.calls[d]) && ReadOk(s', s'.calls[d]) {
      assert WriteOk(s, s.calls[d]) && ReadOk(s, s.calls[d]);
      if d != c && !Ticketless(s.calls[d]) && Slot(s.calls[d].ticket, s.cap) == i {
        var n := s.calls[d].ticket;
        if k < n {
          Gap(k, n, s.cap);
        } else if n == k {
          assert WTicket(s.calls[d]).Some? ==> WTicket(s.calls[c]).None?;
          assert RTicket(s.calls[d]).Some? ==> RTicket(s.calls[c]).None?;
        }
      }
    }
  }

  lemma PublishTurns(s: State, s': State, k: nat, i: nat, t: Turn)
    requires RingInv(s) && SameTickets(s, s') && i == Slot(k, s.cap) && s'.vec == s.vec
    requires (s.turn[i] == Free(k) && t == Full(k) && k < |s.wOwner|) || (t == Free(k + s.cap) && k < |s.rOwner|)
    requires s'.ver == s.ver[i := Version(t, s.cap)] && s'.turn == s.turn[i := t]
    ensures TurnsOk(s')
  {
    AddCap(k, s.cap);
  }

  lemma PublishWrite(s: State, s': State, c: nat, k: nat, i: nat)
    requires RingInv(s) && c < |s.calls| && Stored(s.calls[c]) && s.calls[c].ticket == k
    requires SameTickets(s, s') && i == Slot(k, s.cap)
    requires s'.calls == s.calls[c := Enqueued(s.calls[c].item, k)] && s'.vec == s.vec
    requires s'.ver == s.ver[i := k] && s'.turn == s.turn[i := Full(k)]
    ensures RingInv(s')
  {
    var x := Enqueued(s.calls[c].item, k);
    assert WriteOk(s, s.calls[c]);
    TicketsFrame(s, s', c, x);
    PublishTurns(s, s', k, i, Full(k));
    PublishCalls(s, s', c, x, i, Full(k));
    PublishWriteSlots(s, s', c, k, i);
  }

  lemma PublishWriteSlots(s: State, s': State, c: nat, k: nat, i: nat)
    requires WritersOk(s) && ReadersOk(s) && TurnsOk(s) && SlotsOk(s) && CallsOk(s)
    requires c < |s.calls| && Stored(s.calls[c]) && s.calls[c].ticket == k
    requires SameTickets(s, s') && i == Slot(k, s.cap) && s.turn[i] == Free(k)
    requires s'.calls == s.calls[c := Enqueued(s.calls[c].item, k)] && s'.vec == s.vec
    requires s'.turn == s.turn[i := Full(k)] && TurnsOk(s')
    ensures SlotsOk(s')
  {
    hide Slot;
    assert s.wOwner[k] == c;
    forall j | 0 <= j < s.cap ensures s'.vec[j] == Expected(s', j) {
      assert s.vec[j] == Expected(s, j);
      if j == i && k < |s.rOwner| {
        assert ReadOk(s, s.calls[s.rOwner[k]]);
      }
    }
  }

  lemma PublishRead(s: State, s': State, c: nat, x: Item, k: nat, i: nat)
    requires RingInv(s) && c < |s.calls| && s.calls[c] == Reading(k, RCleared(x))
    requires SameTickets(s, s') && i == Slot(k, s.cap)
    requires s'.calls == s.calls[c := Dequeued(x, k)] && s'.vec == s.vec
    requires s'.ver == s.ver[i := k + 1] && s'.turn == s.turn[i := Free(k + s.cap)]
    ensures RingInv(s')
  {
    assert ReadOk(s, s.calls[c]);
    TicketsFrame(s, s', c, Dequeued(x, k));
    AddCap(k, s.cap);
    PublishTurns(s, s', k, i, Free(k + s.cap));
    PublishCalls(s, s', c, Dequeued(x, k), i, Free(k + s.cap));
    PublishReadSlots(s, s', c, x, k, i);
  }

  lemma PublishReadSlots(s: State, s': State, c: nat, x: Item, k: nat, i: nat)
    requires WritersOk(s) && ReadersOk(s) && TurnsOk(s) && SlotsOk(s) && CallsOk(s)
    requires c < |s.calls| && s.calls[c] == Reading(k, RCleared(x))
    requires SameTickets(s, s') && i == Slot(k, s.cap) && s.turn[i] == Full(k)
    requires s'.calls == s.calls[c := Dequeued(x, k)] && s'.vec == s.vec
    requires s'.turn == s.turn[i := Free(k + s.cap)] && TurnsOk(s')
    ensures SlotsOk(s')
  {
    hide Slot;
    AddCap(k, s.cap);
    assert s.rOwner[k] == c;
    forall j | 0 <= j < s.cap ensures s'.vec[j] == Expected(s', j) {
      assert s.vec[j] == Expected(s, j);
      var n := s'.turn[j].at;
      if n < |s.wOwner| {
        assert WTicket(s.calls[s.wOwner[n]]) == Some(n);
        assert s.wOwner[n] != c;
        if j == i {
          assert WriteOk(s, s.calls[s.wOwner[n]]);
        }
      }
      if j != i && n < |s.rOwner| {
        assert RTicket(s.calls[s.rOwner[n]]) == Some(n);
        assert s.rOwner[n] != c;
      }
    }
  }

  lemma WriteStepRing(s: State, c: nat)
    requires RingInv(s) && c < |s.calls| && s.calls[c].Writing? && Enabled(s, Step(c))
    ensures RingInv(WriteStep(s, c))
  {
    hide WritersOk, ReadersOk, SlotsOk, Slot;
    var s' := WriteStep(s, c);
    var k := s.calls[c].ticket;
    var i := Slot(k, s.cap);
    assert WriteOk(s, s.calls[c]);
    match s.calls[c].wphase
    case WWait => WriterSees(s, k); LocalStep(s, s', c, s'.calls[c]);
    case WReady => TouchItem(s, s', c, s'.calls[c], i, Some(s.calls[c].item));
    case WStored => PublishWrite(s, s', c, k, i);
  }

  /** A dequeue past its wait always finds an item: the assertion of the dequeue never fires. */
  lemma NeverEmptyRead(s: State, c: nat)
    requires RingInv(s) && c < |s.calls| && s.calls[c].Reading? && s.calls[c].rphase.RReady?
    ensures var k := s.calls[c].ticket; k < |s.items| && s.vec[Slot(k, s.cap)] == Some(s.items[k])
  {
    var k := s.calls[c].ticket;
    assert ReadOk(s, s.calls[c]);
    assert s.vec[Slot(k, s.cap)] == Expected(s, Slot(k, s.cap));
    assert s.rOwner[k] == c;
  }

  /** Nothing is overwritten: a writer past its wait finds its slot empty. */
  lemma NeverOverwrites(s: State, c: nat)
    requires RingInv(s) && c < |s.calls| && s.calls[c].Writing? && s.calls[c].wphase.WReady?
    ensures s.vec[Slot(s.calls[c].ticket, s.cap)] == None
  {
    var k := s.calls[c].ticket;
    assert WriteOk(s, s.calls[c]);
    assert s.vec[Slot(k, s.cap)] == Expected(s, Slot(k, s.cap));
    assert s.wOwner[k] == c;
  }

  lemma ReadStepRing(s: State, c: nat)
    requires RingInv(s) && c < |s.calls| && s.calls[c].Reading? && Enabled(s, Step(c))
    ensures RingInv(ReadStep(s, c))
  {
    hide WritersOk, ReadersOk, SlotsOk, Slot;
    var s' := ReadStep(s, c);
    var k := s.calls[c].ticket;
    var i := Slot(k, s.cap);
    assert ReadOk(s, s.calls[c]);
    match s.calls[c].rphase
    case RWait => ReaderSees(s, k); LocalStep(s, s', c, s'.calls[c]);
    case RReady => NeverEmptyRead(s, c); LocalStep(s, s', c, s'.calls[c]);
    case RLoaded(x) => TouchItem(s, s', c, s'.calls[c], i, None);
    case RCleared(x) => PublishRead(s, s', c, x, k, i);
  }

  // ---------------------------------------------------------------- every step, every run

  lemma AppendKeeps(s: State, x: Call)
    requires Inv(s) && (x == Deq(LoadPeer) || (x.Enq? && x.gate == LoadPeer))
    ensures Inv(s.(calls := s.calls + [x]))
  {
    GateAppend(s.calls, x, WriteEnd, s.w, |s.wOwner|, |s.rOwner| + s.cap);
    GateAppend(s.calls, x, ReadEnd, s.r, |s.rOwner|, |s.wOwner|);
    AppendRing(s, x);
  }

  lemma AppendRing(s: State, x: Call)
    requires RingInv(s) && Ticketless(x) && !x.Crashed?
    ensures RingInv(s.(calls := s.calls + [x]))
  {
    hide Slot;
    var s' := s.(calls := s.calls + [x]);
    assert forall c | 0 <= c < |s.calls| :: s'.calls[c] == s.calls[c];
    assert WritersOk(s') && ReadersOk(s') && TurnsOk(s');
    assert CallsOk(s') && GotOk(s');
    AppendSlots(s, s', x);
  }

  lemma AppendSlots(s: State, s': State, x: Call)
    requires RingInv(s) && s' == s.(calls := s.calls + [x]) && TurnsOk(s')
    ensures SlotsOk(s')
  {
    forall i | 0 <= i < s.cap ensures s'.vec[i] == Expected(s', i) {
      assert s.vec[i] == Expected(s, i);
    }
  }

  lemma EnqStepRing(s: State, c: nat)
    requires RingInv(s) && c < |s.calls| && s.calls[c].Enq?
    ensures RingInv(EnqStep(s, c))
  {
    hide WritersOk, ReadersOk, SlotsOk, CallsOk, Slot;
    var s' := EnqStep(s, c);
    if s.calls[c].gate.Take? {
      NewWriteTicket(s, s', c, s.calls[c].item);
    } else {
      RingFrame(s, s', c, s'.calls[c]);
    }
  }

  lemma DeqStepRing(s: State, c: nat)
    requires RingInv(s) && GatesInv(s) && c < |s.calls| && s.calls[c].Deq?
    ensures RingInv(DeqStep(s, c))
  {
    hide WritersOk, ReadersOk, SlotsOk, CallsOk, Slot, GateInv;
    var s' := DeqStep(s, c);
    if s.calls[c].gate.Take? {
      TicketBounds(s);
      AdmittedCounted(s.calls, c, ReadEnd);
      NewReadTicket(s, s', c);
    } else {
      RingFrame(s, s', c, s'.calls[c]);
    }
  }

  /** A step on a slot is invisible at both gates. */
  lemma SlotStepGates(s: State, s': State, c: nat)
    requires GatesInv(s) && c < |s.calls| && |s'.calls| == |s.calls|
    requires s'.calls == s.calls[c := s'.calls[c]]
    requires s'.w == s.w && s'.r == s.r && s'.wOwner == s.wOwner && s'.rOwner == s.rOwner && s'.cap == s.cap
    requires forall e :: At(s.calls[c], e).None? && At(s'.calls[c], e).None?
    ensures GatesInv(s')
  {
    GateFrame(s.calls, c, s'.calls[c], WriteEnd, s.w, |s.wOwner|, |s.rOwner| + s.cap, |s.rOwner| + s.cap);
    GateFrame(s.calls, c, s'.calls[c], ReadEnd, s.r, |s.rOwner|, |s.wOwner|, |s.wOwner|);
  }

  lemma CallStepKeeps(s: State, c: nat)
    requires Inv(s) && Enabled(s, Step(c))
    ensures Inv(Apply(s, Step(c)))
  {
    hide GatesInv, WritersOk, ReadersOk, SlotsOk, GotOk, CallsOk;
    var s' := Apply(s, Step(c));
    if s.calls[c].Enq? {
      EnqStepGates(s, c);
      EnqStepRing(s, c);
    } else if s.calls[c].Deq? {
      DeqStepGates(s, c);
      DeqStepRing(s, c);
    } else if s.calls[c].Writing? {
      WriteStepRing(s, c);
      SlotStepGates(s, s', c);
    } else {
      ReadStepRing(s, c);
      SlotStepGates(s, s', c);
    }
  }

  /** Every atomic operation of every call keeps the invariant. */
  lemma StepKeeps(s: State, a: Action)
    requires Inv(s) && Enabled(s, a)
    ensures Inv(Apply(s, a))
  {
    match a
    case BeginEnqueue(x) =>
      var call := Enq(x, LoadPeer);
      AppendKeeps(s, call);
    case BeginDequeue =>
      var call := Deq(LoadPeer);
      AppendKeeps(s, call);
    case Step(c) => CallStepKeeps(s, c);
  }

  lemma {:induction false} RunKeeps(states: seq<State>, acts: seq<Action>, n: nat)
    requires IsRun(states, acts) && Inv(states[0]) && n < |states|
    ensures Inv(states[n]) && states[n].cap == states[0].cap
  {
    if n > 0 {
      RunKeeps(states, acts, n - 1);
      StepKeeps(states[n - 1], acts[n - 1]);
    }
  }

  /** In every state of every execution: read <= write <= read + capacity. */
  lemma NeverOverOrUnderrun(states: seq<State>, acts: seq<Action>, n: nat)
    requires IsRun(states, acts) && IsInit(states[0])
    requires n < |states|
    ensures |states[n].rOwner| <= |states[n].wOwner| <= |states[n].rOwner| + states[0].cap
  {
    InitInv(states[0]);
    RunKeeps(states, acts, n);
    TicketBounds(states[n]);
  }

  // ---------------------------------------------------------------- reachable states

  /** Some execution from the constructor's state ends here. */
  ghost predicate Reachable(s: State) {
    exists states: seq<State>, acts: seq<Action> ::
      IsRun(states, acts) && IsInit(states[0]) && states[|acts|] == s
  }

  lemma ReachableInit(cap: nat)
    requires cap >= 2
    ensures Reachable(Init(cap))
  {
    InitIsInit(cap);
    var states, acts: seq<Action> := [Init(cap)], [];
    assert IsRun(states, acts);
  }

  lemma ReachableInv(s: State)
    requires Reachable(s)
    ensures Inv(s)
  {
    var states: seq<State>, acts: seq<Action> :|
      IsRun(states, acts) && IsInit(states[0]) && states[|acts|] == s;
    InitInv(states[0]);
    RunKeeps(states, acts, |acts|);
  }

  lemma ReachableStep(s: State, a: Action)
    requires Reachable(s) && Sized(s) && Enabled(s, a)
    ensures Reachable(Apply(s, a)) && Sized(Apply(s, a)) && Apply(s, a).cap == s.cap
  {
    hide Inv, IsInit;
    var states: seq<State>, acts: seq<Action> :|
      IsRun(states, acts) && IsInit(states[0]) && states[|acts|] == s;
    var states', acts' := states + [Apply(s, a)], acts + [a];
    assert IsRun(states', acts') && states'[0] == states[0] && states'[|acts'|] == Apply(s, a);
  }

  /** A waiting writer: the version of its slot is at most a capacity-wide window behind. */
  lemma WriterVersion(s: State, c: nat)
    requires Reachable(s) && c < |s.calls| && s.calls[c].Writing? && s.calls[c].wphase.WWait?
    ensures Sized(s) && 1 - s.cap <= s.ver[Slot(s.calls[c].ticket, s.cap)] <= s.calls[c].ticket
  {
    ReachableInv(s);
    assert WriteOk(s, s.calls[c]);
  }

  lemma ReaderVersion(s: State, c: nat)
    requires Reachable(s) && c < |s.calls| && s.calls[c].Reading? && s.calls[c].rphase.RWait?
    ensures Sized(s) && 1 - s.cap <= s.ver[Slot(s.calls[c].ticket, s.cap)] <= s.calls[c].ticket
  {
    ReachableInv(s);
    assert ReadOk(s, s.calls[c]);
  }

  lemma ReaderItem(s: State, c: nat)
    requires Reachable(s) && c < |s.calls| && s.calls[c].Reading? && s.calls[c].rphase.RReady?
    ensures Sized(s) && s.calls[c].ticket < |s.items|
    ensures s.vec[Slot(s.calls[c].ticket, s.cap)] == Some(s.items[s.calls[c].ticket])
  {
    ReachableInv(s);
    NeverEmptyRead(s, c);
  }
}

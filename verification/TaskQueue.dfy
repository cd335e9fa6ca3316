/**
 * Sleeping and waking in TaskQueue: one signed counter and a count of spinners decide
 * which consumers sleep and who has to wake them. Any number of threads, each at the
 * atomic operation it performs next. The inner queues are a bag whose dequeue may fail
 * although an item is there, as the lock-free queue's does.
 */
module TaskQueue {
  import opened Common

  type Item = nat

  /** The next operation inside spin_hold. */
  datatype HoldPc =
    | Inc                     // big_spin_count.fetch_add(1)
    | Dec                     // big_spin_count.fetch_sub(1)
    | Load                    // the last spinner loads m_count
    | Wake(n: nat)            // and owes this many wakes

  datatype Pc =
    | Idle
    // enqueue
    | Insert(item: Item)
    | SignalSub               // m_count.fetch_sub(1)
    | SignalSpin              // load big_spin_count
    | SignalLoad              // load m_count
    | SignalWake              // wake one sleeper
    // wait_dequeue
    | EntryHold(hold: HoldPc)
    | Register                // m_count.fetch_add(1)
    | Try(left: nat)          // dequeue attempts, this one and `left` more before the wait
    | WaitSub                 // m_count.fetch_sub(1)
    | WaitBack                // no need to sleep: m_count.fetch_add(1)
    | WaitHold(hold: HoldPc)
    | Futex                   // about to sleep unless m_count is negative
    | Asleep
    | WaitAdd                 // awake again: m_count.fetch_add(1)

  /** `put` and `got` are all items ever inserted and returned; `sent` counts signals. */
  datatype State = State(
    mCount: int, bigSpin: int, queue: multiset<Item>, spinCycle: nat,
    put: multiset<Item>, got: multiset<Item>, sent: nat,
    threads: seq<Pc>)

  datatype Action =
    | BeginEnqueue(t: nat, item: Item)
    | BeginDequeue(t: nat)
    | Step(t: nat)                      // the one next operation of a thread
    | Take(t: nat, item: Item)          // a dequeue attempt succeeds
    | Miss(t: nat)                      // a dequeue attempt fails, perhaps spuriously
    | WakeOne(t: nat, u: nat)           // a thread that owes a wake wakes sleeper u
    | WakeNone(t: nat)                  // or finds nobody asleep
    | Spurious(t: nat)                  // a sleeper wakes by itself

  /** Nothing queued and no thread under way; any number of threads. */
  predicate Init(s: State) {
    && s.mCount == s.bigSpin == 0 && s.sent == 0
    && s.queue == s.put == s.got == multiset{}
    && (forall t | 0 <= t < |s.threads| :: s.threads[t] == Idle)
  }

  predicate OwesWake(pc: Pc) {
    pc.SignalWake? || (pc.EntryHold? && pc.hold.Wake?) || (pc.WaitHold? && pc.hold.Wake?)
  }

  /** Where spin_hold returns to; `last` is its result. */
  function HoldDone(pc: Pc, last: bool): Pc
    requires pc.EntryHold? || pc.WaitHold?
  {
    if pc.EntryHold? then Register else if last then WaitAdd else Futex
  }

  function WithHold(pc: Pc, h: HoldPc): Pc
    requires pc.EntryHold? || pc.WaitHold?
  {
    if pc.EntryHold? then EntryHold(h) else WaitHold(h)
  }

  /** One wake of the n owed is delivered. */
  function Owing(pc: Pc): Pc
    requires OwesWake(pc)
  {
    if pc.SignalWake? then Idle
    else if pc.hold.n <= 1 then HoldDone(pc, true)
    else WithHold(pc, Wake(pc.hold.n - 1))
  }

  predicate Enabled(s: State, a: Action) {
    && a.t < |s.threads|
    && match a
       case BeginEnqueue(t, _) => s.threads[t].Idle?
       case BeginDequeue(t) => s.threads[t].Idle?
       case Step(t) =>
         var pc := s.threads[t];
         !pc.Idle? && !pc.Try? && !pc.Asleep? && !OwesWake(pc)
       case Take(t, x) => s.threads[t].Try? && x in s.queue
       case Miss(t) => s.threads[t].Try?
       case WakeOne(t, u) => OwesWake(s.threads[t]) && u < |s.threads| && s.threads[u].Asleep?
       case WakeNone(t) => OwesWake(s.threads[t]) && forall u | 0 <= u < |s.threads| :: !s.threads[u].Asleep?
       case Spurious(t) => s.threads[t].Asleep?
  }

  function Goto(s: State, t: nat, pc: Pc): State
    requires t < |s.threads|
  {
    s.(threads := s.threads[t := pc])
  }

  function HoldStep(s: State, t: nat, pc: Pc): State
    requires t < |s.threads| && (pc.EntryHold? || pc.WaitHold?) && !pc.hold.Wake?
  {
    match pc.hold
    case Inc => Goto(s, t, WithHold(pc, Dec)).(bigSpin := s.bigSpin + 1)
    case Dec => Goto(s, t, if s.bigSpin == 1 then WithHold(pc, Load) else HoldDone(pc, false)).(bigSpin := s.bigSpin - 1)
    case Load =>
      var cur := s.mCount + 1;
      Goto(s, t, if cur < 0 then WithHold(pc, Wake(-cur)) else HoldDone(pc, true))
  }

  function ThreadStep(s: State, t: nat): State
    requires Enabled(s, Step(t))
  {
    var pc := s.threads[t];
    match pc
    case Insert(x) => Goto(s, t, SignalSub).(queue := s.queue + multiset{x}, put := s.put + multiset{x})
    case SignalSub => Goto(s, t, if s.mCount <= 0 then SignalSpin else Idle).(mCount := s.mCount - 1, sent := s.sent + 1)
    case SignalSpin => Goto(s, t, if s.bigSpin == 0 then SignalLoad else Idle)
    case SignalLoad => Goto(s, t, if s.mCount < 0 then SignalWake else Idle)
    case EntryHold(_) => HoldStep(s, t, pc)
    case Register => Goto(s, t, Try(s.spinCycle)).(mCount := s.mCount + 1)
    case WaitSub => Goto(s, t, if s.mCount < 0 then WaitBack else WaitHold(Inc)).(mCount := s.mCount - 1)
    case WaitBack => Goto(s, t, Try(0)).(mCount := s.mCount + 1)
    case WaitHold(_) => HoldStep(s, t, pc)
    case Futex => Goto(s, t, if s.mCount >= 0 then Asleep else WaitAdd)
    case WaitAdd => Goto(s, t, Try(0)).(mCount := s.mCount + 1)
    case _ => s
  }

  function Apply(s: State, a: Action): State
    requires Enabled(s, a)
  {
    match a
    case BeginEnqueue(t, x) => Goto(s, t, Insert(x))
    case BeginDequeue(t) => Goto(s, t, EntryHold(Inc))
    case Step(t) => ThreadStep(s, t)
    case Take(t, x) => Goto(s, t, Idle).(queue := s.queue - multiset{x}, got := s.got + multiset{x})
    case Miss(t) => Goto(s, t, if s.threads[t].left == 0 then WaitSub else Try(s.threads[t].left - 1))
    case WakeOne(t, u) => Goto(Goto(s, u, WaitAdd), t, Owing(s.threads[t]))
    case WakeNone(t) => Goto(s, t, if s.threads[t].SignalWake? then Idle else HoldDone(s.threads[t], true))
    case Spurious(t) => Goto(s, t, WaitAdd)
  }

  ghost predicate IsRun(states: seq<State>, acts: seq<Action>) {
    && |states| == |acts| + 1
    && (forall i | 0 <= i < |acts| :: Enabled(states[i], acts[i]) && states[i + 1] == Apply(states[i], acts[i]))
  }

  // ---------------------------------------------------------------- counting threads

  datatype Kind =
    | Counted       // registered consumers that are not inside wait()
    | Aside         // other consumers that are awake: entering, or inside wait()
    | Sleeping
    | Owed          // wakes a producer may still send, or a spinner has computed
    | Spinning      // between the two changes of big_spin_count
    | Loading       // last spinner, its load still to come
    | Unsent        // item inserted, signal still to come

  function Weight(pc: Pc, k: Kind): nat {
    match k
    case Counted => if pc.Try? || pc.WaitSub? then 1 else 0
    case Aside =>
      if pc.EntryHold? || pc.Register? || pc.WaitBack? || pc.WaitHold? || pc.Futex? || pc.WaitAdd? then 1 else 0
    case Sleeping => if pc.Asleep? then 1 else 0
    case Owed =>
      if pc.SignalSpin? || pc.SignalLoad? || pc.SignalWake? then 1
      else if (pc.EntryHold? || pc.WaitHold?) && pc.hold.Wake? then pc.hold.n
      else 0
    case Spinning => if (pc.EntryHold? || pc.WaitHold?) && pc.hold.Dec? then 1 else 0
    case Loading => if (pc.EntryHold? || pc.WaitHold?) && pc.hold.Load? then 1 else 0
    case Unsent => if pc.SignalSub? then 1 else 0
  }

  function WeightOf(k: Kind): Pc -> nat {
    (pc: Pc) => Weight(pc, k)
  }

  function Count(s: State, k: Kind): nat {
    Sum(s.threads, WeightOf(k))
  }

  /** The counts of all kinds at once. */
  datatype Tally = Tally(
    counted: int, aside: int, sleeping: int, owed: int, spinning: int, loading: int, unsent: int)

  function TallyOf(s: State): Tally {
    Tally(Count(s, Counted), Count(s, Aside), Count(s, Sleeping), Count(s, Owed),
          Count(s, Spinning), Count(s, Loading), Count(s, Unsent))
  }

  function PcTally(pc: Pc): Tally {
    Tally(Weight(pc, Counted), Weight(pc, Aside), Weight(pc, Sleeping), Weight(pc, Owed),
          Weight(pc, Spinning), Weight(pc, Loading), Weight(pc, Unsent))
  }

  function Shift(x: Tally, from: Tally, to: Tally): Tally {
    Tally(x.counted - from.counted + to.counted, x.aside - from.aside + to.aside,
          x.sleeping - from.sleeping + to.sleeping, x.owed - from.owed + to.owed,
          x.spinning - from.spinning + to.spinning, x.loading - from.loading + to.loading,
          x.unsent - from.unsent + to.unsent)
  }

  ghost predicate AtLeast(x: Tally, y: Tally) {
    && x.counted >= y.counted && x.aside >= y.aside && x.sleeping >= y.sleeping && x.owed >= y.owed
    && x.spinning >= y.spinning && x.loading >= y.loading && x.unsent >= y.unsent
  }

  /** Signals sent for which no item was taken yet; negative while an item outruns its signal. */
  function Outstanding(s: State): int {
    s.sent - |s.got|
  }

  /** The counters are what the threads have done to them. */
  ghost predicate Identities(s: State, x: Tally) {
    && s.mCount == x.counted - Outstanding(s)
    && s.bigSpin == x.spinning
    && s.put == s.queue + s.got
    && s.sent + x.unsent == |s.put|
  }

  /**
   * Wake coverage: nobody sleeps, or a spinner will still look at the counter, or the
   * outstanding signals are matched by consumers awake and wakes owed.
   */
  ghost predicate Covered(s: State, x: Tally) {
    || x.sleeping == 0
    || x.spinning + x.loading > 0
    || Outstanding(s) <= x.counted + x.aside + x.owed
  }

  ghost predicate Inv(s: State) {
    Identities(s, TallyOf(s)) && Covered(s, TallyOf(s))
  }

  /** How the counts move when one thread goes to another program point. */
  lemma MoveOne(s: State, s': State, t: nat)
    requires t < |s.threads| && |s'.threads| == |s.threads|
    requires s'.threads == s.threads[t := s'.threads[t]]
    ensures TallyOf(s') == Shift(TallyOf(s), PcTally(s.threads[t]), PcTally(s'.threads[t]))
    ensures AtLeast(TallyOf(s), PcTally(s.threads[t]))
    ensures AtLeast(TallyOf(s'), PcTally(s'.threads[t]))
  {
    forall k: Kind
      ensures Count(s', k) == Count(s, k) - Weight(s.threads[t], k) + Weight(s'.threads[t], k)
      ensures Count(s, k) >= Weight(s.threads[t], k)
    {
      SumUpdate(s.threads, WeightOf(k), t, s'.threads[t]);
    }
  }

  ghost predicate Nonnegative(x: Tally) {
    AtLeast(x, Tally(0, 0, 0, 0, 0, 0, 0))
  }

  lemma TallyNonnegative(s: State)
    ensures Nonnegative(TallyOf(s))
  {
  }

  lemma InitInv(s: State)
    requires Init(s)
    ensures Inv(s)
  {
    forall k ensures Count(s, k) == 0 {
      SumZero(s.threads, WeightOf(k));
    }
  }

  lemma HoldStepKeeps(s: State, t: nat)
    requires Inv(s) && Enabled(s, Step(t)) && (s.threads[t].EntryHold? || s.threads[t].WaitHold?)
    ensures Inv(ThreadStep(s, t))
  {
    hide TallyOf;
    MoveOne(s, ThreadStep(s, t), t);
    TallyNonnegative(s);
  }

  predicate Produces(pc: Pc) {
    pc.Insert? || pc.SignalSub? || pc.SignalSpin? || pc.SignalLoad?
  }

  lemma ProducerStepKeeps(s: State, t: nat)
    requires Inv(s) && Enabled(s, Step(t)) && Produces(s.threads[t])
    ensures Inv(ThreadStep(s, t))
  {
    hide TallyOf;
    MoveOne(s, ThreadStep(s, t), t);
    TallyNonnegative(s);
  }

  lemma WaiterStepKeeps(s: State, t: nat)
    requires Inv(s) && Enabled(s, Step(t)) && !Produces(s.threads[t])
    requires !s.threads[t].EntryHold? && !s.threads[t].WaitHold?
    ensures Inv(ThreadStep(s, t))
  {
    hide TallyOf;
    MoveOne(s, ThreadStep(s, t), t);
    TallyNonnegative(s);
  }

  lemma WakeOneKeeps(s: State, t: nat, u: nat)
    requires Inv(s) && Enabled(s, WakeOne(t, u))
    ensures Inv(Apply(s, WakeOne(t, u)))
  {
    hide TallyOf;
    var s' := Apply(s, WakeOne(t, u));
    var s1 := Goto(s, u, WaitAdd);
    MoveOne(s, s1, u);
    MoveOne(s1, s', t);
    TallyNonnegative(s);
    WakeTally(s.threads[t]);
    var x, x' := TallyOf(s), TallyOf(s');
    hide PcTally, Owing;
    assert x'.sleeping == x.sleeping - 1 && x'.spinning == x.spinning && x'.loading == x.loading;
    assert x'.counted + x'.aside + x'.owed >= x.counted + x.aside + x.owed;
  }

  /** Delivering one of the wakes owed: the count of awake consumers makes up for it. */
  lemma WakeTally(pc: Pc)
    requires OwesWake(pc)
    ensures var x, y := PcTally(pc), PcTally(Owing(pc));
      && y.counted == x.counted && y.sleeping == x.sleeping && y.spinning == x.spinning
      && y.loading == x.loading && y.unsent == x.unsent
      && y.aside + y.owed >= x.aside + x.owed - 1
    ensures PcTally(WaitAdd) == Tally(0, 1, 0, 0, 0, 0, 0) && PcTally(Asleep) == Tally(0, 0, 1, 0, 0, 0, 0)
  {
  }

  lemma WakeNoneKeeps(s: State, t: nat)
    requires Inv(s) && Enabled(s, WakeNone(t))
    ensures Inv(Apply(s, WakeNone(t)))
  {
    hide TallyOf;
    NobodySleeps(s, t);
    MoveOne(s, Apply(s, WakeNone(t)), t);
  }

  lemma NobodySleeps(s: State, t: nat)
    requires Enabled(s, WakeNone(t))
    ensures TallyOf(s).sleeping == 0
  {
    SumZero(s.threads, WeightOf(Sleeping));
  }

  lemma TakeKeeps(s: State, t: nat, x: Item)
    requires Inv(s) && Enabled(s, Take(t, x))
    ensures Inv(Apply(s, Take(t, x)))
  {
    hide TallyOf;
    var s' := Apply(s, Take(t, x));
    MoveOne(s, s', t);
    TallyNonnegative(s);
    assert s.queue == s'.queue + multiset{x};
    assert Outstanding(s') == Outstanding(s) - 1;
  }

  lemma ConsumerKeeps(s: State, a: Action)
    requires Inv(s) && Enabled(s, a) && !a.Step? && !a.WakeOne? && !a.WakeNone? && !a.Take?
    ensures Inv(Apply(s, a))
  {
    hide TallyOf;
    MoveOne(s, Apply(s, a), a.t);
    TallyNonnegative(s);
  }

  /** Every operation of every thread keeps the counter identities and the wake coverage. */
  lemma StepKeeps(s: State, a: Action)
    requires Inv(s) && Enabled(s, a)
    ensures Inv(Apply(s, a))
  {
    hide Inv;
    match a
    case Step(t) =>
      if s.threads[t].EntryHold? || s.threads[t].WaitHold? {
        HoldStepKeeps(s, t);
      } else if Produces(s.threads[t]) {
        ProducerStepKeeps(s, t);
      } else {
        WaiterStepKeeps(s, t);
      }
    case WakeOne(t, u) => WakeOneKeeps(s, t, u);
    case WakeNone(t) => WakeNoneKeeps(s, t);
    case Take(t, x) => TakeKeeps(s, t, x);
    case _ => ConsumerKeeps(s, a);
  }

  lemma {:induction false} RunKeeps(states: seq<State>, acts: seq<Action>, n: nat)
    requires IsRun(states, acts) && Inv(states[0]) && n < |states|
    ensures Inv(states[n])
  {
    hide Inv;
    if n > 0 {
      RunKeeps(states, acts, n - 1);
      StepKeeps(states[n - 1], acts[n - 1]);
    }
  }

  ghost predicate Reachable(s: State) {
    exists states: seq<State>, acts: seq<Action> ::
      IsRun(states, acts) && Init(states[0]) && states[|acts|] == s
  }

  lemma ReachableInv(s: State)
    requires Reachable(s)
    ensures Inv(s)
  {
    var states: seq<State>, acts: seq<Action> :|
      IsRun(states, acts) && Init(states[0]) && states[|acts|] == s;
    InitInv(states[0]);
    RunKeeps(states, acts, |acts|);
  }

  lemma ReachableStep(s: State, a: Action)
    requires Reachable(s) && Enabled(s, a)
    ensures Reachable(Apply(s, a))
  {
    var states: seq<State>, acts: seq<Action> :|
      IsRun(states, acts) && Init(states[0]) && states[|acts|] == s;
    hide Init, Apply, Enabled;
    var states', acts' := states + [Apply(s, a)], acts + [a];
    assert IsRun(states', acts') && states'[0] == states[0] && states'[|acts'|] == Apply(s, a);
  }

  // ---------------------------------------------------------------- what callers get

  /**
   * The counter, in every reachable state: registered consumers outside wait(), minus the
   * signals outstanding, whatever early returns, spurious wake-ups and failed attempts there were.
   */
  lemma CounterIdentity(s: State)
    requires Reachable(s)
    ensures s.mCount == Count(s, Counted) - (s.sent - |s.got|)
    ensures s.bigSpin == Count(s, Spinning)
    ensures s.put == s.queue + s.got
  {
    ReachableInv(s);
  }

  ghost predicate AtRest(s: State) {
    forall t | 0 <= t < |s.threads| :: s.threads[t].Idle? || s.threads[t].Asleep?
  }

  lemma RestTally(s: State)
    requires AtRest(s)
    ensures var x := TallyOf(s);
      x.counted == x.aside == x.owed == x.spinning == x.loading == x.unsent == 0
  {
    forall k: Kind | !k.Sleeping? ensures Count(s, k) == 0 {
      SumZero(s.threads, WeightOf(k));
    }
  }

  /** Work is never stranded: once nobody is under way, a sleeping consumer means an empty queue. */
  lemma NoStrandedWork(s: State, t: nat)
    requires Reachable(s) && AtRest(s) && t < |s.threads| && s.threads[t].Asleep?
    ensures s.queue == multiset{}
  {
    ReachableInv(s);
    RestTally(s);
    SumUpdate(s.threads, WeightOf(Sleeping), t, Idle);
    assert TallyOf(s).sleeping > 0;
    hide TallyOf;
    assert Outstanding(s) <= 0;
    assert |s.put| == |s.queue| + |s.got|;
  }

  /** The thread is at rest, looks for an item, or owes a wake. */
  predicate Settled(pc: Pc) {
    pc.Idle? || pc.Asleep? || pc.Try? || OwesWake(pc)
  }

  /** How many operations a thread has at most before that. */
  function Distance(pc: Pc): (n: nat)
    ensures n <= 7
  {
    match pc
    case Insert(_) => 4
    case SignalSub => 3
    case SignalSpin => 2
    case SignalLoad => 1
    case EntryHold(h) => 2 + HoldDistance(h)
    case Register => 1
    case WaitSub => 7
    case WaitBack => 1
    case WaitHold(h) => 3 + HoldDistance(h)
    case Futex => 2
    case WaitAdd => 1
    case _ => 0
  }

  function HoldDistance(h: HoldPc): (n: nat)
    ensures n <= 3
  {
    match h case Inc => 3 case Dec => 2 case Load => 1 case Wake(_) => 0
  }

  /** Every operation brings a thread nearer, so after at most seven it sleeps, looks for an item or wakes somebody. */
  lemma SettlesSoon(s: State, t: nat)
    requires Enabled(s, Step(t))
    ensures t < |Apply(s, Step(t)).threads|
    ensures Settled(Apply(s, Step(t)).threads[t]) || Distance(Apply(s, Step(t)).threads[t]) < Distance(s.threads[t])
  {
  }

  /** While signalled work waits and somebody sleeps, some thread is under way, and its next action can be done. */
  lemma SomeoneActs(s: State) returns (a: Action)
    requires Reachable(s) && Outstanding(s) > 0 && Count(s, Sleeping) > 0
    ensures Enabled(s, a) && !s.threads[a.t].Idle? && !s.threads[a.t].Asleep?
    ensures s.threads[a.t].Try? ==> a == Miss(a.t)
    ensures OwesWake(s.threads[a.t]) ==> a.WakeOne?
    ensures !Settled(s.threads[a.t]) ==> a == Step(a.t)
  {
    ReachableInv(s);
    var k :=
      if Count(s, Spinning) > 0 then Spinning
      else if Count(s, Loading) > 0 then Loading
      else if Count(s, Counted) > 0 then Counted
      else if Count(s, Aside) > 0 then Aside
      else Owed;
    assert Count(s, k) > 0;
    hide Inv, Reachable;
    var t := SumPositive(s.threads, WeightOf(k));
    var u := SumPositive(s.threads, WeightOf(Sleeping));
    a := if s.threads[t].Try? then Miss(t) else if OwesWake(s.threads[t]) then WakeOne(t, u) else Step(t);
  }

  /** A consumer goes to sleep only while the other registered ones cover all outstanding signals. */
  lemma SleepsOnlyIfCovered(s: State, t: nat)
    requires Reachable(s) && Enabled(s, Step(t)) && s.threads[t].Futex?
    ensures Apply(s, Step(t)).threads[t].Asleep? <==> Outstanding(s) <= Count(s, Counted)
  {
    ReachableInv(s);
  }
}

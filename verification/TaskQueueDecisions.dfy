/**
 * What every operation of TaskQueue decides, in terms of signals outstanding and consumers
 * registered: who wakes whom, who withdraws, who sleeps, and how often a consumer tries.
 */
module TaskQueueDecisions {
  import opened Common
  import opened TaskQueue

  // ---------------------------------------------------------------- producers

  /** A producer looks for sleepers exactly if the signals before its own already take all registered consumers. */
  lemma ReleasesIff(s: State, t: nat)
    requires Reachable(s) && Enabled(s, Step(t)) && s.threads[t].SignalSub?
    ensures Apply(s, Step(t)).threads[t] == (if Outstanding(s) >= Count(s, Counted) then SignalSpin else Idle)
    ensures Outstanding(Apply(s, Step(t))) == Outstanding(s) + 1
  {
    ReachableInv(s);
  }

  /** It leaves the wake to the spinners exactly if there are some. */
  lemma DefersIff(s: State, t: nat)
    requires Reachable(s) && Enabled(s, Step(t)) && s.threads[t].SignalSpin?
    ensures Apply(s, Step(t)).threads[t] == (if Count(s, Spinning) > 0 then Idle else SignalLoad)
  {
    ReachableInv(s);
    TallyNonnegative(s);
  }

  /** And wakes a sleeper exactly if more signals are outstanding than consumers registered. */
  lemma WakesIff(s: State, t: nat)
    requires Reachable(s) && Enabled(s, Step(t)) && s.threads[t].SignalLoad?
    ensures Apply(s, Step(t)).threads[t] == (if Outstanding(s) > Count(s, Counted) then SignalWake else Idle)
  {
    ReachableInv(s);
  }

  // ---------------------------------------------------------------- spinners

  /** How many wakes a thread owes. */
  function Owes(pc: Pc): nat {
    if pc.SignalWake? then 1 else if (pc.EntryHold? || pc.WaitHold?) && pc.hold.Wake? then pc.hold.n else 0
  }

  /** The last spinner looks at the counter; another one goes on: to register, or to sleep. */
  lemma LooksIffLast(s: State, t: nat)
    requires Reachable(s) && Enabled(s, Step(t)) && (s.threads[t] == EntryHold(Dec) || s.threads[t] == WaitHold(Dec))
    ensures Count(s, Spinning) >= 1
    ensures var pc := Apply(s, Step(t)).threads[t];
      if s.threads[t].EntryHold? then pc == (if Count(s, Spinning) == 1 then EntryHold(Load) else Register)
      else pc == (if Count(s, Spinning) == 1 then WaitHold(Load) else Futex)
  {
    ReachableInv(s);
    SumUpdate(s.threads, WeightOf(Spinning), t, Idle);
  }

  /**
   * The last spinner owes a wake for each outstanding signal beyond the registered consumers
   * and itself. With none it registers, or tries again without having slept.
   */
  lemma WakesOwed(s: State, t: nat)
    requires Reachable(s) && Enabled(s, Step(t)) && (s.threads[t] == EntryHold(Load) || s.threads[t] == WaitHold(Load))
    ensures var (pc, excess) := (Apply(s, Step(t)).threads[t], Outstanding(s) - Count(s, Counted) - 1);
      && Owes(pc) == (if excess > 0 then excess else 0)
      && (Owes(pc) == 0 ==> pc == if s.threads[t].EntryHold? then Register else WaitAdd)
  {
    ReachableInv(s);
  }

  lemma At(states: seq<State>, acts: seq<Action>, n: nat)
    requires IsRun(states, acts) && n < |acts|
    ensures Enabled(states[n], acts[n]) && states[n + 1] == Apply(states[n], acts[n])
  {
  }

  lemma Length(states: seq<State>, acts: seq<Action>)
    requires IsRun(states, acts)
    ensures |states| == |acts| + 1
  {
  }

  /** The wakes sent by t among the first n actions. */
  function Wakes(acts: seq<Action>, t: nat, n: nat): nat
    requires n <= |acts|
  {
    if n == 0 then 0 else Wakes(acts, t, n - 1) + if acts[n - 1].WakeOne? && acts[n - 1].t == t then 1 else 0
  }

  /** Where a thread goes on that owes no more wakes. */
  function Woken(pc: Pc): Pc {
    if pc.SignalWake? then Idle else if pc.EntryHold? then Register else WaitAdd
  }

  /** In every run a thread sends as many wakes as it owes, unless it finds nobody asleep, and then goes on. */
  lemma {:induction false} WakesSent(states: seq<State>, acts: seq<Action>, t: nat, i: nat, n: nat)
    requires IsRun(states, acts) && i <= n <= |acts| && t < |states[i].threads| && Owes(states[i].threads[t]) > 0
    requires forall j | i <= j < n :: t < |states[j].threads| && OwesWake(states[j].threads[t])
    ensures |states[n].threads| == |states[i].threads|
    ensures var (from, to) := (states[i].threads[t], states[n].threads[t]);
      if n > i && acts[n - 1] == WakeNone(t) then to == Woken(from)
      else && Wakes(acts, t, n) - Wakes(acts, t, i) + Owes(to) == Owes(from)
           && if Owes(to) == 0 then to == Woken(from) else Woken(to) == Woken(from)
    decreases n
  {
    hide IsRun, Enabled, Apply;
    Length(states, acts);
    if n > i {
      WakesSent(states, acts, t, i, n - 1);
      At(states, acts, n - 1);
      WakeGoesOn(states[n - 1], acts[n - 1], t);
      OwesIff(states[n - 1].threads[t]);
    }
  }

  lemma OwesIff(pc: Pc)
    ensures OwesWake(pc) <== Owes(pc) > 0
  {
  }

  /** Each wake sent uses up one of those owed, and wakes one sleeper. */
  lemma WakeGoesOn(s: State, a: Action, t: nat)
    requires Enabled(s, a) && t < |s.threads| && Owes(s.threads[t]) > 0
    ensures |Apply(s, a).threads| == |s.threads|
    ensures var (was, pc) := (s.threads[t], Apply(s, a).threads[t]);
      if a.WakeOne? && a.t == t then
        && Owes(pc) == Owes(was) - 1 && (if Owes(pc) == 0 then pc == Woken(was) else Woken(pc) == Woken(was))
        && Apply(s, a).threads[a.u] == WaitAdd
      else if a == WakeNone(t) then pc == Woken(was)
      else pc == was
  {
    if a.t != t {
      hide HoldStep, HoldDone, WithHold, Owing;
      OthersKeep(s, a, t);
    }
  }

  // ---------------------------------------------------------------- consumers

  /**
   * A consumer withdraws in wait() exactly if the registered ones, itself included, cover all
   * outstanding signals; otherwise it goes back to try. Only after spin_hold can it sleep.
   */
  lemma WithdrawsIff(s: State, t: nat)
    requires Reachable(s) && Enabled(s, Step(t)) && s.threads[t].WaitSub?
    ensures Apply(s, Step(t)).threads[t] == (if Outstanding(s) <= Count(s, Counted) then WaitHold(Inc) else WaitBack)
  {
    ReachableInv(s);
  }

  /** It sleeps exactly if the other registered ones cover them. */
  lemma SleepsIff(s: State, t: nat)
    requires Reachable(s) && Enabled(s, Step(t)) && s.threads[t].Futex?
    ensures Apply(s, Step(t)).threads[t] == (if Outstanding(s) <= Count(s, Counted) then Asleep else WaitAdd)
  {
    ReachableInv(s);
  }

  /** Thread t raised, or lowered, the number of spinners between the states i and n. */
  ghost predicate Spun(states: seq<State>, acts: seq<Action>, t: nat, i: nat, n: nat, change: int) {
    exists j :: i <= j < n && SpinBy(states, acts, t, j, change)
  }

  ghost predicate SpinBy(states: seq<State>, acts: seq<Action>, t: nat, j: nat, change: int) {
    j + 1 < |states| && j < |acts| && acts[j] == Step(t) && states[j + 1].bigSpin == states[j].bigSpin + change
  }

  predicate IsProducer(pc: Pc) {
    pc.Insert? || pc.SignalSub? || pc.SignalSpin? || pc.SignalLoad? || pc.SignalWake?
  }

  /** How far t is on its way from Idle to Register. */
  ghost predicate OnItsWay(states: seq<State>, acts: seq<Action>, t: nat, i: nat, n: nat)
    requires n < |states|
  {
    t < |states[n].threads| &&
    match states[n].threads[t]
    case EntryHold(h) => h.Inc? || (Spun(states, acts, t, i, n, 1) && (h.Dec? || Spun(states, acts, t, i, n, -1)))
    case Register => Spun(states, acts, t, i, n, 1) && Spun(states, acts, t, i, n, -1)
    case Idle => true
    case pc => IsProducer(pc)
  }

  /** In every run a consumer is registered only after it went through spin_hold. */
  lemma {:induction false} RegistersAfterHold(states: seq<State>, acts: seq<Action>, t: nat, i: nat, n: nat)
    requires IsRun(states, acts) && i <= n <= |acts| && t < |states[i].threads| && states[i].threads[t].Idle?
    requires forall j | i <= j < n :: t < |states[j].threads| && !states[j].threads[t].Register?
    ensures t < |states[n].threads|
    ensures states[n].threads[t].Register? ==> Spun(states, acts, t, i, n, 1) && Spun(states, acts, t, i, n, -1)
  {
    StaysOnItsWay(states, acts, t, i, n);
  }

  lemma {:induction false} StaysOnItsWay(states: seq<State>, acts: seq<Action>, t: nat, i: nat, n: nat)
    requires IsRun(states, acts) && i <= n <= |acts| && t < |states[i].threads| && states[i].threads[t].Idle?
    requires forall j | i <= j < n :: t < |states[j].threads| && !states[j].threads[t].Register?
    ensures OnItsWay(states, acts, t, i, n)
    decreases n
  {
    hide IsRun, Enabled, Apply, Spun;
    Length(states, acts);
    if n > i {
      StaysOnItsWay(states, acts, t, i, n - 1);
      At(states, acts, n - 1);
      EntryGoesOn(states[n - 1], acts[n - 1], t);
      if Spun(states, acts, t, i, n - 1, 1) || SpinBy(states, acts, t, n - 1, 1) {
        SpunStays(states, acts, t, i, n - 1, 1);
      }
      if Spun(states, acts, t, i, n - 1, -1) || SpinBy(states, acts, t, n - 1, -1) {
        SpunStays(states, acts, t, i, n - 1, -1);
      }
    }
  }

  lemma SpunStays(states: seq<State>, acts: seq<Action>, t: nat, i: nat, n: nat, change: int)
    requires i <= n && (Spun(states, acts, t, i, n, change) || SpinBy(states, acts, t, n, change))
    ensures Spun(states, acts, t, i, n + 1, change)
  {
  }

  /** The next operation of a thread that runs spin_hold on entry, or enqueue. */
  lemma EntryGoesOn(s: State, a: Action, t: nat)
    requires Enabled(s, a) && t < |s.threads|
    ensures t < |Apply(s, a).threads|
    ensures var (was, pc, up) := (s.threads[t], Apply(s, a).threads[t], Apply(s, a).bigSpin - s.bigSpin);
      match was
      case Idle => pc.Idle? || pc.Insert? || pc == EntryHold(Inc)
      case EntryHold(Inc) => pc == was || (pc == EntryHold(Dec) && a == Step(t) && up == 1)
      case EntryHold(Dec) => pc == was || ((pc == EntryHold(Load) || pc.Register?) && a == Step(t) && up == -1)
      case EntryHold(_) => pc.Register? || (pc.EntryHold? && (pc.hold.Load? || pc.hold.Wake?))
      case _ => IsProducer(was) ==> pc.Idle? || IsProducer(pc)
  {
    if a.t != t && !s.threads[t].Asleep? {
      OthersKeep(s, a, t);
      hide Enabled, Apply;
    }
  }

  /** The attempts of t that failed among the first n actions. */
  function Misses(acts: seq<Action>, t: nat, n: nat): nat
    requires n <= |acts|
  {
    if n == 0 then 0 else Misses(acts, t, n - 1) + if acts[n - 1] == Miss(t) then 1 else 0
  }

  /** A consumer with `left` attempts beyond the next one withdraws after exactly left + 1 failures. */
  lemma {:induction false} AttemptsBeforeWait(states: seq<State>, acts: seq<Action>, t: nat, left: nat, i: nat, n: nat)
    requires IsRun(states, acts) && i <= n <= |acts| && t < |states[i].threads| && states[i].threads[t] == Try(left)
    requires forall j | i <= j < n :: t < |states[j].threads| && states[j].threads[t].Try?
    ensures |states[n].threads| == |states[i].threads|
    ensures states[n].threads[t].Try? ==> Misses(acts, t, n) - Misses(acts, t, i) + states[n].threads[t].left == left
    ensures states[n].threads[t].WaitSub? ==> Misses(acts, t, n) - Misses(acts, t, i) == left + 1
    ensures states[n].threads[t].Try? || states[n].threads[t].WaitSub? || (n > i && acts[n - 1].Take? && acts[n - 1].t == t)
    decreases n
  {
    hide IsRun, Enabled, Apply;
    Length(states, acts);
    if n > i {
      AttemptsBeforeWait(states, acts, t, left, i, n - 1);
      At(states, acts, n - 1);
      TryGoesOn(states[n - 1], acts[n - 1], t);
    }
  }

  /** A consumer just registered withdraws after as many failures as the spin cycle and one more, later after each. */
  lemma TriesBeforeWait(states: seq<State>, acts: seq<Action>, t: nat, n: nat)
    requires IsRun(states, acts) && 1 <= n <= |acts| && t < |states[0].threads| && acts[0] == Step(t)
    requires states[0].threads[t].Register? || states[0].threads[t].WaitBack? || states[0].threads[t].WaitAdd?
    requires forall j | 1 <= j < n :: t < |states[j].threads| && states[j].threads[t].Try?
    requires t < |states[n].threads| && states[n].threads[t].WaitSub?
    ensures Misses(acts, t, n) == if states[0].threads[t].Register? then states[0].spinCycle + 1 else 1
  {
    AttemptsGranted(states[0], t);
    assert Enabled(states[0], acts[0]) && states[1] == Apply(states[0], acts[0]);
    hide Enabled, Apply;
    AttemptsBeforeWait(states, acts, t, states[1].threads[t].left, 1, n);
    assert Misses(acts, t, 0) == 0;
  }

  lemma TryGoesOn(s: State, a: Action, t: nat)
    requires Enabled(s, a) && t < |s.threads| && s.threads[t].Try?
    ensures |Apply(s, a).threads| == |s.threads|
    ensures var pc := Apply(s, a).threads[t];
      if a == Miss(t) then pc == (if s.threads[t].left == 0 then WaitSub else Try(s.threads[t].left - 1))
      else if a.Take? && a.t == t then pc == Idle
      else pc == s.threads[t]
  {
    if a.t == t {
      assert a.Miss? || a.Take?;
    } else {
      hide HoldStep, HoldDone, WithHold, Owing;
      OthersKeep(s, a, t);
    }
  }

  /** An action of another thread touches t only if it wakes it. */
  lemma OthersKeep(s: State, a: Action, t: nat)
    requires Enabled(s, a) && t < |s.threads| && a.t != t && !s.threads[t].Asleep?
    ensures |Apply(s, a).threads| == |s.threads| && Apply(s, a).threads[t] == s.threads[t]
  {
    if a.Step? {
      assert Apply(s, a).threads == s.threads[a.t := Apply(s, a).threads[a.t]];
    }
  }

  lemma AttemptsGranted(s: State, t: nat)
    requires Enabled(s, Step(t))
    ensures t < |Apply(s, Step(t)).threads|
    ensures s.threads[t].Register? ==> Apply(s, Step(t)).threads[t] == Try(s.spinCycle)
    ensures s.threads[t].WaitBack? || s.threads[t].WaitAdd? ==> Apply(s, Step(t)).threads[t] == Try(0)
  {
  }

  // ---------------------------------------------------------------- consumers do sleep

  lemma Go(s: State, a: Action) returns (t: State)
    requires Reachable(s) && Enabled(s, a)
    ensures Reachable(t) && t == Apply(s, a)
  {
    hide Enabled, Apply;
    ReachableStep(s, a);
    t := Apply(s, a);
  }

  /** Nothing is outstanding and nobody spins: two consumers that come to wait() both withdraw. */
  lemma BothWithdraw(s: State, t: nat, u: nat) returns (s': State)
    requires Reachable(s) && t < |s.threads| && u < |s.threads| && t != u && s.threads[t].WaitSub? && s.threads[u].WaitSub?
    requires s.mCount >= 2
    ensures Reachable(s') && s'.threads == s.threads[t := WaitHold(Inc)][u := WaitHold(Inc)]
    ensures s'.mCount == s.mCount - 2 && s'.bigSpin == s.bigSpin && s'.queue == s.queue
  {
    hide Reachable, Inv;
    var s1 := Go(s, Step(t));
    s' := Go(s1, Step(u));
  }

  lemma OneSleeps(s: State, t: nat, u: nat) returns (s': State)
    requires Reachable(s) && t < |s.threads| && u < |s.threads| && t != u
    requires s.threads[t] == WaitHold(Inc) && s.threads[u] == WaitHold(Inc) && s.mCount >= 0 && s.bigSpin == 0
    ensures Reachable(s') && s'.threads == s.threads[t := Asleep][u := WaitHold(Dec)] && s'.queue == s.queue
  {
    hide Reachable, Inv;
    var s1 := Go(s, Step(t));
    var s2 := Go(s1, Step(u));
    var s3 := Go(s2, Step(t));
    s' := Go(s3, Step(t));
    assert s'.threads == s.threads[t := Asleep][u := WaitHold(Dec)];
  }

  /** Of two consumers on an idle queue, both of which come to wait(), the one that is not the last spinner sleeps. */
  lemma IdleConsumerSleeps(s: State, t: nat, u: nat) returns (s': State)
    requires Reachable(s) && t < |s.threads| && u < |s.threads| && t != u && s.threads[t].WaitSub? && s.threads[u].WaitSub?
    requires Outstanding(s) <= 0 && Count(s, Spinning) == 0
    ensures Reachable(s') && s'.threads == s.threads[t := Asleep][u := WaitHold(Dec)] && s'.queue == s.queue
  {
    hide Reachable;
    ReachableInv(s);
    var two := s.threads[t := Idle];
    SumUpdate(s.threads, WeightOf(Counted), t, Idle);
    SumUpdate(two, WeightOf(Counted), u, Idle);
    assert s.mCount >= 2 && s.bigSpin == 0;
    hide Inv;
    var s1 := BothWithdraw(s, t, u);
    s' := OneSleeps(s1, t, u);
    assert s'.threads == s.threads[t := Asleep][u := WaitHold(Dec)];
  }
}

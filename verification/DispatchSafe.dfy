/** Exactly which states complete: those with a rank that falls along waits and leaves room. */
module DispatchSafe {
  import opened Common
  import opened Dispatch
  import opened DispatchInv
  import opened DispatchSteps
  import opened DispatchRuns
  import opened DispatchTheorems
  import opened DispatchFinite
  import opened DispatchLimit
  import Edges
  import EdgesTheorems
  import ParallelLimit

  // ---------------------------------------------------------------- what one move does to a node

  /** The node's own code has returned, or it was a helper and is over. */
  predicate Ended(s: State, v: nat) {
    v < |s.d| && (s.d[v].run.Finishing? || s.d[v].run.Over?)
  }

  predicate AtWork(s: State, v: nat) {
    v < |s.d| && (s.d[v].run.Running? || s.d[v].run.Asking? || s.d[v].run.Waiting?)
  }

  /** How a node goes from one state of a run to the next. */
  ghost predicate Advances(s: State, t: State, v: nat) {
    && v < |s.d| && v < |t.d|
    && (s.d[v].run.Over? ==> t.d[v].run.Over?)
    && (Ended(t, v) && !Ended(s, v) ==> s.d[v].run.Running? || (s.d[v].run.Taken? && s.d[v].helps.Some?))
    && (AtWork(s, v) ==> AtWork(t, v) || Ended(t, v))
    && (HelperOf(s.d[v]).Some? ==>
          HelperOf(t.d[v]) == HelperOf(s.d[v]) || (HelperOf(s.d[v]).value < |t.d| && t.d[HelperOf(s.d[v]).value].run.Over?))
  }

  lemma SetAdvances(s: State, t: State, u: nat, i: Item, v: nat)
    requires u < |s.d| && v < |s.d| && t.d == s.d[u := i] && i.run == s.d[u].run && i.helps == s.d[u].helps
    ensures Advances(s, t, v)
  {
  }

  lemma CallAdvances(s: State, t: State, c: Call, o: nat, i: Item, v: nat)
    requires o < |s.d| && v < |s.d| && |CallStep(s, c).d| == |s.d| && t.d == CallStep(s, c).d[o := i]
    requires i.run == s.d[o].run && i.helps == s.d[o].helps
    ensures Advances(s, t, v)
  {
    hide CallStep;
    CallStepWork(s, c);
  }

  lemma TakeAdvances(s: State, x: nat, v: nat)
    requires Inv(s) && Enabled(s, Take(x)) && v < |s.d|
    ensures Advances(s, Apply(s, Take(x)), v)
  {
    hide Inv;
    FoundAt(s, x, Tasks);
    FoundAt(s, x, Exec);
    FoundAt(s, x, Gone);
  }

  lemma NextAdvances(s: State, u: nat, v: nat)
    requires Inv(s) && Enabled(s, RunNext(u)) && v < |s.d|
    ensures Advances(s, Apply(s, RunNext(u)), v)
  {
    hide Inv;
    var x := s.d[u].fin.next.value;
    FoundAt(s, x, Finisher(u));
    FoundAt(s, x, Exec);
    FoundAt(s, x, Gone);
  }

  lemma FinAdvances(s: State, u: nat, v: nat)
    requires Enabled(s, Fin(u)) && v < |s.d|
    ensures Advances(s, Apply(s, Fin(u)), v)
  {
    hide Edges.Apply;
  }

  lemma NotifyAdvances(s: State, e': Edges.State, u: nat, t: nat, v: nat)
    requires u < |s.d| && v < |s.d|
    ensures Advances(s, Notify(s, e', u, t), v)
  {
  }

  lemma PopAdvances(s: State, u: nat, x: nat, v: nat)
    requires u < |s.d| && Limited(s, u) && v < |s.d|
    ensures Advances(s, PopStep(s, u, x), v)
  {
    hide WithSlots;
    SlotsSame(s, u, ParallelLimit.Pop(x));
  }

  lemma DealAdvances(s: State, u: nat, v: nat)
    requires Enabled(s, Deal(u)) && v < |s.d|
    ensures Advances(s, DealStep(s, u), v)
  {
    hide NextDeal, WithSlots;
    var n := NextDeal(s, u);
    if n.act.Some? && Limited(s, n.on) {
      SlotsSame(s, n.on, n.act.value);
    }
    SetAdvances(s, DealStep(s, u), u, s.d[u].(fin := n.fin), v);
  }

  lemma MoveAdvances(s: State, a: Action, v: nat)
    requires Inv(s) && Moves(s, a) && v < |s.d|
    ensures Advances(s, Apply(s, a), v)
  {
    hide Inv, Edges.Apply, CallStep, CallNext, FinStep, DealStep, PopStep, Notify;
    match a
    case MakeCall(x) => CallItems(s, s.d[x].make); CallAdvances(s, Apply(s, a), s.d[x].make, x, Apply(s, a).d[x], v);
    case FinCall(u) => CallItems(s, s.d[u].fin.call); CallAdvances(s, Apply(s, a), s.d[u].fin.call, u, Apply(s, a).d[u], v);
    case Take(x) => TakeAdvances(s, x, v);
    case Fin(u) => FinAdvances(s, u, v);
    case FinBit(u, id) => NotifyAdvances(s, Edges.Apply(s.e, Edges.FinBit(u, id)), u, Edges.BitTarget(s.e, u, id), v);
    case Deal(u) => DealAdvances(s, u, v);
    case PopHeld(u, x) => PopAdvances(s, u, x, v);
    case RunNext(u) => NextAdvances(s, u, v);
    case _ =>
  }

  lemma CallItems(s: State, c: Call)
    ensures |CallStep(s, c).d| == |s.d|
    ensures forall x | 0 <= x < |s.d| :: CallStep(s, c).d[x] == s.d[x].(at := CallStep(s, c).d[x].at)
  {
    CallStepWork(s, c);
  }

  // ---------------------------------------------------------------- over a run

  lemma KeptTrans(s: State, t: State, u: State)
    requires Kept(s, t) && Kept(t, u)
    ensures Kept(s, u)
  {
    hide Finished;
    forall x | 0 <= x < |s.d| ensures KeptNode(s, u, x) {
      assert KeptNode(s, t, x) && KeptNode(t, u, x);
    }
  }

  lemma KeptSelf(s: State)
    requires |s.d| == |s.e.nodes|
    ensures Kept(s, s)
  {
  }

  lemma {:induction false} RunKept(states: seq<State>, acts: seq<Action>, n: nat)
    requires IsMoveRun(states, acts) && n <= |acts|
    ensures Reachable(states[n]) && Kept(states[0], states[n])
  {
    hide Reachable, Enabled, Apply, Kept, Work;
    RunsAreFinite(states, acts, n);
    if n == 0 {
      Lengths(states[0]);
      KeptSelf(states[0]);
    } else {
      RunKept(states, acts, n - 1);
      MoveKeeps(states[n - 1], acts[n - 1]);
      KeptTrans(states[0], states[n - 1], states[n]);
    }
  }

  lemma Lengths(s: State)
    requires Reachable(s)
    ensures |s.d| == |s.e.nodes| && |s.lims| == |s.e.graphs|
  {
    hide Inv;
    ReachableInv(s);
    ShapeAt(s);
  }

  lemma StepAdvances(states: seq<State>, acts: seq<Action>, n: nat, v: nat)
    requires IsMoveRun(states, acts) && n < |acts| && v < |states[0].d|
    ensures Advances(states[n], states[n + 1], v) && |states[n].d| == |states[0].d|
  {
    hide Reachable, Enabled, Apply, Inv, Work, Advances, KeptNode, KeptSlots;
    RunKept(states, acts, n);
    ReachableInv(states[n]);
    MoveAdvances(states[n], acts[n], v);
  }

  /** A node at work stays so until its code returns. */
  lemma {:induction false} WorksUntilEnd(states: seq<State>, acts: seq<Action>, v: nat, n: nat)
    requires IsMoveRun(states, acts) && n <= |acts| && AtWork(states[0], v)
    requires forall j | 0 <= j <= n :: !Ended(states[j], v)
    ensures AtWork(states[n], v)
  {
    hide Reachable, Enabled, Apply;
    if n > 0 {
      WorksUntilEnd(states, acts, v, n - 1);
      StepAdvances(states, acts, n - 1, v);
    }
  }

  /** A task that waits does so until its helper is over. */
  lemma {:induction false} WaitsUntilHelped(states: seq<State>, acts: seq<Action>, v: nat, b: nat, n: nat)
    requires IsMoveRun(states, acts) && n <= |acts| && v < |states[0].d| && b < |states[0].d| && HelperOf(states[0].d[v]) == Some(b)
    ensures v < |states[n].d| && b < |states[n].d| && (HelperOf(states[n].d[v]) == Some(b) || states[n].d[b].run.Over?)
  {
    hide Reachable, Enabled, Apply;
    if n > 0 {
      WaitsUntilHelped(states, acts, v, b, n - 1);
      StepAdvances(states, acts, n - 1, v);
      StepAdvances(states, acts, n - 1, b);
    }
  }

  /** The first state of a run in which v has ended. */
  ghost function EndAt(states: seq<State>, v: nat, i: nat): (r: nat)
    requires i <= |states|
    ensures i <= r <= |states| && (r < |states| ==> Ended(states[r], v))
    ensures forall j | i <= j < r :: !Ended(states[j], v)
    decreases |states| - i
  {
    if i == |states| || Ended(states[i], v) then i else EndAt(states, v, i + 1)
  }

  ghost function EndRank(states: seq<State>): seq<nat>
    requires |states| > 0
  {
    seq(|states[0].d|, v requires 0 <= v < |states[0].d| => EndAt(states, v, 0))
  }

  /** The last state before the end of v, which has not ended at the start and has at the end. */
  lemma BeforeEnd(states: seq<State>, acts: seq<Action>, v: nat) returns (n: nat)
    requires IsMoveRun(states, acts) && v < |states[0].d| && !Ended(states[0], v) && Ended(states[|acts|], v)
    ensures n < |acts| && EndAt(states, v, 0) == n + 1 && v < |states[n].d| && !Ended(states[n], v)
    ensures forall j | 0 <= j <= n :: !Ended(states[j], v)
    ensures states[n].d[v].run.Running? || (states[n].d[v].run.Taken? && states[n].d[v].helps.Some?)
  {
    hide Reachable, Enabled, Apply;
    assert EndAt(states, v, 0) <= |acts|;
    n := EndAt(states, v, 0) - 1;
    StepAdvances(states, acts, n, v);
  }

  // ---------------------------------------------------------------- the order of the ends is such a rank

  lemma CompleteEnds(states: seq<State>, acts: seq<Action>, v: nat)
    requires IsMoveRun(states, acts) && Complete(states[|acts|]) && v < |states[0].d| && Created(states[0], v)
    ensures Ended(states[|acts|], v)
  {
    hide Reachable, Enabled, Apply, Inv;
    RunKept(states, acts, |acts|);
    ReachableInv(states[0]);
    ReachableInv(states[|acts|]);
    AheadKept(states[0], states[|acts|], v);
  }

  /** A node a worker has requires only finished nodes, other than itself. */
  lemma TakenNeedsNone(s: State, v: nat, k: nat)
    requires Reachable(s) && v < |s.d| && |s.d| == |s.e.nodes| && (s.d[v].run.Taken? || s.d[v].run.Running?)
    requires k < |s.e.nodes[v].req| && s.e.nodes[v].req[k].Some? && s.e.nodes[v].req[k].value != v
    ensures var u := s.e.nodes[v].req[k].value; u < |s.d| && Ended(s, u) && Finished(s, u) && s.d[u].helps.None? && Created(s, u)
  {
    hide Inv, Reachable;
    ReachableInv(s);
    ShapeAt(s);
    At(s, v);
    FoundAt(s, v, Exec);
    ReleasedAtMostOnce(s, v);
    var u := s.e.nodes[v].req[k].value;
    EdgesTheorems.ReadyOnlyWhenRequiredFinished(s.e, v, k);
    At(s, u);
    FinishedIsCreated(s, u);
  }

  lemma FinishedIsCreated(s: State, u: nat)
    requires Inv(s) && u < |s.d| && |s.d| == |s.e.nodes| && s.e.nodes[u].status != Edges.Initing
    ensures Created(s, u)
  {
    hide Inv;
    ShapeAt(s);
    EdgesTheorems.ReachableInv(s.e);
    assert Edges.CountOk(s.e.nodes[u]);
  }

  lemma RequiredEndsBefore(states: seq<State>, acts: seq<Action>, v: nat, k: nat)
    requires IsMoveRun(states, acts) && Complete(states[|acts|]) && v < |states[0].d| == |states[0].e.nodes| && Ahead(states[0], v)
    requires k < |states[0].e.nodes[v].req| && states[0].e.nodes[v].req[k].Some?
    ensures Below(states[0], EndRank(states), v, k)
  {
    hide Reachable, Enabled, Apply, Inv, KeptSlots, Finished, Complete, EndAt;
    var u := states[0].e.nodes[v].req[k].value;
    CompleteEnds(states, acts, v);
    var n := BeforeEnd(states, acts, v);
    RunKept(states, acts, n);
    assert KeptNode(states[0], states[n], v);
    if u != v {
      TakenNeedsNone(states[n], v, k);
      assert KeptNode(states[0], states[n], u);
      ReachableInv(states[0]);
      ReachableInv(states[n]);
      AheadKept(states[0], states[n], u);
      EndsBy(states, u, n);
    }
  }

  lemma EndsBy(states: seq<State>, u: nat, n: nat)
    requires n < |states| && Ended(states[n], u)
    ensures EndAt(states, u, 0) <= n
  {
  }

  lemma HelperEndsBefore(states: seq<State>, acts: seq<Action>, v: nat)
    requires IsMoveRun(states, acts) && Complete(states[|acts|]) && v < |states[0].d| && HelperOf(states[0].d[v]).Some?
    ensures var b := HelperOf(states[0].d[v]).value;
      b < |states[0].d| && EndAt(states, b, 0) < EndAt(states, v, 0)
  {
    hide Reachable, Enabled, Apply, Inv, Complete, EndAt;
    var b := HelperOf(states[0].d[v]).value;
    WaiterIsCreated(states[0], v);
    CompleteEnds(states, acts, v);
    var n := BeforeEnd(states, acts, v);
    WorksUntilEnd(states, acts, v, n);
    WaitsUntilHelped(states, acts, v, b, n);
    EndsBy(states, b, n);
  }

  lemma WaiterIsCreated(s: State, v: nat)
    requires Reachable(s) && v < |s.d| && HelperOf(s.d[v]).Some?
    ensures Created(s, v) && HelperOf(s.d[v]).value < |s.d|
  {
    hide Inv, Reachable;
    ReachableInv(s);
    ShapeAt(s);
    At(s, v);
    FinishedIsCreated(s, v);
  }

  /** A node at work in a limited graph has one of its slots. */
  lemma WorkerHasSlot(s: State, g: nat, v: nat)
    requires Reachable(s) && AtWork(s, v) && v < |s.e.nodes| && s.e.nodes[v].graph == Some(g) && g < |s.lims| && s.lims[g].Some?
    ensures v in s.lims[g].value.active
  {
    hide Inv, Reachable;
    ReachableInv(s);
    FoundAt(s, v, Exec);
    LimAt(s, g);
    assert TieOk(s.lims[g].value, v, SlotIn(s, g, v));
  }

  lemma NoCrossKept(s: State, t: State)
    requires Kept(s, t) && NoCross(s.e, s.lims)
    ensures NoCross(t.e, t.lims)
  {
    forall v, k, u | 0 <= v < |t.e.nodes| && 0 <= u < |t.e.nodes| && Edges.IsEdge(t.e.nodes[v], k, u)
      ensures SameLimit(t.e, t.lims, v, u)
    {
      assert KeptNode(s, t, v) && KeptNode(s, t, u);
      assert Edges.IsEdge(s.e.nodes[v], k, u) && SameLimit(s.e, s.lims, v, u);
    }
  }

  /** When an upcoming node is at work, so are the tasks that wait now and end later. */
  lemma BlockersLeaveRoom(states: seq<State>, acts: seq<Action>, g: nat, x: nat)
    requires IsMoveRun(states, acts) && Complete(states[|acts|]) && NoCross(states[0].e, states[0].lims) && Upcoming(states[0], g, x)
    ensures |Blockers(states[0], EndRank(states), g, x)| < states[0].lims[g].value.parallel
  {
    hide Reachable, Enabled, Apply, Inv, Complete, EndAt, NoCross, Advances;
    var s := states[0];
    CompleteEnds(states, acts, x);
    var n := BeforeEnd(states, acts, x);
    RunKept(states, acts, n);
    NotHelper(s, g, x);
    assert KeptNode(s, states[n], x);
    NoCrossKept(s, states[n]);
    NoCrossKeepsLimit(states[n], g);
    var waiting, active := Blockers(s, EndRank(states), g, x), states[n].lims[g].value.active;
    WorkerHasSlot(states[n], g, x);
    forall y | y in waiting ensures y in active {
      assert KeptNode(s, states[n], y);
      forall j | 0 <= j <= n ensures !Ended(states[j], y) {
        NotYet(states, y, j);
      }
      WorksUntilEnd(states, acts, y, n);
      WorkerHasSlot(states[n], g, y);
    }
    assert x !in waiting;
    SubsetSize(waiting + {x}, active);
  }

  lemma NotYet(states: seq<State>, y: nat, j: nat)
    requires j < |states| && EndAt(states, y, 0) > j
    ensures !Ended(states[j], y)
  {
  }

  lemma NotHelper(s: State, g: nat, x: nat)
    requires Reachable(s) && Upcoming(s, g, x)
    ensures s.d[x].helps.None?
  {
    hide Inv, Reachable;
    ReachableInv(s);
    At(s, x);
  }

  // ---------------------------------------------------------------- the condition

  /** A rank falls along requirements and waits, and leaves every upcoming node a slot. */
  ghost predicate Safe(s: State, rank: seq<nat>) {
    Layered(s, rank) && HasRoom(s, rank)
  }

  /** Some run without new nodes and waits completes. */
  ghost predicate CanComplete(s: State) {
    exists states, acts :: IsMoveRun(states, acts) && states[0] == s && Complete(states[|acts|])
  }

  /** However the threads go on, once nothing can move all is complete. */
  ghost predicate MustComplete(s: State) {
    forall states, acts | IsMoveRun(states, acts) && states[0] == s && Stuck(states[|acts|]) :: Complete(states[|acts|])
  }

  lemma EndRankIsSafe(states: seq<State>, acts: seq<Action>)
    requires IsMoveRun(states, acts) && Complete(states[|acts|]) && NoCross(states[0].e, states[0].lims)
    ensures Safe(states[0], EndRank(states))
  {
    hide Reachable, Enabled, Apply, Inv, Complete, EndAt, NoCross, Below, Blockers;
    var s, rank := states[0], EndRank(states);
    Lengths(s);
    forall v, k | 0 <= v < |s.d| && Ahead(s, v) && 0 <= k < |s.e.nodes[v].req| && s.e.nodes[v].req[k].Some? ensures Below(s, rank, v, k) {
      RequiredEndsBefore(states, acts, v, k);
    }
    forall v | 0 <= v < |s.d| && HelperOf(s.d[v]).Some?
      ensures HelperOf(s.d[v]).value < |s.d| && rank[HelperOf(s.d[v]).value] < rank[v]
    {
      HelperEndsBefore(states, acts, v);
    }
    forall g: nat, x: nat | Upcoming(s, g, x) ensures |Blockers(s, rank, g, x)| < s.lims[g].value.parallel {
      BlockersLeaveRoom(states, acts, g, x);
    }
  }

  /** A safe state completes, whatever the threads do. */
  lemma SafeCompletes(s: State, rank: seq<nat>)
    requires Reachable(s) && s.workers > 0 && Safe(s, rank)
    ensures MustComplete(s)
  {
    hide Reachable, Layered, HasRoom, Complete, Stuck, Work, Moves;
    forall states, acts | IsMoveRun(states, acts) && states[0] == s && Stuck(states[|acts|]) ensures Complete(states[|acts|]) {
      EveryRunCompletes(states, acts, rank);
    }
  }

  /**
   * Without edges between limited graphs: some run completes if and only if every run does, and
   * if and only if the state is safe.
   */
  lemma CompletesIff(s: State)
    requires Reachable(s) && s.workers > 0 && NoCross(s.e, s.lims)
    ensures CanComplete(s) <==> MustComplete(s)
    ensures CanComplete(s) <==> exists rank :: Safe(s, rank)
  {
    hide Reachable, Safe, Complete, Stuck, Moves, NoCross;
    if CanComplete(s) {
      var states, acts :| IsMoveRun(states, acts) && states[0] == s && Complete(states[|acts|]);
      EndRankIsSafe(states, acts);
    }
    if rank :| Safe(s, rank) {
      SafeCompletes(s, rank);
    }
    if MustComplete(s) {
      var states, acts := RunToTheEnd(s);
      assert Complete(states[|acts|]);
    }
  }
}

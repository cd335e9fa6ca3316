/** What the dispatch guarantees: one place, at most `parallel` at a time, progress and completion. */
module DispatchTheorems {
  import opened Common
  import opened Dispatch
  import opened DispatchInv
  import opened DispatchSteps
  import opened DispatchRuns
  import Edges
  import EdgesTheorems
  import ParallelLimit

  // ---------------------------------------------------------------- one place

  /**
   * A node that was made ready is in exactly one place: in the hands of its maker or of one
   * finisher, in the shared queue, in the queue of one graph, with a worker, or over. One that
   * was not is in none.
   */
  lemma ExactlyOnePlace(s: State, v: nat)
    requires Reachable(s) && v < |s.d|
    ensures |s.d| == |s.e.nodes|
    ensures s.e.nodes[v].released == 0 ==> forall p :: !IsAt(s, v, p)
    ensures s.e.nodes[v].released > 0 ==> s.e.nodes[v].released == 1 && exists p :: IsAt(s, v, p) && forall q :: IsAt(s, v, q) ==> q == p
    ensures s.tasks[v] <= 1
  {
    hide IsAt;
    ReachableInv(s);
    At(s, v);
    ReleasedAtMostOnce(s, v);
    forall q ensures IsAt(s, v, q) ==> q == s.d[v].at && q != Nowhere {
      FoundAt(s, v, q);
      NeverNowhere(s, v);
    }
  }

  lemma NeverNowhere(s: State, v: nat)
    ensures !IsAt(s, v, Nowhere)
  {
  }

  lemma ReleasedAtMostOnce(s: State, v: nat)
    requires Inv(s) && v < |s.d|
    ensures s.e.nodes[v].released <= 1
  {
    hide Inv, Edges.Inv;
    ShapeAt(s);
    EdgesTheorems.ReachableInv(s.e);
    ReleasedOnce(s.e, v);
  }

  /** It is run at most once, and what was run and is over has finished; helpers only bring their task back. */
  lemma RunsAtMostOnce(s: State, v: nat)
    requires Reachable(s) && v < |s.d|
    ensures |s.d| == |s.e.nodes| && s.d[v].starts <= 1
    ensures s.d[v].starts == 1 ==> s.e.nodes[v].released == 1 && s.d[v].helps.None?
    ensures s.d[v].run.Over? && s.d[v].helps.None? ==> s.d[v].starts == 1 && s.e.nodes[v].status.Recoverable? && s.e.nodes[v].fin.FDone?
  {
    ReachableInv(s);
    At(s, v);
    FoundAt(s, v, Exec);
    FoundAt(s, v, Gone);
    ReleasedAtMostOnce(s, v);
  }

  /** run_task's assertion holds: what a worker takes has status Initing. */
  lemma TakenIsFresh(s: State, v: nat)
    requires Reachable(s) && v < |s.d| && s.d[v].run.Taken?
    ensures |s.d| == |s.e.nodes| && s.e.nodes[v].status.Initing? && Edges.Enabled(s.e, Edges.Start(v))
  {
    ReachableInv(s);
    At(s, v);
    FoundAt(s, v, Exec);
    ReleasedAtMostOnce(s, v);
  }

  // ---------------------------------------------------------------- the limit

  /** The nodes of graph g that are dispatched and unfinished. */
  predicate InUse(s: State, g: nat, t: nat) {
    SlotIn(s, g, t).Active?
  }

  /**
   * At most `parallel` nodes of a limited graph are dispatched and unfinished, and one more for
   * each that ever bypassed its counter, in every state of the whole engine.
   */
  lemma AtMostParallel(s: State, g: nat)
    requires Reachable(s) && g < |s.lims| && s.lims[g].Some?
    ensures |s.lims[g].value.active| <= s.lims[g].value.parallel + s.lims[g].value.bypassed
    ensures forall t :: t in s.lims[g].value.active <==> InUse(s, g, t)
  {
    ReachableInv(s);
    LimAt(s, g);
    forall t: nat ensures t in s.lims[g].value.active <==> InUse(s, g, t) {
      assert TieOk(s.lims[g].value, t, SlotIn(s, g, t));
    }
  }

  // ---------------------------------------------------------------- progress

  /** What can happen without new nodes or new waits. */
  predicate IsMove(a: Action) {
    !a.Alloc? && !a.Create? && !a.Await?
  }

  ghost predicate Moves(s: State, a: Action) {
    IsMove(a) && Enabled(s, a)
  }

  ghost predicate Stuck(s: State) {
    forall a :: !Moves(s, a)
  }

  /** Node v, or finish of node v, has something to do by itself. */
  predicate Stirring(s: State, v: nat)
    requires v < |s.d| && |s.d| == |s.e.nodes|
  {
    || !s.d[v].make.Idle? || s.e.nodes[v].make.Announced? || s.e.nodes[v].make.Edge?
    || s.d[v].run.Taken? || s.d[v].run.Running? || s.d[v].run.Asking? || s.d[v].run.Finishing?
    || (s.d[v].run.Over? && s.d[v].fin.next.Some?) || v in s.tasks
  }

  /** Operations on the edges that the dispatch does not hold up. */
  lemma EdgeCanMove(s: State, ea: Edges.Action) returns (a: Action)
    requires Inv(s) && EdgesTheorems.Moves(s.e, ea) && !ea.Start?
    requires ea.Fin? && ea.u < |s.e.nodes| ==> !s.e.nodes[ea.u].fin.FNone? || s.d[ea.u].run.Running?
    ensures Moves(s, a)
  {
    hide Edges.Apply, Edges.Inv;
    match ea
    case Make(v) => At(s, v); a := if s.d[v].make.Idle? then Make(v) else MakeCall(v);
    case Fin(u) => At(s, u); a := Fin(u);
    case FinBit(u, id) => At(s, u); a := FinBit(u, id);
  }

  /** Whoever is about to push a node can do so, and whoever waits at a queue finds one or such a push. */
  lemma PopperCanMove(s: State, u: nat) returns (a: Action)
    requires Inv(s) && u < |s.d| && s.d[u].fin.phase.Pop?
    ensures Moves(s, a)
  {
    hide Edges.Apply, Edges.Inv;
    At(s, u);
    var g := GraphOf(s, u);
    LimAt(s, g);
    var l := s.lims[g].value;
    assert u in Poppers(s, g);
    if x :| x in l.queued {
      a := PopHeld(u, x);
    } else {
      var x :| x in l.pushing;
      a := PusherCanMove(s, g, x);
    }
  }

  lemma PusherCanMove(s: State, g: nat, x: nat) returns (a: Action)
    requires Inv(s) && g < |s.lims| && s.lims[g].Some? && x in s.lims[g].value.pushing
    ensures Moves(s, a)
  {
    hide Edges.Apply, Edges.Inv;
    LimAt(s, g);
    assert TieOk(s.lims[g].value, x, SlotIn(s, g, x));
    At(s, x);
    a := if s.d[x].at.Maker? then MakeCall(s.d[x].at.w) else FinCall(s.d[x].at.u);
  }

  /** The finishing side, as long as edges remain to be counted off. */
  lemma CollectCanMove(s: State, v: nat) returns (a: Action)
    requires Inv(s) && v < |s.d| && |s.d| == |s.e.nodes| && s.d[v].run.Finishing? && !s.e.nodes[v].fin.FDone?
    ensures Moves(s, a)
  {
    hide Edges.Apply, Edges.Inv, Edges.Enabled, Inv, HandOk;
    At(s, v);
    FoundAt(s, v, Exec);
    ShapeAt(s);
    EdgesTheorems.ReachableHolders(s.e);
    var ea := EdgesTheorems.NoDeadlock(s.e, v);
    a := EdgeCanMove(s, ea);
  }

  lemma FinishingCanMove(s: State, v: nat) returns (a: Action)
    requires Inv(s) && v < |s.d| && |s.d| == |s.e.nodes| && s.d[v].run.Finishing?
    ensures Moves(s, a)
  {
    hide Edges.Apply, Edges.Inv, Inv;
    At(s, v);
    if !s.d[v].fin.call.Idle? {
      a := FinCall(v);
    } else if !s.e.nodes[v].fin.FDone? {
      a := CollectCanMove(s, v);
    } else if s.d[v].fin.phase.Pop? {
      a := PopperCanMove(s, v);
    } else if s.d[v].fin.phase.Return? {
      a := Recover(v);
    } else {
      HandKnown(s, v);
      a := Deal(v);
    }
  }

  lemma HandKnown(s: State, u: nat)
    requires u < |s.d| && |s.d| == |s.e.nodes| && HandOk(s, u)
    ensures Known(s, s.d[u].fin.list)
  {
    assert forall i | 0 <= i < |s.d[u].fin.list| :: s.d[u].fin.list[i] in s.d[u].fin.list;
  }

  /** create_edges of v can go on, or somebody it waits for can. */
  lemma MakerCanMove(s: State, v: nat) returns (a: Action)
    requires Inv(s) && v < |s.d| && |s.d| == |s.e.nodes| && Created(s, v)
    requires !s.d[v].make.Idle? || !s.e.nodes[v].make.Made?
    ensures Moves(s, a)
  {
    hide Edges.Apply, Edges.Inv, Edges.Enabled, Inv, HandOk;
    At(s, v);
    ShapeAt(s);
    if !s.d[v].make.Idle? {
      a := MakeCall(v);
    } else {
      EdgesTheorems.ReachableHolders(s.e);
      var ea := EdgesTheorems.NoDeadlock(s.e, v);
      a := EdgeCanMove(s, ea);
    }
  }

  /** A task that has asked for a wait and still has its context. */
  lemma AskingCanMove(s: State, u: nat) returns (a: Action)
    requires Inv(s) && u < |s.d| && |s.d| == |s.e.nodes| && s.d[u].run.Asking?
    ensures Moves(s, a)
  {
    hide Edges.Apply, Edges.Inv, Inv;
    At(s, u);
    var b := s.d[u].run.b;
    At(s, b);
    HelperIsCreated(s, b);
    if s.d[b].make.Idle? && s.e.nodes[b].make.Made? {
      a := GiveUp(u);
    } else {
      a := MakerCanMove(s, b);
    }
  }

  lemma BusyCanMove(s: State, v: nat) returns (a: Action)
    requires Inv(s) && v < |s.d| && |s.d| == |s.e.nodes| && IsBusy(s.d[v])
    ensures Moves(s, a)
  {
    hide Edges.Apply, Edges.Inv, Inv;
    At(s, v);
    if s.d[v].run.Taken? {
      FoundAt(s, v, Exec);
      ReleasedAtMostOnce(s, v);
      if s.d[v].helps.None? {
        a := Begin(v);
      } else if s.d[s.d[v].helps.value].run.Asking? {
        a := AskingCanMove(s, s.d[v].helps.value);
      } else {
        a := Resume(v);
      }
    } else if s.d[v].run.Running? {
      a := Fin(v);
    } else if s.d[v].run.Asking? {
      a := AskingCanMove(s, v);
    } else if s.d[v].run.Finishing? {
      a := FinishingCanMove(s, v);
    } else {
      FoundAt(s, s.d[v].fin.next.value, Finisher(v));
      a := RunNext(v);
    }
  }

  /** A node at work can go on, or some other can: nobody waits for ever for a lock, a worker or a queue. */
  lemma StirringCanMove(s: State, v: nat) returns (a: Action)
    requires Inv(s) && v < |s.d| && |s.d| == |s.e.nodes| && Stirring(s, v) && s.workers > 0
    ensures Moves(s, a)
  {
    hide Edges.Apply, Edges.Inv, Edges.Enabled, Inv, HandOk;
    At(s, v);
    ShapeAt(s);
    if !s.d[v].make.Idle? {
      a := MakeCall(v);
    } else if s.e.nodes[v].make.Announced? || s.e.nodes[v].make.Edge? {
      a := MakerCanMove(s, v);
    } else if IsBusy(s.d[v]) {
      a := BusyCanMove(s, v);
    } else if |Busy(s)| < s.workers {
      a := Take(v);
    } else {
      var w :| w in Busy(s);
      a := BusyCanMove(s, w);
    }
  }

  // ---------------------------------------------------------------- a held node

  /** Some node of graph g that is dispatched has not given its context up. */
  ghost predicate SomeoneAtWork(s: State, g: nat) {
    exists t: nat :: InUse(s, g, t) && t < |s.d| && !s.d[t].run.Waiting?
  }

  /**
   * A held node implies that something can move, as long as the graph has a slot whose node
   * does not wait for others itself.
   */
  lemma HeldCanMove(s: State, g: nat, x: nat) returns (a: Action)
    requires Reachable(s) && s.workers > 0 && IsAt(s, x, HeldIn(g)) && SomeoneAtWork(s, g)
    ensures Moves(s, a)
  {
    hide Edges.Apply, Edges.Inv, Reachable;
    ReachableInv(s);
    var t: nat :| InUse(s, g, t) && t < |s.d| && !s.d[t].run.Waiting?;
    a := ActiveCanMove(s, g, t);
  }

  lemma ActiveCanMove(s: State, g: nat, t: nat) returns (a: Action)
    requires Inv(s) && s.workers > 0 && t < |s.d| && SlotIn(s, g, t).Active? && !s.d[t].run.Waiting?
    ensures Moves(s, a)
  {
    hide Edges.Apply, Edges.Inv, Inv;
    At(s, t);
    match s.d[t].at
    case Maker(w) => a := MakeCall(w);
    case Finisher(u) => At(s, u); FoundAt(s, t, Finisher(u)); a := CarrierCanMove(s, u);
    case _ => a := StirringCanMove(s, t);
  }

  /** A finisher with a node in hand. */
  lemma CarrierCanMove(s: State, u: nat) returns (a: Action)
    requires Inv(s) && s.workers > 0 && u < |s.d| && (exists x :: Carries(s.d[u].fin, x))
    ensures Moves(s, a)
  {
    hide Edges.Apply, Edges.Inv, Inv;
    At(s, u);
    a := BusyCanMove(s, u);
  }

  /**
   * While more nodes are held than finishers are about to take, every slot of the graph is in
   * use or about to be passed on.
   */
  lemma HeldMeansFull(s: State, g: nat, x: nat)
    requires Reachable(s) && IsAt(s, x, HeldIn(g))
    ensures g < |s.lims| && s.lims[g].Some?
    ensures var l := s.lims[g].value;
      && x in l.queued && |l.active| + l.poppers <= l.parallel + l.bypassed
      && (|l.pushing| + |l.queued| > l.poppers ==> |l.active| + l.poppers == l.parallel + l.bypassed)
  {
    ReachableInv(s);
    LimAt(s, g);
  }

  /**
   * In a stuck state a graph holds nodes only while it has `parallel` nodes at least that are
   * dispatched, and all of them wait for others.
   */
  lemma StuckHeld(s: State, g: nat, x: nat)
    requires Reachable(s) && s.workers > 0 && Stuck(s) && IsAt(s, x, HeldIn(g))
    ensures g < |s.lims| && s.lims[g].Some? && |s.lims[g].value.active| == s.lims[g].value.parallel + s.lims[g].value.bypassed
    ensures forall t :: t in s.lims[g].value.active ==> t < |s.d| && s.d[t].run.Waiting?
  {
    hide Edges.Apply, Edges.Inv;
    HeldMeansFull(s, g, x);
    ReachableInv(s);
    LimAt(s, g);
    NoPoppers(s, g);
    forall t | t in s.lims[g].value.active ensures t < |s.d| && s.d[t].run.Waiting? {
      assert TieOk(s.lims[g].value, t, SlotIn(s, g, t));
      if !s.d[t].run.Waiting? {
        var a := ActiveCanMove(s, g, t);
      }
    }
  }

  lemma NoPoppers(s: State, g: nat)
    requires Inv(s) && Stuck(s) && g < |s.lims| && s.lims[g].Some?
    ensures s.lims[g].value.poppers == 0
  {
    hide Edges.Apply, Edges.Inv;
    LimAt(s, g);
    if Poppers(s, g) != {} {
      var u :| u in Poppers(s, g);
      var a := PopperCanMove(s, u);
    }
  }

  // ---------------------------------------------------------------- completion

  predicate Created(s: State, v: nat) {
    v < |s.e.nodes| && !s.e.nodes[v].make.Unmade?
  }

  /** The helper whose run brings a task back. */
  function HelperOf(i: Item): Option<nat> {
    match i.run
    case Asking(b) => Some(b)
    case Waiting(b) => Some(b)
    case _ => None
  }

  predicate Finished(s: State, u: nat) {
    u < |s.e.nodes| && Edges.Done(s.e.nodes[u].status)
  }

  /**
   * A rank falls from a node not taken up yet to the unfinished ones it requires, which were
   * created and are no helpers, and from a task that waits to its helper.
   */
  ghost predicate Layered(s: State, rank: seq<nat>) {
    && |rank| == |s.d| == |s.e.nodes|
    && (forall v, k | 0 <= v < |s.d| && Ahead(s, v) && 0 <= k < |s.e.nodes[v].req| && s.e.nodes[v].req[k].Some? :: Below(s, rank, v, k))
    && (forall v | 0 <= v < |s.d| && HelperOf(s.d[v]).Some? ::
          HelperOf(s.d[v]).value < |s.d| && rank[HelperOf(s.d[v]).value] < rank[v])
  }

  /** v was created and nobody has taken it up. */
  predicate Ahead(s: State, v: nat) {
    v < |s.d| && Created(s, v) && s.d[v].run.NotRun?
  }

  ghost predicate Below(s: State, rank: seq<nat>, v: nat, k: nat)
    requires |rank| == |s.d| == |s.e.nodes| && v < |s.d| && k < |s.e.nodes[v].req| && s.e.nodes[v].req[k].Some?
  {
    var u := s.e.nodes[v].req[k].value;
    u < |s.d| && (u != v && !Finished(s, u) ==> Created(s, u) && s.d[u].helps.None? && rank[u] < rank[v])
  }

  ghost predicate NothingHeld(s: State) {
    forall g, x :: !IsAt(s, x, HeldIn(g))
  }

  /** Every held node finds, among the nodes that have the slots of its graph, one of lower rank. */
  ghost predicate Unblocked(s: State, rank: seq<nat>) {
    forall g, x :: IsAt(s, x, HeldIn(g)) ==> FindsLower(s, rank, g, x)
  }

  ghost predicate FindsLower(s: State, rank: seq<nat>, g: nat, x: nat) {
    x < |rank| && exists t: nat :: t < |rank| && InUse(s, g, t) && rank[t] < rank[x]
  }

  /** Every created node was run exactly once and has finished or, a helper, is through with its task. */
  ghost predicate Complete(s: State) {
    |s.d| == |s.e.nodes| && forall v | 0 <= v < |s.d| && Created(s, v) :: Done(s, v)
  }

  predicate Done(s: State, v: nat)
    requires v < |s.d| == |s.e.nodes|
  {
    s.d[v].run.Over? && (s.d[v].helps.None? ==> s.d[v].starts == 1 && s.e.nodes[v].status.Recoverable?)
  }

  lemma {:induction false} StuckIsOver(s: State, rank: seq<nat>, v: nat)
    requires Reachable(s) && s.workers > 0 && Stuck(s) && Layered(s, rank) && Unblocked(s, rank) && v < |s.d| && Created(s, v)
    ensures s.d[v].run.Over?
    decreases rank[v]
  {
    hide Edges.Apply, Edges.Inv, Reachable, Inv, HandOk, FindsLower, Finished, IsAt;
    ReachableInv(s);
    At(s, v);
    if Stirring(s, v) {
      var a := StirringCanMove(s, v);
    }
    if s.d[v].run.NotRun? {
      forall k | k in s.e.nodes[v].open ensures false {
        OpenNeeds(s, v, k);
        var u := s.e.nodes[v].req[k].value;
        assert Below(s, rank, v, k);
        if !Finished(s, u) {
          StuckIsOver(s, rank, u);
        }
        StuckCloses(s, v, k);
      }
      assert s.e.nodes[v].open == {};
    }
    ReleasedOrRun(s, v);
    PlaceOfStuck(s, v);
    if HelperOf(s.d[v]).Some? {
      var b := s.d[v].run.b;
      At(s, b);
      HelperIsCreated(s, b);
      StuckIsOver(s, rank, b);
    } else if !s.d[v].run.Over? {
      var g := s.d[v].at.g;
      assert FindsLower(s, rank, g, v);
      var t := LowerOne(s, rank, g, v);
      StuckHeld(s, g, v);
      ActiveIsCreated(s, g, t);
      StuckIsOver(s, rank, t);
    }
  }

  lemma LowerOne(s: State, rank: seq<nat>, g: nat, x: nat) returns (t: nat)
    requires FindsLower(s, rank, g, x)
    ensures x < |rank| && t < |rank| && InUse(s, g, t) && rank[t] < rank[x]
  {
    t :| t < |rank| && InUse(s, g, t) && rank[t] < rank[x];
  }

  lemma ActiveIsCreated(s: State, g: nat, t: nat)
    requires Inv(s) && g < |s.lims| && s.lims[g].Some? && InUse(s, g, t)
    ensures t in s.lims[g].value.active && t < |s.d| && Created(s, t) && s.e.nodes[t].graph == Some(g)
  {
    LimAt(s, g);
    assert TieOk(s.lims[g].value, t, SlotIn(s, g, t));
    hide Inv;
    ShapeAt(s);
    EdgesTheorems.ReachableInv(s.e);
    hide Edges.MakersOk, Edges.BitsOk, Edges.ListsOk, Edges.AllHeld, Edges.AllJust, Edges.NodesOk;
  }

  /** In a stuck state a finished node has counted all its edges off. */
  lemma StuckCloses(s: State, v: nat, k: nat)
    requires Inv(s) && Stuck(s) && s.workers > 0 && v < |s.d| && |s.d| == |s.e.nodes| && s.e.nodes[v].make.Made?
    requires k < |s.e.nodes[v].req| && s.e.nodes[v].req[k].Some?
    requires s.e.nodes[v].req[k].value < |s.e.nodes| && s.e.nodes[v].req[k].value != v
    requires var u := s.e.nodes[v].req[k].value; Finished(s, u) || (s.d[u].run.Over? && s.d[u].helps.None?)
    ensures k !in s.e.nodes[v].open
  {
    hide Edges.Apply, Edges.Inv, Inv, HandOk;
    var u := s.e.nodes[v].req[k].value;
    At(s, u);
    if Stirring(s, u) {
      var a := StirringCanMove(s, u);
    }
    OverCloses(s, v, k);
  }

  lemma OpenNeeds(s: State, v: nat, k: nat)
    requires Inv(s) && v < |s.e.nodes| && s.e.nodes[v].make.Made? && k in s.e.nodes[v].open
    ensures k < |s.e.nodes[v].req| && s.e.nodes[v].req[k].Some? && s.e.nodes[v].req[k].value != v
    ensures s.e.nodes[v].req[k].value < |s.e.nodes|
  {
    hide Inv;
    ShapeAt(s);
    EdgesTheorems.ReachableInv(s.e);
    assert Edges.CountOk(s.e.nodes[v]) && Edges.OpenHeld(s.e, v, k);
  }

  lemma OverCloses(s: State, v: nat, k: nat)
    requires Inv(s) && v < |s.e.nodes| && s.e.nodes[v].make.Made? && k < |s.e.nodes[v].req| && s.e.nodes[v].req[k].Some?
    requires s.e.nodes[v].req[k].value < |s.e.nodes| && s.e.nodes[v].req[k].value != v
    requires s.e.nodes[s.e.nodes[v].req[k].value].fin.FDone?
    ensures k !in s.e.nodes[v].open
  {
    hide Inv, Edges.Inv;
    ShapeAt(s);
    EdgesTheorems.ReachableInv(s.e);
    EdgesTheorems.NoOpenAfterFinish(s.e, v, k);
  }

  lemma ReleasedOrRun(s: State, v: nat)
    requires Inv(s) && v < |s.d| && |s.d| == |s.e.nodes| && s.e.nodes[v].make.Made?
    requires s.d[v].run.NotRun? ==> s.e.nodes[v].open == {}
    ensures s.e.nodes[v].released == 1
  {
    hide Inv;
    ShapeAt(s);
    At(s, v);
    EdgesTheorems.ReachableInv(s.e);
    assert Edges.CountOk(s.e.nodes[v]);
    FoundAt(s, v, Exec);
    FoundAt(s, v, Gone);
    ReleasedAtMostOnce(s, v);
  }

  lemma HelperIsCreated(s: State, b: nat)
    requires Inv(s) && b < |s.d| && |s.d| == |s.e.nodes| && s.e.nodes[b].graph.Some?
    ensures Created(s, b)
  {
    hide Inv;
    ShapeAt(s);
    EdgesTheorems.ReachableInv(s.e);
    hide Edges.MakersOk, Edges.BitsOk, Edges.ListsOk, Edges.AllHeld, Edges.AllJust;
  }

  /** In a stuck state a node that was made ready is held, waits, or is over. */
  lemma PlaceOfStuck(s: State, v: nat)
    requires Inv(s) && s.workers > 0 && Stuck(s) && v < |s.d| && |s.d| == |s.e.nodes| && s.e.nodes[v].released == 1
    ensures s.d[v].run.Waiting? || s.d[v].run.Over? || (s.d[v].at.HeldIn? && IsAt(s, v, s.d[v].at))
  {
    hide Edges.Apply, Edges.Inv, Inv, HandOk, RunOk;
    At(s, v);
    if Stirring(s, v) {
      var a := StirringCanMove(s, v);
    }
    match s.d[v].at
    case Maker(w) => var a := StirringCanMove(s, w);
    case Finisher(u) => var a := CarrierCanMove(s, u);
    case _ =>
  }

  /** A stuck engine has run every created node to its end if and only if no graph holds a node. */
  lemma StuckCompleteIff(s: State, rank: seq<nat>)
    requires Reachable(s) && s.workers > 0 && Stuck(s) && Layered(s, rank)
    ensures Complete(s) <==> NothingHeld(s)
  {
    if NothingHeld(s) {
      StuckUnblocked(s, rank);
    } else {
      var g, x :| IsAt(s, x, HeldIn(g));
      hide Inv;
      ReachableInv(s);
      HeldIsAhead(s, g, x);
    }
  }

  lemma StuckUnblocked(s: State, rank: seq<nat>)
    requires Reachable(s) && s.workers > 0 && Stuck(s) && Layered(s, rank) && Unblocked(s, rank)
    ensures Complete(s)
  {
    hide Unblocked, Reachable;
    forall v | 0 <= v < |s.d| && Created(s, v) ensures Done(s, v) {
      StuckIsOver(s, rank, v);
      RunsAtMostOnce(s, v);
    }
  }

  /** And if and only if every held node finds one of lower rank among those that have the slots of its graph. */
  lemma StuckCompleteIffUnblocked(s: State, rank: seq<nat>)
    requires Reachable(s) && s.workers > 0 && Stuck(s) && Layered(s, rank)
    ensures Complete(s) <==> Unblocked(s, rank)
  {
    hide Reachable, Stuck, Layered, Complete, IsAt, FindsLower;
    StuckCompleteIff(s, rank);
    if Unblocked(s, rank) {
      StuckUnblocked(s, rank);
    }
  }

  lemma HeldIsAhead(s: State, g: nat, x: nat)
    requires Inv(s) && IsAt(s, x, HeldIn(g))
    ensures Ahead(s, x) && x < |s.e.nodes| && s.e.nodes[x].graph == Some(g)
  {
    LimAt(s, g);
    assert TieOk(s.lims[g].value, x, SlotIn(s, g, x));
    hide Inv;
    FoundAt(s, x, HeldIn(g));
    FoundAt(s, x, Exec);
    FoundAt(s, x, Gone);
    At(s, x);
    ShapeAt(s);
    EdgesTheorems.ReachableInv(s.e);
    assert Edges.CountOk(s.e.nodes[x]);
  }

  // ---------------------------------------------------------------- slots for those that wait

  /** The tasks of graph g that wait for others and do not rank below node x. */
  ghost function Blockers(s: State, rank: seq<nat>, g: nat, x: nat): set<nat> {
    set t: nat | t < |s.d| && Blocks(s, rank, g, x, t)
  }

  predicate Blocks(s: State, rank: seq<nat>, g: nat, x: nat, t: nat) {
    && t < |s.d| && t < |s.e.nodes| && s.e.nodes[t].graph == Some(g) && HelperOf(s.d[t]).Some?
    && t < |rank| && x < |rank| && rank[t] >= rank[x]
  }

  /** Node x of limited graph g was created and has not been taken up. */
  predicate Upcoming(s: State, g: nat, x: nat) {
    g < |s.lims| && s.lims[g].Some? && Ahead(s, x) && x < |s.e.nodes| && s.e.nodes[x].graph == Some(g)
  }

  /** Waiting tasks leave every upcoming node a slot, counting those that rank below it as gone by then. */
  ghost predicate HasRoom(s: State, rank: seq<nat>) {
    forall g: nat, x: nat | Upcoming(s, g, x) :: |Blockers(s, rank, g, x)| < s.lims[g].value.parallel
  }

  /** Every limited graph has a slot, and only tasks of graphs without a limit wait for others. */
  ghost predicate Fed(s: State) {
    && (forall g | 0 <= g < |s.lims| && s.lims[g].Some? :: s.lims[g].value.parallel > 0)
    && (forall v | 0 <= v < |s.d| && HelperOf(s.d[v]).Some? :: !Limited(s, v))
  }

  /** Then there is room, whatever the ranks. */
  lemma FedHasRoom(s: State, rank: seq<nat>)
    requires Fed(s)
    ensures HasRoom(s, rank)
  {
    forall g: nat, x: nat | Upcoming(s, g, x) ensures |Blockers(s, rank, g, x)| < s.lims[g].value.parallel {
      forall t: nat ensures t !in Blockers(s, rank, g, x) {
        assert Blocks(s, rank, g, x, t) ==> Limited(s, t);
      }
      assert Blockers(s, rank, g, x) == {};
    }
  }

  /** In a stuck state with room a held node finds a slot that belongs to a node of lower rank. */
  lemma RoomUnblocks(s: State, rank: seq<nat>, g: nat, x: nat)
    requires Reachable(s) && s.workers > 0 && Stuck(s) && Layered(s, rank) && HasRoom(s, rank) && IsAt(s, x, HeldIn(g))
    ensures FindsLower(s, rank, g, x)
  {
    hide Reachable, Stuck, InUse;
    ReachableInv(s);
    HeldIsAhead(s, g, x);
    StuckHeld(s, g, x);
    var active := s.lims[g].value.active;
    assert Upcoming(s, g, x) && |Blockers(s, rank, g, x)| < s.lims[g].value.parallel;
    if forall t | t in active :: rank[t] >= rank[x] {
      forall t | t in active ensures t in Blockers(s, rank, g, x) {
        AtMostParallel(s, g);
        ActiveIsCreated(s, g, t);
      }
      SubsetSize(active, Blockers(s, rank, g, x));
    } else {
      var t :| t in active && rank[t] < rank[x];
      AtMostParallel(s, g);
      assert InUse(s, g, t);
    }
  }

  /** So a stuck engine with room has run every created node once and finished it. */
  lemma StuckMeansComplete(s: State, rank: seq<nat>)
    requires Reachable(s) && s.workers > 0 && Stuck(s) && Layered(s, rank) && HasRoom(s, rank)
    ensures Complete(s) && NothingHeld(s)
  {
    hide Reachable, Stuck, Layered, HasRoom, Complete, IsAt, FindsLower;
    forall g, x | IsAt(s, x, HeldIn(g)) ensures FindsLower(s, rank, g, x) {
      RoomUnblocks(s, rank, g, x);
    }
    StuckCompleteIffUnblocked(s, rank);
    StuckCompleteIff(s, rank);
  }
}

/**
 * What a worker goes on with after a node: which of the nodes its finish has made ready it
 * returns, over whole runs, and that no more than the workers are ever busy.
 */
module DispatchReturns {
  import opened Common
  import opened Dispatch
  import opened DispatchInv
  import opened DispatchSteps
  import opened DispatchRuns
  import opened DispatchLimit
  import Edges
  import EdgesTheorems
  import ParallelLimit

  // ---------------------------------------------------------------- the node to return

  /** x is of the limited graph of u, or neither of them is of a limited graph. */
  ghost predicate Wanted(s: State, u: nat, x: nat) {
    && u < |s.e.nodes| && x < |s.e.nodes|
    && if HasLimit(s.lims, s.e.nodes[u].graph) then s.e.nodes[x].graph == s.e.nodes[u].graph
       else !HasLimit(s.lims, s.e.nodes[x].graph)
  }

  /** The node at i is the first wanted one after the first of all. */
  ghost predicate FirstWanted(s: State, u: nat, list: seq<nat>, i: nat) {
    1 <= i < |list| && Wanted(s, u, list[i]) && forall j | 1 <= j < i :: !Wanted(s, u, list[j])
  }

  /** The first wanted one of those before k, if there is one. */
  ghost predicate Found(s: State, u: nat, list: seq<nat>, k: nat, next: Option<nat>)
    requires k <= |list|
  {
    match next
    case None => forall i | 1 <= i < k :: !Wanted(s, u, list[i])
    case Some(x) => exists i :: 1 <= i < k && FirstWanted(s, u, list, i) && list[i] == x
  }

  ghost predicate InLimit(s: State, u: nat) {
    u < |s.e.nodes| && HasLimit(s.lims, s.e.nodes[u].graph)
  }

  /** With none found, the first of all; if that is not wanted, a limited graph may return a held node, another none. */
  ghost predicate Chosen(s: State, u: nat, list: seq<nat>, next: Option<nat>) {
    if exists i :: FirstWanted(s, u, list, i) then Found(s, u, list, |list|, next)
    else if list == [] then next.None? || (InLimit(s, u) && Wanted(s, u, next.value))
    else if Wanted(s, u, list[0]) then next == Some(list[0])
    else if InLimit(s, u) then next == Some(list[0]) || (next.Some? && Wanted(s, u, next.value))
    else next == Some(list[0]) || next.None?
  }

  /** Where finish of u is with the nodes `list` it has made ready. */
  ghost predicate Dealt(s: State, u: nat, list: seq<nat>, f: Hand) {
    match f.phase
    case Collect => false
    case Loop =>
      if list == [] then f.list == [] && f.next.None?
      else 1 <= |f.list| <= |list|
           && var k := |list| - |f.list| + 1; f.list == [list[0]] + list[k..] && Found(s, u, list, k, f.next)
    case Return => Chosen(s, u, list, f.next)
    case _ =>
      && InLimit(s, u) && (forall i | 0 <= i < |list| :: !Wanted(s, u, list[i]))
      && f.list == if list == [] then [] else [list[0]]
  }

  // ---------------------------------------------------------------- one operation of finish

  ghost predicate AllKnown(s: State, u: nat, list: seq<nat>) {
    && u < |s.e.nodes| && s.e.nodes[u].graph.Some?
    && forall i | 0 <= i < |list| :: list[i] < |s.e.nodes| && s.e.nodes[list[i]].graph.Some?
  }

  lemma PreferredIsWanted(s: State, u: nat, x: nat)
    requires u < |s.e.nodes| && x < |s.e.nodes|
    ensures Preferred(s, u, x) <==> Wanted(s, u, x)
    ensures Limited(s, u) <==> InLimit(s, u)
  {
  }

  lemma NoneFound(s: State, u: nat, list: seq<nat>)
    requires forall i | 1 <= i < |list| :: !Wanted(s, u, list[i])
    ensures !exists i :: FirstWanted(s, u, list, i)
  {
  }

  /** Dealing with one node more. */
  lemma LoopDealt(s: State, u: nat, list: seq<nat>)
    requires u < |s.d| && |s.d| == |s.e.nodes| && |s.d[u].fin.list| > 1 && s.d[u].fin.list[1] < |s.d|
    requires s.d[u].fin.phase.Loop? && Dealt(s, u, list, s.d[u].fin)
    ensures Dealt(s, u, list, LoopDeal(s, u).fin)
  {
    var f := s.d[u].fin;
    var k := |list| - |f.list| + 1;
    var x := f.list[1];
    assert x == list[k] && f.list[2..] == list[k + 1..];
    PreferredIsWanted(s, u, x);
    hide Limited, HasLimit, Preferred, InLimit;
    if f.next.None? && Wanted(s, u, x) {
      assert FirstWanted(s, u, list, k);
    }
  }

  /** The end: at most the first of all is left. */
  lemma LastDealt(s: State, u: nat, list: seq<nat>)
    requires u < |s.d| && |s.d| == |s.e.nodes| && |s.d[u].fin.list| <= 1
    requires s.d[u].fin.list != [] ==> s.d[u].fin.list[0] < |s.d|
    requires s.d[u].fin.phase.Loop? && Dealt(s, u, list, s.d[u].fin)
    ensures Dealt(s, u, list, LastDeal(s, u).fin)
  {
    var f := s.d[u].fin;
    if list != [] {
      assert f.list[0] == list[0];
      PreferredIsWanted(s, u, list[0]);
    }
    assert Limited(s, u) <==> InLimit(s, u);
    if f.next.None? {
      NoneFound(s, u, list);
    } else {
      var i :| 1 <= i < |list| && FirstWanted(s, u, list, i) && list[i] == f.next.value;
    }
  }

  lemma KeepDealt(s: State, u: nat, list: seq<nat>)
    requires u < |s.d| && s.d[u].fin.list != [] && s.d[u].fin.phase.Keep? && Dealt(s, u, list, s.d[u].fin)
    ensures Dealt(s, u, list, KeepDeal(s, u).fin)
  {
    NoneFound(s, u, list);
  }

  lemma DealDealt(s: State, u: nat, list: seq<nat>)
    requires Enabled(s, Deal(u)) && HandOk(s, u)
    requires if s.d[u].fin.phase.Collect? then list == s.d[u].fin.list else Dealt(s, u, list, s.d[u].fin)
    ensures Dealt(s, u, list, NextDeal(s, u).fin)
  {
    var f := s.d[u].fin;
    if f.phase.Collect? {
      assert list != [] ==> list == [list[0]] + list[1..];
    } else if f.phase.Keep? {
      KeepDealt(s, u, list);
    } else if |f.list| > 1 {
      LoopDealt(s, u, list);
    } else {
      LastDealt(s, u, list);
    }
  }

  // ---------------------------------------------------------------- one operation of anybody

  /** What is wanted stays so. */
  lemma WantedStays(s: State, t: State, u: nat, x: nat)
    requires Stays(s, t) && u < |s.e.nodes| && s.e.nodes[u].graph.Some? && x < |s.e.nodes| && s.e.nodes[x].graph.Some?
    ensures Wanted(t, u, x) <==> Wanted(s, u, x)
    ensures InLimit(t, u) <==> InLimit(s, u)
  {
    assert Registered(s, t, u) && Registered(s, t, x);
  }

  lemma FoundStays(s: State, t: State, u: nat, list: seq<nat>, k: nat, next: Option<nat>)
    requires forall i | 0 <= i < |list| :: Wanted(t, u, list[i]) <==> Wanted(s, u, list[i])
    requires k <= |list| && Found(s, u, list, k, next)
    ensures Found(t, u, list, k, next)
  {
    hide Wanted;
    if next.Some? {
      var i :| 1 <= i < k && FirstWanted(s, u, list, i) && list[i] == next.value;
      assert FirstWanted(t, u, list, i);
    }
  }

  lemma DealtStays(s: State, t: State, u: nat, list: seq<nat>, f: Hand, f': Hand)
    requires Stays(s, t) && AllKnown(s, u, list) && Dealt(s, u, list, f)
    requires f'.list == f.list && f'.next == f.next && f'.phase == f.phase
    requires f.next.Some? ==> f.next.value < |s.e.nodes| && s.e.nodes[f.next.value].graph.Some?
    ensures Dealt(t, u, list, f')
  {
    forall i | 0 <= i < |list| ensures Wanted(t, u, list[i]) <==> Wanted(s, u, list[i]) {
      WantedStays(s, t, u, list[i]);
    }
    WantedStays(s, t, u, u);
    if f.next.Some? {
      WantedStays(s, t, u, f.next.value);
    }
    hide Wanted, InLimit, Stays, AllKnown;
    match f.phase
    case Loop =>
      if list != [] {
        FoundStays(s, t, u, list, |list| - |f.list| + 1, f.next);
      }
    case Return =>
      if i :| FirstWanted(s, u, list, i) {
        FoundStays(s, t, u, list, |list|, f.next);
        assert FirstWanted(t, u, list, i);
      } else {
        assert forall i :: FirstWanted(t, u, list, i) ==> FirstWanted(s, u, list, i);
      }
    case _ =>
  }

  /** The hands of finish of u hold the same nodes. */
  ghost predicate SameHands(s: State, t: State, u: nat) {
    && u < |s.d| && u < |t.d| && t.d[u].fin.list == s.d[u].fin.list && t.d[u].fin.next == s.d[u].fin.next
    && t.d[u].fin.phase == s.d[u].fin.phase
  }

  lemma CallHands(s: State, c: Call, u: nat)
    requires u < |s.d|
    ensures |CallStep(s, c).d| == |s.d| && SameHands(s, CallStep(s, c), u)
  {
  }

  lemma DealHands(s: State, w: nat, u: nat)
    requires Enabled(s, Deal(w)) && u < |s.d| && u != w
    ensures SameHands(s, DealStep(s, w), u)
  {
    hide NextDeal;
  }

  lemma PopHands(s: State, w: nat, x: nat, u: nat)
    requires Enabled(s, PopHeld(w, x)) && u < |s.d| && u != w
    ensures SameHands(s, PopStep(s, w, x), u)
  {
  }

  lemma BitHands(s: State, w: nat, id: nat, u: nat)
    requires Enabled(s, FinBit(w, id)) && u < |s.d| && (s.e.nodes[u].fin.FDone? || s.d[u].run.Over?)
    ensures SameHands(s, Notify(s, Edges.Apply(s.e, Edges.FinBit(w, id)), w, Edges.BitTarget(s.e, w, id)), u)
  {
    hide Edges.Apply;
  }

  /** Only the operations of finish of u, and going on, change what is in its hands. */
  lemma OthersHands(s: State, a: Action, u: nat)
    requires Enabled(s, a) && u < |s.d| && (s.e.nodes[u].fin.FDone? || s.d[u].run.Over?)
    requires a != Deal(u) && a != RunNext(u) && !(a.PopHeld? && a.u == u)
    ensures SameHands(s, Apply(s, a), u)
  {
    hide Edges.Apply, Edges.Enabled, CallStep, DealStep, PopStep, Notify, FinStep, CallNext, Limited;
    match a
    case MakeCall(v) => CallHands(s, s.d[v].make, u);
    case FinCall(w) => CallHands(s, s.d[w].fin.call, u);
    case Deal(w) => DealHands(s, w, u);
    case PopHeld(w, x) => PopHands(s, w, x, u);
    case Fin(w) => FinHands(s, w, u);
    case FinBit(w, id) => BitHands(s, w, id, u);
    case _ => TurnHands(s, a, u);
  }

  lemma TurnHands(s: State, a: Action, u: nat)
    requires Enabled(s, a) && u < |s.d| && a != RunNext(u)
    requires !a.MakeCall? && !a.FinCall? && !a.Deal? && !a.PopHeld? && !a.Fin? && !a.FinBit?
    ensures SameHands(s, Apply(s, a), u)
  {
    hide Edges.Apply, Edges.MakeEnabled, Edges.FinEnabled, Edges.ReqOk, CallStep, DealStep, PopStep, Notify, FinStep, CallNext;
  }

  lemma FinHands(s: State, w: nat, u: nat)
    requires Enabled(s, Fin(w)) && u < |s.d| && (s.e.nodes[u].fin.FDone? || s.d[u].run.Over?)
    ensures SameHands(s, FinStep(s, w), u)
  {
    hide Edges.Apply;
  }

  /** The node to be returned is a registered one. */
  lemma NextKnown(s: State, u: nat)
    requires Inv(s) && u < |s.d| && s.d[u].fin.next.Some?
    ensures s.d[u].fin.next.value < |s.e.nodes| && s.e.nodes[s.d[u].fin.next.value].graph.Some?
  {
    hide RunsOk, HandsOk, LimsOk, RunOk, HandOk;
    var x := s.d[u].fin.next.value;
    assert IsAt(s, x, Finisher(u)) && FoundOk(s, x, Finisher(u));
    assert PlaceOk(s, x);
    EdgesTheorems.ReachableInv(s.e);
    ReleasedOnce(s.e, x);
  }

  /** A node taken out of the queue of a limited graph is of that graph. */
  lemma HeldIsOwn(s: State, u: nat, x: nat)
    requires Inv(s) && Enabled(s, PopHeld(u, x))
    ensures InLimit(s, u) && Wanted(s, u, x)
  {
    hide RunsOk, HandsOk, PlacesOk, Shape;
    assert LimOk(s, GraphOf(s, u));
    assert TieOk(SlotsOf(s, u), x, SlotIn(s, GraphOf(s, u), x));
  }

  lemma PopDealt(s: State, u: nat, list: seq<nat>, x: nat, f: Hand)
    requires u < |s.d| && s.d[u].fin.phase.Pop? && Dealt(s, u, list, s.d[u].fin) && InLimit(s, u) && Wanted(s, u, x)
    requires f.phase.Return? && f.next == Some(x)
    ensures Dealt(s, u, list, f)
  {
    NoneFound(s, u, list);
  }

  lemma KnownStays(s: State, t: State, u: nat, list: seq<nat>)
    requires Stays(s, t) && AllKnown(s, u, list)
    ensures AllKnown(t, u, list)
  {
    assert Registered(s, t, u);
    forall i | 0 <= i < |list| ensures list[i] < |t.e.nodes| && t.e.nodes[list[i]].graph.Some? {
      assert Registered(s, t, list[i]);
    }
  }

  lemma OwnDeal(s: State, u: nat)
    requires Enabled(s, Deal(u))
    ensures var t := Apply(s, Deal(u)); u < |t.d| && t.d[u].fin == NextDeal(s, u).fin && t.e == s.e
  {
    hide NextDeal;
  }

  lemma OwnPop(s: State, u: nat, x: nat)
    requires Enabled(s, PopHeld(u, x))
    ensures var t := Apply(s, PopHeld(u, x));
      && u < |t.d| && t.d[u].fin.phase.Return? && t.d[u].fin.next == Some(x) && t.d[u].fin.list == [] && t.e == s.e
      && s.d[u].fin.phase.Pop?
  {
  }

  lemma StepDealt(s: State, a: Action, u: nat, list: seq<nat>)
    requires Inv(s) && Enabled(s, a) && u < |s.d| && AllKnown(s, u, list) && a != RunNext(u)
    requires if s.d[u].fin.phase.Collect? then a == Deal(u) && list == s.d[u].fin.list else Dealt(s, u, list, s.d[u].fin)
    ensures u < |Apply(s, a).d| && AllKnown(Apply(s, a), u, list) && Dealt(Apply(s, a), u, list, Apply(s, a).d[u].fin)
  {
    hide Inv, Enabled, Apply, Stays, Dealt, AllKnown, NextDeal;
    var t := Apply(s, a);
    At(s, u);
    StepStays(s, a);
    KnownStays(s, t, u, list);
    if a == Deal(u) {
      DealDealt(s, u, list);
      OwnDeal(s, u);
      StepKeeps(s, a);
      if t.d[u].fin.next.Some? {
        NextKnown(t, u);
      }
      DealtStays(s, t, u, list, t.d[u].fin, t.d[u].fin);
    } else if a.PopHeld? && a.u == u {
      HeldIsOwn(s, u, a.x);
      OwnPop(s, u, a.x);
      StepKeeps(s, a);
      NextKnown(t, u);
      PopDealt(s, u, list, a.x, t.d[u].fin);
      DealtStays(s, t, u, list, t.d[u].fin, t.d[u].fin);
    } else {
      assert s.e.nodes[u].fin.FDone? by { IsDone(s, u, list); }
      OthersHands(s, a, u);
      if s.d[u].fin.next.Some? {
        NextKnown(s, u);
      }
      DealtStays(s, t, u, list, s.d[u].fin, t.d[u].fin);
    }
  }

  lemma IsDone(s: State, u: nat, list: seq<nat>)
    requires u < |s.d| && |s.d| == |s.e.nodes| && HandOk(s, u) && Dealt(s, u, list, s.d[u].fin)
    ensures s.e.nodes[u].fin.FDone?
  {
  }

  /** The nodes a finish has made ready are registered, and so is its own. */
  lemma CollectedKnown(s: State, u: nat)
    requires Inv(s) && u < |s.d| && s.d[u].run.Finishing?
    ensures AllKnown(s, u, s.d[u].fin.list)
  {
    hide PlacesOk, LimsOk;
    assert RunOk(s, u) && HandOk(s, u);
    EdgesTheorems.ReachableInv(s.e);
    ReleasedOnce(s.e, u);
    assert Edges.CountOk(s.e.nodes[u]);
    forall i | 0 <= i < |s.d[u].fin.list| ensures s.d[u].fin.list[i] < |s.e.nodes| && s.e.nodes[s.d[u].fin.list[i]].graph.Some? {
      assert s.d[u].fin.list[i] in s.d[u].fin.list;
    }
  }

  lemma DealtIsLater(s: State, u: nat, list: seq<nat>, f: Hand)
    requires Dealt(s, u, list, f)
    ensures !f.phase.Collect?
  {
  }

  // ---------------------------------------------------------------- over whole runs

  lemma {:induction false} RunDealt(states: seq<State>, acts: seq<Action>, i: nat, n: nat, u: nat)
    requires IsRun(states, acts) && i < n <= |acts| && acts[i] == Deal(u)
    requires u < |states[i].d| && states[i].d[u].fin.phase.Collect?
    requires forall j | i <= j < n :: acts[j] != RunNext(u)
    ensures u < |states[n].d| && var list := states[i].d[u].fin.list;
      AllKnown(states[n], u, list) && Dealt(states[n], u, list, states[n].d[u].fin)
  {
    hide Inv, Dealt, AllKnown;
    var list := states[i].d[u].fin.list;
    RunKeeps(states, acts, n - 1);
    if n - 1 == i {
      CollectedKnown(states[i], u);
    } else {
      RunDealt(states, acts, i, n - 1, u);
      DealtIsLater(states[n - 1], u, list, states[n - 1].d[u].fin);
    }
    StepDealt(states[n - 1], acts[n - 1], u, list);
  }

  /**
   * The node a worker goes on with after node u, of those u has made ready: the first after the
   * first of all that is wanted, so of the limited graph of u, or of no limited graph if u is of
   * none. Without one it is the first of all, if that is wanted. If not, or with none made
   * ready, a limited graph may give a held node of its own instead. That node then runs.
   */
  lemma WorkerGoesOnWith(states: seq<State>, acts: seq<Action>, i: nat, n: nat, u: nat)
    requires IsRun(states, acts) && i < n < |acts| && acts[i] == Deal(u)
    requires u < |states[i].d| && states[i].d[u].fin.phase.Collect?
    requires acts[n] == RunNext(u) && forall j | i <= j < n :: acts[j] != RunNext(u)
    ensures u < |states[n].d| && states[n].d[u].fin.next.Some?
    ensures var (list, x) := (states[i].d[u].fin.list, states[n].d[u].fin.next.value);
      && Chosen(states[n], u, list, Some(x))
      && x < |states[n + 1].d| && states[n + 1].d[x].run.Taken? && states[n + 1].d[u].fin.next.None?
  {
    hide Inv, Chosen, AllKnown;
    RunDealt(states, acts, i, n, u);
    RunKeeps(states, acts, n);
    NextReturned(states[n], u);
    assert Enabled(states[n], acts[n]) && states[n + 1] == Apply(states[n], acts[n]);
    NextTaken(states[n], u);
  }

  lemma NextReturned(s: State, u: nat)
    requires Inv(s) && Enabled(s, RunNext(u))
    ensures s.d[u].fin.phase.Return?
  {
    At(s, u);
  }

  lemma NextTaken(s: State, u: nat)
    requires Inv(s) && Enabled(s, RunNext(u))
    ensures var (x, t) := (s.d[u].fin.next.value, Apply(s, RunNext(u)));
      x < |t.d| && t.d[x].run.Taken? && u < |t.d| && t.d[u].fin.next.None?
  {
    At(s, u);
  }

  // ---------------------------------------------------------------- the workers

  lemma Fewer(a: set<nat>, b: set<nat>)
    requires a <= b
    ensures |a| <= |b|
  {
    if b != {} {
      var x :| x in b;
      Fewer(a - {x}, b - {x});
      assert x in a ==> a == (a - {x}) + {x};
      assert x !in a ==> a == a - {x};
    }
  }

  /** The operations on edges, calls, queues and slots leave what a node does as it is. */
  lemma CallRuns(s: State, c: Call, v: nat)
    requires v < |s.d|
    ensures |CallStep(s, c).d| == |s.d| && CallStep(s, c).d[v].run == s.d[v].run
  {
  }

  lemma DealRuns(s: State, u: nat, v: nat)
    requires Enabled(s, Deal(u)) && v < |s.d|
    ensures |DealStep(s, u).d| == |s.d| && DealStep(s, u).d[v].run == s.d[v].run
  {
    hide NextDeal;
  }

  lemma PopRuns(s: State, u: nat, x: nat, v: nat)
    requires Enabled(s, PopHeld(u, x)) && v < |s.d|
    ensures |PopStep(s, u, x).d| == |s.d| && PopStep(s, u, x).d[v].run == s.d[v].run
  {
  }

  lemma BitRuns(s: State, u: nat, id: nat, v: nat)
    requires Enabled(s, FinBit(u, id)) && v < |s.d|
    ensures var t := Notify(s, Edges.Apply(s.e, Edges.FinBit(u, id)), u, Edges.BitTarget(s.e, u, id));
      |t.d| == |s.d| && t.d[v].run == s.d[v].run
  {
    hide Edges.Apply;
  }

  lemma FinRuns(s: State, u: nat, v: nat)
    requires Enabled(s, Fin(u)) && v < |s.d|
    ensures |FinStep(s, u).d| == |s.d|
    ensures FinStep(s, u).d[v].run == s.d[v].run || (v == u && s.d[u].run.Running? && FinStep(s, u).d[v].run.Finishing?)
  {
    hide Edges.Apply;
  }

  /** Who owns a thread: a node taken, running, asking or finishing. */
  predicate AtWork(r: Run) {
    r.Taken? || r.Running? || r.Asking? || r.Finishing?
  }

  /** Taken by an idle worker, or by one that is through with its last node, or a task resumed. */
  predicate SetToWork(s: State, a: Action, v: nat) {
    a == Take(v) || (a.RunNext? && a.u < |s.d| && s.d[a.u].fin.next == Some(v)) || (a.Resume? && a.b < |s.d| && s.d[a.b].helps == Some(v))
  }

  lemma WhoWorks(s: State, a: Action, v: nat)
    requires Enabled(s, a) && v < |s.d|
    ensures v < |Apply(s, a).d|
    ensures AtWork(Apply(s, a).d[v].run) ==> AtWork(s.d[v].run) || SetToWork(s, a, v)
    ensures Apply(s, a).d[v].run.Over? ==> s.d[v].run.Over? || a == Recover(v) || a == Resume(v)
  {
    hide Edges.Apply, Edges.Enabled, CallStep, DealStep, PopStep, Notify, FinStep, CallNext, Limited;
    match a
    case MakeCall(w) => CallRuns(s, s.d[w].make, v);
    case FinCall(w) => CallRuns(s, s.d[w].fin.call, v);
    case Deal(w) => DealRuns(s, w, v);
    case PopHeld(w, x) => PopRuns(s, w, x, v);
    case Fin(w) => FinRuns(s, w, v);
    case FinBit(w, id) => BitRuns(s, w, id, v);
    case _ => TurnRuns(s, a, v);
  }

  lemma TurnRuns(s: State, a: Action, v: nat)
    requires Enabled(s, a) && v < |s.d|
    requires !a.MakeCall? && !a.FinCall? && !a.Deal? && !a.PopHeld? && !a.Fin? && !a.FinBit?
    ensures v < |Apply(s, a).d|
    ensures AtWork(Apply(s, a).d[v].run) ==> AtWork(s.d[v].run) || SetToWork(s, a, v)
    ensures Apply(s, a).d[v].run.Over? ==> s.d[v].run.Over? || a == Recover(v) || a == Resume(v)
  {
    hide Edges.Apply, Edges.MakeEnabled, Edges.FinEnabled, Edges.ReqOk, CallStep, DealStep, PopStep, Notify, FinStep, CallNext;
  }

  lemma ResumeEnds(s: State, b: nat)
    requires Inv(s) && Enabled(s, Resume(b))
    ensures var t := Apply(s, Resume(b)); b < |t.d| && !IsBusy(t.d[b])
  {
    hide Edges.Apply, Inv;
    At(s, b);
  }

  lemma NextEnds(s: State, u: nat)
    requires Inv(s) && Enabled(s, RunNext(u)) && s.d[u].fin.next != Some(u)
    ensures var t := Apply(s, RunNext(u)); u < |t.d| && !IsBusy(t.d[u])
  {
    hide Inv;
    At(s, u);
  }

  /** Whoever gets busy takes over from a node or task that gives its thread up, but for a node taken by an idle worker. */
  lemma WhoGetsBusy(s: State, a: Action, v: nat)
    requires Inv(s) && Enabled(s, a) && v < |s.d| && v < |Apply(s, a).d| && IsBusy(Apply(s, a).d[v])
    ensures IsBusy(s.d[v]) || SetToWork(s, a, v)
    ensures a.RunNext? && v == a.u ==> s.d[v].fin.next == Some(v)
    ensures a.Resume? ==> v != a.b
  {
    WhoWorks(s, a, v);
    hide Inv, Apply, Edges.Apply, Edges.Enabled;
    if a == RunNext(v) {
      if s.d[v].fin.next != Some(v) {
        NextEnds(s, v);
      }
    } else if a == Resume(v) {
      ResumeEnds(s, v);
    } else if s.d[v].run.Over? {
      At(s, v);
      OthersHands(s, a, v);
    }
  }

  lemma NewNotBusy(s: State, a: Action, v: nat)
    requires Inv(s) && Enabled(s, a) && v < |Apply(s, a).d| && v >= |s.d|
    ensures !IsBusy(Apply(s, a).d[v])
  {
    hide Inv, Edges.Apply, CallStep, DealStep, PopStep, Notify, FinStep, CallNext, Limited;
    match a
    case MakeCall(w) => CallRuns(s, s.d[w].make, w);
    case FinCall(w) => CallRuns(s, s.d[w].fin.call, w);
    case Deal(w) => DealRuns(s, w, w);
    case PopHeld(w, x) => PopRuns(s, w, x, w);
    case Fin(w) => FinRuns(s, w, w);
    case FinBit(w, id) => BitRuns(s, w, id, w);
    case _ =>
  }

  lemma SameWorkers(s: State, a: Action)
    requires Enabled(s, a)
    ensures Apply(s, a).workers == s.workers
  {
    hide Edges.Apply, Edges.Enabled, NextDeal, CallNext;
  }

  lemma Swapped(a: set<nat>, b: set<nat>, out: nat, x: nat)
    requires out in b && a <= b - {out} + {x}
    ensures |a| <= |b|
  {
    Fewer(a, b - {out} + {x});
    assert |b - {out} + {x}| <= |b - {out}| + 1;
  }

  lemma StepBusy(s: State, a: Action)
    requires Inv(s) && Enabled(s, a) && |Busy(s)| <= s.workers
    ensures |Busy(Apply(s, a))| <= Apply(s, a).workers
  {
    hide Inv, Apply, Edges.Apply, Edges.Enabled;
    var t := Apply(s, a);
    SameWorkers(s, a);
    forall v | v in Busy(t)
      ensures v in Busy(s) || SetToWork(s, a, v)
      ensures (a.RunNext? && v == a.u ==> s.d[v].fin.next == Some(v)) && (a.Resume? ==> v != a.b)
    {
      if v < |s.d| {
        WhoGetsBusy(s, a, v);
      } else {
        NewNotBusy(s, a, v);
      }
    }
    match a
    case Take(x) => Fewer(Busy(t), Busy(s) + {x});
    case RunNext(u) => Swapped(Busy(t), Busy(s), u, s.d[u].fin.next.value);
    case Resume(b) => Swapped(Busy(t), Busy(s), b, s.d[b].helps.value);
    case _ => Fewer(Busy(t), Busy(s));
  }

  lemma {:induction false} RunBusy(states: seq<State>, acts: seq<Action>, n: nat)
    requires IsRun(states, acts) && n <= |acts|
    ensures |Busy(states[n])| <= states[n].workers
  {
    if n == 0 {
      assert Busy(states[0]) == {};
    } else {
      RunBusy(states, acts, n - 1);
      RunKeeps(states, acts, n - 1);
      hide Inv, Enabled, Apply;
      StepBusy(states[n - 1], acts[n - 1]);
    }
  }

  /** At no time are more tasks run, finished or about to be run by a worker than there are workers. */
  lemma AtMostWorkers(s: State)
    requires Reachable(s)
    ensures |Busy(s)| <= s.workers
  {
    var states, acts :| IsRun(states, acts) && states[|acts|] == s;
    RunBusy(states, acts, |acts|);
  }
}

/** Without new nodes and new waits every run of the engine ends, with every created node run. */
module DispatchFinite {
  import opened Common
  import opened Dispatch
  import opened DispatchInv
  import opened DispatchSteps
  import opened DispatchRuns
  import opened DispatchTheorems
  import Edges
  import EdgesFinite
  import EdgesTheorems
  import ParallelLimit

  // ---------------------------------------------------------------- the work left

  function CallWork(c: Call): nat {
    match c
    case Idle => 0
    case Ready(_) => 2
    case _ => 1
  }

  function RunWork(r: Run): nat {
    match r
    case NotRun => 3
    case Taken => 2
    case Asking(_) => 2
    case Over => 0
    case _ => 1
  }

  function PhaseWork(p: Phase): nat {
    match p
    case Collect => 6
    case Loop => 5
    case Pop => 3
    case Keep => 1
    case Return => 0
  }

  function HandWork(f: Hand): nat {
    4 * |f.list| + (if f.next.Some? then 1 else 0) + PhaseWork(f.phase) + CallWork(f.call)
  }

  function ItemWork(i: Item): nat {
    CallWork(i.make) + RunWork(i.run) + HandWork(i.fin)
  }

  function Items(d: seq<Item>): nat {
    Sum(d, i => ItemWork(i))
  }

  /** A bound on what the engine has left to do; an operation on the edges may bring four operations here. */
  function Work(s: State): nat {
    5 * EdgesFinite.Work(s.e) + Items(s.d)
  }

  lemma ItemsAt(d: seq<Item>, v: nat, i: Item)
    requires v < |d|
    ensures Items(d[v := i]) == Items(d) - ItemWork(d[v]) + ItemWork(i)
  {
    SumUpdate(d, i => ItemWork(i), v, i);
  }

  /** The history of places costs nothing. */
  lemma ItemsSetAt(s: State, v: nat, p: Place)
    ensures Items(SetAt(s, v, p).d) == Items(s.d) && SetAt(s, v, p).e == s.e
  {
    if v < |s.d| {
      ItemsAt(s.d, v, s.d[v].(at := p));
    }
  }

  lemma CallStepWork(s: State, c: Call)
    ensures Items(CallStep(s, c).d) == Items(s.d) && CallStep(s, c).e == s.e && |CallStep(s, c).d| == |s.d|
    ensures forall x | 0 <= x < |s.d| :: CallStep(s, c).d[x] == s.d[x].(at := CallStep(s, c).d[x].at)
    ensures c != Idle ==> CallWork(CallNext(s, c)) < CallWork(c)
  {
    hide Items;
    match c
    case Push(v) =>
      if Limited(s, v) {
        ItemsSetAt(WithSlots(s, v, ParallelLimit.Push(v)), v, HeldIn(GraphOf(s, v)));
      }
    case Enqueue(v) => ItemsSetAt(s.(tasks := s.tasks + multiset{v}), v, Tasks);
    case _ =>
  }

  // ---------------------------------------------------------------- every operation uses some of it up

  lemma MakeCallLess(s: State, v: nat)
    requires v < |s.d| && !s.d[v].make.Idle?
    ensures Work(MakeCallStep(s, v)) < Work(s)
  {
    hide Items, CallStep, CallNext;
    var c := s.d[v].make;
    CallStepWork(s, c);
    var s1 := CallStep(s, c);
    ItemsAt(s1.d, v, s1.d[v].(make := CallNext(s, c)));
  }

  lemma FinCallLess(s: State, u: nat)
    requires u < |s.d| && !s.d[u].fin.call.Idle?
    ensures Work(FinCallStep(s, u)) < Work(s)
  {
    hide Items, CallStep, CallNext;
    var c := s.d[u].fin.call;
    CallStepWork(s, c);
    var s1 := CallStep(s, c);
    ItemsAt(s1.d, u, s1.d[u].(fin := s1.d[u].fin.(call := CallNext(s, c))));
  }

  lemma DealLess(s: State, u: nat)
    requires Enabled(s, Deal(u))
    ensures Work(DealStep(s, u)) < Work(s)
  {
    hide Items;
    var n := NextDeal(s, u);
    assert HandWork(n.fin) < HandWork(s.d[u].fin) by { NextDealLess(s, u); }
    hide NextDeal;
    ItemsAt(s.d, u, s.d[u].(fin := n.fin));
  }

  lemma NextDealLess(s: State, u: nat)
    requires u < |s.d| && |s.d| == |s.e.nodes| && Known(s, s.d[u].fin.list)
    requires s.d[u].fin.call.Idle? && !s.d[u].fin.phase.Pop? && !s.d[u].fin.phase.Return?
    requires s.d[u].fin.phase.Keep? ==> s.d[u].fin.list != []
    ensures HandWork(NextDeal(s, u).fin) < HandWork(s.d[u].fin)
  {
  }

  lemma PopLess(s: State, u: nat, x: nat)
    requires Enabled(s, PopHeld(u, x))
    ensures Work(PopStep(s, u, x)) < Work(s)
  {
    hide Items;
    var f := s.d[u].fin;
    var s0 := WithSlots(s, u, ParallelLimit.Pop(x));
    ItemsSetAt(s0, x, Finisher(u));
    var s1 := SetAt(s0, x, Finisher(u));
    assert s1.d[u].fin == f && s1.d[u].make == s.d[u].make && s1.d[u].run == s.d[u].run;
    ItemsAt(s1.d, u, s1.d[u].(fin := Hand([], Some(x), Return, if f.list == [] then Idle else Ready(f.list[0]), f.passed)));
  }

  lemma NotifyLess(s: State, e': Edges.State, u: nat, t: nat)
    requires u < |s.d| && EdgesFinite.Work(e') < EdgesFinite.Work(s.e)
    ensures Work(Notify(s, e', u, t)) < Work(s)
  {
    hide Items, EdgesFinite.Work;
    var f := s.d[u].fin.(list := s.d[u].fin.list + [t]);
    ItemsAt(s.d, u, s.d[u].(fin := f));
    ItemsSetAt(SetFin(s.(e := e'), u, f), t, Finisher(u));
  }

  lemma RunLess(s: State, v: nat, i: Item)
    requires v < |s.d| && ItemWork(i) < ItemWork(s.d[v])
    ensures Items(s.d[v := i]) < Items(s.d)
  {
    ItemsAt(s.d, v, i);
  }

  lemma MakeLess(s: State, v: nat)
    requires Enabled(s, Make(v)) && EdgesFinite.Work(Edges.Apply(s.e, Edges.Make(v))) < EdgesFinite.Work(s.e)
    ensures Work(MakeStep(s, v)) < Work(s)
  {
    hide Items, EdgesFinite.Work, Edges.Apply;
    ItemsAt(s.d, v, s.d[v].(make := Ready(v), at := Maker(v)));
  }

  lemma FinLess(s: State, u: nat)
    requires Enabled(s, Fin(u)) && EdgesFinite.Work(Edges.Apply(s.e, Edges.Fin(u))) < EdgesFinite.Work(s.e)
    ensures Work(FinStep(s, u)) < Work(s)
  {
    hide Items, EdgesFinite.Work, Edges.Apply, Notify;
    var e', n := Edges.Apply(s.e, Edges.Fin(u)), s.e.nodes[u];
    ItemsAt(s.d, u, s.d[u].(run := Finishing));
    if n.fin.FList? && n.fin.i < |n.downs| {
      NotifyLess(s, e', u, n.downs[n.fin.i].0);
    }
  }

  lemma BeginLess(s: State, v: nat)
    requires Enabled(s, Begin(v)) && EdgesFinite.Work(Edges.Apply(s.e, Edges.Start(v))) < EdgesFinite.Work(s.e)
    ensures Work(Apply(s, Begin(v))) < Work(s)
  {
    hide Items, EdgesFinite.Work, Edges.Apply;
    RunLess(s, v, s.d[v].(run := Running, starts := s.d[v].starts + 1));
  }

  lemma GiveUpLess(s: State, u: nat)
    requires Enabled(s, GiveUp(u))
    ensures Work(Apply(s, GiveUp(u))) < Work(s)
  {
    hide Items;
    RunLess(s, u, s.d[u].(run := Waiting(s.d[u].run.b)));
  }

  lemma ResumeLess(s: State, b: nat)
    requires Enabled(s, Resume(b)) && EdgesFinite.Work(Edges.Apply(s.e, Edges.Start(b))) < EdgesFinite.Work(s.e)
    ensures Work(Apply(s, Resume(b))) < Work(s)
  {
    hide Items, EdgesFinite.Work, Edges.Apply;
    var u := s.d[b].helps.value;
    RunLess(s, b, s.d[b].(run := Over, at := Gone));
    var d := s.d[b := s.d[b].(run := Over, at := Gone)];
    ItemsAt(d, u, d[u].(run := Running));
  }

  lemma RecoverLess(s: State, u: nat)
    requires Enabled(s, Recover(u))
    ensures Work(Apply(s, Recover(u))) < Work(s)
  {
    hide Items;
    RunLess(s, u, s.d[u].(run := Over, at := Gone));
    RecoverIsFree(s.e, u);
  }

  lemma RecoverIsFree(e: Edges.State, u: nat)
    requires Edges.Enabled(e, Edges.Recover(u))
    ensures EdgesFinite.Work(Edges.Apply(e, Edges.Recover(u))) == EdgesFinite.Work(e)
  {
    SumUpdate(e.nodes, n => EdgesFinite.NodeWork(n), u, e.nodes[u].(status := Edges.Recoverable));
  }

  lemma TakeLess(s: State, v: nat)
    requires Inv(s) && Enabled(s, Take(v))
    ensures Work(Apply(s, Take(v))) < Work(s)
  {
    hide Items, Inv, HandOk;
    At(s, v);
    FoundAt(s, v, Tasks);
    FoundAt(s, v, Exec);
    FoundAt(s, v, Gone);
    RunLess(s, v, s.d[v].(run := Taken, at := Exec));
  }

  lemma NextLess(s: State, u: nat)
    requires Inv(s) && Enabled(s, RunNext(u))
    ensures Work(Apply(s, RunNext(u))) < Work(s)
  {
    hide Items, Inv, HandOk;
    var x := s.d[u].fin.next.value;
    FoundAt(s, x, Finisher(u));
    FoundAt(s, x, Exec);
    FoundAt(s, x, Gone);
    RunLess(s, u, s.d[u].(fin := s.d[u].fin.(next := None)));
    var s1 := SetFin(s, u, s.d[u].fin.(next := None));
    RunLess(s1, x, s1.d[x].(run := Taken, at := Exec));
  }

  /** The operations on the edges among the moves use up work on the edges. */
  lemma EdgesLess(s: State, a: Edges.Action)
    requires Inv(s) && EdgesTheorems.Moves(s.e, a)
    ensures EdgesFinite.Work(Edges.Apply(s.e, a)) < EdgesFinite.Work(s.e)
  {
    hide Inv, EdgesFinite.Work, Edges.Inv, EdgesTheorems.Moves, Edges.Apply;
    ShapeAt(s);
    EdgesTheorems.ReachableInv(s.e);
    EdgesFinite.MoveLess(s.e, a);
  }

  lemma MoveLess(s: State, a: Action)
    requires Inv(s) && Moves(s, a)
    ensures Work(Apply(s, a)) < Work(s)
  {
    hide Inv, Work;
    match a
    case Make(v) => EdgesLess(s, Edges.Make(v)); MakeLess(s, v);
    case MakeCall(v) => MakeCallLess(s, v);
    case Take(v) => TakeLess(s, v);
    case Begin(v) => EdgesLess(s, Edges.Start(v)); BeginLess(s, v);
    case Resume(b) => EdgesLess(s, Edges.Start(b)); ResumeLess(s, b);
    case GiveUp(u) => GiveUpLess(s, u);
    case Fin(u) => EdgesLess(s, Edges.Fin(u)); FinLess(s, u);
    case FinBit(u, id) =>
      EdgesLess(s, Edges.FinBit(u, id));
      NotifyLess(s, Edges.Apply(s.e, Edges.FinBit(u, id)), u, Edges.BitTarget(s.e, u, id));
    case Deal(u) => DealLess(s, u);
    case PopHeld(u, x) => PopLess(s, u, x);
    case FinCall(u) => FinCallLess(s, u);
    case Recover(u) => RecoverLess(s, u);
    case RunNext(u) => NextLess(s, u);
  }

  // ---------------------------------------------------------------- what moves leave alone

  /** Item i helps whom j helped, and has not begun to wait; who has been taken up stays so. */
  predicate KeptItem(j: Item, i: Item) {
    i.helps == j.helps && (HelperOf(i).Some? ==> HelperOf(i) == HelperOf(j)) && (i.run.NotRun? ==> j.run.NotRun?)
  }

  /** And it requires what it required, in the same graph, and stays finished. */
  ghost predicate KeptNode(s: State, t: State, x: nat)
    requires x < |s.d| == |s.e.nodes| && x < |t.d| == |t.e.nodes|
  {
    && t.e.nodes[x].req == s.e.nodes[x].req && t.e.nodes[x].graph == s.e.nodes[x].graph && KeptItem(s.d[x], t.d[x])
    && (Finished(s, x) ==> Finished(t, x))
  }

  ghost predicate KeptSlots(s: State, t: State) {
    && |t.lims| == |s.lims|
    && forall g | 0 <= g < |s.lims| ::
         (t.lims[g].Some? <==> s.lims[g].Some?) && (t.lims[g].Some? ==> t.lims[g].value.parallel == s.lims[g].value.parallel)
  }

  ghost predicate Kept(s: State, t: State) {
    && |t.d| == |s.d| == |s.e.nodes| == |t.e.nodes| && t.workers == s.workers && KeptSlots(s, t)
    && forall x | 0 <= x < |s.d| :: KeptNode(s, t, x)
  }

  /** Node x as others see it; once it is finished it stays so. */
  predicate SameEdges(e: Edges.State, e': Edges.State, x: nat)
    requires x < |e.nodes| && x < |e'.nodes|
  {
    && e'.nodes[x].req == e.nodes[x].req && e'.nodes[x].graph == e.nodes[x].graph
    && (Edges.Done(e.nodes[x].status) ==> Edges.Done(e'.nodes[x].status))
  }

  lemma EdgeKept(e: Edges.State, a: Edges.Action, x: nat)
    requires Edges.Enabled(e, a) && (a.Make? || a.Start? || a.Fin? || a.FinBit? || a.Recover?) && x < |e.nodes|
    ensures var e' := Edges.Apply(e, a);
      |e'.nodes| == |e.nodes| && SameEdges(e, e', x)
  {
    hide Edges.Apply;
    match a
    case Make(v) => MakeFacts(e, v, x);
    case Fin(u) => FinFacts(e, u, x);
    case FinBit(u, id) => FinBitFacts(e, u, id, x);
    case _ => StatusFacts(e, a, x);
  }

  lemma EdgeCount(e: Edges.State, a: Edges.Action)
    requires Edges.Enabled(e, a) && (a.Make? || a.Start? || a.Fin? || a.FinBit? || a.Recover?)
    ensures |Edges.Apply(e, a).nodes| == |e.nodes|
  {
    hide Edges.Apply;
    match a
    case Make(v) => EdgeKept(e, a, v);
    case Start(v) => EdgeKept(e, a, v);
    case Fin(u) => EdgeKept(e, a, u);
    case FinBit(u, _) => EdgeKept(e, a, u);
    case Recover(u) => EdgeKept(e, a, u);
  }

  /** The operation on the edges that a move performs. */
  function OnEdges(a: Action): Option<Edges.Action> {
    match a
    case Make(v) => Some(Edges.Make(v))
    case Begin(v) => Some(Edges.Start(v))
    case Resume(b) => Some(Edges.Start(b))
    case Fin(u) => Some(Edges.Fin(u))
    case FinBit(u, id) => Some(Edges.FinBit(u, id))
    case Recover(u) => Some(Edges.Recover(u))
    case _ => None
  }

  ghost predicate Framed(s: State, t: State) {
    && |t.d| == |s.d| && t.workers == s.workers && KeptSlots(s, t)
    && forall x | 0 <= x < |s.d| :: KeptItem(s.d[x], t.d[x])
  }

  lemma SetFramed(s: State, t: State, v: nat, i: Item)
    requires Framed(s, t) && v < |s.d| && KeptItem(s.d[v], i)
    ensures Framed(s, SetItem(t, v, i))
  {
  }

  lemma SlotsFramed(s: State, v: nat, a: ParallelLimit.Action)
    requires Limited(s, v)
    ensures Framed(s, WithSlots(s, v, a))
  {
  }

  lemma CallFramed(s: State, c: Call)
    ensures Framed(s, CallStep(s, c)) && CallStep(s, c).e == s.e
  {
  }

  lemma DealFramed(s: State, u: nat)
    requires u < |s.d| && |s.d| == |s.e.nodes| && Known(s, s.d[u].fin.list)
    ensures Framed(s, DealStep(s, u)) && DealStep(s, u).e == s.e
  {
    hide NextDeal, WithSlots, Framed;
    var n := NextDeal(s, u);
    SelfFramed(s);
    if n.act.Some? && Limited(s, n.on) {
      SlotsFramed(s, n.on, n.act.value);
      SlotsSame(s, n.on, n.act.value);
      SetFramed(s, WithSlots(s, n.on, n.act.value), u, s.d[u].(fin := n.fin));
    } else {
      SetFramed(s, s, u, s.d[u].(fin := n.fin));
    }
  }

  lemma SelfFramed(s: State)
    ensures Framed(s, s)
  {
  }

  lemma SlotsSame(s: State, v: nat, a: ParallelLimit.Action)
    requires Limited(s, v)
    ensures WithSlots(s, v, a).d == s.d && WithSlots(s, v, a).e == s.e
  {
  }

  lemma PopFramed(s: State, u: nat, x: nat)
    requires u < |s.d| && Limited(s, u)
    ensures Framed(s, PopStep(s, u, x)) && PopStep(s, u, x).e == s.e
  {
    hide WithSlots;
    SlotsFramed(s, u, ParallelLimit.Pop(x));
    SlotsSame(s, u, ParallelLimit.Pop(x));
  }

  lemma NotifyFramed(s: State, e': Edges.State, u: nat, t: nat)
    requires u < |s.d|
    ensures Framed(s, Notify(s, e', u, t)) && Notify(s, e', u, t).e == e'
  {
  }

  lemma FinFramed(s: State, u: nat)
    requires u < |s.d| == |s.e.nodes| && Edges.Enabled(s.e, Edges.Fin(u))
    ensures Framed(s, FinStep(s, u)) && FinStep(s, u).e == Edges.Apply(s.e, Edges.Fin(u))
  {
    hide Edges.Apply;
  }

  /** What a move does to the edges is one operation on them or nothing. */
  lemma MoveFrame(s: State, a: Action)
    requires Moves(s, a)
    ensures Framed(s, Apply(s, a))
    ensures if OnEdges(a).Some? then Edges.Enabled(s.e, OnEdges(a).value) && Apply(s, a).e == Edges.Apply(s.e, OnEdges(a).value)
            else Apply(s, a).e == s.e
  {
    hide Edges.Apply, CallStep, NextDeal, FinStep, DealStep, PopStep, Notify;
    match a
    case MakeCall(v) => CallFramed(s, s.d[v].make);
    case FinCall(u) => CallFramed(s, s.d[u].fin.call);
    case Fin(u) => FinFramed(s, u);
    case FinBit(u, id) => NotifyFramed(s, Edges.Apply(s.e, Edges.FinBit(u, id)), u, Edges.BitTarget(s.e, u, id));
    case Deal(u) => DealFramed(s, u);
    case PopHeld(u, x) => PopFramed(s, u, x);
    case _ =>
  }

  lemma MoveKeeps(s: State, a: Action)
    requires Moves(s, a)
    ensures Kept(s, Apply(s, a))
  {
    hide Enabled, Apply, KeptSlots, KeptItem, SameEdges, KeptNode;
    MoveFrame(s, a);
    SameLengths(s, a);
    EdgeFrame(s, a);
    var t := Apply(s, a);
    forall x | 0 <= x < |s.d| ensures KeptNode(s, t, x) {
      NodeKept(s, t, x);
    }
  }

  lemma NodeKept(s: State, t: State, x: nat)
    requires x < |s.d| == |s.e.nodes| && x < |t.d| == |t.e.nodes| && SameEdges(s.e, t.e, x) && KeptItem(s.d[x], t.d[x])
    ensures KeptNode(s, t, x)
  {
  }

  lemma SameLengths(s: State, a: Action)
    requires Moves(s, a)
    ensures |s.d| == |s.e.nodes|
  {
  }

  lemma EdgeFrame(s: State, a: Action)
    requires Moves(s, a)
    ensures var t := Apply(s, a);
      |t.e.nodes| == |s.e.nodes|
      && forall x | 0 <= x < |s.e.nodes| :: SameEdges(s.e, t.e, x)
  {
    hide Enabled, Apply, KeptSlots, Edges.Apply, Edges.Enabled;
    MoveFrame(s, a);
    var t := Apply(s, a);
    if OnEdges(a).Some? {
      EdgeCount(s.e, OnEdges(a).value);
      forall x | 0 <= x < |s.e.nodes|
        ensures SameEdges(s.e, t.e, x)
      {
        EdgeKept(s.e, OnEdges(a).value, x);
      }
    }
  }

  lemma CreatedIs(s: State, v: nat)
    requires Inv(s) && v < |s.d|
    ensures |s.d| == |s.e.nodes| && (Created(s, v) <==> s.e.nodes[v].graph.Some?)
  {
    hide Inv;
    ShapeAt(s);
    EdgesTheorems.ReachableInv(s.e);
    hide Edges.MakersOk, Edges.BitsOk, Edges.ListsOk, Edges.AllHeld, Edges.AllJust, Edges.NodesOk;
  }

  lemma AheadKept(s: State, t: State, v: nat)
    requires Inv(s) && Inv(t) && Kept(s, t) && v < |s.d|
    ensures Created(t, v) <==> Created(s, v)
    ensures Ahead(t, v) ==> Ahead(s, v)
  {
    hide Inv, KeptSlots;
    assert KeptNode(s, t, v);
    CreatedIs(s, v);
    CreatedIs(t, v);
  }

  lemma LayeredKept(s: State, t: State, rank: seq<nat>)
    requires Inv(s) && Inv(t) && Kept(s, t) && Layered(s, rank)
    ensures Layered(t, rank)
  {
    hide Inv, KeptSlots;
    forall v, k | 0 <= v < |t.d| && Ahead(t, v) && 0 <= k < |t.e.nodes[v].req| && t.e.nodes[v].req[k].Some?
      ensures Below(t, rank, v, k)
    {
      AheadKept(s, t, v);
      assert KeptNode(s, t, v) && Below(s, rank, v, k);
      var u := s.e.nodes[v].req[k].value;
      assert KeptNode(s, t, u);
      AheadKept(s, t, u);
    }
    forall v | 0 <= v < |t.d| && HelperOf(t.d[v]).Some?
      ensures HelperOf(t.d[v]).value < |t.d| && rank[HelperOf(t.d[v]).value] < rank[v]
    {
      assert KeptNode(s, t, v);
    }
  }

  lemma RoomKept(s: State, t: State, rank: seq<nat>)
    requires Inv(s) && Inv(t) && Kept(s, t) && HasRoom(s, rank)
    ensures HasRoom(t, rank)
  {
    hide Inv;
    forall g: nat, x: nat | Upcoming(t, g, x) ensures |Blockers(t, rank, g, x)| < t.lims[g].value.parallel {
      AheadKept(s, t, x);
      assert KeptNode(s, t, x);
      assert Upcoming(s, g, x);
      forall y | y in Blockers(t, rank, g, x) ensures y in Blockers(s, rank, g, x) {
        assert KeptNode(s, t, y);
      }
      SubsetSize(Blockers(t, rank, g, x), Blockers(s, rank, g, x));
    }
  }

  // ---------------------------------------------------------------- runs

  /** A run without new nodes and new waits. */
  ghost predicate IsMoveRun(states: seq<State>, acts: seq<Action>) {
    && |states| == |acts| + 1 && Reachable(states[0])
    && (forall i | 0 <= i < |acts| :: Moves(states[i], acts[i]) && states[i + 1] == Apply(states[i], acts[i]))
  }

  /** Every such run is finite: it is no longer than the work at its start. */
  lemma {:induction false} RunsAreFinite(states: seq<State>, acts: seq<Action>, n: nat)
    requires IsMoveRun(states, acts) && n <= |acts|
    ensures Reachable(states[n]) && n + Work(states[n]) <= Work(states[0])
  {
    if n > 0 {
      RunsAreFinite(states, acts, n - 1);
      hide Reachable, Work, Enabled, Apply, Inv;
      ReachableInv(states[n - 1]);
      MoveLess(states[n - 1], acts[n - 1]);
      ReachableStep(states[n - 1], acts[n - 1]);
    }
  }

  lemma MoveKeepsRoom(s: State, a: Action, rank: seq<nat>)
    requires Reachable(s) && Moves(s, a) && Layered(s, rank) && HasRoom(s, rank)
    ensures Layered(Apply(s, a), rank) && HasRoom(Apply(s, a), rank) && Apply(s, a).workers == s.workers
  {
    hide Reachable, Enabled, Apply, Inv, Layered, HasRoom;
    ReachableInv(s);
    ReachableStep(s, a);
    ReachableInv(Apply(s, a));
    MoveKeeps(s, a);
    LayeredKept(s, Apply(s, a), rank);
    RoomKept(s, Apply(s, a), rank);
  }

  lemma {:induction false} RunKeepsRoom(states: seq<State>, acts: seq<Action>, rank: seq<nat>, n: nat)
    requires IsMoveRun(states, acts) && n <= |acts| && Layered(states[0], rank) && HasRoom(states[0], rank)
    ensures Layered(states[n], rank) && HasRoom(states[n], rank) && states[n].workers == states[0].workers
  {
    hide Reachable, Enabled, Apply, Layered, HasRoom, Work;
    if n > 0 {
      RunKeepsRoom(states, acts, rank, n - 1);
      RunsAreFinite(states, acts, n - 1);
      MoveKeepsRoom(states[n - 1], acts[n - 1], rank);
    }
  }

  /**
   * From any reachable state with a rank that falls along requirements and waits and leaves
   * every upcoming node a slot: whatever the threads do, a run has at most Work(start)
   * operations, and once nothing can move every created node was run exactly once.
   */
  lemma EveryRunCompletes(states: seq<State>, acts: seq<Action>, rank: seq<nat>)
    requires IsMoveRun(states, acts) && Layered(states[0], rank) && HasRoom(states[0], rank) && states[0].workers > 0
    ensures |acts| <= Work(states[0])
    ensures Stuck(states[|acts|]) ==> Complete(states[|acts|]) && NothingHeld(states[|acts|])
  {
    var n := |acts|;
    RunsAreFinite(states, acts, n);
    RunKeepsRoom(states, acts, rank, n);
    hide Reachable, Work, Enabled, Apply, Inv, Layered, HasRoom, Stuck;
    if Stuck(states[n]) {
      StuckMeansComplete(states[n], rank);
    }
  }

  /** And there is a run that leaves nothing to do. */
  lemma {:induction false} RunToTheEnd(s: State) returns (states: seq<State>, acts: seq<Action>)
    requires Reachable(s)
    ensures IsMoveRun(states, acts) && states[0] == s && Stuck(states[|acts|])
    decreases Work(s)
  {
    hide Reachable, Work, Enabled, Apply, Inv;
    if a :| Moves(s, a) {
      ReachableInv(s);
      MoveLess(s, a);
      ReachableStep(s, a);
      var states', acts' := RunToTheEnd(Apply(s, a));
      states, acts := [s] + states', [a] + acts';
      forall i | 0 <= i < |acts| ensures Moves(states[i], acts[i]) && states[i + 1] == Apply(states[i], acts[i]) {
        assert i > 0 ==> Moves(states'[i - 1], acts'[i - 1]);
      }
    } else {
      states, acts := [s], [];
    }
  }
}

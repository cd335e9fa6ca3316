/** Runs of the whole engine that get stuck with a node held, and one that exceeds a limit. */
module DispatchExamples {
  import opened Common
  import opened Dispatch
  import opened DispatchInv
  import opened DispatchSteps
  import opened DispatchRuns
  import opened DispatchTheorems
  import opened DispatchLimit
  import Edges
  import EdgesTheorems
  import ParallelLimit

  /** Node of graph g, registered under that id, with that list, at that point. */
  function NodeAt(g: nat, id: nat, req: seq<Option<nat>>, make: Edges.MakePc): Edges.Node {
    Edges.NewNode().(graph := Some(g), id := id, req := req, make := make)
  }

  /** Made ready at once, without required nodes. */
  function ReadyAt(g: nat, id: nat): Edges.Node {
    NodeAt(g, id, [], Edges.Made).(released := 1)
  }

  function SlotsAt(parallel: nat, mCount: int, active: set<nat>, pushing: set<nat>, queued: set<nat>): Slots {
    ParallelLimit.State(parallel, mCount, active, pushing, queued, 0, active + pushing + queued, {}, 0)
  }

  lemma Go(s: State, a: Action) returns (t: State)
    requires Reachable(s) && Enabled(s, a)
    ensures Reachable(t) && t == Apply(s, a)
  {
    hide Enabled, Apply, Reachable;
    ReachableStep(s, a);
    t := Apply(s, a);
  }

  // ---------------------------------------------------------------- the steps of these runs

  function WithCreated(s: State, g: nat, n: Edges.Node, i: Item): State
    requires g < |s.e.graphs|
  {
    s.(e := Edges.State(s.e.nodes + [n], s.e.graphs[g := s.e.graphs[g] + [|s.d|]]), d := s.d + [i])
  }

  lemma AllocIs(s: State)
    requires |s.d| == |s.e.nodes|
    ensures Enabled(s, Alloc)
    ensures Apply(s, Alloc) == s.(e := s.e.(nodes := s.e.nodes + [Edges.NewNode()]), d := s.d + [NewItem()])
  {
  }

  lemma CreateIs(s: State, v: nat, g: nat, req: seq<Option<nat>>)
    requires v < |s.d| == |s.e.nodes| && g < |s.e.graphs| && Edges.ReqOk(s.e, req)
    requires s.e.nodes[v] == Edges.NewNode() && s.d[v] == NewItem()
    ensures Enabled(s, Create(v, g, req))
    ensures var n := NodeAt(g, |s.e.graphs[g]|, req, Edges.Announced);
      Apply(s, Create(v, g, req)) == s.(e := Edges.State(s.e.nodes[v := n], s.e.graphs[g := s.e.graphs[g] + [v]]))
  {
  }

  lemma MakeReadies(s: State, v: nat)
    requires v < |s.e.nodes| == |s.d| && s.e.nodes[v].make.Announced? && s.e.nodes[v].req == [] && s.d[v].make.Idle?
    ensures Enabled(s, Make(v))
    ensures var n := s.e.nodes[v];
      Apply(s, Make(v)) == s.(
        e := s.e.(nodes := s.e.nodes[v := n.(make := Edges.Made, released := n.released + 1)]),
        d := s.d[v := s.d[v].(make := Ready(v), at := Maker(v))])
  {
  }

  /** A node without required nodes is created and made ready. */
  lemma NewReady(s: State, g: nat) returns (t: State)
    requires Reachable(s) && g < |s.e.graphs|
    ensures Reachable(t) && |s.d| == |s.e.nodes|
    ensures t == WithCreated(s, g, ReadyAt(g, |s.e.graphs[g]|), NewItem().(make := Ready(|s.d|), at := Maker(|s.d|)))
  {
    hide Reachable, Apply, Enabled, Inv;
    ReachableInv(s);
    ShapeAt(s);
    var v := |s.d|;
    AllocIs(s);
    var s1 := Go(s, Alloc);
    ReachableInv(s1);
    ShapeAt(s1);
    CreateIs(s1, v, g, []);
    var s2 := Go(s1, Create(v, g, []));
    MakeReadies(s2, v);
    t := Go(s2, Make(v));
    assert t.e.nodes == s.e.nodes + [ReadyAt(g, |s.e.graphs[g]|)];
    assert t.d == s.d + [NewItem().(make := Ready(v), at := Maker(v))];
  }

  predicate Offered(s: State, v: nat) {
    v < |s.d| && |s.d| == |s.e.nodes| && s.d[v].make == Ready(v) && Limited(s, v) && v !in SlotsOf(s, v).offered
  }

  lemma OfferIs(s: State, v: nat)
    requires Offered(s, v)
    ensures Enabled(s, MakeCall(v))
    ensures var l := SlotsOf(s, v);
      Apply(s, MakeCall(v)) == s.(
        lims := s.lims[GraphOf(s, v) := Some(ParallelLimit.Apply(l, ParallelLimit.Offer(v)))],
        d := s.d[v := s.d[v].(make := if l.mCount >= 0 then Push(v) else Enqueue(v))])
  {
  }

  lemma PushIs(s: State, v: nat)
    requires v < |s.d| == |s.e.nodes| && s.d[v].make == Push(v) && Limited(s, v) && v in SlotsOf(s, v).pushing
    ensures Enabled(s, MakeCall(v))
    ensures var l := SlotsOf(s, v);
      Apply(s, MakeCall(v)) == s.(
        lims := s.lims[GraphOf(s, v) := Some(ParallelLimit.Apply(l, ParallelLimit.Push(v)))],
        d := s.d[v := s.d[v].(make := Idle, at := HeldIn(GraphOf(s, v)))])
  {
    var i := s.d[v].(make := Idle, at := HeldIn(GraphOf(s, v)));
    assert s.d[v := s.d[v].(at := HeldIn(GraphOf(s, v)))][v := i] == s.d[v := i];
  }

  lemma EnqueueIs(s: State, v: nat)
    requires v < |s.d| == |s.e.nodes| && s.d[v].make == Enqueue(v)
    ensures Enabled(s, MakeCall(v))
    ensures Apply(s, MakeCall(v)) == s.(tasks := s.tasks + multiset{v}, d := s.d[v := s.d[v].(make := Idle, at := Tasks)])
  {
    var i := s.d[v].(make := Idle, at := Tasks);
    assert s.d[v := s.d[v].(at := Tasks)][v := i] == s.d[v := i];
  }

  function WithHeld(s: State, v: nat): State
    requires Limited(s, v) && v < |s.d|
  {
    var l := SlotsOf(s, v);
    s.(lims := s.lims[GraphOf(s, v) := Some(l.(mCount := l.mCount + 1, offered := l.offered + {v}, queued := l.queued + {v}))],
       d := s.d[v := s.d[v].(make := Idle, at := HeldIn(GraphOf(s, v)))])
  }

  /** Without a free slot the node is held. */
  lemma Holds(s: State, v: nat) returns (t: State)
    requires Reachable(s) && Offered(s, v) && SlotsOf(s, v).mCount >= 0 && v !in SlotsOf(s, v).pushing
    ensures Reachable(t) && t == WithHeld(s, v)
  {
    hide Reachable, Apply, Enabled;
    OfferIs(s, v);
    var s1 := Go(s, MakeCall(v));
    PushIs(s1, v);
    t := Go(s1, MakeCall(v));
    var l, m := SlotsOf(s, v), SlotsOf(t, v);
    assert m.pushing == l.pushing;
    assert t.lims == WithHeld(s, v).lims;
    assert t.d == WithHeld(s, v).d;
  }

  // ---------------------------------------------------------------- no slot at all

  lemma HeldAlone() returns (s: State)
    ensures Reachable(s) && Stuck(s) && Layered(s, [0]) && !Complete(s)
    ensures FedBy(s, 0) && s.workers > 0
  {
    hide Reachable, Stuck, Apply, Enabled;
    var l := SlotsAt(0, 0, {}, {}, {});
    var s0 := State(Edges.State([], [[]]), [Some(l)], 1, multiset{}, []);
    ReachableStart(s0);
    var s1 := NewReady(s0, 0);
    s := Holds(s1, 0);
    HeldAloneIsStuck(s);
    assert Created(s, 0);
  }

  lemma HeldAloneIsStuck(s: State)
    requires |s.d| == |s.e.nodes| == 1 && s.tasks == multiset{}
    requires s.d[0] == NewItem().(at := HeldIn(0)) && s.e.nodes[0] == ReadyAt(0, 0)
    ensures Stuck(s)
  {
    forall a ensures !Moves(s, a) {
    }
  }

  /** Every limited graph has that many slots, and no task in one waits for others. */
  ghost predicate FedBy(s: State, parallel: nat) {
    && (forall g | 0 <= g < |s.lims| && s.lims[g].Some? :: s.lims[g].value.parallel == parallel)
    && forall v | 0 <= v < |s.d| && HelperOf(s.d[v]).Some? :: !Limited(s, v)
  }

  ghost predicate StuckLayered(s: State, rank: seq<nat>) {
    Reachable(s) && s.workers > 0 && Stuck(s) && Layered(s, rank)
  }

  /** All runs without waiting tasks in limited graphs complete, exactly when such graphs have a slot. */
  lemma CompleteIffSlots(parallel: nat)
    ensures parallel >= 1 <==> forall s, rank | StuckLayered(s, rank) && FedBy(s, parallel) :: Complete(s)
  {
    hide Stuck, Layered, Complete, Reachable;
    if parallel >= 1 {
      forall s, rank | StuckLayered(s, rank) && FedBy(s, parallel) ensures Complete(s) {
        FedHasRoom(s, rank);
        StuckMeansComplete(s, rank);
      }
    } else {
      var s := HeldAlone();
      assert StuckLayered(s, [0]);
    }
  }

  // ---------------------------------------------------------------- a slot that waits for a node of its graph

  function WithTask(s: State, v: nat): State
    requires Limited(s, v) && v < |s.d|
  {
    var l := SlotsOf(s, v);
    s.(lims := s.lims[GraphOf(s, v) := Some(l.(mCount := l.mCount + 1, offered := l.offered + {v}, active := l.active + {v}))],
       tasks := s.tasks + multiset{v}, d := s.d[v := s.d[v].(make := Idle, at := Tasks)])
  }

  /** With a free slot the node goes to the shared queue. */
  lemma Dispatches(s: State, v: nat) returns (t: State)
    requires Reachable(s) && Offered(s, v) && SlotsOf(s, v).mCount < 0
    ensures Reachable(t) && t == WithTask(s, v)
  {
    hide Reachable, Apply, Enabled;
    OfferIs(s, v);
    var s1 := Go(s, MakeCall(v));
    EnqueueIs(s1, v);
    t := Go(s1, MakeCall(v));
    assert t.d == WithTask(s, v).d;
  }

  function WithRunning(s: State, v: nat): State
    requires v < |s.d| && v < |s.e.nodes|
  {
    s.(e := s.e.(nodes := s.e.nodes[v := s.e.nodes[v].(status := Edges.Running)]), tasks := s.tasks - multiset{v},
       d := s.d[v := s.d[v].(run := Running, starts := s.d[v].starts + 1, at := Exec)])
  }

  /** A worker takes the only node there is and runs it. */
  lemma Runs(s: State, v: nat) returns (t: State)
    requires Reachable(s) && |s.d| == |s.e.nodes| && v < |s.d| && v in s.tasks && Busy(s) == {} && s.workers > 0
    requires s.d[v].helps.None? && s.e.nodes[v].released == 1 && s.e.nodes[v].status.Initing?
    ensures Reachable(t) && t == WithRunning(s, v)
  {
    hide Reachable, Apply, Enabled;
    TakeIs(s, v);
    var s1 := Go(s, Take(v));
    BeginIs(s1, v);
    t := Go(s1, Begin(v));
    assert t.d == WithRunning(s, v).d;
  }

  lemma TakeIs(s: State, v: nat)
    requires |s.d| == |s.e.nodes| && v < |s.d| && v in s.tasks && Busy(s) == {} && s.workers > 0
    ensures Enabled(s, Take(v))
    ensures Apply(s, Take(v)) == s.(tasks := s.tasks - multiset{v}, d := s.d[v := s.d[v].(run := Taken, at := Exec)])
  {
  }

  lemma BeginIs(s: State, v: nat)
    requires |s.d| == |s.e.nodes| && v < |s.d| && s.d[v].run.Taken? && s.d[v].helps.None?
    requires s.e.nodes[v].released == 1 && s.e.nodes[v].status.Initing?
    ensures Enabled(s, Begin(v))
    ensures Apply(s, Begin(v)) == s.(
      e := s.e.(nodes := s.e.nodes[v := s.e.nodes[v].(status := Edges.Running)]),
      d := s.d[v := s.d[v].(run := Running, starts := s.d[v].starts + 1)])
  {
  }

  function WithWait(s: State, u: nat, g: nat, x: nat): State
    requires |s.d| == |s.e.nodes| && u < |s.d| && g < |s.e.graphs|
  {
    var s1 := WithCreated(s, g, NodeAt(g, |s.e.graphs[g]|, [Some(x)], Edges.Announced), NewItem().(helps := Some(u)));
    s1.(d := s1.d[u := s1.d[u].(run := Asking(|s.d|))])
  }

  /** Task u will wait until node x is finished: a helper in graph g requires x. */
  lemma Awaits(s: State, u: nat, g: nat, x: nat) returns (t: State)
    requires Reachable(s) && |s.d| == |s.e.nodes| && u < |s.d| && x < |s.d| && s.d[u].run.Running?
    requires g < |s.lims| && |s.lims| == |s.e.graphs| && s.lims[g].None?
    ensures Reachable(t) && t == WithWait(s, u, g, x)
  {
    hide Reachable, Apply, Enabled, Inv;
    AllocIs(s);
    var b := |s.d|;
    var s1 := Go(s, Alloc);
    AwaitIs(s1, u, b, g, x);
    t := Go(s1, Await(u, b, g, [Some(x)]));
    assert t.e.nodes == WithWait(s, u, g, x).e.nodes;
    assert t.d == WithWait(s, u, g, x).d;
  }

  lemma AwaitIs(s: State, u: nat, b: nat, g: nat, x: nat)
    requires |s.d| == |s.e.nodes| && u < |s.d| && b < |s.d| && x < |s.d| && u != b && s.d[u].run.Running?
    requires s.e.nodes[b] == Edges.NewNode() && s.d[b] == NewItem()
    requires g < |s.lims| && |s.lims| == |s.e.graphs| && s.lims[g].None?
    ensures Enabled(s, Await(u, b, g, [Some(x)]))
    ensures var n := NodeAt(g, |s.e.graphs[g]|, [Some(x)], Edges.Announced);
      Apply(s, Await(u, b, g, [Some(x)])) == s.(
        e := Edges.State(s.e.nodes[b := n], s.e.graphs[g := s.e.graphs[g] + [b]]),
        d := s.d[b := NewItem().(helps := Some(u))][u := s.d[u].(run := Asking(b))])
  {
  }

  /** The next operation of create_edges(v), which does not make v ready. */
  lemma MakeIs(s: State, v: nat, e': Edges.State)
    requires v < |s.e.nodes| == |s.d| && s.d[v].make.Idle? && Edges.Enabled(s.e, Edges.Make(v))
    requires e' == Edges.Apply(s.e, Edges.Make(v)) && v < |e'.nodes| && e'.nodes[v].released == s.e.nodes[v].released
    ensures Enabled(s, Make(v)) && Apply(s, Make(v)) == s.(e := e')
  {
    hide Edges.Apply, Edges.Enabled;
  }

  /** v has one required node, x, of another graph, not done and with its lock free. */
  predicate OneEdge(s: State, v: nat, x: nat, n: Edges.Node) {
    && v < |s.e.nodes| == |s.d| && x < |s.e.nodes| && x != v && s.d[v].make.Idle? && s.e.nodes[v] == n
    && n.req == [Some(x)] && n.graph.Some? && n.graph != s.e.nodes[x].graph
    && !Edges.Done(s.e.nodes[x].status) && s.e.nodes[x].lock.Free?
  }

  function WithNode(s: State, v: nat, n: Edges.Node): State
    requires v < |s.e.nodes|
  {
    s.(e := s.e.(nodes := s.e.nodes[v := n]))
  }

  lemma RaiseStep(s: State, v: nat, x: nat, n: Edges.Node) returns (t: State)
    requires Reachable(s) && OneEdge(s, v, x, n) && n.make.Announced?
    ensures Reachable(t) && t == WithNode(s, v, n.(make := Edges.Edge(0, Edges.Begin), wait := n.wait + 1, open := {0}))
  {
    hide Reachable, Apply, Enabled;
    assert Edges.Iota(1) == {0} by {
      assert forall i: nat :: i in Edges.Iota(1) <==> i < 1;
    }
    MakeIs(s, v, Edges.Apply(s.e, Edges.Make(v)));
    t := Go(s, Make(v));
  }

  lemma TestSteps(s: State, v: nat, x: nat, n: Edges.Node) returns (t: State)
    requires Reachable(s) && OneEdge(s, v, x, n) && n.make == Edges.Edge(0, Edges.Begin)
    ensures Reachable(t) && t == WithNode(s, v, n.(make := Edges.Edge(0, Edges.SlowLock)))
  {
    hide Reachable, Apply, Enabled;
    MakeIs(s, v, Edges.Apply(s.e, Edges.Make(v)));
    var s1 := Go(s, Make(v));
    MakeIs(s1, v, Edges.Apply(s1.e, Edges.Make(v)));
    t := Go(s1, Make(v));
    assert t.e.nodes == WithNode(s, v, n.(make := Edges.Edge(0, Edges.SlowLock))).e.nodes;
  }

  lemma LockSteps(s: State, v: nat, x: nat, n: Edges.Node) returns (t: State)
    requires Reachable(s) && OneEdge(s, v, x, n) && n.make == Edges.Edge(0, Edges.SlowLock)
    ensures Reachable(t)
    ensures t == WithNode(WithNode(s, v, n.(make := Edges.Edge(0, Edges.SlowPush))), x, s.e.nodes[x].(lock := Edges.Adder(v)))
  {
    hide Reachable, Apply, Enabled;
    MakeIs(s, v, Edges.Apply(s.e, Edges.Make(v)));
    var s1 := Go(s, Make(v));
    MakeIs(s1, v, Edges.Apply(s1.e, Edges.Make(v)));
    t := Go(s1, Make(v));
    assert t.e.nodes
        == WithNode(WithNode(s, v, n.(make := Edges.Edge(0, Edges.SlowPush))), x, s.e.nodes[x].(lock := Edges.Adder(v))).e.nodes;
  }

  lemma ListStep(s: State, v: nat, x: nat, n: Edges.Node) returns (t: State)
    requires Reachable(s) && v < |s.e.nodes| == |s.d| && x < |s.e.nodes| && x != v && s.d[v].make.Idle? && s.e.nodes[v] == n
    requires n.req == [Some(x)] && n.make == Edges.Edge(0, Edges.SlowPush)
    ensures Reachable(t)
    ensures t == WithNode(WithNode(s, v, n.(make := Edges.Made)), x,
      s.e.nodes[x].(downs := s.e.nodes[x].downs + [(v, 0)], lock := Edges.Free))
  {
    hide Reachable, Apply, Enabled;
    MakeIs(s, v, Edges.Apply(s.e, Edges.Make(v)));
    t := Go(s, Make(v));
  }

  /** All of create_edges(v): v ends in the list of x. */
  lemma Lists(s: State, v: nat, x: nat, n: Edges.Node) returns (t: State)
    requires Reachable(s) && OneEdge(s, v, x, n) && n.make.Announced?
    ensures Reachable(t)
    ensures t == WithNode(WithNode(s, v, n.(make := Edges.Made, wait := n.wait + 1, open := {0})), x,
      s.e.nodes[x].(downs := s.e.nodes[x].downs + [(v, 0)]))
  {
    hide Reachable;
    var s1 := RaiseStep(s, v, x, n);
    var s2 := TestSteps(s1, v, x, s1.e.nodes[v]);
    var s3 := LockSteps(s2, v, x, s2.e.nodes[v]);
    t := ListStep(s3, v, x, s3.e.nodes[v]);
    assert t.e.nodes == WithNode(WithNode(s, v, n.(make := Edges.Made, wait := n.wait + 1, open := {0})), x,
      s.e.nodes[x].(downs := s.e.nodes[x].downs + [(v, 0)])).e.nodes;
  }

  function WithSleep(s: State, u: nat, g: nat, x: nat): State
    requires |s.d| == |s.e.nodes| && u < |s.d| && x < |s.d| && g < |s.e.graphs|
  {
    var n := NodeAt(g, |s.e.graphs[g]|, [Some(x)], Edges.Made).(wait := 1, open := {0});
    var s1 := WithNode(WithCreated(s, g, n, NewItem().(helps := Some(u))), x, s.e.nodes[x].(downs := s.e.nodes[x].downs + [(|s.d|, 0)]));
    s1.(d := s1.d[u := s1.d[u].(run := Waiting(|s.d|))])
  }

  /** All of a wait: create_edges of the helper, and task u gives its context up. */
  lemma Sleeps(s: State, u: nat, g: nat, x: nat) returns (t: State)
    requires Reachable(s) && |s.d| == |s.e.nodes| && u < |s.d| && x < |s.d| && s.d[u].run.Running?
    requires g < |s.lims| && |s.lims| == |s.e.graphs| && s.lims[g].None?
    requires s.e.nodes[x].graph != Some(g) && !Edges.Done(s.e.nodes[x].status) && s.e.nodes[x].lock.Free?
    ensures Reachable(t) && t == WithSleep(s, u, g, x)
  {
    hide Reachable, Apply, Enabled;
    var b := |s.d|;
    var s1 := Awaits(s, u, g, x);
    var s2 := Lists(s1, b, x, s1.e.nodes[b]);
    GiveUpIs(s2, u, b);
    t := Go(s2, GiveUp(u));
    assert t.e.nodes == WithSleep(s, u, g, x).e.nodes && t.d == WithSleep(s, u, g, x).d;
  }

  lemma GiveUpIs(s: State, u: nat, b: nat)
    requires |s.d| == |s.e.nodes| && u < |s.d| && b < |s.d| && s.d[u].run == Asking(b)
    requires s.e.nodes[b].make.Made? && s.d[b].make.Idle?
    ensures Enabled(s, GiveUp(u)) && Apply(s, GiveUp(u)) == s.(d := s.d[u := s.d[u].(run := Waiting(b))])
  {
  }

  /** Whoever has the only slot waits for a node of its own graph, which waits for the slot. */
  lemma WaitsForItsSlot() returns (s: State)
    ensures Reachable(s) && Stuck(s) && Layered(s, [2, 0, 1]) && !Complete(s)
    ensures s.workers > 0 && |s.lims| > 0 && s.lims[0].Some? && s.lims[0].value.parallel == 1
    ensures |s.d| == 3 && s.d[0].run.Waiting? && s.d[1].at == HeldIn(0)
  {
    hide Reachable, Stuck, Apply, Enabled;
    var s0 := State(Edges.State([], [[], []]), [Some(SlotsAt(1, -1, {}, {}, {})), None], 1, multiset{}, []);
    ReachableStart(s0);
    var s1 := NewReady(s0, 0);
    var s2 := Dispatches(s1, 0);
    var s3 := Runs(s2, 0);
    var s4 := NewReady(s3, 0);
    var s5 := Holds(s4, 1);
    s := Sleeps(s5, 0, 1, 1);
    AsleepIsStuck(s, 1);
    assert Created(s, 0);
  }

  /** Each of the first n nodes waits, the others have not been taken up, and nobody has anything in hand. */
  predicate Asleep(s: State, n: nat, v: nat)
    requires v < |s.d| == |s.e.nodes|
  {
    && s.d[v].make.Idle? && s.d[v].fin == EMPTY && s.e.nodes[v].make.Made? && s.e.nodes[v].fin.FNone?
    && (if v < n then s.d[v].run.Waiting? else s.d[v].run.NotRun?)
  }

  lemma AsleepIsStuck(s: State, n: nat)
    requires |s.d| == |s.e.nodes| && s.tasks == multiset{} && forall v | 0 <= v < |s.d| :: Asleep(s, n, v)
    ensures Stuck(s)
  {
    forall a ensures !Moves(s, a) {
      if !a.Alloc? {
        assert NodeOf(a) < |s.d| ==> Asleep(s, n, NodeOf(a));
        AsleepCannotMove(s, n, a);
      }
    }
  }

  function NodeOf(a: Action): nat
    requires !a.Alloc?
  {
    match a
    case Create(x, _, _) => x
    case Await(u, _, _, _) => u
    case GiveUp(u) => u
    case Make(x) => x
    case MakeCall(x) => x
    case Take(x) => x
    case Begin(x) => x
    case Resume(x) => x
    case Fin(u) => u
    case FinBit(u, _) => u
    case Deal(u) => u
    case PopHeld(u, _) => u
    case FinCall(u) => u
    case Recover(u) => u
    case RunNext(u) => u
  }

  lemma AsleepCannotMove(s: State, n: nat, a: Action)
    requires |s.d| == |s.e.nodes| && s.tasks == multiset{} && !a.Alloc?
    requires NodeOf(a) < |s.d| ==> Asleep(s, n, NodeOf(a))
    ensures !Moves(s, a)
  {
  }

  /** Graphs 0 and 1 with one slot each; nodes 0 and 1 have them, and nodes 2 and 3 are held. */
  lemma TwoSlots() returns (s: State)
    ensures Reachable(s) && |s.d| == |s.e.nodes| == 4 && |s.lims| == |s.e.graphs| == 3 && s.workers == 1 && s.tasks == multiset{1}
    ensures s.e.graphs[2] == []
    ensures s.lims[0].Some? && s.lims[0].value.parallel == 1 && s.lims[1].Some? && s.lims[1].value.parallel == 1 && s.lims[2].None?
    ensures s.e.nodes[0] == ReadyAt(0, 0).(status := Edges.Running) && s.e.nodes[1] == ReadyAt(1, 0)
    ensures s.e.nodes[2] == ReadyAt(0, 1) && s.e.nodes[3] == ReadyAt(1, 1)
    ensures s.d[0] == NewItem().(run := Running, starts := 1, at := Exec) && s.d[1] == NewItem().(at := Tasks)
    ensures s.d[2] == NewItem().(at := HeldIn(0)) && s.d[3] == NewItem().(at := HeldIn(1))
  {
    hide Reachable, Apply, Enabled;
    var l := SlotsAt(1, -1, {}, {}, {});
    var s0 := State(Edges.State([], [[], [], []]), [Some(l), Some(l), None], 1, multiset{}, []);
    ReachableStart(s0);
    var s1 := NewReady(s0, 0);
    var s2 := Dispatches(s1, 0);
    var s3 := Runs(s2, 0);
    var s4 := NewReady(s3, 1);
    var s5 := Dispatches(s4, 1);
    var s6 := NewReady(s5, 0);
    var s7 := Holds(s6, 2);
    var s8 := NewReady(s7, 1);
    s := Holds(s8, 3);
  }

  /** Node 0 waits for node 3, and node 1 runs. */
  lemma OneWaits() returns (s: State)
    ensures Reachable(s) && |s.d| == |s.e.nodes| == 5 && |s.lims| == |s.e.graphs| == 3 && s.workers == 1 && s.tasks == multiset{}
    ensures s.lims[0].Some? && s.lims[0].value.parallel == 1 && s.lims[1].Some? && s.lims[1].value.parallel == 1 && s.lims[2].None?
    ensures s.e.nodes[0] == ReadyAt(0, 0).(status := Edges.Running) && s.e.nodes[1] == ReadyAt(1, 0).(status := Edges.Running)
    ensures s.e.nodes[2] == ReadyAt(0, 1) && s.e.nodes[3] == ReadyAt(1, 1).(downs := [(4, 0)])
    ensures s.e.nodes[4] == NodeAt(2, 0, [Some(3)], Edges.Made).(wait := 1, open := {0}) && |s.e.graphs[2]| == 1
    ensures s.d[0] == NewItem().(run := Waiting(4), starts := 1, at := Exec)
    ensures s.d[1] == NewItem().(run := Running, starts := 1, at := Exec)
    ensures s.d[2] == NewItem().(at := HeldIn(0)) && s.d[3] == NewItem().(at := HeldIn(1)) && s.d[4] == NewItem().(helps := Some(0))
  {
    hide Reachable, Apply, Enabled;
    var s1 := TwoSlots();
    var s2 := Sleeps(s1, 0, 2, 3);
    assert Busy(s2) == {};
    s := Runs(s2, 1);
    assert s.tasks == multiset{};
  }

  /**
   * Two graphs with one slot each can block each other: whoever has the slot of one waits for a
   * held node of the other. Neither waits for a node of its own graph.
   */
  lemma GraphsBlockEachOther() returns (s: State)
    ensures Reachable(s) && Stuck(s) && s.workers > 0 && Layered(s, [2, 2, 0, 0, 1, 1]) && !Complete(s)
    ensures |s.lims| == 3 && s.lims[0].Some? && s.lims[0].value.parallel == 1 && s.lims[1].Some? && s.lims[1].value.parallel == 1
    ensures |s.d| == 6 && s.d[0].run == Waiting(4) && s.d[1].run == Waiting(5) && s.d[2].at == HeldIn(0) && s.d[3].at == HeldIn(1)
    ensures s.e.nodes[0].graph == Some(0) && s.e.nodes[4].req == [Some(3)] && s.e.nodes[1].graph == Some(1) && s.e.nodes[5].req == [Some(2)]
  {
    hide Reachable, Stuck, Apply, Enabled;
    var s1 := OneWaits();
    s := Sleeps(s1, 1, 2, 2);
    AsleepIsStuck(s, 2);
    assert Created(s, 0);
  }

  // ---------------------------------------------------------------- an edge between two limited graphs

  /** A node that requires x is created, and listed there. */
  lemma NewListed(s: State, g: nat, x: nat) returns (t: State)
    requires Reachable(s) && g < |s.e.graphs| && x < |s.e.nodes| == |s.d|
    requires s.e.nodes[x].graph != Some(g) && !Edges.Done(s.e.nodes[x].status) && s.e.nodes[x].lock.Free?
    ensures Reachable(t)
    ensures var n := NodeAt(g, |s.e.graphs[g]|, [Some(x)], Edges.Made).(wait := 1, open := {0});
      t == WithNode(WithCreated(s, g, n, NewItem()), x, s.e.nodes[x].(downs := s.e.nodes[x].downs + [(|s.d|, 0)]))
  {
    hide Reachable, Apply, Enabled, Inv;
    var v := |s.d|;
    AllocIs(s);
    var s1 := Go(s, Alloc);
    CreateIs(s1, v, g, [Some(x)]);
    var s2 := Go(s1, Create(v, g, [Some(x)]));
    t := Lists(s2, v, x, s2.e.nodes[v]);
    var n := NodeAt(g, |s.e.graphs[g]|, [Some(x)], Edges.Made).(wait := 1, open := {0});
    var t' := WithNode(WithCreated(s, g, n, NewItem()), x, s.e.nodes[x].(downs := s.e.nodes[x].downs + [(v, 0)]));
    assert t.e.nodes == t'.e.nodes && t.d == t'.d && t.e.graphs == t'.e.graphs;
  }

  /** An operation of finish(u) that counts nothing off. */
  lemma FinIs(s: State, u: nat, e': Edges.State)
    requires u < |s.e.nodes| == |s.d| && Edges.Enabled(s.e, Edges.Fin(u)) && e' == Edges.Apply(s.e, Edges.Fin(u))
    requires !s.e.nodes[u].fin.FNone? && s.d[u].run.Finishing?
    requires s.e.nodes[u].fin.FList? ==> s.e.nodes[u].fin.i >= |s.e.nodes[u].downs|
    ensures Enabled(s, Fin(u)) && Apply(s, Fin(u)) == s.(e := e')
  {
    hide Edges.Apply;
  }

  lemma EndIs(s: State, u: nat)
    requires u < |s.e.nodes| == |s.d| && s.e.nodes[u].fin.FNone? && s.e.nodes[u].status.Running? && s.d[u].run.Running?
    ensures Enabled(s, Fin(u))
    ensures Apply(s, Fin(u)) == WithNode(s, u, s.e.nodes[u].(status := Edges.Finish, fin := Edges.FLock)).(
      d := s.d[u := s.d[u].(run := Finishing)])
  {
  }

  /** Finish of a running node with no bits set, up to its list. */
  lemma Ends(s: State, u: nat) returns (t: State)
    requires Reachable(s) && u < |s.e.nodes| == |s.d| && s.d[u].run.Running?
    requires s.e.nodes[u].fin.FNone? && s.e.nodes[u].status.Running? && s.e.nodes[u].lock.Free? && s.e.nodes[u].fast == map[]
    ensures Reachable(t)
    ensures t == WithNode(s, u,
      s.e.nodes[u].(status := Edges.Finish, lock := Edges.Finisher, bak := Some(map[]), fin := Edges.FList(0))).(
      d := s.d[u := s.d[u].(run := Finishing)])
  {
    hide Reachable, Apply, Enabled;
    EndIs(s, u);
    var s1 := Go(s, Fin(u));
    var s2 := FinGo(s1, u, s1.e.nodes[u].(lock := Edges.Finisher, fin := Edges.FReg));
    var s3 := FinGo(s2, u, s2.e.nodes[u].(fin := Edges.FStore(map[])));
    var none: Edges.Marks := map[];
    assert none.Keys == {};
    var s4 := FinGo(s3, u, s3.e.nodes[u].(bak := Some(map[]), lock := Edges.Free, fin := Edges.FBits({})));
    t := FinGo(s4, u, s4.e.nodes[u].(lock := Edges.Finisher, fin := Edges.FList(0)));
    assert t.e.nodes == s.e.nodes[u := t.e.nodes[u]];
  }

  lemma FinGo(s: State, u: nat, n: Edges.Node) returns (t: State)
    requires Reachable(s) && u < |s.e.nodes| == |s.d| && s.d[u].run.Finishing?
    requires Edges.Enabled(s.e, Edges.Fin(u)) && !s.e.nodes[u].fin.FNone?
    requires s.e.nodes[u].fin.FList? ==> s.e.nodes[u].fin.i >= |s.e.nodes[u].downs|
    requires Edges.Apply(s.e, Edges.Fin(u)) == Edges.Put(s.e, u, n)
    ensures Reachable(t) && t == WithNode(s, u, n)
  {
    hide Reachable, Apply, Enabled, Edges.Apply, Edges.Enabled;
    FinIs(s, u, Edges.Apply(s.e, Edges.Fin(u)));
    t := Go(s, Fin(u));
  }

  /** The list has one entry, which becomes ready. */
  lemma CountsOff(s: State, u: nat, v: nat) returns (t: State)
    requires Reachable(s) && u < |s.e.nodes| == |s.d| && v < |s.d| && u != v && s.d[u].run.Finishing?
    requires s.e.nodes[u].fin == Edges.FList(0) && s.e.nodes[u].downs == [(v, 0)] && s.e.nodes[v].wait == 1
    ensures Reachable(t)
    ensures t == WithNode(WithNode(s, v, s.e.nodes[v].(wait := 0, open := s.e.nodes[v].open - {0}, released := s.e.nodes[v].released + 1)),
      u, s.e.nodes[u].(lock := Edges.Free, fin := Edges.FDone)).(
      d := s.d[u := s.d[u].(fin := s.d[u].fin.(list := s.d[u].fin.list + [v]))][v := s.d[v].(at := Finisher(u))])
  {
    hide Reachable, Apply, Enabled;
    ListIs(s, u, v);
    var s1 := Go(s, Fin(u));
    t := FinGo(s1, u, s1.e.nodes[u].(lock := Edges.Free, fin := Edges.FDone));
    assert t.e.nodes == s.e.nodes[v := t.e.nodes[v]][u := t.e.nodes[u]];
  }

  lemma ListIs(s: State, u: nat, v: nat)
    requires u < |s.e.nodes| == |s.d| && v < |s.d| && u != v && s.d[u].run.Finishing?
    requires s.e.nodes[u].fin == Edges.FList(0) && s.e.nodes[u].downs == [(v, 0)] && s.e.nodes[v].wait == 1
    ensures Enabled(s, Fin(u))
    ensures Apply(s, Fin(u)) == WithNode(WithNode(s, v, Edges.Discharge(s.e.nodes[v], 0)), u, s.e.nodes[u].(fin := Edges.FList(1))).(
      d := s.d[u := s.d[u].(fin := s.d[u].fin.(list := s.d[u].fin.list + [v]))][v := s.d[v].(at := Finisher(u))])
  {
  }

  /** Finish of u, of a limited graph that holds nothing, returns v of another one. */
  lemma Returns(s: State, u: nat, v: nat) returns (t: State)
    requires Reachable(s) && u < |s.e.nodes| == |s.d| && v < |s.d| && u != v && s.d[u].run.Finishing? && s.e.nodes[u].fin.FDone?
    requires Limited(s, u) && Limited(s, v) && GraphOf(s, u) != GraphOf(s, v)
    requires s.d[u].fin == EMPTY.(list := [v]) && SlotsOf(s, u).mCount <= 0
    requires u in SlotsOf(s, u).active && v !in SlotsOf(s, v).offered
    ensures Reachable(t) && t.e == s.e && |t.lims| == |s.lims|
    ensures forall g | 0 <= g < |s.lims| :: t.lims[g].Some? <==> s.lims[g].Some?
    ensures t.lims[GraphOf(s, v)] == Some(ParallelLimit.Apply(SlotsOf(s, v), ParallelLimit.Bypass(v)))
  {
    hide Reachable, Apply, Enabled;
    DealIs(s, u, s.d[u].fin.(phase := Loop));
    var s1 := Go(s, Deal(u));
    LoopIs(s1, u, v);
    var s2 := Go(s1, Deal(u));
    KeepIs(s2, u, v);
    t := Go(s2, Deal(u));
  }

  lemma DealIs(s: State, u: nat, f: Hand)
    requires u < |s.e.nodes| == |s.d| && s.d[u].run.Finishing? && s.e.nodes[u].fin.FDone? && Known(s, s.d[u].fin.list)
    requires s.d[u].fin.phase.Collect? && s.d[u].fin.call.Idle? && f == s.d[u].fin.(phase := Loop)
    ensures Enabled(s, Deal(u)) && Apply(s, Deal(u)) == SetFin(s, u, f)
  {
  }

  lemma LoopIs(s: State, u: nat, v: nat)
    requires u < |s.e.nodes| == |s.d| && v < |s.d| && s.d[u].run.Finishing?
    requires Limited(s, u) && s.e.nodes[v].graph != s.e.nodes[u].graph && s.d[u].fin == EMPTY.(list := [v], phase := Loop)
    requires SlotsOf(s, u).mCount <= 0
    ensures Enabled(s, Deal(u))
    ensures Apply(s, Deal(u)) == SetFin(WithSlots(s, u, ParallelLimit.Retire(u)), u, s.d[u].fin.(phase := Keep, passed := true))
  {
  }

  lemma KeepIs(s: State, u: nat, v: nat)
    requires u < |s.e.nodes| == |s.d| && v < |s.d| && s.d[u].run.Finishing?
    requires s.d[u].fin == EMPTY.(list := [v], phase := Keep, passed := true) && Limited(s, v)
    ensures Enabled(s, Deal(u))
    ensures Apply(s, Deal(u)) == SetFin(WithSlots(s, v, ParallelLimit.Bypass(v)), u,
      s.d[u].fin.(list := [], next := Some(v), phase := Return))
  {
  }

  /** A graph with one slot, which node v has. */
  predicate OneSlot(l: Slots, v: nat) {
    l.parallel == 1 && l.mCount == 0 && l.active == {v} && l.offered == {v}
  }

  /** A node runs in graph 0, one of graph 1 is dispatched, and another of graph 1 requires the first. */
  lemma TwoGraphs() returns (s: State)
    ensures Reachable(s) && |s.d| == |s.e.nodes| == 3 && |s.lims| == 2
    ensures s.lims[0].Some? && OneSlot(s.lims[0].value, 0) && s.lims[1].Some? && OneSlot(s.lims[1].value, 1)
    ensures s.e.nodes[0] == ReadyAt(0, 0).(status := Edges.Running, downs := [(2, 0)]) && s.d[0].run.Running? && s.d[0].fin == EMPTY
    ensures s.e.nodes[2] == NodeAt(1, 1, [Some(0)], Edges.Made).(wait := 1, open := {0})
  {
    hide Reachable, Apply, Enabled;
    var l := SlotsAt(1, -1, {}, {}, {});
    var s0 := State(Edges.State([], [[], []]), [Some(l), Some(l)], 1, multiset{}, []);
    ReachableStart(s0);
    var s1 := NewReady(s0, 0);
    var s2 := Dispatches(s1, 0);
    var s3 := Runs(s2, 0);
    var s4 := NewReady(s3, 1);
    var s5 := Dispatches(s4, 1);
    s := NewListed(s5, 1, 0);
  }

  /** A graph with one slot has two nodes dispatched: one of them came over an edge from another limited graph. */
  lemma CrossingOverruns() returns (s: State)
    ensures Reachable(s) && |s.lims| == 2 && s.lims[0].Some? && s.lims[1].Some?
    ensures s.lims[1].value.parallel == 1 && |s.lims[1].value.active| == 2 && !NoCross(s.e, s.lims)
  {
    hide Reachable, Apply, Enabled;
    var s1 := TwoGraphs();
    var s2 := Ends(s1, 0);
    var s3 := CountsOff(s2, 0, 2);
    s := Returns(s3, 0, 2);
    assert s.lims[1].value.active == {1, 2};
    assert Edges.IsEdge(s.e.nodes[2], 0, 0) && !SameLimit(s.e, s.lims, 2, 0);
  }
}

/** The other operations keep the dispatch invariant. */
module DispatchSteps {
  import opened Common
  import opened Dispatch
  import opened DispatchInv
  import opened DispatchEdges
  import Edges
  import EdgesTheorems
  import ParallelLimit

  /** What the invariant says of one node, one place, one graph. */
  lemma At(s: State, v: nat)
    requires Inv(s)
    ensures |s.d| == |s.e.nodes| && |s.lims| == |s.e.graphs|
    ensures v < |s.d| ==> RunOk(s, v) && HandOk(s, v) && MakeOk(s, v) && PlaceOk(s, v)
  {
  }

  lemma FoundAt(s: State, v: nat, p: Place)
    requires Inv(s)
    ensures FoundOk(s, v, p)
  {
  }

  lemma LimAt(s: State, g: nat)
    requires Inv(s) && g < |s.lims|
    ensures LimOk(s, g)
  {
  }

  /** All nodes, places and graphs together. */
  ghost predicate NodeOk(s: State, v: nat) {
    v < |s.d| && |s.d| == |s.e.nodes| && RunOk(s, v) && HandOk(s, v) && MakeOk(s, v) && PlaceOk(s, v)
  }

  lemma Assemble(s: State)
    requires Shape(s) && (forall v | 0 <= v < |s.d| :: NodeOk(s, v))
    requires (forall v, p :: FoundOk(s, v, p)) && forall g | 0 <= g < |s.lims| :: LimOk(s, g)
    ensures Inv(s)
  {
    forall v | 0 <= v < |s.d| ensures RunOk(s, v) && HandOk(s, v) && MakeOk(s, v) && PlaceOk(s, v) {
      assert NodeOk(s, v);
    }
  }

  // ---------------------------------------------------------------- making ready

  lemma DeliverKeeps(s: State, s': State, t: nat, p: Place)
    requires Inv(s) && Delivers(s, s', t, p)
    ensures Inv(s')
  {
    hide RunOk, HandOk, MakeOk, PlaceOk, LimOk, FoundOk, Inv, Delivers;
    assert |s'.d| == |s.d| && s'.lims == s.lims && t < |s.d| && |s'.e.nodes| == |s.e.nodes| by { DeliversIs(s, s', t, p); }
    At(s, t);
    forall v | 0 <= v < |s'.d| ensures NodeOk(s', v) {
      At(s, v);
      FoundAt(s, t, Finisher(v));
      MakerIsOwn(s, v);
      DeliverRun(s, s', t, p, v);
      DeliverHand(s, s', t, p, v);
      DeliverPlace(s, s', t, p, v);
    }
    forall v: nat, q ensures FoundOk(s, v, q) && FoundOk(s', v, q) {
      FoundAt(s, v, q);
      DeliverFound(s, s', t, p, v, q);
    }
    forall g | 0 <= g < |s'.lims| ensures LimOk(s', g) {
      LimAt(s, g);
      DeliverLim(s, s', t, p, g);
    }
    ShapeAt(s);
    DeliverShape(s, s', t, p);
    Assemble(s');
  }

  lemma MakerIsOwn(s: State, v: nat)
    requires Inv(s) && v < |s.d|
    ensures s.d[v].at.Maker? ==> s.d[v].at == Maker(v)
  {
    assert PlaceOk(s, v);
    if s.d[v].at.Maker? {
      assert IsAt(s, v, s.d[v].at);
      assert MakeOk(s, s.d[v].at.w);
    }
  }

  lemma DeliversIs(s: State, s': State, t: nat, p: Place)
    requires Delivers(s, s', t, p)
    ensures |s'.d| == |s.d| && s'.lims == s.lims && t < |s.d| && |s'.e.nodes| == |s.e.nodes|
  {
  }

  lemma DeliverShape(s: State, s': State, t: nat, p: Place)
    requires Shape(s) && Delivers(s, s', t, p)
    ensures Shape(s')
  {
  }

  // ---------------------------------------------------------------- operations on the edges

  lemma MakeKeeps(s: State, v: nat)
    requires Inv(s) && Enabled(s, Make(v))
    ensures Inv(Apply(s, Make(v)))
  {
    hide Inv, Edges.Apply, Edges.Enabled, Edges.Inv, RunOk, HandOk, LimOk;
    var s', e' := Apply(s, Make(v)), Edges.Apply(s.e, Edges.Make(v));
    At(s, v);
    assert EdgesTheorems.Reachable(s.e) by { ShapeAt(s); }
    EdgesTheorems.ReachableStep(s.e, Edges.Make(v));
    assert v < |s.d| by { MakeIs(s.e, v); }
    forall x | 0 <= x < |s.e.nodes| ensures SameNode(s.e, e', x) && (x != v ==> SameReleased(s.e, e', x)) {
      MakeFacts(s.e, v, x);
    }
    MakeFacts(s.e, v, v);
    if MadeReady(s.e, e', v) {
      ReadyFacts(s.e, Edges.Make(v), v);
      assert Delivers(s, s', v, Maker(v));
      DeliverKeeps(s, s', v, Maker(v));
    } else {
      assert Quiet(s, s');
      QuietKeeps(s, s');
    }
  }

  lemma ShapeAt(s: State)
    requires Inv(s)
    ensures Shape(s)
  {
  }

  lemma MakeIs(e: Edges.State, v: nat)
    requires Edges.Enabled(e, Edges.Make(v))
    ensures v < |e.nodes|
  {
  }

  /** finish(u) counts an edge of t off. */
  lemma NotifyKeeps(s: State, a: Edges.Action, u: nat, t: nat)
    requires Inv(s) && Edges.Enabled(s.e, a) && u < |s.d| && t < |s.e.nodes| && s.d[u].run.Finishing?
    requires SameNodes(s.e, Edges.Apply(s.e, a)) && t != u && Requires(s.e, t, u) && !s.e.nodes[u].fin.FDone?
    requires forall x | 0 <= x < |s.e.nodes| && x != t :: SameReleased(s.e, Edges.Apply(s.e, a), x)
    requires Edges.Apply(s.e, a).nodes[t].released >= s.e.nodes[t].released
    ensures Inv(Notify(s, Edges.Apply(s.e, a), u, t))
  {
    hide Inv, Edges.Apply, Edges.Enabled, Edges.Inv, RunOk, LimOk;
    var e' := Edges.Apply(s.e, a);
    var s' := Notify(s, e', u, t);
    At(s, u);
    assert EdgesTheorems.Reachable(s.e) by { ShapeAt(s); }
    EdgesTheorems.ReachableStep(s.e, a);
    if MadeReady(s.e, e', t) {
      ReadyFacts(s.e, a, t);
      assert Delivers(s, s', t, Finisher(u));
      DeliverKeeps(s, s', t, Finisher(u));
    } else {
      assert Quiet(s, s');
      QuietKeeps(s, s');
    }
  }

  lemma FinEdgeKeeps(s: State, u: nat)
    requires Inv(s) && Enabled(s, Fin(u)) && !s.e.nodes[u].fin.FNone?
    ensures Inv(Apply(s, Fin(u)))
  {
    hide Inv, Edges.Apply, Edges.Enabled, Edges.Inv, RunOk, HandOk, LimOk;
    var e' := Edges.Apply(s.e, Edges.Fin(u));
    FinIs(s.e, u);
    At(s, u);
    forall x | 0 <= x < |s.e.nodes| ensures SameNode(s.e, e', x) && (FinTarget(s.e, u) != Some(x) ==> SameReleased(s.e, e', x)) {
      FinFacts(s.e, u, x);
    }
    FinFacts(s.e, u, u);
    assert EdgesTheorems.Reachable(s.e) by { ShapeAt(s); }
    if FinTarget(s.e, u).Some? {
      var t := FinTarget(s.e, u).value;
      TargetRequires(s.e, u);
      FinFacts(s.e, u, t);
      NotifyKeeps(s, Edges.Fin(u), u, t);
    } else {
      EdgesTheorems.ReachableStep(s.e, Edges.Fin(u));
      assert Quiet(s, Apply(s, Fin(u)));
      QuietKeeps(s, Apply(s, Fin(u)));
    }
  }

  lemma FinIs(e: Edges.State, u: nat)
    requires Edges.Enabled(e, Edges.Fin(u))
    ensures u < |e.nodes|
  {
  }

  lemma TargetRequires(e: Edges.State, u: nat)
    requires EdgesTheorems.Reachable(e) && Edges.Enabled(e, Edges.Fin(u)) && FinTarget(e, u).Some?
    ensures FinTarget(e, u).value < |e.nodes| && FinTarget(e, u).value != u && Requires(e, FinTarget(e, u).value, u)
  {
    EdgesTheorems.ReachableInv(e);
    var i := e.nodes[u].fin.i;
    assert Edges.EntryFine(e, u, i);
    var (t, k) := e.nodes[u].downs[i];
    assert Edges.IsEdge(e.nodes[t], k, u);
    hide Edges.MakersOk, Edges.BitsOk, Edges.AllHeld, Edges.AllJust, Edges.ListsDistinct;
  }

  lemma FinBitKeeps(s: State, u: nat, id: nat)
    requires Inv(s) && Enabled(s, FinBit(u, id))
    ensures Inv(Apply(s, FinBit(u, id)))
  {
    hide Inv, Edges.Apply, Edges.Enabled, Edges.Inv, RunOk, HandOk, LimOk;
    var e' := Edges.Apply(s.e, Edges.FinBit(u, id));
    assert EdgesTheorems.Reachable(s.e) by { ShapeAt(s); }
    BitRequires(s.e, u, id);
    At(s, u);
    var t := Edges.BitTarget(s.e, u, id);
    forall x | 0 <= x < |s.e.nodes| ensures SameNode(s.e, e', x) && (x != t ==> SameReleased(s.e, e', x)) {
      FinBitFacts(s.e, u, id, x);
    }
    FinBitFacts(s.e, u, id, t);
    NotifyKeeps(s, Edges.FinBit(u, id), u, t);
  }

  lemma BitRequires(e: Edges.State, u: nat, id: nat)
    requires EdgesTheorems.Reachable(e) && Edges.Enabled(e, Edges.FinBit(u, id))
    ensures u < |e.nodes| && Edges.BitTargetOk(e, u, id) && e.nodes[u].fin.FBits?
    ensures Edges.BitTarget(e, u, id) != u && Requires(e, Edges.BitTarget(e, u, id), u)
  {
    EdgesTheorems.ReachableInv(e);
    assert Edges.BitFine(e, u, id);
    assert Edges.IsEdge(e.nodes[Edges.BitTarget(e, u, id)], e.nodes[u].fast[id], u);
    hide Edges.MakersOk, Edges.ListsOk, Edges.AllHeld, Edges.AllJust, Edges.ListsDistinct;
  }

  // ---------------------------------------------------------------- new nodes

  ghost predicate Added(s: State, s': State) {
    && |s.d| == |s.e.nodes| && |s'.d| == |s'.e.nodes| == |s.d| + 1
    && s' == s.(e := s'.e, d := s.d + [NewItem()])
    && s'.e.graphs == s.e.graphs && s'.e.nodes[|s.d|] == Edges.NewNode()
    && forall x | 0 <= x < |s.d| :: s'.e.nodes[x] == s.e.nodes[x]
  }

  lemma AllocNode(s: State, s': State, v: nat)
    requires Added(s, s') && v < |s'.d| && (v < |s.d| ==> NodeOk(s, v)) && s.tasks[v] <= 1
    requires v == |s.d| ==> v !in s.tasks
    ensures NodeOk(s', v)
  {
    if v < |s.d| {
      forall x | x in s'.d[v].fin.list ensures Requires(s'.e, x, v) {
        assert Requires(s.e, x, v);
      }
    }
  }

  lemma AllocFound(s: State, s': State, v: nat, p: Place)
    requires Added(s, s') && FoundOk(s, v, p)
    ensures FoundOk(s', v, p)
  {
  }

  lemma AllocLim(s: State, s': State, g: nat)
    requires Added(s, s') && g < |s.lims| && LimOk(s, g)
    ensures LimOk(s', g)
  {
    if s.lims[g].Some? {
      assert Poppers(s', g) == Poppers(s, g);
      forall t: nat ensures TieOk(s'.lims[g].value, t, SlotIn(s', g, t)) {
        assert TieOk(s.lims[g].value, t, SlotIn(s, g, t));
        assert t < |s.d| ==> SlotOf(s', t) == SlotOf(s, t) by {
          AllocSlot(s, s', t);
        }
      }
    }
  }

  lemma AllocSlot(s: State, s': State, t: nat)
    requires Added(s, s')
    ensures SlotOf(s', t) == SlotOf(s, t)
  {
  }

  lemma AllocShape(s: State, s': State)
    requires Shape(s) && Added(s, s') && s'.e == Edges.Apply(s.e, Edges.Alloc)
    ensures Shape(s')
  {
    hide Edges.Apply;
    assert Edges.Enabled(s.e, Edges.Alloc);
    EdgesTheorems.ReachableStep(s.e, Edges.Alloc);
  }

  lemma AllocKeeps(s: State)
    requires Inv(s)
    ensures Inv(Apply(s, Alloc))
  {
    hide Inv, RunOk, HandOk, MakeOk, PlaceOk, LimOk, FoundOk, Edges.Apply;
    At(s, 0);
    ShapeAt(s);
    var s' := Apply(s, Alloc);
    AllocFacts(s.e, 0);
    forall x | 0 <= x < |s.d| ensures s'.e.nodes[x] == s.e.nodes[x] {
      AllocFacts(s.e, x);
    }
    assert Added(s, s');
    AllocShape(s, s');
    forall v | 0 <= v < |s'.d| ensures NodeOk(s', v) {
      At(s, v);
      FoundAt(s, v, Tasks);
      TasksAt(s, v);
      AllocNode(s, s', v);
    }
    forall v: nat, p ensures FoundOk(s', v, p) {
      FoundAt(s, v, p);
      AllocFound(s, s', v, p);
    }
    forall g | 0 <= g < |s'.lims| ensures LimOk(s', g) {
      LimAt(s, g);
      AllocLim(s, s', g);
    }
    Assemble(s');
  }

  lemma TasksAt(s: State, v: nat)
    requires Inv(s)
    ensures s.tasks[v] <= 1 && (v >= |s.d| ==> v !in s.tasks)
  {
    assert FoundOk(s, v, Tasks);
    assert v < |s.d| ==> PlaceOk(s, v);
  }

  /** Node w gets its graph; it may be the helper of a task that waits from now on. */
  ghost predicate Registers(s: State, s': State, w: nat, g: nat, task: Option<nat>) {
    && |s.d| == |s.e.nodes| == |s'.e.nodes| && w < |s.d| && |s'.e.graphs| == |s.e.graphs|
    && (forall x | 0 <= x < |s.d| && x != w :: s'.e.nodes[x] == s.e.nodes[x])
    && s.e.nodes[w].graph.None? && s.e.nodes[w].released == 0 && s.e.nodes[w].status.Initing? && s.d[w].helps.None?
    && s'.e.nodes[w] == s.e.nodes[w].(graph := Some(g), id := s'.e.nodes[w].id, req := s'.e.nodes[w].req, make := s'.e.nodes[w].make)
    && s' == s.(e := s'.e, d := s'.d)
    && match task
       case None => s'.d == s.d
       case Some(u) =>
         && u < |s.d| && u != w && s.d[u].run.Running? && g < |s.lims| && s.lims[g].None?
         && s'.d == s.d[w := s.d[w].(helps := task)][u := s.d[u].(run := Asking(w))]
  }

  lemma RegisterRun(s: State, s': State, w: nat, g: nat, task: Option<nat>, v: nat)
    requires Registers(s, s', w, g, task) && v < |s.d| && NodeOk(s, v) && NodeOk(s, w)
    requires forall b | 0 <= b < |s.d| && s.d[b].helps.Some? :: HelperOk(s, b)
    ensures v < |s'.d| && |s'.d| == |s'.e.nodes| && RunOk(s', v)
  {
  }

  /** What registering leaves of a node and of its calls. */
  lemma RegisterSame(s: State, s': State, w: nat, g: nat, task: Option<nat>, v: nat)
    requires Registers(s, s', w, g, task) && v < |s.d|
    ensures v < |s'.d| && |s'.d| == |s.d| == |s'.e.nodes| && s'.d[v].fin == s.d[v].fin && s'.d[v].make == s.d[v].make
    ensures s'.d[v].at == s.d[v].at && s'.e.nodes[v].fin == s.e.nodes[v].fin && s'.e.nodes[v].released == s.e.nodes[v].released
    ensures s'.d[v].run.Finishing? <==> s.d[v].run.Finishing?
    ensures s'.d[v].run.Over? <==> s.d[v].run.Over?
    ensures v != w ==> (Limited(s', v) <==> Limited(s, v)) && s'.e.nodes[v].graph == s.e.nodes[v].graph && s'.d[v].helps == s.d[v].helps
  {
  }

  lemma RegisterList(s: State, s': State, w: nat, g: nat, task: Option<nat>, v: nat)
    requires Registers(s, s', w, g, task) && v < |s.d| && HandOk(s, v) && s'.d[v].fin == s.d[v].fin
    ensures forall x | x in s'.d[v].fin.list :: x != w && Requires(s'.e, x, v)
  {
    hide CallOk, Distinct, KeepOk;
    forall x | x in s'.d[v].fin.list ensures x != w && Requires(s'.e, x, v) {
      assert Requires(s.e, x, v);
    }
  }

  lemma RegisterCall(s: State, s': State, w: nat, g: nat, task: Option<nat>, c: Call)
    requires Registers(s, s', w, g, task) && CallOk(s, c)
    ensures CallOk(s', c)
  {
  }

  lemma RegisterHand(s: State, s': State, w: nat, g: nat, task: Option<nat>, v: nat)
    requires Registers(s, s', w, g, task) && v < |s.d| && NodeOk(s, v) && NodeOk(s, w)
    ensures v < |s'.d| && |s'.d| == |s'.e.nodes| && HandOk(s', v) && MakeOk(s', v)
  {
    hide Registers, CallOk, Requires, Distinct, PlaceOk;
    RegisterSame(s, s', w, g, task, v);
    RegisterList(s, s', w, g, task, v);
    RegisterCall(s, s', w, g, task, s.d[v].fin.call);
    RegisterCall(s, s', w, g, task, s.d[v].make);
    RegisterFresh(s, s', w, g, task);
    if s.d[v].fin.phase.Keep? {
      assert s.d[v].fin.list[0] in s.d[v].fin.list;
      RegisterSame(s, s', w, g, task, s.d[v].fin.list[0]);
    }
    assert s.d[v].fin.phase.Keep? ==> KeepOk(s', v);
    assert MakeOk(s', v) && CallOk(s', s'.d[v].fin.call);
    assert forall x | x in s'.d[v].fin.list :: Requires(s'.e, x, v);
  }

  lemma RegisterFresh(s: State, s': State, w: nat, g: nat, task: Option<nat>)
    requires Registers(s, s', w, g, task) && NodeOk(s, w)
    ensures w < |s.d| && s.d[w].fin == EMPTY && !s.d[w].run.Finishing? && !s.d[w].run.Over?
  {
  }

  lemma RegisterPlace(s: State, s': State, w: nat, g: nat, task: Option<nat>, v: nat)
    requires Registers(s, s', w, g, task) && v < |s.d| && NodeOk(s, v)
    ensures v < |s'.d| && |s'.d| == |s'.e.nodes| && PlaceOk(s', v)
  {
    hide Registers, RunOk, HandOk, MakeOk;
    RegisterSame(s, s', w, g, task, v);
    RegisterQueues(s, s', w, g, task, v);
    match s.d[v].at
    case Maker(x) => RegisterSame(s, s', w, g, task, x);
    case Finisher(x) => RegisterSame(s, s', w, g, task, x);
    case _ =>
  }

  lemma RegisterQueues(s: State, s': State, w: nat, g: nat, task: Option<nat>, v: nat)
    requires Registers(s, s', w, g, task) && v < |s.d|
    ensures |s'.d| == |s.d| && s'.lims == s.lims && s'.tasks == s.tasks && (s'.d[v].run.NotRun? <==> s.d[v].run.NotRun?)
  {
  }

  lemma RegisterFound(s: State, s': State, w: nat, g: nat, task: Option<nat>, v: nat, p: Place)
    requires Registers(s, s', w, g, task) && FoundOk(s, v, p)
    ensures FoundOk(s', v, p)
  {
  }

  lemma RegisterSlot(s: State, s': State, w: nat, g: nat, task: Option<nat>, t: nat)
    requires Registers(s, s', w, g, task) && NodeOk(s, w)
    ensures SlotOf(s', t) == SlotOf(s, t) && SlotOf(s, w) == Fresh
  {
  }

  lemma RegisterLim(s: State, s': State, w: nat, g: nat, task: Option<nat>, h: nat)
    requires Registers(s, s', w, g, task) && NodeOk(s, w) && h < |s.lims| && LimOk(s, h)
    ensures LimOk(s', h)
  {
    if s.lims[h].Some? {
      assert Poppers(s', h) == Poppers(s, h);
      forall t: nat ensures TieOk(s'.lims[h].value, t, SlotIn(s', h, t)) {
        assert TieOk(s.lims[h].value, t, SlotIn(s, h, t));
        RegisterSlot(s, s', w, g, task, t);
      }
    }
  }

  lemma RegisterKeeps(s: State, s': State, w: nat, g: nat, task: Option<nat>)
    requires Inv(s) && Registers(s, s', w, g, task) && Shape(s')
    ensures Inv(s')
  {
    hide Inv, RunOk, HandOk, MakeOk, PlaceOk, LimOk, FoundOk, HelperOk, Registers;
    assert |s'.d| == |s.d| && s'.lims == s.lims && w < |s.d| by { RegistersIs(s, s', w, g, task); }
    At(s, w);
    forall b | 0 <= b < |s.d| && s.d[b].helps.Some? ensures HelperOk(s, b) {
      HelperAt(s, b);
    }
    forall v | 0 <= v < |s'.d| ensures NodeOk(s', v) {
      At(s, v);
      RegisterRun(s, s', w, g, task, v);
      RegisterHand(s, s', w, g, task, v);
      RegisterPlace(s, s', w, g, task, v);
    }
    forall v: nat, p ensures FoundOk(s', v, p) {
      FoundAt(s, v, p);
      RegisterFound(s, s', w, g, task, v, p);
    }
    forall h | 0 <= h < |s'.lims| ensures LimOk(s', h) {
      LimAt(s, h);
      RegisterLim(s, s', w, g, task, h);
    }
    Assemble(s');
  }

  lemma RegistersIs(s: State, s': State, w: nat, g: nat, task: Option<nat>)
    requires Registers(s, s', w, g, task)
    ensures |s'.d| == |s.d| && s'.lims == s.lims && w < |s.d|
  {
  }

  lemma HelperAt(s: State, b: nat)
    requires Inv(s) && b < |s.d|
    ensures |s.d| == |s.e.nodes| && HelperOk(s, b)
  {
    assert RunOk(s, b);
  }

  /** What create_edges finds of the node it registers. */
  lemma FreshNode(s: State, w: nat, g: nat, req: seq<Option<nat>>)
    requires Inv(s) && Edges.Enabled(s.e, Edges.Create(w, g, req))
    ensures w < |s.d| && |s.d| == |s.e.nodes| && g < |s.e.graphs|
    ensures s.e.nodes[w].graph.None? && s.e.nodes[w].released == 0 && s.e.nodes[w].status.Initing?
  {
    EdgesTheorems.ReachableInv(s.e);
    assert Edges.CountOk(s.e.nodes[w]);
    hide Edges.MakersOk, Edges.BitsOk, Edges.ListsOk, Edges.AllHeld, Edges.AllJust, Edges.ListsDistinct;
  }

  lemma CreateIs(e: Edges.State, w: nat, g: nat, req: seq<Option<nat>>)
    requires Edges.Enabled(e, Edges.Create(w, g, req))
    ensures w < |e.nodes| && var e' := Edges.Apply(e, Edges.Create(w, g, req));
      && |e'.nodes| == |e.nodes| && |e'.graphs| == |e.graphs|
      && (forall x | 0 <= x < |e.nodes| && x != w :: e'.nodes[x] == e.nodes[x])
      && e'.nodes[w] == e.nodes[w].(graph := Some(g), id := e'.nodes[w].id, req := e'.nodes[w].req, make := e'.nodes[w].make)
  {
  }

  lemma CreateKeeps(s: State, w: nat, g: nat, req: seq<Option<nat>>)
    requires Inv(s) && Enabled(s, Create(w, g, req))
    ensures Inv(Apply(s, Create(w, g, req)))
  {
    hide Inv, Edges.Apply, Edges.Enabled;
    FreshNode(s, w, g, req);
    CreateIs(s.e, w, g, req);
    ShapeAt(s);
    EdgesTheorems.ReachableStep(s.e, Edges.Create(w, g, req));
    RegisterKeeps(s, Apply(s, Create(w, g, req)), w, g, None);
  }

  lemma AwaitKeeps(s: State, u: nat, b: nat, g: nat, req: seq<Option<nat>>)
    requires Inv(s) && Enabled(s, Await(u, b, g, req))
    ensures Inv(Apply(s, Await(u, b, g, req)))
  {
    hide Inv, Edges.Apply, Edges.Enabled;
    FreshNode(s, b, g, req);
    CreateIs(s.e, b, g, req);
    ShapeAt(s);
    EdgesTheorems.ReachableStep(s.e, Edges.Create(b, g, req));
    var s' := Apply(s, Await(u, b, g, req));
    assert s'.d == s.d[b := s.d[b].(helps := Some(u))][u := s.d[u].(run := Asking(b))];
    RegisterKeeps(s, s', b, g, Some(u));
  }

  // ---------------------------------------------------------------- running

  /** Node v changes what it does, and its status with it; `at` is where it is then. */
  ghost predicate Turns(s: State, s': State, v: nat) {
    && |s.d| == |s.e.nodes| == |s'.e.nodes| && |s'.d| == |s.d| && v < |s.d| && |s'.e.graphs| == |s.e.graphs|
    && (forall x | 0 <= x < |s.d| && x != v :: s'.e.nodes[x] == s.e.nodes[x])
    && s'.e.nodes[v] == s.e.nodes[v].(status := s'.e.nodes[v].status, fin := s'.e.nodes[v].fin)
    && s'.lims == s.lims
  }

  /** Begin: the status is still Initing, as run_task asserts, and becomes Running. */
  ghost predicate Begins(s: State, s': State, v: nat) {
    && Turns(s, s', v) && s' == s.(e := s'.e, d := s'.d)
    && s.d[v].run.Taken? && s.d[v].helps.None? && s'.e.nodes[v].status.Running? && s'.e.nodes[v].fin == s.e.nodes[v].fin
    && s'.d == s.d[v := s.d[v].(run := Running, starts := s.d[v].starts + 1)]
  }

  /** The first operation of finish. */
  ghost predicate Ends(s: State, s': State, v: nat) {
    && Turns(s, s', v) && s' == s.(e := s'.e, d := s'.d)
    && s.d[v].run.Running? && s'.e.nodes[v].status.Finish? && s'.e.nodes[v].fin.FLock? && s.e.nodes[v].fin.FNone?
    && s'.d == s.d[v := s.d[v].(run := Finishing)]
  }

  /** The last operation of run_task for a node. */
  ghost predicate Recovers(s: State, s': State, v: nat) {
    && Turns(s, s', v) && s' == s.(e := s'.e, d := s'.d)
    && s.d[v].run.Finishing? && s.d[v].fin.phase.Return? && s.d[v].fin.call.Idle?
    && s'.e.nodes[v].status.Recoverable? && s'.e.nodes[v].fin == s.e.nodes[v].fin
    && s'.d == s.d[v := s.d[v].(run := Over, at := Gone)]
  }

  /** A task gives its context up. */
  ghost predicate GivesUp(s: State, s': State, v: nat) {
    && Turns(s, s', v) && s' == s.(d := s'.d) && s.d[v].run.Asking?
    && s'.d == s.d[v := s.d[v].(run := Waiting(s.d[v].run.b))]
  }

  /** Helper v runs: it is over, and the task it helps goes on. */
  ghost predicate Resumes(s: State, s': State, v: nat, u: nat) {
    && Turns(s, s', v) && s' == s.(e := s'.e, d := s'.d)
    && s.d[v].run.Taken? && s.d[v].helps == Some(u) && u < |s.d| && s.d[u].run == Waiting(v)
    && s'.e.nodes[v].status.Running? && s'.e.nodes[v].fin == s.e.nodes[v].fin
    && s'.d == s.d[v := s.d[v].(run := Over, at := Gone)][u := s.d[u].(run := Running)]
  }

  /** A worker takes node v, from the shared queue or as the node finish of u returned. */
  ghost predicate Takes(s: State, s': State, v: nat, u: Option<nat>) {
    && Turns(s, s', v) && s'.e == s.e && s'.workers == s.workers && s.d[v].run.NotRun?
    && match u
       case None =>
         v in s.tasks && s'.tasks == s.tasks - multiset{v} && s'.d == s.d[v := s.d[v].(run := Taken, at := Exec)]
       case Some(w) =>
         && s'.tasks == s.tasks && w < |s.d| && w != v && s.d[w].run.Over? && s.d[w].fin.next == Some(v)
         && s'.d == s.d[w := s.d[w].(fin := s.d[w].fin.(next := None))][v := s.d[v].(run := Taken, at := Exec)]
  }

  lemma BeginRun(s: State, s': State, v: nat, x: nat)
    requires Begins(s, s', v) && x < |s.d| && NodeOk(s, x) && NodeOk(s, v)
    requires forall b | 0 <= b < |s.d| && s.d[b].helps.Some? :: HelperOk(s, b)
    ensures x < |s'.d| && |s'.d| == |s'.e.nodes| && RunOk(s', x)
  {
  }

  lemma BeginHand(s: State, s': State, v: nat, x: nat)
    requires Begins(s, s', v) && x < |s.d| && NodeOk(s, x) && NodeOk(s, v)
    ensures x < |s'.d| && |s'.d| == |s'.e.nodes| && HandOk(s', x) && MakeOk(s', x)
  {
    forall y | y in s'.d[x].fin.list ensures Requires(s'.e, y, x) {
      assert Requires(s.e, y, x);
      var k :| Edges.IsEdge(s.e.nodes[y], k, x);
      assert Edges.IsEdge(s'.e.nodes[y], k, x);
    }
  }

  lemma BeginFound(s: State, s': State, v: nat, x: nat, q: Place)
    requires Begins(s, s', v) && NodeOk(s, v) && FoundOk(s, x, q) && (forall y, p :: FoundOk(s, y, p))
    ensures FoundOk(s', x, q)
  {
    assert FoundOk(s, v, q);
  }

  lemma BeginPlace(s: State, s': State, v: nat, x: nat)
    requires Begins(s, s', v) && x < |s.d| && NodeOk(s, x) && NodeOk(s, v) && (forall y, p :: FoundOk(s, y, p))
    ensures x < |s'.d| && |s'.d| == |s'.e.nodes| && PlaceOk(s', x)
  {
    assert FoundOk(s, v, Exec) && FoundOk(s, x, Exec) && FoundOk(s, x, Gone) && FoundOk(s, v, Tasks);
  }

  lemma BeginSlot(s: State, s': State, v: nat, t: nat)
    requires Begins(s, s', v) && NodeOk(s, v) && (t < |s.d| ==> NodeOk(s, t)) && (forall y, p :: FoundOk(s, y, p))
    ensures Limited(s, t) ==> SlotOf(s', t) == SlotOf(s, t)
  {
    assert FoundOk(s, v, Exec) && FoundOk(s, v, Tasks);
  }

  lemma GiveUpRun(s: State, s': State, v: nat, x: nat)
    requires GivesUp(s, s', v) && x < |s.d| && NodeOk(s, x) && NodeOk(s, v)
    requires forall b | 0 <= b < |s.d| && s.d[b].helps.Some? :: HelperOk(s, b)
    ensures x < |s'.d| && |s'.d| == |s'.e.nodes| && RunOk(s', x)
  {
  }

  lemma GiveUpHand(s: State, s': State, v: nat, x: nat)
    requires GivesUp(s, s', v) && x < |s.d| && NodeOk(s, x) && NodeOk(s, v)
    ensures x < |s'.d| && |s'.d| == |s'.e.nodes| && HandOk(s', x) && MakeOk(s', x)
  {
    forall y | y in s'.d[x].fin.list ensures Requires(s'.e, y, x) {
      assert Requires(s.e, y, x);
      var k :| Edges.IsEdge(s.e.nodes[y], k, x);
      assert Edges.IsEdge(s'.e.nodes[y], k, x);
    }
  }

  lemma GiveUpFound(s: State, s': State, v: nat, x: nat, q: Place)
    requires GivesUp(s, s', v) && NodeOk(s, v) && FoundOk(s, x, q) && (forall y, p :: FoundOk(s, y, p))
    ensures FoundOk(s', x, q)
  {
    assert FoundOk(s, v, q);
  }

  lemma GiveUpPlace(s: State, s': State, v: nat, x: nat)
    requires GivesUp(s, s', v) && x < |s.d| && NodeOk(s, x) && NodeOk(s, v) && (forall y, p :: FoundOk(s, y, p))
    ensures x < |s'.d| && |s'.d| == |s'.e.nodes| && PlaceOk(s', x)
  {
    assert FoundOk(s, v, Exec) && FoundOk(s, x, Exec) && FoundOk(s, x, Gone) && FoundOk(s, v, Tasks);
  }

  lemma GiveUpSlot(s: State, s': State, v: nat, t: nat)
    requires GivesUp(s, s', v) && NodeOk(s, v) && (t < |s.d| ==> NodeOk(s, t)) && (forall y, p :: FoundOk(s, y, p))
    ensures Limited(s, t) ==> SlotOf(s', t) == SlotOf(s, t)
  {
    assert FoundOk(s, v, Exec) && FoundOk(s, v, Tasks);
  }

  lemma EndRun(s: State, s': State, v: nat, x: nat)
    requires Ends(s, s', v) && x < |s.d| && NodeOk(s, x) && NodeOk(s, v)
    requires forall b | 0 <= b < |s.d| && s.d[b].helps.Some? :: HelperOk(s, b)
    ensures x < |s'.d| && |s'.d| == |s'.e.nodes| && RunOk(s', x)
  {
  }

  lemma EndHand(s: State, s': State, v: nat, x: nat)
    requires Ends(s, s', v) && x < |s.d| && NodeOk(s, x) && NodeOk(s, v)
    ensures x < |s'.d| && |s'.d| == |s'.e.nodes| && HandOk(s', x) && MakeOk(s', x)
  {
    forall y | y in s'.d[x].fin.list ensures Requires(s'.e, y, x) {
      assert Requires(s.e, y, x);
      var k :| Edges.IsEdge(s.e.nodes[y], k, x);
      assert Edges.IsEdge(s'.e.nodes[y], k, x);
    }
  }

  lemma EndFound(s: State, s': State, v: nat, x: nat, q: Place)
    requires Ends(s, s', v) && NodeOk(s, v) && FoundOk(s, x, q) && (forall y, p :: FoundOk(s, y, p))
    ensures FoundOk(s', x, q)
  {
    assert FoundOk(s, v, q);
  }

  lemma EndPlace(s: State, s': State, v: nat, x: nat)
    requires Ends(s, s', v) && x < |s.d| && NodeOk(s, x) && NodeOk(s, v) && (forall y, p :: FoundOk(s, y, p))
    ensures x < |s'.d| && |s'.d| == |s'.e.nodes| && PlaceOk(s', x)
  {
    assert FoundOk(s, v, Exec) && FoundOk(s, x, Exec) && FoundOk(s, x, Gone) && FoundOk(s, v, Tasks);
  }

  lemma EndSlot(s: State, s': State, v: nat, t: nat)
    requires Ends(s, s', v) && NodeOk(s, v) && (t < |s.d| ==> NodeOk(s, t)) && (forall y, p :: FoundOk(s, y, p))
    ensures Limited(s, t) ==> SlotOf(s', t) == SlotOf(s, t)
  {
    assert FoundOk(s, v, Exec) && FoundOk(s, v, Tasks);
  }

  lemma RecoverRun(s: State, s': State, v: nat, x: nat)
    requires Recovers(s, s', v) && x < |s.d| && NodeOk(s, x) && NodeOk(s, v)
    requires forall b | 0 <= b < |s.d| && s.d[b].helps.Some? :: HelperOk(s, b)
    ensures x < |s'.d| && |s'.d| == |s'.e.nodes| && RunOk(s', x)
  {
  }

  lemma RecoverHand(s: State, s': State, v: nat, x: nat)
    requires Recovers(s, s', v) && x < |s.d| && NodeOk(s, x) && NodeOk(s, v)
    ensures x < |s'.d| && |s'.d| == |s'.e.nodes| && HandOk(s', x) && MakeOk(s', x)
  {
    forall y | y in s'.d[x].fin.list ensures Requires(s'.e, y, x) {
      assert Requires(s.e, y, x);
      var k :| Edges.IsEdge(s.e.nodes[y], k, x);
      assert Edges.IsEdge(s'.e.nodes[y], k, x);
    }
  }

  lemma RecoverFound(s: State, s': State, v: nat, x: nat, q: Place)
    requires Recovers(s, s', v) && NodeOk(s, v) && FoundOk(s, x, q) && (forall y, p :: FoundOk(s, y, p))
    ensures FoundOk(s', x, q)
  {
    assert FoundOk(s, v, q) && FoundOk(s, v, Exec);
  }

  lemma RecoverPlace(s: State, s': State, v: nat, x: nat)
    requires Recovers(s, s', v) && x < |s.d| && NodeOk(s, x) && NodeOk(s, v) && (forall y, p :: FoundOk(s, y, p))
    ensures x < |s'.d| && |s'.d| == |s'.e.nodes| && PlaceOk(s', x)
  {
    assert FoundOk(s, v, Exec) && FoundOk(s, x, Exec) && FoundOk(s, x, Gone) && FoundOk(s, v, Tasks);
  }

  lemma RecoverSlot(s: State, s': State, v: nat, t: nat)
    requires Recovers(s, s', v) && NodeOk(s, v) && (t < |s.d| ==> NodeOk(s, t)) && (forall y, p :: FoundOk(s, y, p))
    ensures Limited(s, t) ==> SlotOf(s', t) == SlotOf(s, t)
  {
    assert FoundOk(s, v, Exec) && FoundOk(s, v, Tasks);
  }

  lemma ResumeRun(s: State, s': State, v: nat, u: nat, x: nat)
    requires Resumes(s, s', v, u) && x < |s.d| && NodeOk(s, x) && NodeOk(s, v)
    requires u < |s.d| && NodeOk(s, u)
    requires forall b | 0 <= b < |s.d| && s.d[b].helps.Some? :: HelperOk(s, b)
    ensures x < |s'.d| && |s'.d| == |s'.e.nodes| && RunOk(s', x)
  {
  }

  lemma ResumeHand(s: State, s': State, v: nat, u: nat, x: nat)
    requires Resumes(s, s', v, u) && x < |s.d| && NodeOk(s, x) && NodeOk(s, v)
    ensures x < |s'.d| && |s'.d| == |s'.e.nodes| && HandOk(s', x) && MakeOk(s', x)
  {
    forall y | y in s'.d[x].fin.list ensures Requires(s'.e, y, x) {
      assert Requires(s.e, y, x);
      var k :| Edges.IsEdge(s.e.nodes[y], k, x);
      assert Edges.IsEdge(s'.e.nodes[y], k, x);
    }
  }

  lemma ResumeFound(s: State, s': State, v: nat, u: nat, x: nat, q: Place)
    requires Resumes(s, s', v, u) && NodeOk(s, v) && FoundOk(s, x, q) && (forall y, p :: FoundOk(s, y, p))
    requires u < |s.d| && NodeOk(s, u)
    ensures FoundOk(s', x, q)
  {
    assert FoundOk(s, v, q) && FoundOk(s, v, Exec);
  }

  lemma ResumePlace(s: State, s': State, v: nat, u: nat, x: nat)
    requires Resumes(s, s', v, u) && x < |s.d| && NodeOk(s, x) && NodeOk(s, v) && (forall y, p :: FoundOk(s, y, p))
    ensures x < |s'.d| && |s'.d| == |s'.e.nodes| && PlaceOk(s', x)
  {
    assert FoundOk(s, v, Exec) && FoundOk(s, x, Exec) && FoundOk(s, x, Gone) && FoundOk(s, v, Tasks);
  }

  lemma ResumeSlot(s: State, s': State, v: nat, u: nat, t: nat)
    requires Resumes(s, s', v, u) && NodeOk(s, v) && (t < |s.d| ==> NodeOk(s, t)) && (forall y, p :: FoundOk(s, y, p))
    requires u < |s.d| && NodeOk(s, u)
    ensures Limited(s, t) ==> SlotOf(s', t) == SlotOf(s, t)
  {
    assert FoundOk(s, v, Exec) && FoundOk(s, v, Tasks);
  }

  lemma TakeRun(s: State, s': State, v: nat, x: nat)
    requires Takes(s, s', v, None) && x < |s.d| && NodeOk(s, x) && NodeOk(s, v)
    requires forall b | 0 <= b < |s.d| && s.d[b].helps.Some? :: HelperOk(s, b)
    ensures x < |s'.d| && |s'.d| == |s'.e.nodes| && RunOk(s', x)
  {
  }

  lemma TakeHand(s: State, s': State, v: nat, x: nat)
    requires Takes(s, s', v, None) && x < |s.d| && NodeOk(s, x) && NodeOk(s, v)
    ensures x < |s'.d| && |s'.d| == |s'.e.nodes| && HandOk(s', x) && MakeOk(s', x)
  {
    forall y | y in s'.d[x].fin.list ensures Requires(s'.e, y, x) {
      assert Requires(s.e, y, x);
      var k :| Edges.IsEdge(s.e.nodes[y], k, x);
      assert Edges.IsEdge(s'.e.nodes[y], k, x);
    }
  }

  lemma TakeFound(s: State, s': State, v: nat, x: nat, q: Place)
    requires Takes(s, s', v, None) && NodeOk(s, v) && FoundOk(s, x, q) && (forall y, p :: FoundOk(s, y, p))
    ensures FoundOk(s', x, q)
  {
    assert FoundOk(s, v, q) && FoundOk(s, v, Tasks);
  }

  lemma TakePlace(s: State, s': State, v: nat, x: nat)
    requires Takes(s, s', v, None) && x < |s.d| && NodeOk(s, x) && NodeOk(s, v) && (forall y, p :: FoundOk(s, y, p))
    ensures x < |s'.d| && |s'.d| == |s'.e.nodes| && PlaceOk(s', x)
  {
    assert FoundOk(s, v, Exec) && FoundOk(s, x, Exec) && FoundOk(s, x, Gone) && FoundOk(s, v, Tasks);
  }

  lemma TakeSlot(s: State, s': State, v: nat, t: nat)
    requires Takes(s, s', v, None) && NodeOk(s, v) && (t < |s.d| ==> NodeOk(s, t)) && (forall y, p :: FoundOk(s, y, p))
    ensures Limited(s, t) ==> SlotOf(s', t) == SlotOf(s, t)
  {
    assert FoundOk(s, v, Exec) && FoundOk(s, v, Tasks);
  }

  lemma NextRun(s: State, s': State, v: nat, u: nat, x: nat)
    requires Takes(s, s', v, Some(u)) && x < |s.d| && NodeOk(s, x) && NodeOk(s, v)
    requires u < |s.d| && NodeOk(s, u)
    requires forall b | 0 <= b < |s.d| && s.d[b].helps.Some? :: HelperOk(s, b)
    ensures x < |s'.d| && |s'.d| == |s'.e.nodes| && RunOk(s', x)
  {
  }

  lemma NextHand(s: State, s': State, v: nat, u: nat, x: nat)
    requires Takes(s, s', v, Some(u)) && x < |s.d| && NodeOk(s, x) && NodeOk(s, v)
    ensures x < |s'.d| && |s'.d| == |s'.e.nodes| && HandOk(s', x) && MakeOk(s', x)
  {
    forall y | y in s'.d[x].fin.list ensures Requires(s'.e, y, x) {
      assert Requires(s.e, y, x);
      var k :| Edges.IsEdge(s.e.nodes[y], k, x);
      assert Edges.IsEdge(s'.e.nodes[y], k, x);
    }
  }

  lemma NextFound(s: State, s': State, v: nat, u: nat, x: nat, q: Place)
    requires Takes(s, s', v, Some(u)) && NodeOk(s, v) && FoundOk(s, x, q) && (forall y, p :: FoundOk(s, y, p))
    requires u < |s.d| && NodeOk(s, u)
    ensures FoundOk(s', x, q)
  {
    assert FoundOk(s, v, q) && FoundOk(s, v, Finisher(u));
  }

  lemma NextPlace(s: State, s': State, v: nat, u: nat, x: nat)
    requires Takes(s, s', v, Some(u)) && x < |s.d| && NodeOk(s, x) && NodeOk(s, v) && (forall y, p :: FoundOk(s, y, p))
    ensures x < |s'.d| && |s'.d| == |s'.e.nodes| && PlaceOk(s', x)
  {
    assert FoundOk(s, v, Exec) && FoundOk(s, x, Exec) && FoundOk(s, x, Gone);
    assert FoundOk(s, v, Tasks) && FoundOk(s, v, Finisher(u)) && FoundOk(s, x, Finisher(u));
  }

  lemma NextSlot(s: State, s': State, v: nat, u: nat, t: nat)
    requires Takes(s, s', v, Some(u)) && NodeOk(s, v) && (t < |s.d| ==> NodeOk(s, t)) && (forall y, p :: FoundOk(s, y, p))
    requires u < |s.d| && NodeOk(s, u)
    ensures Limited(s, t) ==> SlotOf(s', t) == SlotOf(s, t)
  {
    assert FoundOk(s, v, Exec) && FoundOk(s, v, Tasks) && FoundOk(s, v, Finisher(u)) && FoundOk(s, t, Finisher(u));
  }
  /** No node changes its slot, so the graphs need no attention. */
  lemma SameLim(s: State, s': State, v: nat, g: nat)
    requires Turns(s, s', v) && g < |s.lims| && LimOk(s, g)
    requires forall t: nat :: Limited(s, t) ==> SlotOf(s', t) == SlotOf(s, t)
    requires forall u | 0 <= u < |s.d| :: s'.d[u].fin.phase == s.d[u].fin.phase
    ensures LimOk(s', g)
  {
    if s.lims[g].Some? {
      assert Poppers(s', g) == Poppers(s, g);
      forall t: nat ensures TieOk(s'.lims[g].value, t, SlotIn(s', g, t)) {
        assert TieOk(s.lims[g].value, t, SlotIn(s, g, t));
      }
    }
  }

  lemma TurnShape(s: State, s': State, v: nat)
    requires Shape(s) && Turns(s, s', v) && EdgesTheorems.Reachable(s'.e)
    ensures Shape(s')
  {
  }

  lemma AllFound(s: State)
    requires Inv(s)
    ensures forall x, q :: FoundOk(s, x, q)
  {
  }

  lemma AllHelpers(s: State)
    requires Inv(s)
    ensures |s.d| == |s.e.nodes|
    ensures forall b | 0 <= b < |s.d| && s.d[b].helps.Some? :: HelperOk(s, b)
  {
    forall b | 0 <= b < |s.d| ensures HelperOk(s, b) {
      assert RunOk(s, b);
    }
  }

  lemma BeginsKept(s: State, s': State, v: nat)
    requires Inv(s) && Begins(s, s', v) && EdgesTheorems.Reachable(s'.e)
    ensures Inv(s')
  {
    hide Inv, RunOk, HandOk, MakeOk, PlaceOk, LimOk, FoundOk, HelperOk, Begins;
    assert Turns(s, s', v) && forall x | 0 <= x < |s.d| :: s'.d[x].fin.phase == s.d[x].fin.phase by { BeginIs(s, s', v); }
    ShapeAt(s);
    TurnShape(s, s', v);
    AllFound(s);
    AllHelpers(s);
    At(s, v);
    forall x | 0 <= x < |s'.d| ensures NodeOk(s', x) {
      At(s, x);
      BeginRun(s, s', v, x);
      BeginHand(s, s', v, x);
      BeginPlace(s, s', v, x);
    }
    forall x: nat, q ensures FoundOk(s', x, q) {
      BeginFound(s, s', v, x, q);
    }
    forall x: nat ensures Limited(s, x) ==> SlotOf(s', x) == SlotOf(s, x) {
      At(s, x);
      BeginSlot(s, s', v, x);
    }
    forall g | 0 <= g < |s'.lims| ensures LimOk(s', g) {
      LimAt(s, g);
      SameLim(s, s', v, g);
    }
    Assemble(s');
  }

  lemma BeginIs(s: State, s': State, v: nat)
    requires Begins(s, s', v)
    ensures Turns(s, s', v) && forall x | 0 <= x < |s.d| :: s'.d[x].fin.phase == s.d[x].fin.phase
  {
  }

  lemma GivesUpKept(s: State, s': State, v: nat)
    requires Inv(s) && GivesUp(s, s', v)
    ensures Inv(s')
  {
    hide Inv, RunOk, HandOk, MakeOk, PlaceOk, LimOk, FoundOk, HelperOk, GivesUp;
    assert Turns(s, s', v) && s'.e == s.e && forall x | 0 <= x < |s.d| :: s'.d[x].fin.phase == s.d[x].fin.phase by { GiveUpIs(s, s', v); }
    ShapeAt(s);
    TurnShape(s, s', v);
    AllFound(s);
    AllHelpers(s);
    At(s, v);
    forall x | 0 <= x < |s'.d| ensures NodeOk(s', x) {
      At(s, x);
      GiveUpRun(s, s', v, x);
      GiveUpHand(s, s', v, x);
      GiveUpPlace(s, s', v, x);
    }
    forall x: nat, q ensures FoundOk(s', x, q) {
      GiveUpFound(s, s', v, x, q);
    }
    forall x: nat ensures Limited(s, x) ==> SlotOf(s', x) == SlotOf(s, x) {
      At(s, x);
      GiveUpSlot(s, s', v, x);
    }
    forall g | 0 <= g < |s'.lims| ensures LimOk(s', g) {
      LimAt(s, g);
      SameLim(s, s', v, g);
    }
    Assemble(s');
  }

  lemma GiveUpIs(s: State, s': State, v: nat)
    requires GivesUp(s, s', v)
    ensures Turns(s, s', v) && s'.e == s.e && forall x | 0 <= x < |s.d| :: s'.d[x].fin.phase == s.d[x].fin.phase
  {
  }

  lemma EndsKept(s: State, s': State, v: nat)
    requires Inv(s) && Ends(s, s', v) && EdgesTheorems.Reachable(s'.e)
    ensures Inv(s')
  {
    hide Inv, RunOk, HandOk, MakeOk, PlaceOk, LimOk, FoundOk, HelperOk, Ends;
    assert Turns(s, s', v) && forall x | 0 <= x < |s.d| :: s'.d[x].fin.phase == s.d[x].fin.phase by { EndIs(s, s', v); }
    ShapeAt(s);
    TurnShape(s, s', v);
    AllFound(s);
    AllHelpers(s);
    At(s, v);
    forall x | 0 <= x < |s'.d| ensures NodeOk(s', x) {
      At(s, x);
      EndRun(s, s', v, x);
      EndHand(s, s', v, x);
      EndPlace(s, s', v, x);
    }
    forall x: nat, q ensures FoundOk(s', x, q) {
      EndFound(s, s', v, x, q);
    }
    forall x: nat ensures Limited(s, x) ==> SlotOf(s', x) == SlotOf(s, x) {
      At(s, x);
      EndSlot(s, s', v, x);
    }
    forall g | 0 <= g < |s'.lims| ensures LimOk(s', g) {
      LimAt(s, g);
      SameLim(s, s', v, g);
    }
    Assemble(s');
  }

  lemma EndIs(s: State, s': State, v: nat)
    requires Ends(s, s', v)
    ensures Turns(s, s', v) && forall x | 0 <= x < |s.d| :: s'.d[x].fin.phase == s.d[x].fin.phase
  {
  }

  lemma RecoversKept(s: State, s': State, v: nat)
    requires Inv(s) && Recovers(s, s', v) && EdgesTheorems.Reachable(s'.e)
    ensures Inv(s')
  {
    hide Inv, RunOk, HandOk, MakeOk, PlaceOk, LimOk, FoundOk, HelperOk, Recovers;
    assert Turns(s, s', v) && forall x | 0 <= x < |s.d| :: s'.d[x].fin.phase == s.d[x].fin.phase by { RecoverIs(s, s', v); }
    ShapeAt(s);
    TurnShape(s, s', v);
    AllFound(s);
    AllHelpers(s);
    At(s, v);
    forall x | 0 <= x < |s'.d| ensures NodeOk(s', x) {
      At(s, x);
      RecoverRun(s, s', v, x);
      RecoverHand(s, s', v, x);
      RecoverPlace(s, s', v, x);
    }
    forall x: nat, q ensures FoundOk(s', x, q) {
      RecoverFound(s, s', v, x, q);
    }
    forall x: nat ensures Limited(s, x) ==> SlotOf(s', x) == SlotOf(s, x) {
      At(s, x);
      RecoverSlot(s, s', v, x);
    }
    forall g | 0 <= g < |s'.lims| ensures LimOk(s', g) {
      LimAt(s, g);
      SameLim(s, s', v, g);
    }
    Assemble(s');
  }

  lemma RecoverIs(s: State, s': State, v: nat)
    requires Recovers(s, s', v)
    ensures Turns(s, s', v) && forall x | 0 <= x < |s.d| :: s'.d[x].fin.phase == s.d[x].fin.phase
  {
  }

  lemma ResumesKept(s: State, s': State, v: nat, u: nat)
    requires Inv(s) && Resumes(s, s', v, u) && EdgesTheorems.Reachable(s'.e) && u < |s.d|
    ensures Inv(s')
  {
    hide Inv, RunOk, HandOk, MakeOk, PlaceOk, LimOk, FoundOk, HelperOk, Resumes;
    assert Turns(s, s', v) && forall x | 0 <= x < |s.d| :: s'.d[x].fin.phase == s.d[x].fin.phase by { ResumeIs(s, s', v, u); }
    ShapeAt(s);
    TurnShape(s, s', v);
    AllFound(s);
    AllHelpers(s);
    At(s, v);
    At(s, u);
    forall x | 0 <= x < |s'.d| ensures NodeOk(s', x) {
      At(s, x);
      ResumeRun(s, s', v, u, x);
      ResumeHand(s, s', v, u, x);
      ResumePlace(s, s', v, u, x);
    }
    forall x: nat, q ensures FoundOk(s', x, q) {
      ResumeFound(s, s', v, u, x, q);
    }
    forall x: nat ensures Limited(s, x) ==> SlotOf(s', x) == SlotOf(s, x) {
      At(s, x);
      ResumeSlot(s, s', v, u, x);
    }
    forall g | 0 <= g < |s'.lims| ensures LimOk(s', g) {
      LimAt(s, g);
      SameLim(s, s', v, g);
    }
    Assemble(s');
  }

  lemma ResumeIs(s: State, s': State, v: nat, u: nat)
    requires Resumes(s, s', v, u)
    ensures Turns(s, s', v) && forall x | 0 <= x < |s.d| :: s'.d[x].fin.phase == s.d[x].fin.phase
  {
  }

  lemma TakesKept(s: State, s': State, v: nat)
    requires Inv(s) && Takes(s, s', v, None) && EdgesTheorems.Reachable(s'.e)
    ensures Inv(s')
  {
    hide Inv, RunOk, HandOk, MakeOk, PlaceOk, LimOk, FoundOk, HelperOk, Takes;
    assert Turns(s, s', v) && forall x | 0 <= x < |s.d| :: s'.d[x].fin.phase == s.d[x].fin.phase by { TakeIs(s, s', v); }
    ShapeAt(s);
    TurnShape(s, s', v);
    AllFound(s);
    AllHelpers(s);
    At(s, v);
    forall x | 0 <= x < |s'.d| ensures NodeOk(s', x) {
      At(s, x);
      TakeRun(s, s', v, x);
      TakeHand(s, s', v, x);
      TakePlace(s, s', v, x);
    }
    forall x: nat, q ensures FoundOk(s', x, q) {
      TakeFound(s, s', v, x, q);
    }
    forall x: nat ensures Limited(s, x) ==> SlotOf(s', x) == SlotOf(s, x) {
      At(s, x);
      TakeSlot(s, s', v, x);
    }
    forall g | 0 <= g < |s'.lims| ensures LimOk(s', g) {
      LimAt(s, g);
      SameLim(s, s', v, g);
    }
    Assemble(s');
  }

  lemma TakeIs(s: State, s': State, v: nat)
    requires Takes(s, s', v, None)
    ensures Turns(s, s', v) && forall x | 0 <= x < |s.d| :: s'.d[x].fin.phase == s.d[x].fin.phase
  {
  }

  lemma NextsKept(s: State, s': State, v: nat, u: nat)
    requires Inv(s) && Takes(s, s', v, Some(u)) && EdgesTheorems.Reachable(s'.e) && u < |s.d|
    ensures Inv(s')
  {
    hide Inv, RunOk, HandOk, MakeOk, PlaceOk, LimOk, FoundOk, HelperOk, Takes;
    assert Turns(s, s', v) && forall x | 0 <= x < |s.d| :: s'.d[x].fin.phase == s.d[x].fin.phase by { NextIs(s, s', v, u); }
    ShapeAt(s);
    TurnShape(s, s', v);
    AllFound(s);
    AllHelpers(s);
    At(s, v);
    At(s, u);
    forall x | 0 <= x < |s'.d| ensures NodeOk(s', x) {
      At(s, x);
      NextRun(s, s', v, u, x);
      NextHand(s, s', v, u, x);
      NextPlace(s, s', v, u, x);
    }
    forall x: nat, q ensures FoundOk(s', x, q) {
      NextFound(s, s', v, u, x, q);
    }
    forall x: nat ensures Limited(s, x) ==> SlotOf(s', x) == SlotOf(s, x) {
      At(s, x);
      NextSlot(s, s', v, u, x);
    }
    forall g | 0 <= g < |s'.lims| ensures LimOk(s', g) {
      LimAt(s, g);
      SameLim(s, s', v, g);
    }
    Assemble(s');
  }

  lemma NextIs(s: State, s': State, v: nat, u: nat)
    requires Takes(s, s', v, Some(u))
    ensures Turns(s, s', v) && forall x | 0 <= x < |s.d| :: s'.d[x].fin.phase == s.d[x].fin.phase
  {
  }
}

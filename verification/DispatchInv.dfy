/** What holds in every state of the dispatch. */
module DispatchInv {
  import opened Common
  import opened Dispatch
  import Edges
  import EdgesTheorems
  import ParallelLimit

  predicate IsInit(s: State) {
    && EdgesTheorems.IsInit(s.e) && s.tasks == multiset{} && s.d == [] && |s.lims| == |s.e.graphs|
    && forall g | 0 <= g < |s.lims| && s.lims[g].Some? :: ParallelLimit.IsInit(s.lims[g].value)
  }

  // ---------------------------------------------------------------- nodes

  /** What a node does agrees with its status and with how far its finish is on the edges. */
  ghost predicate RunOk(s: State, v: nat)
    requires v < |s.d| && |s.d| == |s.e.nodes|
  {
    var (i, n) := (s.d[v], s.e.nodes[v]);
    && (n.status.Initing? <==> i.run.NotRun? || i.run.Taken?)
    && (n.fin.FNone? <==> !Edges.Done(n.status))
    && (i.run.Running? || i.run.Asking? || i.run.Waiting? ==> n.status.Running? && n.fin.FNone?)
    && (i.run.Finishing? ==> n.status.Finish?)
    && (i.run.Over? ==> if i.helps.Some? then n.status.Running? && n.fin.FNone? else n.status.Recoverable? && n.fin.FDone?)
    && (i.run.Running? || i.run.Finishing? ==> i.helps.None?)
    && (i.run.Asking? || i.run.Waiting? ==>
          && i.helps.None? && i.run.b < |s.d| && s.d[i.run.b].helps == Some(v) && !s.d[i.run.b].run.Over?)
    && i.starts == (if i.helps.Some? || i.run.NotRun? || i.run.Taken? then 0 else 1)
    && HelperOk(s, v)
  }

  /** A helper is registered in a graph without a limit, and its task waits for it until it is over. */
  ghost predicate HelperOk(s: State, b: nat)
    requires b < |s.d| && |s.d| == |s.e.nodes|
  {
    s.d[b].helps.Some? ==>
      && s.e.nodes[b].graph.Some? && !Limited(s, b)
      && s.d[b].helps.value < |s.d|
      && (!s.d[b].run.Over? ==> s.d[s.d[b].helps.value].run in {Asking(b), Waiting(b)})
  }

  ghost predicate Distinct(list: seq<nat>) {
    forall i, j | 0 <= i < j < |list| :: list[i] != list[j]
  }

  /** x requires u. */
  ghost predicate Requires(e: Edges.State, x: nat, u: nat) {
    x < |e.nodes| && e.nodes[x].graph.Some? && exists k :: Edges.IsEdge(e.nodes[x], k, u)
  }

  /** The nodes in the hands of finish of u. */
  ghost predicate HandOk(s: State, u: nat)
    requires u < |s.d| && |s.d| == |s.e.nodes|
  {
    var f := s.d[u].fin;
    && Distinct(f.list) && (forall x | x in f.list :: Requires(s.e, x, u))
    && (About(f.call).Some? ==> About(f.call).value !in f.list && About(f.call) != f.next)
    && CallOk(s, f.call)
    && (f.next.Some? ==> f.next.value !in f.list)
    && (!s.d[u].run.Finishing? ==> f.list == [] && f.call.Idle? && (s.d[u].run.Over? || f.next.None?))
    && (!s.d[u].run.Finishing? && !s.d[u].run.Over? ==> f == EMPTY)
    && (s.d[u].run.Over? && s.d[u].helps.Some? ==> f == EMPTY)
    && (f.phase.Collect? ==> f.next.None? && f.call.Idle? && !f.passed)
    && (!f.phase.Collect? ==> s.e.nodes[u].fin.FDone?)
    && (f.phase.Loop? ==> (f.next.Some? ==> f.list != []) && (Limited(s, u) ==> (f.passed <==> f.next.Some?)))
    && (f.phase.Keep? ==> KeepOk(s, u))
    && (f.phase.Pop? ==> |f.list| <= 1 && f.next.None? && f.call.Idle? && Limited(s, u) && s.d[u].run.Finishing?)
    && (f.phase.Return? ==> f.list == [])
    && (f.phase.Pop? || f.phase.Keep? || f.phase.Return? ==> (Limited(s, u) ==> f.passed))
    && (s.d[u].run.Over? && s.d[u].helps.None? ==> f.phase.Return?)
  }

  ghost predicate KeepOk(s: State, u: nat)
    requires u < |s.d| && |s.d| == |s.e.nodes|
  {
    var f := s.d[u].fin;
    && |f.list| == 1 && f.next.None? && f.call.Idle? && Limited(s, u) && s.d[u].run.Finishing?
    && f.list[0] < |s.d| && s.e.nodes[f.list[0]].graph != s.e.nodes[u].graph
  }

  ghost predicate MakeOk(s: State, v: nat)
    requires v < |s.d|
  {
    (s.d[v].make.Idle? || About(s.d[v].make) == Some(v)) && CallOk(s, s.d[v].make)
  }

  /** Only nodes of limited graphs are held. */
  ghost predicate CallOk(s: State, c: Call) {
    c.Push? ==> Limited(s, c.v)
  }

  // ---------------------------------------------------------------- places

  predicate Carries(f: Hand, v: nat) {
    v in f.list || f.next == Some(v) || About(f.call) == Some(v)
  }

  /** Where a node can be found. */
  ghost predicate IsAt(s: State, v: nat, p: Place) {
    match p
    case Nowhere => false
    case Maker(w) => w < |s.d| && About(s.d[w].make) == Some(v)
    case Finisher(u) => u < |s.d| && Carries(s.d[u].fin, v)
    case Tasks => v in s.tasks
    case HeldIn(g) => g < |s.lims| && s.lims[g].Some? && v in s.lims[g].value.queued
    case Exec => v < |s.d| && !s.d[v].run.NotRun? && !s.d[v].run.Over?
    case Gone => v < |s.d| && s.d[v].run.Over?
  }

  /** A node that can be found at p is there according to the history, so nowhere else. */
  ghost predicate FoundOk(s: State, v: nat, p: Place) {
    IsAt(s, v, p) ==> v < |s.d| && s.d[v].at == p
  }

  ghost predicate PlaceOk(s: State, v: nat)
    requires v < |s.d| && |s.d| == |s.e.nodes|
  {
    && (s.d[v].at != Nowhere ==> IsAt(s, v, s.d[v].at))
    && (s.d[v].at.Nowhere? <==> s.e.nodes[v].released == 0)
    && s.tasks[v] <= 1
  }

  // ---------------------------------------------------------------- slots

  datatype Slot = Fresh | Active | Pushing | Queued | Retired

  function CallSlot(c: Call): Slot {
    match c
    case Push(_) => Pushing
    case Enqueue(_) => Active
    case _ => Fresh
  }

  /** What a node has of the slots of its graph, if that is limited. */
  function SlotOf(s: State, t: nat): Slot {
    if t >= |s.d| then Fresh else
      match s.d[t].at
      case Nowhere => Fresh
      case Maker(w) => if w < |s.d| then CallSlot(s.d[w].make) else Fresh
      case Finisher(u) =>
        if u >= |s.d| then Fresh
        else if About(s.d[u].fin.call) == Some(t) then CallSlot(s.d[u].fin.call)
        else if s.d[u].fin.next == Some(t) then Active
        else Fresh
      case Tasks => Active
      case HeldIn(_) => Queued
      case Exec => if s.d[t].run.Finishing? && s.d[t].fin.passed then Retired else Active
      case Gone => Retired
  }

  /** Seen from graph g. */
  function SlotIn(s: State, g: nat, t: nat): Slot {
    if t < |s.e.nodes| && s.e.nodes[t].graph == Some(g) then SlotOf(s, t) else Fresh
  }

  ghost predicate TieOk(l: Slots, t: nat, st: Slot) {
    && (t in l.active <==> st.Active?) && (t in l.pushing <==> st.Pushing?)
    && (t in l.queued <==> st.Queued?) && (t in l.retired <==> st.Retired?)
  }

  /** The finishers about to take a node out of the queue of graph g. */
  ghost function Poppers(s: State, g: nat): set<nat> {
    set u: nat | u < |s.d| && u < |s.e.nodes| && s.e.nodes[u].graph == Some(g) && s.d[u].fin.phase.Pop?
  }

  ghost predicate LimOk(s: State, g: nat)
    requires g < |s.lims|
  {
    s.lims[g].Some? ==>
      && ParallelLimit.Inv(s.lims[g].value) && s.lims[g].value.poppers == |Poppers(s, g)|
      && forall t :: TieOk(s.lims[g].value, t, SlotIn(s, g, t))
  }

  // ---------------------------------------------------------------- all of it

  ghost predicate Shape(s: State) {
    EdgesTheorems.Reachable(s.e) && |s.d| == |s.e.nodes| && |s.lims| == |s.e.graphs|
  }

  ghost predicate RunsOk(s: State)
    requires |s.d| == |s.e.nodes|
  {
    forall v | 0 <= v < |s.d| :: RunOk(s, v)
  }

  ghost predicate HandsOk(s: State)
    requires |s.d| == |s.e.nodes|
  {
    forall v | 0 <= v < |s.d| :: HandOk(s, v) && MakeOk(s, v)
  }

  ghost predicate PlacesOk(s: State)
    requires |s.d| == |s.e.nodes|
  {
    (forall v | 0 <= v < |s.d| :: PlaceOk(s, v)) && forall v, p :: FoundOk(s, v, p)
  }

  ghost predicate LimsOk(s: State) {
    forall g | 0 <= g < |s.lims| :: LimOk(s, g)
  }

  ghost predicate Inv(s: State) {
    Shape(s) && RunsOk(s) && HandsOk(s) && PlacesOk(s) && LimsOk(s)
  }

  // ---------------------------------------------------------------- what the edges do to a node

  /** Node x is the same for the dispatch. */
  ghost predicate SameNode(e: Edges.State, e': Edges.State, x: nat) {
    && x < |e.nodes| && x < |e'.nodes|
    && e'.nodes[x].status == e.nodes[x].status && e'.nodes[x].graph == e.nodes[x].graph && e'.nodes[x].req == e.nodes[x].req
    && (e'.nodes[x].fin.FNone? <==> e.nodes[x].fin.FNone?) && (e.nodes[x].fin.FDone? ==> e'.nodes[x].fin.FDone?)
  }

  lemma AllocFacts(e: Edges.State, x: nat)
    ensures var e' := Edges.Apply(e, Edges.Alloc);
      && |e'.nodes| == |e.nodes| + 1 && e'.graphs == e.graphs && e'.nodes[|e.nodes|] == Edges.NewNode()
      && (x < |e.nodes| ==> e'.nodes[x] == e.nodes[x])
  {
  }

  lemma CreateFacts(e: Edges.State, v: nat, g: nat, req: seq<Option<nat>>, x: nat)
    requires Edges.Enabled(e, Edges.Create(v, g, req)) && x < |e.nodes|
    ensures var e' := Edges.Apply(e, Edges.Create(v, g, req));
      && |e'.nodes| == |e.nodes| && |e'.graphs| == |e.graphs|
      && (if x == v then
            && e'.nodes[v].status == e.nodes[v].status && e'.nodes[v].graph == Some(g) && e'.nodes[v].req == req
            && e'.nodes[v].fin == e.nodes[v].fin && e'.nodes[v].released == e.nodes[v].released
            && !e'.nodes[v].make.Unmade? && e.nodes[v].make.Unmade?
          else e'.nodes[x] == e.nodes[x])
  {
  }

  lemma MakeFacts(e: Edges.State, v: nat, x: nat)
    requires Edges.Enabled(e, Edges.Make(v)) && x < |e.nodes|
    ensures var e' := Edges.Apply(e, Edges.Make(v));
      && |e'.nodes| == |e.nodes| && e'.graphs == e.graphs && SameNode(e, e', x)
      && e'.nodes[x].released >= e.nodes[x].released && (x != v ==> e'.nodes[x].released == e.nodes[x].released)
  {
  }

  /** The node the next operation of finish(u) counts an edge of off. */
  function FinTarget(e: Edges.State, u: nat): Option<nat>
    requires u < |e.nodes|
  {
    if e.nodes[u].fin.FList? && e.nodes[u].fin.i < |e.nodes[u].downs| then Some(e.nodes[u].downs[e.nodes[u].fin.i].0) else None
  }

  lemma FinFacts(e: Edges.State, u: nat, x: nat)
    requires Edges.Enabled(e, Edges.Fin(u)) && x < |e.nodes|
    ensures var e' := Edges.Apply(e, Edges.Fin(u));
      && |e'.nodes| == |e.nodes| && e'.graphs == e.graphs
      && e'.nodes[x].released >= e.nodes[x].released
      && (FinTarget(e, u) != Some(x) ==> e'.nodes[x].released == e.nodes[x].released)
      && (!e.nodes[u].fin.FNone? || x != u ==> SameNode(e, e', x))
      && (e.nodes[u].fin.FNone? ==>
            && e'.nodes[u].status.Finish? && e'.nodes[u].fin.FLock? && e'.nodes[u].graph == e.nodes[u].graph
            && e'.nodes[u].req == e.nodes[u].req)
  {
  }

  lemma FinBitFacts(e: Edges.State, u: nat, id: nat, x: nat)
    requires Edges.Enabled(e, Edges.FinBit(u, id)) && x < |e.nodes|
    ensures var e' := Edges.Apply(e, Edges.FinBit(u, id));
      && |e'.nodes| == |e.nodes| && e'.graphs == e.graphs && SameNode(e, e', x)
      && e'.nodes[x].released >= e.nodes[x].released
      && (Edges.BitTarget(e, u, id) != x ==> e'.nodes[x].released == e.nodes[x].released)
  {
  }

  lemma StatusFacts(e: Edges.State, a: Edges.Action, x: nat)
    requires Edges.Enabled(e, a) && (a.Start? || a.Recover?) && x < |e.nodes|
    ensures var e' := Edges.Apply(e, a);
      && |e'.nodes| == |e.nodes| && e'.graphs == e.graphs
      && e'.nodes[x] == (
           if a == Edges.Start(x) then e.nodes[x].(status := Edges.Running)
           else if a == Edges.Recover(x) then e.nodes[x].(status := Edges.Recoverable) else e.nodes[x])
  {
  }

  /** A node made ready was not ready before, and requires the node whose finish does it. */
  lemma ReadyFacts(e: Edges.State, a: Edges.Action, t: nat)
    requires EdgesTheorems.Reachable(e) && Edges.Enabled(e, a) && MadeReady(e, Edges.Apply(e, a), t)
    ensures EdgesTheorems.Reachable(Edges.Apply(e, a))
    ensures e.nodes[t].released == 0 && Edges.Apply(e, a).nodes[t].released == 1 && e.nodes[t].graph.Some?
  {
    hide Edges.Apply, Edges.Enabled;
    EdgesTheorems.ReachableInv(e);
    EdgesTheorems.ReachableStep(e, a);
    EdgesTheorems.ReachableInv(Edges.Apply(e, a));
    ReleasedOnce(e, t);
    ReleasedOnce(Edges.Apply(e, a), t);
    NotBoth(e, a, t);
  }

  lemma ReleasedOnce(e: Edges.State, t: nat)
    requires Edges.Inv(e) && t < |e.nodes|
    ensures e.nodes[t].released <= 1
    ensures e.nodes[t].released == 1 ==> e.nodes[t].graph.Some? && Edges.Counted(e.nodes[t])
  {
    assert Edges.CountOk(e.nodes[t]);
  }

  /** No operation registers a node and makes it ready at once. */
  lemma NotBoth(e: Edges.State, a: Edges.Action, t: nat)
    requires Edges.Enabled(e, a) && t < |e.nodes|
    ensures t < |Edges.Apply(e, a).nodes|
    ensures Edges.Apply(e, a).nodes[t].graph == e.nodes[t].graph || Edges.Apply(e, a).nodes[t].released == e.nodes[t].released
  {
    hide Edges.Apply, Edges.Enabled;
    match a
    case Alloc => AllocFacts(e, t);
    case Create(v, g, req) => CreateFacts(e, v, g, req, t);
    case Make(v) => MakeFacts(e, v, t);
    case Fin(u) => FinFacts(e, u, t);
    case FinBit(u, id) => FinBitFacts(e, u, id, t);
    case _ => StatusFacts(e, a, t);
  }
}

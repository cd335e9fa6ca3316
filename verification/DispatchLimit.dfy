/** No graph runs more nodes than it may, unless an edge leads from one limited graph to another. */
module DispatchLimit {
  import opened Common
  import opened Dispatch
  import opened DispatchInv
  import opened DispatchSteps
  import opened DispatchRuns
  import opened DispatchTheorems
  import opened DispatchFinite
  import Edges
  import EdgesTheorems
  import ParallelLimit

  /** No required node and the node that requires it are in two different limited graphs. */
  ghost predicate NoCross(e: Edges.State, lims: seq<Option<Slots>>) {
    forall v, k, u | 0 <= v < |e.nodes| && 0 <= u < |e.nodes| && Edges.IsEdge(e.nodes[v], k, u) :: SameLimit(e, lims, v, u)
  }

  predicate SameLimit(e: Edges.State, lims: seq<Option<Slots>>, v: nat, u: nat)
    requires v < |e.nodes| && u < |e.nodes|
  {
    HasLimit(lims, e.nodes[v].graph) && HasLimit(lims, e.nodes[u].graph) ==> e.nodes[v].graph == e.nodes[u].graph
  }

  predicate HasLimit(lims: seq<Option<Slots>>, g: Option<nat>) {
    g.Some? && g.value < |lims| && lims[g.value].Some?
  }

  /** Every limited graph has been asked for a slot for each of its nodes. */
  ghost predicate AllAsked(s: State) {
    forall g | 0 <= g < |s.lims| && s.lims[g].Some? :: s.lims[g].value.bypassed == 0
  }

  ghost predicate LimitOk(s: State) {
    NoCross(s.e, s.lims) ==> AllAsked(s)
  }

  // ---------------------------------------------------------------- edges and limits stay

  /** A registered node keeps its graph and what it requires. */
  ghost predicate Registered(s: State, t: State, x: nat)
    requires x < |s.e.nodes| && x < |t.e.nodes|
  {
    s.e.nodes[x].graph.Some? ==> t.e.nodes[x].graph == s.e.nodes[x].graph && t.e.nodes[x].req == s.e.nodes[x].req
  }

  ghost predicate Stays(s: State, t: State) {
    && |s.e.nodes| <= |t.e.nodes| && |t.lims| == |s.lims|
    && (forall g | 0 <= g < |s.lims| :: t.lims[g].Some? <==> s.lims[g].Some?)
    && forall x | 0 <= x < |s.e.nodes| :: Registered(s, t, x)
  }

  /** A crossing that is not there later was not there before. */
  lemma NoCrossBefore(s: State, t: State)
    requires Stays(s, t) && NoCross(t.e, t.lims)
    ensures NoCross(s.e, s.lims)
  {
    forall v, k, u | 0 <= v < |s.e.nodes| && 0 <= u < |s.e.nodes| && Edges.IsEdge(s.e.nodes[v], k, u)
      ensures SameLimit(s.e, s.lims, v, u)
    {
      assert Registered(s, t, v) && Registered(s, t, u);
      if s.e.nodes[v].graph.Some? {
        assert Edges.IsEdge(t.e.nodes[v], k, u) && SameLimit(t.e, t.lims, v, u);
      }
    }
  }

  lemma CreateStays(s: State, v: nat, g: nat, req: seq<Option<nat>>, x: nat)
    requires Inv(s) && Edges.Enabled(s.e, Edges.Create(v, g, req)) && x < |s.e.nodes|
    ensures var e' := Edges.Apply(s.e, Edges.Create(v, g, req));
      |e'.nodes| == |s.e.nodes|
      && (s.e.nodes[x].graph.Some? ==> e'.nodes[x].graph == s.e.nodes[x].graph && e'.nodes[x].req == s.e.nodes[x].req)
  {
    hide Inv, Edges.Apply;
    CreateFacts(s.e, v, g, req, x);
    FreshNode(s, v, g, req);
  }

  lemma StepStays(s: State, a: Action)
    requires Inv(s) && Enabled(s, a)
    ensures Stays(s, Apply(s, a))
  {
    hide Inv, Edges.Apply, Edges.Enabled;
    if IsMove(a) {
      MoveKeeps(s, a);
      hide Enabled, Apply;
      forall x | 0 <= x < |s.e.nodes| ensures Registered(s, Apply(s, a), x) {
        assert KeptNode(s, Apply(s, a), x);
      }
    } else {
      forall x | 0 <= x < |s.e.nodes| ensures x < |Apply(s, a).e.nodes| && Registered(s, Apply(s, a), x) {
        match a
        case Create(v, g, req) => CreateStays(s, v, g, req, x);
        case Await(u, b, g, req) => CreateStays(s, b, g, req, x);
        case Alloc => AllocFacts(s.e, x);
        case _ =>
      }
      NodesStay(s, a);
    }
  }

  lemma NodesStay(s: State, a: Action)
    requires Enabled(s, a) && !IsMove(a)
    ensures |s.e.nodes| <= |Apply(s, a).e.nodes| && Apply(s, a).lims == s.lims
  {
  }

  // ---------------------------------------------------------------- who bypasses the counter

  /** Finish of u is about to return a node of another limited graph. */
  predicate Bypasses(s: State, a: Action) {
    && a.Deal? && a.u < |s.d| && s.d[a.u].fin.phase.Keep? && s.d[a.u].fin.list != [] && Limited(s, s.d[a.u].fin.list[0])
  }

  lemma SlotsAsked(s: State, v: nat, a: ParallelLimit.Action)
    requires Limited(s, v) && AllAsked(s) && !a.Bypass?
    ensures AllAsked(WithSlots(s, v, a))
  {
  }

  lemma CallAsked(s: State, c: Call)
    requires AllAsked(s)
    ensures AllAsked(CallStep(s, c))
  {
  }

  lemma DealAsked(s: State, u: nat)
    requires Enabled(s, Deal(u)) && AllAsked(s) && !Bypasses(s, Deal(u))
    ensures AllAsked(DealStep(s, u))
  {
    hide AllAsked, WithSlots;
    var n := NextDeal(s, u);
    assert n.act.Some? ==> !n.act.value.Bypass?;
    hide NextDeal;
    SameSlots(s, DealStep(s, u));
    if n.act.Some? && Limited(s, n.on) {
      SlotsAsked(s, n.on, n.act.value);
      SameSlots(WithSlots(s, n.on, n.act.value), DealStep(s, u));
    }
  }

  lemma SameSlots(s: State, t: State)
    requires AllAsked(s)
    ensures t.lims == s.lims ==> AllAsked(t)
  {
  }

  lemma PopAsked(s: State, u: nat, x: nat)
    requires u < |s.d| && Limited(s, u) && AllAsked(s)
    ensures AllAsked(PopStep(s, u, x))
  {
  }

  lemma StepAsked(s: State, a: Action)
    requires Enabled(s, a) && AllAsked(s) && !Bypasses(s, a)
    ensures AllAsked(Apply(s, a))
  {
    hide Edges.Apply, Edges.Enabled, CallStep, DealStep, PopStep, AllAsked;
    match a
    case MakeCall(v) => CallAsked(s, s.d[v].make); SameSlots(CallStep(s, s.d[v].make), Apply(s, a));
    case FinCall(u) => CallAsked(s, s.d[u].fin.call); SameSlots(CallStep(s, s.d[u].fin.call), Apply(s, a));
    case Deal(u) => DealAsked(s, u);
    case PopHeld(u, x) => PopAsked(s, u, x);
    case _ => SameSlots(s, Apply(s, a));
  }

  /** Only over an edge that crosses. */
  lemma BypassCrosses(s: State, a: Action)
    requires Inv(s) && Enabled(s, a) && Bypasses(s, a)
    ensures !NoCross(s.e, s.lims)
  {
    hide Inv, Edges.Apply, Edges.Enabled;
    At(s, a.u);
    var t := s.d[a.u].fin.list[0];
    assert t in s.d[a.u].fin.list && Requires(s.e, t, a.u);
    var k :| Edges.IsEdge(s.e.nodes[t], k, a.u);
    assert !SameLimit(s.e, s.lims, t, a.u);
  }

  lemma StepLimitOk(s: State, a: Action)
    requires Inv(s) && Enabled(s, a) && LimitOk(s)
    ensures LimitOk(Apply(s, a))
  {
    hide Inv, Enabled, Apply, NoCross, AllAsked, Stays;
    StepStays(s, a);
    if NoCross(Apply(s, a).e, Apply(s, a).lims) {
      NoCrossBefore(s, Apply(s, a));
      if Bypasses(s, a) {
        BypassCrosses(s, a);
      }
      StepAsked(s, a);
    }
  }

  lemma {:induction false} RunLimitOk(states: seq<State>, acts: seq<Action>, n: nat)
    requires IsRun(states, acts) && n <= |acts|
    ensures LimitOk(states[n])
  {
    if n > 0 {
      RunLimitOk(states, acts, n - 1);
      RunKeeps(states, acts, n - 1);
      hide Inv, Enabled, Apply, LimitOk;
      StepLimitOk(states[n - 1], acts[n - 1]);
    }
  }

  /**
   * As long as no node of a limited graph requires one of another, at most `parallel` nodes of
   * a limited graph are dispatched and unfinished.
   */
  lemma NoCrossKeepsLimit(s: State, g: nat)
    requires Reachable(s) && NoCross(s.e, s.lims) && g < |s.lims| && s.lims[g].Some?
    ensures |s.lims[g].value.active| <= s.lims[g].value.parallel
  {
    hide NoCross, Inv;
    AtMostParallel(s, g);
    var states, acts :| IsRun(states, acts) && states[|acts|] == s;
    RunLimitOk(states, acts, |acts|);
  }
}

/** Every action keeps the dispatch invariant, so every reachable state has it. */
module DispatchRuns {
  import opened Common
  import opened Dispatch
  import opened DispatchInv
  import opened DispatchSteps
  import opened DispatchCalls
  import opened DispatchDeal
  import Edges
  import EdgesTheorems
  import ParallelLimit

  /** A change of status alone. */
  lemma StatusTurns(s: State, a: Edges.Action, v: nat)
    requires Inv(s) && Edges.Enabled(s.e, a) && (a == Edges.Start(v) || a == Edges.Recover(v)) && v < |s.d|
    ensures var e' := Edges.Apply(s.e, a);
      && EdgesTheorems.Reachable(e') && |s.d| == |s.e.nodes| == |e'.nodes| && |e'.graphs| == |s.e.graphs|
      && (forall x | 0 <= x < |s.d| && x != v :: e'.nodes[x] == s.e.nodes[x])
      && e'.nodes[v] == s.e.nodes[v].(status := if a.Start? then Edges.Running else Edges.Recoverable)
  {
    hide Inv, Edges.Apply, Edges.Enabled, Edges.Inv;
    ShapeAt(s);
    EdgesTheorems.ReachableStep(s.e, a);
    StatusFacts(s.e, a, v);
    forall x | 0 <= x < |s.d| && x != v ensures Edges.Apply(s.e, a).nodes[x] == s.e.nodes[x] {
      StatusFacts(s.e, a, x);
    }
  }

  lemma BeginKeeps(s: State, v: nat)
    requires Inv(s) && Enabled(s, Begin(v))
    ensures Inv(Apply(s, Begin(v)))
  {
    hide Inv, Edges.Apply, Edges.Enabled, RunOk, HandOk;
    StatusTurns(s, Edges.Start(v), v);
    BeginsKept(s, Apply(s, Begin(v)), v);
  }

  lemma GiveUpKeeps(s: State, u: nat)
    requires Inv(s) && Enabled(s, GiveUp(u))
    ensures Inv(Apply(s, GiveUp(u)))
  {
    hide Inv, RunOk, HandOk, Edges.Enabled;
    ShapeAt(s);
    GivesUpKept(s, Apply(s, GiveUp(u)), u);
  }

  lemma ResumeKeeps(s: State, b: nat)
    requires Inv(s) && Enabled(s, Resume(b))
    ensures Inv(Apply(s, Resume(b)))
  {
    hide Inv, Edges.Apply, Edges.Enabled, RunOk, HandOk;
    StatusTurns(s, Edges.Start(b), b);
    var u := s.d[b].helps.value;
    assert u != b;
    ResumesKept(s, Apply(s, Resume(b)), b, u);
  }

  lemma RecoverKeeps(s: State, u: nat)
    requires Inv(s) && Enabled(s, Recover(u))
    ensures Inv(Apply(s, Recover(u)))
  {
    hide Inv, Edges.Apply, Edges.Enabled, RunOk, HandOk;
    StatusTurns(s, Edges.Recover(u), u);
    RecoversKept(s, Apply(s, Recover(u)), u);
  }

  lemma FinKeeps(s: State, u: nat)
    requires Inv(s) && Enabled(s, Fin(u))
    ensures Inv(Apply(s, Fin(u)))
  {
    hide Inv, Edges.Apply, Edges.Enabled, RunOk, HandOk, Edges.Inv;
    FinIs(s.e, u);
    if s.e.nodes[u].fin.FNone? {
      ShapeAt(s);
      var e' := Edges.Apply(s.e, Edges.Fin(u));
      EdgesTheorems.ReachableStep(s.e, Edges.Fin(u));
      EndFacts(s.e, u);
      EndsKept(s, Apply(s, Fin(u)), u);
    } else {
      FinEdgeKeeps(s, u);
    }
  }

  lemma EndFacts(e: Edges.State, u: nat)
    requires u < |e.nodes| && Edges.Enabled(e, Edges.Fin(u)) && e.nodes[u].fin.FNone?
    ensures var e' := Edges.Apply(e, Edges.Fin(u));
      && |e'.nodes| == |e.nodes| && e'.graphs == e.graphs
      && (forall x | 0 <= x < |e.nodes| && x != u :: e'.nodes[x] == e.nodes[x])
      && e'.nodes[u] == e.nodes[u].(status := Edges.Finish, fin := Edges.FLock)
  {
  }

  lemma TakeKeeps(s: State, v: nat)
    requires Inv(s) && Enabled(s, Take(v))
    ensures Inv(Apply(s, Take(v)))
  {
    hide Inv, HandOk;
    ShapeAt(s);
    At(s, v);
    FoundAt(s, v, Tasks);
    FoundAt(s, v, Exec);
    FoundAt(s, v, Gone);
    TakesKept(s, Apply(s, Take(v)), v);
  }

  lemma NextKeeps(s: State, u: nat)
    requires Inv(s) && Enabled(s, RunNext(u))
    ensures Inv(Apply(s, RunNext(u)))
  {
    hide Inv, HandOk;
    ShapeAt(s);
    At(s, u);
    var x := s.d[u].fin.next.value;
    FoundAt(s, x, Finisher(u));
    FoundAt(s, x, Exec);
    FoundAt(s, x, Gone);
    NextsKept(s, Apply(s, RunNext(u)), x, u);
  }

  lemma MakeCallKeeps(s: State, v: nat)
    requires Inv(s) && Enabled(s, MakeCall(v))
    ensures Inv(Apply(s, MakeCall(v)))
  {
    hide Inv, HandOk;
    ShapeAt(s);
    At(s, v);
    CallKeeps(s, Apply(s, MakeCall(v)), Maker(v));
  }

  lemma FinCallKeeps(s: State, u: nat)
    requires Inv(s) && Enabled(s, FinCall(u))
    ensures Inv(Apply(s, FinCall(u)))
  {
    hide Inv;
    ShapeAt(s);
    At(s, u);
    var v := About(s.d[u].fin.call).value;
    FoundAt(s, v, Finisher(u));
    FoundAt(s, u, Exec);
    CallKeeps(s, Apply(s, FinCall(u)), Finisher(u));
  }

  lemma StepKeeps(s: State, a: Action)
    requires Inv(s) && Enabled(s, a)
    ensures Inv(Apply(s, a))
  {
    hide *;
    match a
    case Alloc => AllocKeeps(s);
    case Create(v, g, req) => CreateKeeps(s, v, g, req);
    case Await(u, b, g, req) => AwaitKeeps(s, u, b, g, req);
    case GiveUp(u) => GiveUpKeeps(s, u);
    case Make(v) => MakeKeeps(s, v);
    case MakeCall(v) => MakeCallKeeps(s, v);
    case Take(v) => TakeKeeps(s, v);
    case Begin(v) => BeginKeeps(s, v);
    case Resume(b) => ResumeKeeps(s, b);
    case Fin(u) => FinKeeps(s, u);
    case FinBit(u, id) => FinBitKeeps(s, u, id);
    case Deal(u) => DealKeeps(s, u);
    case PopHeld(u, x) => PopKeeps(s, u, x);
    case FinCall(u) => FinCallKeeps(s, u);
    case Recover(u) => RecoverKeeps(s, u);
    case RunNext(u) => NextKeeps(s, u);
  }

  lemma InitInv(s: State)
    requires IsInit(s)
    ensures Inv(s)
  {
    var states, acts: seq<Edges.Action> := [s.e], [];
    assert Edges.IsRun(states, acts) && states[|acts|] == s.e;
    forall g | 0 <= g < |s.lims| ensures LimOk(s, g) {
      assert Poppers(s, g) == {};
      if s.lims[g].Some? {
        assert ParallelLimit.IsInit(s.lims[g].value);
        assert forall t :: ParallelLimit.PlaceOk(s.lims[g].value, t);
        assert forall t :: TieOk(s.lims[g].value, t, SlotIn(s, g, t));
      }
    }
    assert forall v, p :: FoundOk(s, v, p);
  }

  ghost predicate IsRun(states: seq<State>, acts: seq<Action>) {
    && |states| == |acts| + 1 && IsInit(states[0])
    && (forall i | 0 <= i < |acts| :: Enabled(states[i], acts[i]) && states[i + 1] == Apply(states[i], acts[i]))
  }

  ghost predicate Reachable(s: State) {
    exists states, acts :: IsRun(states, acts) && states[|acts|] == s
  }

  lemma {:induction false} RunKeeps(states: seq<State>, acts: seq<Action>, n: nat)
    requires IsRun(states, acts) && n <= |acts|
    ensures Inv(states[n])
  {
    if n == 0 {
      InitInv(states[0]);
    } else {
      RunKeeps(states, acts, n - 1);
      hide Inv, Enabled, Apply;
      StepKeeps(states[n - 1], acts[n - 1]);
    }
  }

  lemma ReachableInv(s: State)
    requires Reachable(s)
    ensures Inv(s)
  {
    var states, acts :| IsRun(states, acts) && states[|acts|] == s;
    RunKeeps(states, acts, |acts|);
  }

  lemma ReachableStart(s: State)
    requires IsInit(s)
    ensures Reachable(s)
  {
    var none: seq<Action> := [];
    assert IsRun([s], none) && [s][|none|] == s;
  }

  lemma ReachableStep(s: State, a: Action)
    requires Reachable(s) && Enabled(s, a)
    ensures Reachable(Apply(s, a))
  {
    hide Enabled, Apply, IsInit;
    var states, acts :| IsRun(states, acts) && states[|acts|] == s;
    var states', acts' := states + [Apply(s, a)], acts + [a];
    forall i | 0 <= i < |acts'| ensures Enabled(states'[i], acts'[i]) && states'[i + 1] == Apply(states'[i], acts'[i]) {
      assert i < |acts| ==> Enabled(states[i], acts[i]) && states'[i + 1] == states[i + 1];
    }
    assert IsRun(states', acts') && states'[0] == states[0];
  }
}

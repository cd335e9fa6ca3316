/**
 * The waits of the whole engine as a relation: what create_edges and the cycle check let
 * through leaves a rank that falls along them, which is what completion needs.
 */
module DispatchWaits {
  import opened Common
  import opened Dispatch
  import opened DispatchInv
  import opened DispatchSteps
  import opened DispatchRuns
  import opened DispatchTheorems
  import opened DispatchFinite
  import opened DispatchSafe
  import Edges
  import EdgesTheorems
  import CycleCheck
  import WaitRelation

  // ---------------------------------------------------------------- the relation

  function Upstreams(s: State, v: nat): seq<Option<nat>>
    requires v < |s.d| == |s.e.nodes|
  {
    s.e.nodes[v].req + (if HelperOf(s.d[v]).Some? then [HelperOf(s.d[v])] else [])
  }

  /** Who waits for whom: required nodes, and the helper a task waits for, among nodes that have not ended. */
  function View(s: State): CycleCheck.State
    requires |s.d| == |s.e.nodes|
  {
    CycleCheck.State(
      seq(|s.d|, v requires 0 <= v < |s.d| => Upstreams(s, v)), set v: nat | v < |s.d| && !Ended(s, v))
  }

  lemma ViewIsWellFormed(s: State)
    requires Inv(s)
    ensures |s.d| == |s.e.nodes| && CycleCheck.WellFormed(View(s))
  {
    hide Inv;
    ShapeAt(s);
    var w := View(s);
    forall n | 0 <= n < |w.ups| ensures CycleCheck.ListOk(w, n) {
      RequiredExist(s, n);
      At(s, n);
    }
  }

  lemma RequiredExist(s: State, v: nat)
    requires Inv(s) && v < |s.d|
    ensures |s.d| == |s.e.nodes| && Edges.ReqOk(s.e, s.e.nodes[v].req)
  {
    hide Inv;
    ShapeAt(s);
    EdgesTheorems.ReachableInv(s.e);
    hide Edges.MakersOk, Edges.BitsOk, Edges.ListsOk, Edges.AllHeld, Edges.AllJust, Edges.NodesOk;
  }

  /** Unfinished nodes that are required were created, and are no helpers. */
  ghost predicate Referable(s: State) {
    && |s.d| == |s.e.nodes|
    && forall v, k | 0 <= v < |s.d| && Ahead(s, v) && 0 <= k < |s.e.nodes[v].req| && s.e.nodes[v].req[k].Some? ::
         CanBeRequired(s, v, s.e.nodes[v].req[k].value)
  }

  predicate CanBeRequired(s: State, v: nat, u: nat) {
    u < |s.d| && u != v && !Finished(s, u) ==> Created(s, u) && s.d[u].helps.None?
  }

  /** A rank of the relation is one of the engine. */
  lemma RankIsLayered(s: State, rank: seq<nat>)
    requires Inv(s) && Referable(s) && CycleCheck.Ranked(View(s), rank)
    ensures Layered(s, rank)
  {
    hide Inv;
    ShapeAt(s);
    var w := View(s);
    forall v, k | 0 <= v < |s.d| && Ahead(s, v) && 0 <= k < |s.e.nodes[v].req| && s.e.nodes[v].req[k].Some?
      ensures Below(s, rank, v, k)
    {
      RequiredExist(s, v);
      var u := s.e.nodes[v].req[k].value;
      At(s, u);
      assert CanBeRequired(s, v, u) && w.ups[v][k] == Some(u);
      assert CycleCheck.Falls(w, rank, v, u);
    }
    forall v | 0 <= v < |s.d| && HelperOf(s.d[v]).Some?
      ensures HelperOf(s.d[v]).value < |s.d| && rank[HelperOf(s.d[v]).value] < rank[v]
    {
      At(s, v);
      var b := HelperOf(s.d[v]).value;
      At(s, b);
      assert w.ups[v][|s.e.nodes[v].req|] == Some(b);
      assert CycleCheck.Falls(w, rank, v, b);
    }
  }

  // ---------------------------------------------------------------- what a step does to it

  /** Fewer waits between the same nodes. */
  ghost predicate Fewer(w: CycleCheck.State, x: CycleCheck.State) {
    |x.ups| == |w.ups| && forall a, b :: CycleCheck.Waits(x, a, b) ==> CycleCheck.Waits(w, a, b)
  }

  lemma FewerKeeps(w: CycleCheck.State, x: CycleCheck.State)
    requires CycleCheck.Layered(w) && Fewer(w, x)
    ensures CycleCheck.Layered(x)
  {
    var rank :| CycleCheck.Ranked(w, rank);
    forall a: nat, b: nat ensures CycleCheck.Falls(x, rank, a, b) {
      assert CycleCheck.Falls(w, rank, a, b);
    }
    assert CycleCheck.Ranked(x, rank);
  }

  /** The waits of v after a move it had before. */
  lemma MoveWait(s: State, a: Action, v: nat, u: nat)
    requires Inv(s) && Moves(s, a) && |s.d| == |s.e.nodes| && |Apply(s, a).d| == |Apply(s, a).e.nodes|
    requires CycleCheck.Waits(View(Apply(s, a)), v, u)
    ensures CycleCheck.Waits(View(s), v, u)
  {
    hide Inv, Enabled, Apply, KeptSlots, Finished, Advances;
    var t := Apply(s, a);
    MoveKeeps(s, a);
    assert KeptNode(s, t, v);
    NotEndedBefore(s, a, v);
    NotEndedBefore(s, a, u);
    assert View(t).ups[v] == Upstreams(t, v) && View(s).ups[v] == Upstreams(s, v);
    if Some(u) in t.e.nodes[v].req {
      assert Some(u) in Upstreams(s, v);
    } else {
      assert HelperOf(t.d[v]) == Some(u);
      assert Upstreams(s, v)[|s.e.nodes[v].req|] == Some(u);
    }
  }

  lemma NotEndedBefore(s: State, a: Action, v: nat)
    requires Inv(s) && Moves(s, a) && v < |s.d|
    ensures v < |Apply(s, a).d| && (!Ended(Apply(s, a), v) ==> !Ended(s, v))
  {
    hide Inv, Enabled, Apply;
    MoveAdvances(s, a, v);
    if s.d[v].run.Finishing? {
      FinishingStays(s, a, v);
    }
  }

  lemma FinishingStays(s: State, a: Action, v: nat)
    requires Inv(s) && Moves(s, a) && v < |s.d| && s.d[v].run.Finishing?
    ensures v < |Apply(s, a).d| && Ended(Apply(s, a), v)
  {
    hide Inv;
    ShapeAt(s);
    At(s, v);
    var t := Apply(s, a);
    hide Enabled, Apply;
    MoveKeeps(s, a);
    assert KeptNode(s, t, v);
    StepKeeps(s, a);
    At(t, v);
  }

  lemma MoveKeepsLayers(s: State, a: Action)
    requires Inv(s) && Moves(s, a) && |s.d| == |s.e.nodes| && |Apply(s, a).d| == |Apply(s, a).e.nodes|
    requires CycleCheck.Layered(View(s))
    ensures CycleCheck.Layered(View(Apply(s, a)))
  {
    hide Inv, Enabled, Apply, KeptSlots, KeptNode, CycleCheck.Layered, CycleCheck.Waits;
    MoveKeeps(s, a);
    forall v: nat, u: nat | CycleCheck.Waits(View(Apply(s, a)), v, u) ensures CycleCheck.Waits(View(s), v, u) {
      MoveWait(s, a, v, u);
    }
    FewerKeeps(View(s), View(Apply(s, a)));
  }

  lemma AllocKeepsLayers(s: State)
    requires Inv(s) && |s.d| == |s.e.nodes| && CycleCheck.Layered(View(s))
    ensures |Apply(s, Alloc).d| == |Apply(s, Alloc).e.nodes| && CycleCheck.Layered(View(Apply(s, Alloc)))
  {
    ViewIsWellFormed(s);
    hide Inv;
    var w, t := View(s), Apply(s, Alloc);
    WaitRelation.AllocKeepsLayers(w);
    assert View(t).ups == WaitRelation.Add(w, []).ups;
    assert View(t).live == WaitRelation.Add(w, []).live;
  }

  /** create_edges of v: no other node it requires waits for v. */
  ghost predicate HarmlessCreate(s: State, v: nat, req: seq<Option<nat>>)
    requires |s.d| == |s.e.nodes|
  {
    WaitRelation.Fits(View(s), v, req)
  }

  /** A wait of u with the new helper b: the check does not reach u, and nobody waits for b. */
  ghost predicate HarmlessAwait(s: State, u: nat, b: nat, req: seq<Option<nat>>)
    requires |s.d| == |s.e.nodes|
  {
    (forall x | Some(x) in req :: !CycleCheck.Reaches(View(s), x, u)) && forall x :: !CycleCheck.Waits(View(s), x, b)
  }

  ghost predicate Harmless(s: State, a: Action) {
    |s.d| == |s.e.nodes| &&
    match a
    case Create(v, _, req) => HarmlessCreate(s, v, req)
    case Await(u, b, _, req) => HarmlessAwait(s, u, b, req)
    case _ => true
  }

  /** A node that was not passed to create_edges requires nothing yet, and has not ended. */
  lemma UnmadeIsFree(s: State, v: nat, g: nat, req: seq<Option<nat>>)
    requires Inv(s) && Edges.Enabled(s.e, Edges.Create(v, g, req))
    ensures v < |s.d| == |s.e.nodes| && s.e.nodes[v].req == [] && !Ended(s, v) && HelperOf(s.d[v]).None?
    ensures WaitRelation.Known(req, |s.d|)
  {
    hide Inv;
    FreshNode(s, v, g, req);
    ShapeAt(s);
    At(s, v);
    EdgesTheorems.UnmadeRequiresNone(s.e, v);
    forall b | Some(b) in req ensures b < |s.d| {
      var j :| 0 <= j < |req| && req[j] == Some(b);
    }
  }

  lemma CreateView(s: State, v: nat, g: nat, req: seq<Option<nat>>)
    requires Inv(s) && Enabled(s, Create(v, g, req))
    ensures var t := Apply(s, Create(v, g, req));
      |s.d| == |s.e.nodes| && |t.d| == |t.e.nodes| && v < |s.d| && View(t) == WaitRelation.Append(View(s), v, req)
  {
    UnmadeIsFree(s, v, g, req);
    hide Inv, Edges.Apply, Edges.Enabled;
    var t := Apply(s, Create(v, g, req));
    forall x | 0 <= x < |s.d| ensures x < |t.e.nodes| && t.e.nodes[x].req == (if x == v then req else s.e.nodes[x].req) {
      CreateFacts(s.e, v, g, req, x);
    }
    CreateFacts(s.e, v, g, req, v);
    var w := WaitRelation.Append(View(s), v, req);
    forall x | 0 <= x < |s.d| ensures w.ups[x] == Upstreams(t, x) {
      assert t.d[x] == s.d[x] && View(s).ups[x] == Upstreams(s, x);
    }
    assert w.ups == View(t).ups;
    assert w.live == View(t).live;
  }

  lemma AwaitView(s: State, u: nat, b: nat, g: nat, req: seq<Option<nat>>)
    requires Inv(s) && Enabled(s, Await(u, b, g, req))
    ensures var t := Apply(s, Await(u, b, g, req));
      |s.d| == |s.e.nodes| && |t.d| == |t.e.nodes| && u < |s.d| && b < |s.d|
      && View(t) == WaitRelation.Append(WaitRelation.Append(View(s), b, req), u, [Some(b)])
  {
    UnmadeIsFree(s, b, g, req);
    hide Inv, Edges.Apply, Edges.Enabled;
    var t := Apply(s, Await(u, b, g, req));
    forall x | 0 <= x < |s.d| ensures x < |t.e.nodes| && t.e.nodes[x].req == (if x == b then req else s.e.nodes[x].req) {
      CreateFacts(s.e, b, g, req, x);
    }
    CreateFacts(s.e, b, g, req, b);
    var w := WaitRelation.Append(WaitRelation.Append(View(s), b, req), u, [Some(b)]);
    forall x | 0 <= x < |s.d| ensures w.ups[x] == Upstreams(t, x) {
      assert View(s).ups[x] == Upstreams(s, x) && HelperOf(t.d[x]) == (if x == u then Some(b) else HelperOf(s.d[x]));
    }
    assert w.ups == View(t).ups;
    assert w.live == View(t).live;
  }

  lemma CreateKeepsLayers(s: State, v: nat, g: nat, req: seq<Option<nat>>)
    requires Inv(s) && Enabled(s, Create(v, g, req)) && |s.d| == |s.e.nodes| && HarmlessCreate(s, v, req)
    requires CycleCheck.Layered(View(s))
    ensures var t := Apply(s, Create(v, g, req)); |t.d| == |t.e.nodes| && CycleCheck.Layered(View(t))
  {
    hide Apply, CycleCheck.Layered, CycleCheck.WellFormed, WaitRelation.Fits, WaitRelation.Known;
    CreateView(s, v, g, req);
    UnmadeIsFree(s, v, g, req);
    ViewIsWellFormed(s);
    WaitRelation.AppendKeepsLayers(View(s), v, req);
  }

  /** From a helper that nobody waits for, a path leads first to what the helper requires. */
  lemma {:induction false} PathFromHelper(w: CycleCheck.State, b: nat, req: seq<Option<nat>>, p: seq<nat>)
    requires b < |w.ups| && w.ups[b] == [] && (forall x :: !CycleCheck.Waits(w, x, b))
    requires CycleCheck.IsPath(WaitRelation.Append(w, b, req), p) && p[0] == b && p[|p| - 1] != b
    ensures exists x :: Some(x) in req && CycleCheck.Reaches(w, x, p[|p| - 1])
    decreases |p|
  {
    var w' := WaitRelation.Append(w, b, req);
    var q := p[1..];
    assert CycleCheck.Waits(w', p[0], p[1]);
    forall i | 0 <= i < |q| - 1 ensures CycleCheck.Waits(w', q[i], q[i + 1]) {
      assert CycleCheck.Waits(w', p[i + 1], p[i + 2]);
    }
    assert CycleCheck.IsPath(w', q) && q[|q| - 1] == p[|p| - 1];
    if p[1] == b {
      PathFromHelper(w, b, req, q);
    } else {
      OldPath(w, b, req, q, |q| - 1);
      assert CycleCheck.Reaches(w, p[1], p[|p| - 1]);
    }
  }

  /** Once away from the helper a path does not come back, so it is an old one. */
  lemma {:induction false} OldPath(w: CycleCheck.State, b: nat, req: seq<Option<nat>>, q: seq<nat>, n: nat)
    requires b < |w.ups| && (forall x :: !CycleCheck.Waits(w, x, b))
    requires CycleCheck.IsPath(WaitRelation.Append(w, b, req), q) && q[0] != b && n < |q|
    ensures CycleCheck.IsPath(w, q[..n + 1]) && q[n] != b
  {
    var w' := WaitRelation.Append(w, b, req);
    if n > 0 {
      OldPath(w, b, req, q, n - 1);
      assert CycleCheck.Waits(w', q[n - 1], q[n]);
      var r := q[..n + 1];
      forall i | 0 <= i < |r| - 1 ensures CycleCheck.Waits(w, r[i], r[i + 1]) {
        if i < n - 1 {
          assert CycleCheck.Waits(w, q[..n][i], q[..n][i + 1]);
        }
      }
    }
    if n + 1 == |q| {
      assert q[..n + 1] == q;
    }
  }

  lemma AwaitKeepsLayers(s: State, u: nat, b: nat, g: nat, req: seq<Option<nat>>)
    requires Inv(s) && Enabled(s, Await(u, b, g, req)) && |s.d| == |s.e.nodes| && HarmlessAwait(s, u, b, req)
    requires CycleCheck.Layered(View(s))
    ensures var t := Apply(s, Await(u, b, g, req)); |t.d| == |t.e.nodes| && CycleCheck.Layered(View(t))
  {
    AwaitView(s, u, b, g, req);
    UnmadeIsFree(s, b, g, req);
    ViewIsWellFormed(s);
    AwaitFits(View(s), u, b, req);
  }

  lemma AwaitFits(w: CycleCheck.State, u: nat, b: nat, req: seq<Option<nat>>)
    requires CycleCheck.WellFormed(w) && CycleCheck.Layered(w) && u in w.live && b in w.live && u != b && w.ups[b] == []
    requires WaitRelation.Known(req, |w.ups|) && forall x :: !CycleCheck.Waits(w, x, b)
    requires forall x | Some(x) in req :: !CycleCheck.Reaches(w, x, u)
    ensures CycleCheck.Layered(WaitRelation.Append(WaitRelation.Append(w, b, req), u, [Some(b)]))
  {
    hide CycleCheck.Layered;
    var w1 := WaitRelation.Append(w, b, req);
    forall x | Some(x) in req ensures x == b || !CycleCheck.Reaches(w, x, b) {
      if x != b && CycleCheck.Reaches(w, x, b) {
        var y := WaitRelation.SomeoneWaits(w, x, b);
      }
    }
    WaitRelation.AppendKeepsLayers(w, b, req);
    WaitRelation.AppendWellFormed(w, b, req);
    if CycleCheck.Reaches(w1, b, u) {
      var p: seq<nat> :| CycleCheck.IsPath(w1, p) && p[0] == b && p[|p| - 1] == u;
      PathFromHelper(w, b, req, p);
    }
    WaitRelation.AppendKeepsLayers(w1, u, [Some(b)]);
  }

  lemma StepKeepsLayers(s: State, a: Action)
    requires Inv(s) && Enabled(s, a) && Harmless(s, a) && CycleCheck.Layered(View(s))
    ensures |Apply(s, a).d| == |Apply(s, a).e.nodes| && CycleCheck.Layered(View(Apply(s, a)))
  {
    hide Inv, Enabled, Apply, CycleCheck.Layered, HarmlessCreate, HarmlessAwait;
    match a
    case Alloc => AllocKeepsLayers(s);
    case Create(v, g, req) => CreateKeepsLayers(s, v, g, req);
    case Await(u, b, g, req) => AwaitKeepsLayers(s, u, b, g, req);
    case _ =>
      MoveKeeps(s, a);
      MoveKeepsLayers(s, a);
  }

  // ---------------------------------------------------------------- runs

  ghost predicate HarmlessRun(states: seq<State>, acts: seq<Action>) {
    IsRun(states, acts) && forall i | 0 <= i < |acts| :: Harmless(states[i], acts[i])
  }

  lemma {:induction false} RunIsLayered(states: seq<State>, acts: seq<Action>, n: nat)
    requires HarmlessRun(states, acts) && n <= |acts|
    ensures Inv(states[n]) && |states[n].d| == |states[n].e.nodes| && CycleCheck.Layered(View(states[n]))
  {
    RunKeeps(states, acts, n);
    if n == 0 {
      var w := View(states[0]);
      var none: seq<nat> := [];
      assert w.ups == [] && CycleCheck.Ranked(w, none);
    } else {
      RunIsLayered(states, acts, n - 1);
      hide Inv, Enabled, Apply, CycleCheck.Layered, Harmless, IsInit;
      StepKeepsLayers(states[n - 1], acts[n - 1]);
    }
  }

  /**
   * In every run whose create_edges require no node that waits for the new one, and whose waits
   * the cycle check lets through, the waits have a rank. So from a state of the run in which
   * limited graphs are fed the engine completes, whatever the threads do.
   */
  lemma CheckedRunCompletes(states: seq<State>, acts: seq<Action>, n: nat)
    requires HarmlessRun(states, acts) && n <= |acts| && Referable(states[n]) && Fed(states[n]) && states[n].workers > 0
    ensures exists rank :: Layered(states[n], rank)
    ensures MustComplete(states[n])
  {
    hide Inv, Enabled, Apply, Harmless, IsInit, MustComplete, Fed, Referable, HasRoom, Layered;
    RunIsLayered(states, acts, n);
    var rank :| CycleCheck.Ranked(View(states[n]), rank);
    RankIsLayered(states[n], rank);
    FedHasRoom(states[n], rank);
    RunReaches(states, acts, n);
    SafeCompletes(states[n], rank);
  }

  lemma RunReaches(states: seq<State>, acts: seq<Action>, n: nat)
    requires IsRun(states, acts) && n <= |acts|
    ensures Reachable(states[n])
  {
    hide Enabled, Apply, IsInit;
    var states', acts' := states[..n + 1], acts[..n];
    assert IsRun(states', acts') && states'[|acts'|] == states[n];
  }
}

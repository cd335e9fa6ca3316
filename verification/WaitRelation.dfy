/** The wait-for relation over time, and which operations can close a cycle in it. */
module WaitRelation {
  import opened Common
  import opened CycleCheck

  datatype Action =
    | Alloc                                        // a node object
    | Create(v: nat, req: seq<Option<nat>>)        // create_edges of v and what it requires
    | Finish(n: nat)
    | Require(cur: nat, nodes: seq<nat>)           // require_node by the running node cur
    | AwaitGraph(cur: nat)                         // wait_graph: the helper node has no upstreams

  predicate AllBelow(req: seq<Option<nat>>, n: nat) {
    forall i | 0 <= i < |req| && req[i].Some? :: req[i].value < n
  }

  predicate NeedWait(s: State, nodes: seq<nat>) {
    exists i | 0 <= i < |nodes| :: nodes[i] in s.live
  }

  /** The upstreams create_edges notes: the non-null required nodes, then the flag. */
  function Noted(req: seq<Option<nat>>): seq<Option<nat>> {
    NotedSome(req) + [None]
  }

  function NotedSome(req: seq<Option<nat>>): seq<Option<nat>> {
    if req == [] then [] else (if req[0].Some? then [req[0]] else []) + NotedSome(req[1..])
  }

  function Refs(nodes: seq<nat>): seq<Option<nat>> {
    seq(|nodes|, i requires 0 <= i < |nodes| => Some(nodes[i]))
  }

  /** Any node may be required: the node itself, one created later, or one already finished. */
  predicate CreateEnabled(s: State, v: nat, req: seq<Option<nat>>) {
    v in s.live && v < |s.ups| && s.ups[v] == [] && AllBelow(req, |s.ups|)
  }

  /** A wait goes ahead if there is nothing to wait for, or if the search ends and finds nothing. */
  ghost predicate RequireEnabled(s: State, cur: nat, nodes: seq<nat>) {
    && cur in s.live && AllBelow(Refs(nodes), |s.ups|)
    && (NeedWait(s, nodes) ==> Ends(s, nodes, cur) && !Reachable(s, nodes, cur))
  }

  ghost predicate Enabled(s: State, a: Action) {
    match a
    case Alloc => true
    case Create(v, req) => CreateEnabled(s, v, req)
    case Finish(n) => n in s.live
    case Require(cur, nodes) => RequireEnabled(s, cur, nodes)
    case AwaitGraph(cur) => cur in s.live
  }

  /** A new node with the given upstreams. */
  function Add(s: State, up: seq<Option<nat>>): State {
    State(s.ups + [up], s.live + {|s.ups|})
  }

  function Append(s: State, n: nat, up: seq<Option<nat>>): State
    requires n < |s.ups|
  {
    s.(ups := s.ups[n := s.ups[n] + up])
  }

  /** The wait of cur for a new helper node that waits for `up`. */
  function Link(s: State, cur: nat, up: seq<Option<nat>>): State
    requires cur < |s.ups|
  {
    Append(Add(s, up), cur, [Some(|s.ups|)])
  }

  ghost function Apply(s: State, a: Action): State
    requires WellFormed(s) && Enabled(s, a)
  {
    match a
    case Alloc => Add(s, [])
    case Create(v, req) => Append(s, v, Noted(req))
    case Finish(n) => s.(live := s.live - {n})
    case Require(cur, nodes) =>
      if NeedWait(s, nodes) then Link(s, cur, Noted(Refs(nodes))) else Append(s, cur, Refs(nodes))
    case AwaitGraph(cur) => Link(s, cur, [])
  }

  // ---------------------------------------------------------------- well-formedness

  lemma {:induction false} NotedIs(req: seq<Option<nat>>, b: nat)
    ensures Some(b) in NotedSome(req) <==> Some(b) in req
  {
    if req != [] {
      NotedIs(req[1..], b);
      assert req == [req[0]] + req[1..];
    }
  }

  ghost predicate Known(up: seq<Option<nat>>, n: nat) {
    forall b | Some(b) in up :: b < n
  }

  lemma NotedKnown(req: seq<Option<nat>>, n: nat)
    requires AllBelow(req, n)
    ensures Known(Noted(req), n) && Known(req, n)
  {
    forall b | Some(b) in Noted(req) ensures b < n {
      NotedIs(req, b);
    }
  }

  lemma AppendWellFormed(s: State, cur: nat, up: seq<Option<nat>>)
    requires WellFormed(s) && cur < |s.ups| && Known(up, |s.ups|)
    ensures WellFormed(Append(s, cur, up)) && WellFormed(Add(s, up)) && WellFormed(Link(s, cur, up))
  {
    var s1, s2, s3 := Append(s, cur, up), Add(s, up), Link(s, cur, up);
    assert forall i | 0 <= i < |up| && up[i].Some? :: Some(up[i].value) in up;
    forall n | 0 <= n < |s1.ups| ensures ListOk(s1, n) {
      assert ListOk(s, n);
    }
    forall n | 0 <= n < |s2.ups| ensures ListOk(s2, n) {
      assert n < |s.ups| ==> ListOk(s, n);
    }
    forall n | 0 <= n < |s3.ups| ensures ListOk(s3, n) {
      assert n < |s.ups| ==> ListOk(s, n);
    }
  }

  // ---------------------------------------------------------------- what keeps the layers

  lemma AllocKeepsLayers(s: State)
    requires WellFormed(s) && Layered(s)
    ensures WellFormed(Add(s, [])) && Layered(Add(s, []))
  {
    var rank :| Ranked(s, rank);
    var s', rank' := Add(s, []), rank + [0];
    forall n | 0 <= n < |s'.ups| ensures ListOk(s', n) {
      assert n < |s.ups| ==> ListOk(s, n);
    }
    forall a: nat, b: nat ensures Falls(s', rank', a, b) {
      if Waits(s', a, b) {
        assert a < |s.ups| && ListOk(s, a);
        assert Falls(s, rank, a, b);
      }
    }
    assert Ranked(s', rank');
  }

  lemma FinishKeepsLayers(s: State, n: nat)
    requires WellFormed(s) && Layered(s)
    ensures WellFormed(s.(live := s.live - {n})) && Layered(s.(live := s.live - {n}))
  {
    var rank :| Ranked(s, rank);
    var s' := s.(live := s.live - {n});
    forall m | 0 <= m < |s'.ups| ensures ListOk(s', m) {
      assert ListOk(s, m);
    }
    forall a: nat, b: nat ensures Falls(s', rank, a, b) {
      assert Falls(s, rank, a, b);
    }
    assert Ranked(s', rank);
  }

  /** A node that waits for one that reaches b reaches b. */
  lemma ReachesThrough(s: State, a: nat, c: nat, b: nat)
    requires Waits(s, a, c) && Reaches(s, c, b)
    ensures Reaches(s, a, b)
  {
    var p :| IsPath(s, p) && p[0] == c && p[|p| - 1] == b;
    var q := [a] + p;
    forall i | 0 <= i < |q| - 1 ensures Waits(s, q[i], q[i + 1]) {
      assert i > 0 ==> Waits(s, p[i - 1], p[i]);
    }
    assert IsPath(s, q) && q[|q| - 1] == b;
  }

  /** What waits for `cur` is lifted above all others, to make room below it. */
  ghost function Lifted(s: State, rank: seq<nat>, cur: nat, top: nat): seq<nat> {
    seq(|rank|, n requires 0 <= n < |rank| => if Reaches(s, n, cur) then rank[n] + top + 1 else rank[n])
  }

  lemma {:induction false} RankBound(rank: seq<nat>) returns (bound: nat)
    ensures forall n | 0 <= n < |rank| :: rank[n] < bound
  {
    if rank == [] {
      bound := 0;
    } else {
      var b := RankBound(rank[1..]);
      bound := if b <= rank[0] then rank[0] + 1 else b;
      forall n | 0 <= n < |rank| ensures rank[n] < bound {
        assert n > 0 ==> rank[n] == rank[1..][n - 1];
      }
    }
  }

  /** The new upstreams of cur are itself or unfinished nodes that do not wait for it. */
  ghost predicate Fits(s: State, cur: nat, up: seq<Option<nat>>) {
    forall b | Some(b) in up :: b == cur || !Reaches(s, b, cur)
  }

  lemma AppendKeepsLayers(s: State, cur: nat, up: seq<Option<nat>>)
    requires WellFormed(s) && Layered(s) && cur in s.live && Known(up, |s.ups|) && Fits(s, cur, up)
    ensures Layered(Append(s, cur, up))
  {
    var rank :| Ranked(s, rank);
    var top := RankBound(rank);
    var s', rank' := Append(s, cur, up), Lifted(s, rank, cur, top);
    assert IsPath(s, [cur]) && Reaches(s, cur, cur);
    forall a: nat, b: nat ensures Falls(s', rank', a, b) {
      if Waits(s', a, b) && a != b {
        assert ListOk(s, a);
        if a == cur && Some(b) in up {
          assert !Reaches(s, b, cur);
        } else {
          assert Waits(s, a, b) && Falls(s, rank, a, b);
          if Reaches(s, b, cur) {
            ReachesThrough(s, a, b, cur);
          }
        }
      }
    }
    assert Ranked(s', rank');
  }

  lemma LinkKeepsLayers(s: State, cur: nat, up: seq<Option<nat>>)
    requires WellFormed(s) && Layered(s) && cur in s.live && Known(up, |s.ups|)
    requires forall b | Some(b) in up :: !Reaches(s, b, cur)
    ensures Layered(Link(s, cur, up))
  {
    var rank :| Ranked(s, rank);
    var top := RankBound(rank);
    var s', rank' := Link(s, cur, up), Lifted(s, rank, cur, top) + [top];
    assert IsPath(s, [cur]) && Reaches(s, cur, cur);
    forall a: nat, b: nat ensures Falls(s', rank', a, b) {
      if Waits(s', a, b) && a != b {
        assert a < |s.ups| ==> ListOk(s, a);
        if a == |s.ups| {
          assert Some(b) in up;
        } else if b == |s.ups| {
          assert a == cur;
        } else {
          assert Waits(s, a, b) && Falls(s, rank, a, b);
          if Reaches(s, b, cur) {
            ReachesThrough(s, a, b, cur);
          }
        }
      }
    }
    assert Ranked(s', rank');
  }

  /** Finished nodes as upstreams add no wait. */
  lemma IdleKeepsLayers(s: State, cur: nat, up: seq<Option<nat>>)
    requires Layered(s) && cur < |s.ups| && (forall b | Some(b) in up :: b !in s.live)
    ensures Layered(Append(s, cur, up))
  {
    var rank :| Ranked(s, rank);
    var s' := Append(s, cur, up);
    forall a: nat, b: nat ensures Falls(s', rank, a, b) {
      assert Falls(s, rank, a, b);
    }
    assert Ranked(s', rank);
  }

  /** create_edges of a node is harmless: no other node it requires waits for it already. */
  ghost predicate Harmless(s: State, a: Action) {
    a.Create? ==> Fits(s, a.v, Noted(a.req))
  }

  /** Every operation keeps the relation free of cycles of more than one node, but for a harmful create_edges. */
  lemma StepKeeps(s: State, a: Action)
    requires WellFormed(s) && Layered(s) && Enabled(s, a) && Harmless(s, a)
    ensures WellFormed(Apply(s, a)) && Layered(Apply(s, a))
  {
    match a
    case Alloc => AllocKeepsLayers(s);
    case Create(v, req) =>
      NotedKnown(req, |s.ups|);
      AppendWellFormed(s, v, Noted(req));
      AppendKeepsLayers(s, v, Noted(req));
    case Finish(n) => FinishKeepsLayers(s, n);
    case AwaitGraph(cur) =>
      AppendWellFormed(s, cur, []);
      LinkKeepsLayers(s, cur, []);
    case Require(cur, nodes) =>
      NotedKnown(Refs(nodes), |s.ups|);
      if NeedWait(s, nodes) {
        AppendWellFormed(s, cur, Noted(Refs(nodes)));
        NoneReaches(s, cur, nodes);
        LinkKeepsLayers(s, cur, Noted(Refs(nodes)));
      } else {
        AppendWellFormed(s, cur, Refs(nodes));
        IdleKeepsLayers(s, cur, Refs(nodes));
      }
  }

  lemma NoneReaches(s: State, cur: nat, nodes: seq<nat>)
    requires !Reachable(s, nodes, cur)
    ensures forall b | Some(b) in Noted(Refs(nodes)) :: !Reaches(s, b, cur)
  {
    forall b | Some(b) in Noted(Refs(nodes)) ensures !Reaches(s, b, cur) {
      NotedIs(Refs(nodes), b);
      assert b in nodes;
    }
  }

  // ---------------------------------------------------------------- what breaks them

  /** An old path is a path still when waits are added. */
  lemma PathStays(s: State, s': State, p: seq<nat>)
    requires IsPath(s, p) && s.live <= s'.live
    requires forall a, b :: Waits(s, a, b) ==> Waits(s', a, b)
    ensures IsPath(s', p)
  {
    forall i | 0 <= i < |p| - 1 ensures Waits(s', p[i], p[i + 1]) {
      assert Waits(s, p[i], p[i + 1]);
    }
  }

  /** create_edges of v with a node that waits for v closes a cycle of several nodes; otherwise it closes none. */
  lemma CreateIsExact(s: State, v: nat, req: seq<Option<nat>>)
    requires WellFormed(s) && Layered(s) && CreateEnabled(s, v, req)
    ensures Layered(Append(s, v, Noted(req))) <==> Fits(s, v, Noted(req))
  {
    var s' := Append(s, v, Noted(req));
    NotedKnown(req, |s.ups|);
    AppendWellFormed(s, v, Noted(req));
    if Fits(s, v, Noted(req)) {
      AppendKeepsLayers(s, v, Noted(req));
    } else {
      var b: nat :| Some(b) in Noted(req) && b != v && Reaches(s, b, v);
      var p: seq<nat> :| IsPath(s, p) && p[0] == b && p[|p| - 1] == v;
      PathStays(s, s', p);
      var q := [v] + p;
      forall i | 0 <= i < |q| - 1 ensures Waits(s', q[i], q[i + 1]) {
        assert i > 0 ==> Waits(s', p[i - 1], p[i]);
      }
      assert IsPath(s', q);
      if Layered(s') {
        LayeredCycle(s', q, 1);
      }
    }
  }

  /** A wait goes ahead without closing a cycle if and only if the current node cannot be reached: the check is exact. */
  lemma CheckIsExact(s: State, cur: nat, nodes: seq<nat>)
    requires WellFormed(s) && Layered(s) && cur in s.live && AllBelow(Refs(nodes), |s.ups|)
    ensures Layered(Link(s, cur, Noted(Refs(nodes)))) <==> !Reachable(s, nodes, cur)
  {
    var s' := Link(s, cur, Noted(Refs(nodes)));
    NotedKnown(Refs(nodes), |s.ups|);
    AppendWellFormed(s, cur, Noted(Refs(nodes)));
    if !Reachable(s, nodes, cur) {
      NoneReaches(s, cur, nodes);
      LinkKeepsLayers(s, cur, Noted(Refs(nodes)));
    } else {
      var a: nat :| a in nodes && Reaches(s, a, cur);
      var p: seq<nat> :| IsPath(s, p) && p[0] == a && p[|p| - 1] == cur;
      NotedIs(Refs(nodes), a);
      var k :| 0 <= k < |nodes| && nodes[k] == a;
      assert Refs(nodes)[k] == Some(a);
      PathStays(s, s', p);
      var h := |s.ups|;
      var q: seq<nat> := [h] + p + [h];
      assert s'.ups[cur][|s.ups[cur]|] == Some(h);
      assert a in s.live && cur in s.live by {
        assert |p| > 1 ==> Waits(s, p[|p| - 2], p[|p| - 1]);
      }
      forall i | 0 <= i < |q| - 1 ensures Waits(s', q[i], q[i + 1]) {
        assert 0 < i < |p| ==> Waits(s', p[i - 1], p[i]);
      }
      assert IsPath(s', q);
      if Layered(s') {
        LayeredCycle(s', q, 1);
      }
    }
  }

  // ---------------------------------------------------------------- runs

  ghost predicate IsRun(states: seq<State>, acts: seq<Action>) {
    && |states| == |acts| + 1 && states[0] == State([], {})
    && (forall i | 0 <= i < |acts| :: WellFormed(states[i]) && Enabled(states[i], acts[i]) && states[i + 1] == Apply(states[i], acts[i]))
  }

  ghost predicate HarmlessRun(states: seq<State>, acts: seq<Action>) {
    IsRun(states, acts) && forall i | 0 <= i < |acts| :: Harmless(states[i], acts[i])
  }

  /**
   * In every run whose create_edges are harmless, a state is free of cycles exactly when no
   * unfinished node lists itself.
   */
  lemma {:induction false} RunIsAcyclicIff(states: seq<State>, acts: seq<Action>, n: nat)
    requires HarmlessRun(states, acts) && n <= |acts|
    ensures WellFormed(states[n]) && Layered(states[n])
    ensures Acyclic(states[n]) <==> forall v :: !ListsItself(states[n], v)
  {
    if n == 0 {
      var none: seq<nat> := [];
      assert Ranked(states[0], none);
    } else {
      RunIsAcyclicIff(states, acts, n - 1);
      StepKeeps(states[n - 1], acts[n - 1]);
    }
    AcyclicIff(states[n]);
  }

  /** Requiring only itself and nodes whose create_edges is over is harmless, as long as nobody waits for the node yet. */
  lemma FreshIsHarmless(s: State, v: nat, req: seq<Option<nat>>)
    requires CreateEnabled(s, v, req) && forall a :: !Waits(s, a, v)
    ensures Harmless(s, Create(v, req))
  {
    forall b | Some(b) in Noted(req) ensures b == v || !Reaches(s, b, v) {
      if b != v && Reaches(s, b, v) {
        var a := SomeoneWaits(s, b, v);
      }
    }
  }

  lemma SomeoneWaits(s: State, b: nat, v: nat) returns (a: nat)
    requires b != v && Reaches(s, b, v)
    ensures Waits(s, a, v)
  {
    var p: seq<nat> :| IsPath(s, p) && p[0] == b && p[|p| - 1] == v;
    a := p[|p| - 2];
    assert Waits(s, p[|p| - 2], p[|p| - 1]);
  }

  /** One more step of a run. */
  lemma Extend(states: seq<State>, acts: seq<Action>, a: Action) returns (states': seq<State>, acts': seq<Action>)
    requires HarmlessRun(states, acts) && WellFormed(states[|acts|]) && Enabled(states[|acts|], a) && Harmless(states[|acts|], a)
    ensures HarmlessRun(states', acts') && |states'| == |acts'| + 1 && states'[|acts'|] == Apply(states[|acts|], a)
  {
    states', acts' := states + [Apply(states[|acts|], a)], acts + [a];
    forall i | 0 <= i < |acts'|
      ensures WellFormed(states'[i]) && Enabled(states'[i], acts'[i]) && states'[i + 1] == Apply(states'[i], acts'[i])
      ensures Harmless(states'[i], acts'[i])
    {
      assert i < |acts| ==> states'[i] == states[i] && states'[i + 1] == states[i + 1] && acts'[i] == acts[i];
    }
    assert IsRun(states', acts') && states'[0] == states[0];
  }

  lemma NoAction() returns (states: seq<State>, acts: seq<Action>)
    ensures HarmlessRun(states, acts) && |acts| == 0 && |states| == 1 && states[0] == State([], {})
  {
    states, acts := [State([], {})], [];
  }

  /** The state s has two nodes, created in turn; the second waits for nobody yet. */
  lemma TwoNodes(first: seq<Option<nat>>, second: seq<Option<nat>>) returns (states: seq<State>, acts: seq<Action>)
    requires AllBelow(first, 1) && AllBelow(second, 1)
    ensures HarmlessRun(states, acts) && |states| == |acts| + 1 && states[|acts|] == State([Noted(first), Noted(second)], {0, 1})
  {
    hide HarmlessRun, Noted;
    assert [] + Noted(first) == Noted(first) && [] + Noted(second) == Noted(second);
    states, acts := NoAction();
    states, acts := Extend(states, acts, Alloc);
    var s1 := State([[]], {0});
    assert states[|acts|] == s1;
    assert ListOk(s1, 0);
    FirstFits(s1, 0, first);
    states, acts := Extend(states, acts, Create(0, first));
    var s2 := State([Noted(first)], {0});
    assert states[|acts|] == s2;
    NotedKnown(first, 1);
    NotedKnown(second, 2);
    KnownOk(s2);
    states, acts := Extend(states, acts, Alloc);
    var s3 := State([Noted(first), []], {0, 1});
    assert states[|acts|] == s3;
    KnownOk(s3);
    FirstFits(s3, 1, second);
    states, acts := Extend(states, acts, Create(1, second));
    assert states[|acts|] == State([Noted(first), Noted(second)], {0, 1});
  }

  lemma KnownOk(s: State)
    requires (forall n | n in s.live :: n < |s.ups|) && forall n | 0 <= n < |s.ups| :: Known(s.ups[n], |s.ups|)
    ensures WellFormed(s)
  {
    forall n | 0 <= n < |s.ups| ensures ListOk(s, n) {
      assert forall i | 0 <= i < |s.ups[n]| && s.ups[n][i].Some? :: Some(s.ups[n][i].value) in s.ups[n];
    }
  }

  lemma FirstFits(s: State, v: nat, req: seq<Option<nat>>)
    requires v < |s.ups| && s.ups[v] == [] && v in s.live && AllBelow(req, |s.ups|)
    requires forall a | 0 <= a < |s.ups| :: Known(s.ups[a], v) || Some(v) !in s.ups[a]
    ensures Enabled(s, Create(v, req)) && Harmless(s, Create(v, req))
  {
    assert forall a :: !Waits(s, a, v);
    FreshIsHarmless(s, v, req);
  }

  /**
   * A node created with itself among its required nodes, as create_edges allows, is a cycle
   * for the search: another node that checks it is not found and the search never ends.
   */
  lemma SelfListedNodeHangsSearch() returns (states: seq<State>, acts: seq<Action>, s: State)
    ensures HarmlessRun(states, acts) && states[|acts|] == s
    ensures ListsItself(s, 0) && !Acyclic(s) && 1 in s.live && NeedWait(s, [0])
    ensures !Reachable(s, [0], 1) && !Ends(s, [0], 1)
  {
    states, acts := TwoNodes([Some(0)], []);
    s := states[|acts|];
    assert s.ups[0][0] == Some(0) && s.ups[1] == [None];
    var p: seq<nat> := [0, 0];
    assert IsPath(s, p) && p[0] == p[|p| - 1] && p[0] in [0];
    assert [0][0] in s.live;
    if Reachable(s, [0], 1) {
      var q: seq<nat> :| IsPath(s, q) && q[0] == 0 && q[|q| - 1] == 1;
      OnlyItself(s, q, |q| - 1);
    }
    assert HasTwice(p);
    KnownOk(s);
    EndsIff(s, [0], 1);
  }

  lemma {:induction false} OnlyItself(s: State, q: seq<nat>, i: nat)
    requires IsPath(s, q) && q[0] == 0 && i < |q| && |s.ups| > 0 && forall b | Some(b) in s.ups[0] :: b == 0
    ensures q[i] == 0
  {
    if i > 0 {
      OnlyItself(s, q, i - 1);
      assert Waits(s, q[i - 1], q[i]);
    }
  }

  /**
   * With the flag off check_circle only looks for the node itself: from a state a run comes to,
   * a wait it lets pass closes a cycle of two nodes.
   */
  lemma FlagOffMissesCycle() returns (states: seq<State>, acts: seq<Action>, s: State)
    ensures HarmlessRun(states, acts) && states[|acts|] == s
    ensures |s.ups| == 2 && 0 in s.live && NeedWait(s, [1]) && 0 !in [1]
    ensures !Layered(Link(s, 0, Noted(Refs([1]))))
  {
    states, acts := TwoNodes([], [Some(0)]);
    s := states[|acts|];
    RunIsAcyclicIff(states, acts, |acts|);
    assert s.ups[1][0] == Some(0);
    var p: seq<nat> := [1, 0];
    assert IsPath(s, p) && Reaches(s, 1, 0) && 1 in [1];
    assert [1][0] in s.live;
    CheckIsExact(s, 0, [1]);
  }

  // ---------------------------------------------------------------- what a wait adds

  /** The nodes as a list of upstreams. */
  ghost function Listed(nodes: seq<nat>): (r: seq<Option<nat>>)
    ensures |r| == |nodes| && forall i | 0 <= i < |nodes| :: r[i] == Some(nodes[i])
  {
    seq(|nodes|, i requires 0 <= i < |nodes| => Some(nodes[i]))
  }

  lemma {:induction false} SomesNoted(req: seq<Option<nat>>)
    requires forall i | 0 <= i < |req| :: req[i].Some?
    ensures NotedSome(req) == req
  {
    if req != [] {
      SomesNoted(req[1..]);
      assert req == [req[0]] + req[1..];
    }
  }

  /** The helper notes the nodes in their order, and then the flag. */
  lemma NotedIsList(nodes: seq<nat>)
    ensures Refs(nodes) == Listed(nodes) && Noted(Refs(nodes)) == Listed(nodes) + [None]
  {
    SomesNoted(Refs(nodes));
  }

  /** A wait adds a node, the helper, exactly if one of the nodes is unfinished; otherwise cur only notes them. */
  lemma RequireAddsHelperIff(s: State, cur: nat, nodes: seq<nat>)
    requires WellFormed(s) && Enabled(s, Require(cur, nodes))
    ensures var t := Apply(s, Require(cur, nodes));
      if exists i :: 0 <= i < |nodes| && nodes[i] in s.live then
        && t.ups == s.ups[cur := s.ups[cur] + [Some(|s.ups|)]] + [Listed(nodes) + [None]]
        && t.live == s.live + {|s.ups|}
      else t.ups == s.ups[cur := s.ups[cur] + Listed(nodes)] && t.live == s.live
  {
    NotedIsList(nodes);
    var t := Apply(s, Require(cur, nodes));
    if NeedWait(s, nodes) {
      assert t.ups == s.ups[cur := s.ups[cur] + [Some(|s.ups|)]] + [Listed(nodes) + [None]];
    }
  }

  /** create_edges notes the required nodes that are not null, and the flag after them. */
  lemma CreateNotes(s: State, v: nat, req: seq<Option<nat>>)
    requires WellFormed(s) && Enabled(s, Create(v, req))
    ensures var t := Apply(s, Create(v, req));
      && t.live == s.live && |t.ups| == |s.ups| && (forall x | 0 <= x < |s.ups| && x != v :: t.ups[x] == s.ups[x])
      && |t.ups[v]| > 0 && t.ups[v][|t.ups[v]| - 1] == None && (forall b :: Some(b) in t.ups[v] <==> Some(b) in req)
  {
    forall b: nat ensures Some(b) in Noted(req) <==> Some(b) in req {
      NotedIs(req, b);
    }
  }

  /** Allocation, finishing and the wait for a graph: a node more, one fewer, and a helper that waits for none. */
  lemma OthersNote(s: State, a: Action)
    requires WellFormed(s) && Enabled(s, a) && (a.Alloc? || a.Finish? || a.AwaitGraph?)
    ensures var t := Apply(s, a);
      match a
      case Alloc => t.ups == s.ups + [[]] && t.live == s.live + {|s.ups|}
      case Finish(n) => t.ups == s.ups && n !in t.live && t.live + {n} == s.live
      case AwaitGraph(cur) => t.ups == s.ups[cur := s.ups[cur] + [Some(|s.ups|)]] + [[]] && t.live == s.live + {|s.ups|}
      case _ => true
  {
    var t := Apply(s, a);
    assert a.AwaitGraph? ==> t.ups == s.ups[a.cur := s.ups[a.cur] + [Some(|s.ups|)]] + [[]];
    assert a.Finish? ==> t.live + {a.n} == s.live;
  }

  // ---------------------------------------------------------------- on the nodes

  datatype Outcome = NoWait | Refused | WaitsOn(helper: nat)

  /** The upstream lists and unfinished nodes the waits of running nodes work on. */
  class Assistant {
    var ups: seq<seq<Option<nat>>>
    var live: set<nat>
    const enabled: bool

    function S(): State
      reads this
    {
      State(ups, live)
    }

    ghost predicate Valid()
      reads this
    {
      WellFormed(S())
    }

    constructor (enable: bool)
      ensures Valid() && S() == State([], {}) && enabled == enable
    {
      ups, live, enabled := [], {}, enable;
    }

    /**
     * require_node, with the check and the append as one step; a refused wait is an assertion
     * failure. The call returns exactly if the search ends, which is its precondition.
     */
    method RequireNode(cur: nat, nodes: seq<nat>) returns (r: Outcome)
      requires Valid() && cur in live && forall i | 0 <= i < |nodes| :: nodes[i] < |ups|
      requires enabled && (exists i | 0 <= i < |nodes| :: nodes[i] in live) && cur !in nodes ==> Ends(S(), nodes, cur)
      modifies this`ups, this`live
      ensures Valid() && (enabled && Layered(old(S())) ==> Layered(S()))
      ensures r.NoWait? <==> forall i | 0 <= i < |nodes| :: nodes[i] !in old(live)
      ensures r.Refused? <==> !r.NoWait? && (cur in nodes || (enabled && Reachable(old(S()), nodes, cur)))
      ensures r.Refused? ==> ups == old(ups) && live == old(live)
      ensures r.NoWait? ==> live == old(live) && ups == old(ups)[cur := old(ups)[cur] + Listed(nodes)]
      ensures r.WaitsOn? ==> r.helper == |old(ups)| && live == old(live) + {r.helper}
      ensures r.WaitsOn? ==> ups == old(ups)[cur := old(ups)[cur] + [Some(r.helper)]] + [Listed(nodes) + [None]]
    {
      ghost var s := S();
      NotedIsList(nodes);
      NotedKnown(Refs(nodes), |ups|);
      AppendWellFormed(s, cur, Refs(nodes));
      AppendWellFormed(s, cur, Noted(Refs(nodes)));
      var needWait := false;
      for i := 0 to |nodes|
        invariant needWait <==> exists k | 0 <= k < i :: nodes[k] in live
      {
        if nodes[i] in live {
          needWait := true;
        }
      }
      if !needWait {
        if Layered(s) {
          IdleKeepsLayers(s, cur, Refs(nodes));
        }
        ups := ups[cur := ups[cur] + Refs(nodes)];
        return NoWait;
      }
      var found := CheckCircle(S(), enabled, cur, nodes);
      if found {
        return Refused;
      }
      var helper, noted := |ups|, Noted(Refs(nodes));
      if enabled && Layered(s) {
        NoneReaches(s, cur, nodes);
        LinkKeepsLayers(s, cur, noted);
      }
      ghost var before := ups;
      ups := (ups + [noted])[cur := ups[cur] + [Some(helper)]];
      assert ups == before[cur := before[cur] + [Some(helper)]] + [noted];
      live := live + {helper};
      return WaitsOn(helper);
    }
  }
}

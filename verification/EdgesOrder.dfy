/** Which way each edge goes: off the wait count at once, into the bitmap, or into the list. */
module EdgesOrder {
  import opened Common
  import opened Edges
  import opened EdgesProof
  import opened EdgesTheorems

  // ---------------------------------------------------------------- which way an edge goes

  /** Edge j of v is for a null, for v itself, or for a finished node. */
  predicate NothingToWaitFor(s: State, v: nat, j: nat)
    requires v < |s.nodes| && j < |s.nodes[v].req|
  {
    match s.nodes[v].req[j]
    case None => true
    case Some(u) => u == v || (u < |s.nodes| && (s.nodes[u].status.Finish? || s.nodes[u].status.Recoverable?))
  }

  /** Such an edge is counted off in two operations, which touch no other node; any other edge is left open for now. */
  lemma FirstTestDecides(s: State, v: nat)
    requires Enabled(s, Make(v)) && s.nodes[v].make.Edge? && s.nodes[v].make.pc.Begin?
    ensures var (n, t, j) := (s.nodes[v], Apply(s, Make(v)), s.nodes[v].make.j);
      if NothingToWaitFor(s, v, j) then
        && Enabled(t, Make(v))
        && var t' := Apply(t, Make(v));
           && |t'.nodes| == |s.nodes| && t'.nodes[v].wait == n.wait - 1 && t'.nodes[v].open == n.open - {j}
           && t'.nodes[v].make == (if j + 1 == |n.req| then Made else Edge(j + 1, Begin))
           && forall x | 0 <= x < |s.nodes| && x != v :: t'.nodes[x] == s.nodes[x]
      else t == Put(s, v, n.(make := Edge(j, TestSet)))
  {
    var n, t, j := s.nodes[v], Apply(s, Make(v)), s.nodes[v].make.j;
    if NothingToWaitFor(s, v, j) {
      assert t == Put(s, v, n.(make := Edge(j, Sub)));
      SubCountsOff(t, v);
    }
  }

  lemma SubCountsOff(s: State, v: nat)
    requires v < |s.nodes| && s.nodes[v].make.Edge? && s.nodes[v].make.pc.Sub? && s.nodes[v].make.j < |s.nodes[v].req|
    ensures Enabled(s, Make(v))
    ensures var (n, t) := (s.nodes[v], Apply(s, Make(v)));
      t == Put(s, v, Discharge(n, n.make.j).(make := NextEdge(n, n.make.j)))
  {
  }

  /** Whether the bitmap, and whether the bit is new: a node with an id below 63 in the graph of the upstream. */
  lemma PathIs(s: State, v: nat)
    requires Reachable(s) && Enabled(s, Make(v)) && s.nodes[v].make.Edge? && s.nodes[v].make.pc.TestSet?
    ensures var (n, t, j) := (s.nodes[v], Apply(s, Make(v)), s.nodes[v].make.j);
      && n.req[j].Some? && n.req[j].value < |s.nodes| && n.req[j].value != v && t.nodes[v].make.Edge? && t.nodes[v].make.j == j
      && var u := n.req[j].value;
         if n.graph != s.nodes[u].graph || n.id >= 63 then t.nodes[v].make.pc.SlowLock? && t.nodes[u] == s.nodes[u]
         else if n.id in s.nodes[u].fast then t.nodes[v].make.pc.DupSub? && t.nodes[u] == s.nodes[u]
         else t.nodes[v].make.pc == Snap(false) && t.nodes[u] == s.nodes[u].(fast := s.nodes[u].fast[n.id := j])
  {
    ReachableInv(s);
    assert MakerOk(s, v);
    hide MakersOk, BitsOk, ListsOk, ListsDistinct, AllHeld, AllJust;
  }

  // ---------------------------------------------------------------- where an edge is

  /** v belongs into the bitmap of u: a later node of the same graph, with an id below 63. */
  ghost predicate ByBitmap(s: State, u: nat, v: nat) {
    u < |s.nodes| && v < |s.nodes| && FastPath(s.nodes[u], s.nodes[v]) && s.nodes[u].id < s.nodes[v].id
  }

  ghost predicate ListPath(s: State, u: nat, i: nat)
    requires u < |s.nodes| && i < |s.nodes[u].downs|
  {
    s.nodes[u].downs[i].0 < |s.nodes| && !ByBitmap(s, u, s.nodes[u].downs[i].0)
  }

  predicate OnListPath(pc: AddPc) {
    pc.SlowLock? || pc.SlowTest? || pc.SlowPush? || pc.SlowUnlock?
  }

  ghost predicate MakerPath(s: State, v: nat)
    requires v < |s.nodes|
  {
    s.nodes[v].make.Edge? && OnListPath(s.nodes[v].make.pc) ==> HasUp(s, v) && !ByBitmap(s, Up(s, v), v)
  }

  /** No node that belongs into the bitmap of another is in its list, or on the way into it. */
  ghost predicate PathsOk(s: State) {
    && (forall u, i | 0 <= u < |s.nodes| && 0 <= i < |s.nodes[u].downs| :: ListPath(s, u, i))
    && (forall v | 0 <= v < |s.nodes| :: MakerPath(s, v))
  }

  /** A registered node keeps its graph, its number and what it requires. */
  ghost predicate Same(s: State, t: State, v: nat) {
    && v < |s.nodes| && v < |t.nodes| && !t.nodes[v].make.Unmade?
    && t.nodes[v].graph == s.nodes[v].graph && t.nodes[v].id == s.nodes[v].id && t.nodes[v].req == s.nodes[v].req
  }

  lemma MakeSame(s: State, w: nat, v: nat)
    requires Enabled(s, Make(w)) && v < |s.nodes| && !s.nodes[v].make.Unmade?
    ensures Same(s, Apply(s, Make(w)), v)
  {
  }

  lemma FinSame(s: State, a: Action, v: nat)
    requires Enabled(s, a) && v < |s.nodes| && !s.nodes[v].make.Unmade? && (a.Fin? || a.FinBit?)
    ensures Same(s, Apply(s, a), v)
  {
  }

  lemma Registered(s: State, a: Action, v: nat)
    requires Enabled(s, a) && v < |s.nodes| && !s.nodes[v].make.Unmade?
    ensures Same(s, Apply(s, a), v)
  {
    if a.Make? {
      MakeSame(s, a.v, v);
    } else if a.Fin? || a.FinBit? {
      FinSame(s, a, v);
    }
  }

  /** Any other one gets a greater number than those before it in its graph. */
  lemma NewcomerIsLater(s: State, a: Action, u: nat, v: nat)
    requires PlacesOk(s) && Enabled(s, a) && v < |s.nodes| && !s.nodes[v].make.Unmade? && u < |s.nodes|
    requires s.nodes[u].make.Unmade?
    ensures !ByBitmap(Apply(s, a), u, v)
  {
    Registered(s, a, v);
    if a.Create? && a.v == u {
      var t := Apply(s, a);
      assert t.nodes[u].graph == Some(a.g) && t.nodes[u].id == |s.graphs[a.g]|;
    } else {
      Unregistered(s, a, u);
    }
  }

  lemma Unregistered(s: State, a: Action, u: nat)
    requires PlacesOk(s) && Enabled(s, a) && u < |s.nodes| && s.nodes[u].make.Unmade? && (a.Create? ==> a.v != u)
    ensures u < |Apply(s, a).nodes| && Apply(s, a).nodes[u].graph.None?
  {
    assert s.nodes[u].graph.None?;
    hide PlacesOk;
  }

  lemma StaysOff(s: State, a: Action, u: nat, v: nat)
    requires Inv(s) && Enabled(s, a) && u < |s.nodes| && v < |s.nodes| && !s.nodes[v].make.Unmade? && !ByBitmap(s, u, v)
    ensures !ByBitmap(Apply(s, a), u, v)
  {
    hide MakersOk, BitsOk, ListsOk, ListsDistinct, AllHeld, AllJust, NodesOk, Enabled, Apply;
    if s.nodes[u].make.Unmade? {
      NewcomerIsLater(s, a, u, v);
    } else {
      hide PlacesOk;
      Registered(s, a, u);
      Registered(s, a, v);
    }
  }

  /** The list of u grows only by the node whose create_edges appends to it. */
  lemma ListGrows(s: State, a: Action, u: nat, i: nat)
    requires Enabled(s, a) && u < |Apply(s, a).nodes| && i < |Apply(s, a).nodes[u].downs|
    ensures u < |s.nodes|
    ensures if i < |s.nodes[u].downs| then Apply(s, a).nodes[u].downs[i] == s.nodes[u].downs[i]
      else a.Make? && s.nodes[a.v].make.Edge? && s.nodes[a.v].make.pc.SlowPush? && HasUp(s, a.v) && Up(s, a.v) == u
           && Apply(s, a).nodes[u].downs[i].0 == a.v
  {
  }

  lemma StepList(s: State, a: Action, u: nat, i: nat)
    requires Inv(s) && PathsOk(s) && Enabled(s, a) && u < |Apply(s, a).nodes| && i < |Apply(s, a).nodes[u].downs|
    ensures ListPath(Apply(s, a), u, i)
  {
    ListGrows(s, a, u, i);
    var v := Apply(s, a).nodes[u].downs[i].0;
    if i < |s.nodes[u].downs| {
      assert ListPath(s, u, i);
      EntryRegistered(s, u, i);
    } else {
      assert MakerPath(s, v);
    }
    hide Inv, PathsOk, Enabled, Apply;
    Registered(s, a, v);
    StaysOff(s, a, u, v);
  }

  /** A list path is begun only after the bitmap was ruled out, and its operations keep to it. */
  ghost predicate Begun(s: State, t: State, v: nat)
    requires v < |t.nodes| && t.nodes[v].make.Edge?
  {
    && v < |s.nodes| && s.nodes[v].make.Edge? && t.nodes[v].make.j == s.nodes[v].make.j
    && (OnListPath(s.nodes[v].make.pc) || (HasUp(s, v) && !FastPath(s.nodes[Up(s, v)], s.nodes[v])))
  }

  lemma OwnPathBegun(s: State, v: nat)
    requires Enabled(s, Make(v))
    requires Apply(s, Make(v)).nodes[v].make.Edge? && OnListPath(Apply(s, Make(v)).nodes[v].make.pc)
    ensures Begun(s, Apply(s, Make(v)), v)
  {
  }

  lemma OthersKeepMaker(s: State, a: Action, v: nat)
    requires Enabled(s, a) && a != Make(v) && v < |Apply(s, a).nodes| && Apply(s, a).nodes[v].make.Edge?
    ensures v < |s.nodes| && Apply(s, a).nodes[v].make == s.nodes[v].make
  {
  }

  lemma PathBegun(s: State, a: Action, v: nat)
    requires Enabled(s, a) && v < |Apply(s, a).nodes| && Apply(s, a).nodes[v].make.Edge? && OnListPath(Apply(s, a).nodes[v].make.pc)
    ensures Begun(s, Apply(s, a), v)
  {
    if a == Make(v) {
      OwnPathBegun(s, v);
    } else {
      OthersKeepMaker(s, a, v);
      hide Enabled, Apply;
    }
  }

  lemma StepMaker(s: State, a: Action, v: nat)
    requires Inv(s) && PathsOk(s) && Enabled(s, a) && v < |Apply(s, a).nodes|
    ensures MakerPath(Apply(s, a), v)
  {
    var t := Apply(s, a);
    hide Inv, Enabled, Apply;
    if t.nodes[v].make.Edge? && OnListPath(t.nodes[v].make.pc) {
      PathBegun(s, a, v);
      assert MakerPath(s, v);
      hide PathsOk;
      Registered(s, a, v);
      StaysOff(s, a, Up(s, v), v);
      NodesStay(s, a);
    }
  }

  lemma NodesStay(s: State, a: Action)
    requires Enabled(s, a)
    ensures |s.nodes| <= |Apply(s, a).nodes|
  {
  }

  lemma StepPaths(s: State, a: Action)
    requires Inv(s) && PathsOk(s) && Enabled(s, a)
    ensures PathsOk(Apply(s, a))
  {
    hide Inv, Enabled, Apply, ListPath, MakerPath;
    var t := Apply(s, a);
    forall u, i | 0 <= u < |t.nodes| && 0 <= i < |t.nodes[u].downs| ensures ListPath(t, u, i) {
      StepList(s, a, u, i);
    }
    forall v | 0 <= v < |t.nodes| ensures MakerPath(t, v) {
      StepMaker(s, a, v);
    }
  }

  lemma EntryRegistered(s: State, u: nat, i: nat)
    requires Inv(s) && u < |s.nodes| && i < |s.nodes[u].downs|
    ensures s.nodes[u].downs[i].0 < |s.nodes| && !s.nodes[s.nodes[u].downs[i].0].make.Unmade?
  {
    assert EntryFine(s, u, i);
    hide MakersOk, BitsOk, ListsOk, ListsDistinct, AllHeld, AllJust, NodesOk;
  }

  lemma {:induction false} RunPaths(states: seq<State>, acts: seq<Action>, n: nat)
    requires IsRun(states, acts) && IsInit(states[0]) && n <= |acts|
    ensures PathsOk(states[n])
  {
    if n > 0 {
      RunPaths(states, acts, n - 1);
      RunKeeps(states, acts, n - 1);
      hide Inv, Enabled, Apply, PathsOk;
      StepPaths(states[n - 1], acts[n - 1]);
    }
  }

  lemma ReachablePaths(s: State)
    requires Reachable(s)
    ensures PathsOk(s)
  {
    var states, acts :| IsRun(states, acts) && IsInit(states[0]) && states[|acts|] == s;
    RunPaths(states, acts, |acts|);
  }

  /**
   * The edges of a created node to an unfinished earlier one of its graph, with an id below 63:
   * all but one are closed as duplicates, that one has the bit, and none is in the list.
   */
  lemma BitmapHasOne(s: State, v: nat, e: nat, u: nat)
    requires Reachable(s) && v < |s.nodes| && u < |s.nodes| && u != v && s.nodes[v].make.Made?
    requires e < |s.nodes[v].req| && s.nodes[v].req[e] == Some(u) && s.nodes[u].status !in {Finish, Recoverable}
    requires s.nodes[u].graph == s.nodes[v].graph && s.nodes[u].id < s.nodes[v].id < 63
    ensures s.nodes[v].id in s.nodes[u].fast
    ensures e in s.nodes[v].open <==> s.nodes[u].fast[s.nodes[v].id] == e
    ensures forall i | 0 <= i < |s.nodes[u].downs| :: s.nodes[u].downs[i].0 != v
  {
    ReachableInv(s);
    ReachablePaths(s);
    assert OpenHeld(s, v, e) && ClosedJust(s, v, e);
    hide MakersOk, ListsDistinct, AllHeld, AllJust, NodesOk, ListsOk, BitsOk;
    forall i | 0 <= i < |s.nodes[u].downs| ensures s.nodes[u].downs[i].0 != v {
      assert ListPath(s, u, i);
    }
    assert (v, e) !in s.nodes[u].downs;
  }

  /** In another graph, or with a greater id: every such edge is open and in the list. */
  lemma ListHasAll(s: State, v: nat, e: nat, u: nat)
    requires Reachable(s) && v < |s.nodes| && u < |s.nodes| && u != v && s.nodes[v].make.Made?
    requires e < |s.nodes[v].req| && s.nodes[v].req[e] == Some(u) && s.nodes[u].status !in {Finish, Recoverable}
    requires s.nodes[u].graph != s.nodes[v].graph || s.nodes[v].id >= 63
    ensures e in s.nodes[v].open && (v, e) in s.nodes[u].downs
  {
    ReachableInv(s);
    assert OpenHeld(s, v, e) && ClosedJust(s, v, e);
    hide MakersOk, ListsDistinct, AllHeld, AllJust, NodesOk, ListsOk, BitsOk, PlacesOk;
  }
}

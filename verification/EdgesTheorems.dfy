/** What the edge protocol guarantees in every run. */
module EdgesTheorems {
  import opened Common
  import opened Edges
  import opened EdgesProof
  import opened EdgesSteps

  /** No node yet, and graphs without nodes. */
  predicate IsInit(s: State) {
    s.nodes == [] && forall g | 0 <= g < |s.graphs| :: s.graphs[g] == []
  }

  ghost predicate Reachable(s: State) {
    exists states, acts :: IsRun(states, acts) && IsInit(states[0]) && states[|acts|] == s
  }

  lemma {:induction false} RunKeeps(states: seq<State>, acts: seq<Action>, n: nat)
    requires IsRun(states, acts) && IsInit(states[0]) && n <= |acts|
    ensures Inv(states[n])
  {
    if n > 0 {
      RunKeeps(states, acts, n - 1);
      hide Inv;
      StepKeeps(states[n - 1], acts[n - 1]);
    }
  }

  lemma ReachableInv(s: State)
    requires Reachable(s)
    ensures Inv(s)
  {
    var states, acts :| IsRun(states, acts) && IsInit(states[0]) && states[|acts|] == s;
    RunKeeps(states, acts, |acts|);
  }

  lemma ReachableStep(s: State, a: Action)
    requires Reachable(s) && Enabled(s, a)
    ensures Reachable(Apply(s, a))
  {
    hide Enabled, Apply, IsInit;
    var states, acts :| IsRun(states, acts) && IsInit(states[0]) && states[|acts|] == s;
    var states', acts' := states + [Apply(s, a)], acts + [a];
    forall i | 0 <= i < |acts'| ensures Enabled(states'[i], acts'[i]) && states'[i + 1] == Apply(states'[i], acts'[i]) {
      assert i < |acts| ==> Enabled(states[i], acts[i]) && states'[i + 1] == states[i + 1];
    }
    assert IsRun(states', acts') && states'[0] == states[0];
  }

  /** A node that was not passed to create_edges requires none. */
  lemma StepUnmade(s: State, a: Action, v: nat)
    requires Enabled(s, a) && v < |Apply(s, a).nodes| && Apply(s, a).nodes[v].make.Unmade?
    ensures v < |s.nodes| ==> s.nodes[v].make.Unmade? && Apply(s, a).nodes[v].req == s.nodes[v].req
    ensures v >= |s.nodes| ==> Apply(s, a).nodes[v].req == []
  {
  }

  lemma {:induction false} RunUnmade(states: seq<State>, acts: seq<Action>, n: nat, v: nat)
    requires IsRun(states, acts) && IsInit(states[0]) && n <= |acts| && v < |states[n].nodes| && states[n].nodes[v].make.Unmade?
    ensures states[n].nodes[v].req == []
  {
    hide Enabled, Apply;
    if n > 0 {
      StepUnmade(states[n - 1], acts[n - 1], v);
      if v < |states[n - 1].nodes| {
        RunUnmade(states, acts, n - 1, v);
      }
    }
  }

  lemma UnmadeRequiresNone(s: State, v: nat)
    requires Reachable(s) && v < |s.nodes| && s.nodes[v].make.Unmade?
    ensures s.nodes[v].req == []
  {
    var states, acts :| IsRun(states, acts) && IsInit(states[0]) && states[|acts|] == s;
    RunUnmade(states, acts, |acts|, v);
  }

  // ---------------------------------------------------------------- each edge is discharged once

  /** The edge an action counts off: who required, and which position of its list. */
  function Discharged(s: State, a: Action): Option<(nat, nat)>
    requires Enabled(s, a)
  {
    match a
    case Make(v) =>
      if s.nodes[v].make.Edge? && (s.nodes[v].make.pc.Sub? || s.nodes[v].make.pc.DupSub?)
      then Some((v, s.nodes[v].make.j)) else None
    case FinBit(u, id) => Some((BitTarget(s, u, id), s.nodes[u].fast[id]))
    case Fin(u) =>
      if s.nodes[u].fin.FList? && s.nodes[u].fin.i < |s.nodes[u].downs|
      then Some(s.nodes[u].downs[s.nodes[u].fin.i]) else None
    case _ => None
  }

  /** An edge that was counted into the wait count and is not counted off yet. */
  predicate IsOpen(s: State, p: (nat, nat)) {
    p.0 < |s.nodes| && Counted(s.nodes[p.0]) && p.1 in s.nodes[p.0].open
  }

  predicate IsCounted(s: State, p: (nat, nat)) {
    p.0 < |s.nodes| && Counted(s.nodes[p.0]) && p.1 < |s.nodes[p.0].req|
  }

  /** No operation ever counts off an edge that is not open. */
  lemma DischargeHitsOpen(s: State, a: Action)
    requires Inv(s) && Enabled(s, a) && Discharged(s, a).Some?
    ensures IsOpen(s, Discharged(s, a).value)
  {
    match a
    case Make(v) => assert MakerOk(s, v);
    case FinBit(u, id) =>
      FinBitKeeps(s, u, id);
      assert CountOk(s.nodes[BitTarget(s, u, id)]);
    case Fin(u) =>
      FinListKeeps(s, u);
      assert CountOk(s.nodes[s.nodes[u].downs[s.nodes[u].fin.i].0]);
  }

  /** An action closes the edge it counts off and no other; only create_edges opens edges, all at once. */
  ghost predicate ClosesOnly(s: State, s': State, d: Option<(nat, nat)>, p: (nat, nat)) {
    && (IsCounted(s, p) ==> IsCounted(s', p) && (IsOpen(s', p) <==> IsOpen(s, p) && d != Some(p)))
    && (!IsCounted(s, p) && IsCounted(s', p) ==> IsOpen(s', p))
    && (d == Some(p) ==> IsOpen(s, p) && IsCounted(s, p))
  }

  /** What create_edges of v does to the open edges of v, and of another node x. */
  lemma MakeFrame(s: State, v: nat, x: nat)
    requires Enabled(s, Make(v)) && x < |s.nodes|
    ensures var s' := Apply(s, Make(v));
      && |s'.nodes| == |s.nodes| && s'.nodes[v].req == s.nodes[v].req && Counted(s'.nodes[v])
      && s'.nodes[v].open == (
           if s.nodes[v].make.Announced? then (if s.nodes[v].req == [] then s.nodes[v].open else Iota(|s.nodes[v].req|))
           else if Discharged(s, Make(v)).Some? then s.nodes[v].open - {s.nodes[v].make.j} else s.nodes[v].open)
      && (x != v ==> s'.nodes[x].req == s.nodes[x].req && s'.nodes[x].make == s.nodes[x].make
                     && s'.nodes[x].open == s.nodes[x].open)
  {
  }

  lemma MakeDischarges(s: State, v: nat)
    requires Enabled(s, Make(v))
    ensures v < |s.nodes| && (s.nodes[v].make.Announced? || s.nodes[v].make.Edge?)
    ensures Discharged(s, Make(v)).Some? ==> s.nodes[v].make.Edge? && Discharged(s, Make(v)).value == (v, s.nodes[v].make.j)
  {
  }

  lemma CountAt(s: State, v: nat)
    requires Inv(s) && v < |s.nodes|
    ensures CountOk(s.nodes[v])
  {
  }

  lemma MakeCloses(s: State, v: nat, p: (nat, nat))
    requires Inv(s) && Enabled(s, Make(v))
    ensures ClosesOnly(s, Apply(s, Make(v)), Discharged(s, Make(v)), p)
  {
    hide Inv, Apply, Discharged, Enabled;
    MakeDischarges(s, v);
    MakeFrame(s, v, if p.0 < |s.nodes| then p.0 else v);
    if Discharged(s, Make(v)).Some? {
      DischargeHitsOpen(s, Make(v));
    }
    CountAt(s, v);
  }

  /** Node x as the finisher leaves it: edge d, if it is one of x, is closed. */
  ghost predicate Trimmed(s: State, s': State, d: Option<(nat, nat)>, x: nat) {
    && (x < |s'.nodes| <==> x < |s.nodes|)
    && (x < |s.nodes| ==>
          && s'.nodes[x].req == s.nodes[x].req && s'.nodes[x].make == s.nodes[x].make
          && s'.nodes[x].open == (if d.Some? && d.value.0 == x then s.nodes[x].open - {d.value.1} else s.nodes[x].open))
  }

  lemma FinTrims(s: State, a: Action, x: nat)
    requires Enabled(s, a) && (a.Fin? || a.FinBit?)
    ensures Trimmed(s, Apply(s, a), Discharged(s, a), x)
  {
  }

  lemma FinCloses(s: State, a: Action, p: (nat, nat))
    requires Inv(s) && Enabled(s, a) && (a.Fin? || a.FinBit?)
    ensures ClosesOnly(s, Apply(s, a), Discharged(s, a), p)
  {
    FinTrims(s, a, p.0);
    var d, s' := Discharged(s, a), Apply(s, a);
    if d == Some(p) {
      DischargeHitsOpen(s, a);
      assert CountOk(s.nodes[p.0]);
    }
    hide Inv, Apply, Discharged, Enabled, CountOk;
  }

  lemma EdgeStep(s: State, a: Action, p: (nat, nat))
    requires Inv(s) && Enabled(s, a)
    ensures ClosesOnly(s, Apply(s, a), Discharged(s, a), p)
  {
    match a
    case Make(v) => hide *; MakeCloses(s, v, p);
    case Fin(_) => hide *; FinCloses(s, a, p);
    case FinBit(_, _) => hide *; FinCloses(s, a, p);
    case _ => hide Inv;
  }

  /** How often the first n actions of a run counted edge p off. */
  ghost function Times(states: seq<State>, acts: seq<Action>, p: (nat, nat), n: nat): nat
    requires IsRun(states, acts) && n <= |acts|
  {
    if n == 0 then 0
    else Times(states, acts, p, n - 1) + if Discharged(states[n - 1], acts[n - 1]) == Some(p) then 1 else 0
  }

  /** In every run an edge is counted off exactly once if it is closed, and never while it is open. */
  lemma {:induction false} DischargedExactlyOnce(states: seq<State>, acts: seq<Action>, p: (nat, nat), n: nat)
    requires IsRun(states, acts) && IsInit(states[0]) && n <= |acts|
    ensures Times(states, acts, p, n) == (if IsCounted(states[n], p) && !IsOpen(states[n], p) then 1 else 0)
  {
    if n > 0 {
      DischargedExactlyOnce(states, acts, p, n - 1);
      RunKeeps(states, acts, n - 1);
      hide Inv;
      EdgeStep(states[n - 1], acts[n - 1], p);
      hide Discharged, Apply, Enabled, IsOpen, IsCounted;
    }
  }

  /** The wait count is the number of open edges: never negative, and zero means all are counted off. */
  lemma WaitCountIsOpenEdges(s: State, v: nat)
    requires Reachable(s) && v < |s.nodes| && Counted(s.nodes[v])
    ensures s.nodes[v].wait == |s.nodes[v].open|
    ensures forall e | 0 <= e < |s.nodes[v].req| :: e in s.nodes[v].open <==> IsOpen(s, (v, e))
    ensures s.nodes[v].released == (if s.nodes[v].wait == 0 then 1 else 0)
  {
    ReachableInv(s);
    assert CountOk(s.nodes[v]);
  }

  // ---------------------------------------------------------------- readiness

  /** A node is made ready at most once, and only when every other node it requires has finished. */
  lemma ReadyOnlyWhenRequiredFinished(s: State, v: nat, e: nat)
    requires Reachable(s) && v < |s.nodes| && e < |s.nodes[v].req|
    requires s.nodes[v].released > 0 || s.nodes[v].status != Initing
    requires s.nodes[v].req[e].Some? && s.nodes[v].req[e].value != v
    ensures s.nodes[v].released == 1
    ensures s.nodes[v].req[e].value < |s.nodes| && Done(s.nodes[s.nodes[v].req[e].value].status)
  {
    ReachableInv(s);
    hide MakersOk, ListsOk, ListsDistinct, AllHeld;
    var n := s.nodes[v];
    assert CountOk(n) && ReqOk(s, n.req) && ClosedJust(s, v, e);
    var u := n.req[e].value;
    if FastPath(s.nodes[u], n) && n.id in s.nodes[u].fast {
      MyBit(s, v, u);
      assert ClosedJust(s, v, s.nodes[u].fast[n.id]);
    }
  }

  /** The nodes the finishing side counts down do exist. */
  lemma TargetsExist(s: State, u: nat)
    requires Reachable(s) && u < |s.nodes|
    ensures s.nodes[u].fin.FBits? ==> forall id | id in s.nodes[u].fin.todo :: Enabled(s, FinBit(u, id))
    ensures s.nodes[u].fin.FList? ==> ListTargetOk(s, u)
  {
    ReachableInv(s);
    hide MakersOk, ListsDistinct, AllHeld, AllJust, PlacesOk;
    assert FinOk(s.nodes[u]);
    if s.nodes[u].fin.FBits? {
      forall id | id in s.nodes[u].fin.todo ensures BitTargetOk(s, u, id) {
        assert BitFine(s, u, id);
      }
    }
    if s.nodes[u].fin.FList? && s.nodes[u].fin.i < |s.nodes[u].downs| {
      assert EntryFine(s, u, s.nodes[u].fin.i);
    }
  }

  // ---------------------------------------------------------------- no deadlock, and completion

  /** A lock taken in add_downstream is held by a call that is between lock and unlock. */
  ghost predicate HolderOk(s: State, u: nat)
    requires u < |s.nodes|
  {
    s.nodes[u].lock.Adder? ==>
      HasUp(s, s.nodes[u].lock.v) && Up(s, s.nodes[u].lock.v) == u && UsesLock(s.nodes[s.nodes[u].lock.v].make.pc)
  }

  ghost predicate HoldersOk(s: State) {
    forall u | 0 <= u < |s.nodes| :: HolderOk(s, u)
  }

  /** What create_edges of v does to locks, and to the records of others. */
  lemma LockFrame(s: State, v: nat, u: nat)
    requires v < |s.nodes| && Enabled(s, Make(v)) && u < |s.nodes|
    ensures u < |Apply(s, Make(v)).nodes| && |Apply(s, Make(v)).nodes| == |s.nodes|
    ensures var (pc, n, n') := (s.nodes[v].make, s.nodes[u], Apply(s, Make(v)).nodes[u]);
      && n'.req == n.req && (u != v ==> n'.make == n.make)
      && n'.lock == (
           if pc.Edge? && (pc.pc.SlowLock? || pc.pc.SlowPush? || pc.pc.SlowUnlock?) && Up(s, v) == u
           then (if pc.pc.SlowLock? then Adder(v) else Free) else n.lock)
    ensures s.nodes[v].make.Edge? && (s.nodes[v].make.pc.SlowLock? || s.nodes[v].make.pc.SlowTest?) ==>
      Apply(s, Make(v)).nodes[v].make.Edge? && Apply(s, Make(v)).nodes[v].make.j == s.nodes[v].make.j
      && UsesLock(Apply(s, Make(v)).nodes[v].make.pc)
  {
  }

  lemma MakeHolder(s: State, v: nat, u: nat)
    requires Inv(s) && HoldersOk(s) && v < |s.nodes| && Enabled(s, Make(v)) && u < |s.nodes|
    ensures u < |Apply(s, Make(v)).nodes| && HolderOk(Apply(s, Make(v)), u)
  {
    var s' := Apply(s, Make(v));
    LockFrame(s, v, u);
    LockFrame(s, v, v);
    assert HolderOk(s, u);
    if s'.nodes[u].lock.Adder? {
      assert s'.nodes[u].lock == s.nodes[u].lock || s'.nodes[u].lock.v == v;
      assert s.nodes[u].lock.Adder? ==> s.nodes[u].lock.v < |s.nodes|;
      LockFrame(s, v, s'.nodes[u].lock.v);
    }
    hide Inv, Apply, HoldersOk;
  }

  /** Nothing else takes an adder's lock, or changes a running create_edges. */
  lemma RestFrame(s: State, a: Action, x: nat)
    requires Enabled(s, a) && !a.Make?
    ensures x < |s.nodes| ==> x < |Apply(s, a).nodes|
    ensures x < |Apply(s, a).nodes| && Apply(s, a).nodes[x].lock.Adder? ==>
      x < |s.nodes| && Apply(s, a).nodes[x].lock == s.nodes[x].lock
    ensures x < |s.nodes| && s.nodes[x].make.Edge? ==>
      Apply(s, a).nodes[x].make == s.nodes[x].make && Apply(s, a).nodes[x].req == s.nodes[x].req
  {
  }

  lemma RestHolder(s: State, a: Action, u: nat)
    requires HoldersOk(s) && Enabled(s, a) && !a.Make? && u < |Apply(s, a).nodes|
    ensures HolderOk(Apply(s, a), u)
  {
    var s' := Apply(s, a);
    RestFrame(s, a, u);
    if s'.nodes[u].lock.Adder? {
      assert HolderOk(s, u);
      RestFrame(s, a, s.nodes[u].lock.v);
    }
    hide Apply, Enabled;
  }

  lemma HolderStep(s: State, a: Action)
    requires Inv(s) && HoldersOk(s) && Enabled(s, a)
    ensures HoldersOk(Apply(s, a))
  {
    hide Inv, HolderOk;
    var s' := Apply(s, a);
    assert a.Make? ==> |s'.nodes| == |s.nodes|;
    hide Apply, Enabled;
    forall u | 0 <= u < |s'.nodes| ensures HolderOk(s', u) {
      if a.Make? {
        MakeHolder(s, a.v, u);
      } else {
        RestHolder(s, a, u);
      }
    }
  }

  lemma {:induction false} RunHolders(states: seq<State>, acts: seq<Action>, n: nat)
    requires IsRun(states, acts) && IsInit(states[0]) && n <= |acts|
    ensures HoldersOk(states[n])
  {
    if n > 0 {
      RunHolders(states, acts, n - 1);
      RunKeeps(states, acts, n - 1);
      hide Inv, HoldersOk;
      HolderStep(states[n - 1], acts[n - 1]);
    }
  }

  lemma ReachableHolders(s: State)
    requires Reachable(s)
    ensures Inv(s) && HoldersOk(s)
  {
    var states, acts :| IsRun(states, acts) && IsInit(states[0]) && states[|acts|] == s;
    RunKeeps(states, acts, |acts|);
    RunHolders(states, acts, |acts|);
  }

  /** An operation of create_edges or finish, or the start of a ready node, that can be done now. */
  predicate Moves(s: State, a: Action) {
    (a.Make? || a.Start? || a.Fin? || a.FinBit?) && Enabled(s, a)
  }

  ghost predicate Stuck(s: State) {
    forall a :: !Moves(s, a)
  }

  /** Whoever holds a lock can move. */
  lemma LockedCanMove(s: State, u: nat) returns (a: Action)
    requires Inv(s) && HoldersOk(s) && u < |s.nodes| && !s.nodes[u].lock.Free?
    ensures Moves(s, a) && (a.Make? || (a.Fin? && !s.nodes[a.u].fin.FNone?))
  {
    hide MakersOk, ListsDistinct, AllHeld, AllJust, BitsOk, PlacesOk, RequiredOk;
    assert HolderOk(s, u) && FinOk(s.nodes[u]);
    if s.nodes[u].lock.Adder? {
      a := Make(s.nodes[u].lock.v);
    } else {
      a := Fin(u);
      assert s.nodes[u].fin.FList? && s.nodes[u].fin.i < |s.nodes[u].downs| ==> EntryFine(s, u, s.nodes[u].fin.i);
    }
  }

  /** Create_edges is under way, or the node is ready and not through with finish. */
  predicate Halfway(n: Node) {
    n.make.Announced? || n.make.Edge? || (n.released > 0 && !n.fin.FDone?)
  }

  lemma NodeFacts(s: State, v: nat)
    requires Inv(s) && v < |s.nodes|
    ensures CountOk(s.nodes[v]) && FinOk(s.nodes[v]) && MakerOk(s, v) && ReqOk(s, s.nodes[v].req)
    ensures s.nodes[v].fin.FList? ==> ListTargetOk(s, v)
  {
    if s.nodes[v].fin.FList? && s.nodes[v].fin.i < |s.nodes[v].downs| {
      assert EntryFine(s, v, s.nodes[v].fin.i);
    }
  }

  lemma BitFacts(s: State, v: nat, id: nat)
    requires Inv(s) && v < |s.nodes| && id in s.nodes[v].fast
    ensures BitTargetOk(s, v, id)
  {
    assert BitFine(s, v, id);
  }

  /** No deadlock: while a node is half way, something can move. */
  lemma NoDeadlock(s: State, v: nat) returns (a: Action)
    requires Inv(s) && HoldersOk(s) && v < |s.nodes| && Halfway(s.nodes[v])
    ensures Moves(s, a)
    ensures a.Start? || (a.Fin? && s.nodes[a.u].fin.FNone?) ==>
      s.nodes[v].fin.FNone? && !s.nodes[v].make.Announced? && !s.nodes[v].make.Edge?
  {
    hide Inv, HoldersOk;
    NodeFacts(s, v);
    if !s.nodes[v].lock.Free? {
      a := LockedCanMove(s, v);
    } else if s.nodes[v].make.Announced? || s.nodes[v].make.Edge? {
      if HasUp(s, v) && !s.nodes[Up(s, v)].lock.Free? {
        a := LockedCanMove(s, Up(s, v));
      } else {
        a := Make(v);
      }
    } else if s.nodes[v].fin.FBits? && s.nodes[v].fin.todo != {} {
      var id :| id in s.nodes[v].fin.todo;
      BitFacts(s, v, id);
      a := FinBit(v, id);
    } else if s.nodes[v].status.Initing? {
      a := Start(v);
    } else {
      a := Fin(v);
    }
  }

  /** The relation "requires" has no cycle: a rank falls along it. Required nodes were created. */
  ghost predicate Acyclic(s: State, rank: seq<nat>) {
    && |rank| == |s.nodes|
    && (forall v, e | 0 <= v < |s.nodes| && 0 <= e < |s.nodes[v].req| && s.nodes[v].req[e].Some? :: Below(s, rank, v, e))
  }

  ghost predicate Below(s: State, rank: seq<nat>, v: nat, e: nat)
    requires |rank| == |s.nodes| && v < |s.nodes| && e < |s.nodes[v].req| && s.nodes[v].req[e].Some?
  {
    var u := s.nodes[v].req[e].value;
    u < |s.nodes| && (u != v ==> !s.nodes[u].make.Unmade? && rank[u] < rank[v])
  }

  /** When nothing can move any more, every created node has finished: no node waits for ever. */
  lemma {:induction false} StuckMeansFinished(s: State, rank: seq<nat>, v: nat)
    requires Reachable(s) && Stuck(s) && Acyclic(s, rank) && v < |s.nodes| && !s.nodes[v].make.Unmade?
    ensures Done(s.nodes[v].status) && s.nodes[v].fin.FDone? && s.nodes[v].released == 1 && s.nodes[v].open == {}
    decreases rank[v]
  {
    ReachableHolders(s);
    hide MakersOk, ListsDistinct, AllJust, HoldersOk;
    var n := s.nodes[v];
    if Halfway(n) {
      var a := NoDeadlock(s, v);
    }
    assert CountOk(n) && FinOk(n);
    forall e | e in n.open ensures false {
      assert OpenHeld(s, v, e);
      var u := n.req[e].value;
      assert Below(s, rank, v, e);
      StuckMeansFinished(s, rank, u);
      NoOpenAfterFinish(s, v, e);
    }
    assert n.open == {};
  }

  /** Edges to a node that is through with finish are closed. */
  lemma NoOpenAfterFinish(s: State, v: nat, e: nat)
    requires Inv(s) && v < |s.nodes| && e < |s.nodes[v].req| && s.nodes[v].make.Made?
    requires s.nodes[v].req[e].Some? && s.nodes[v].req[e].value < |s.nodes| && s.nodes[s.nodes[v].req[e].value].fin.FDone?
    requires s.nodes[v].req[e].value != v
    ensures e !in s.nodes[v].open
  {
    hide MakersOk, ListsDistinct, AllJust;
    var ui, n := s.nodes[v].req[e].value, s.nodes[v];
    var u := s.nodes[ui];
    assert OpenHeld(s, v, e) && FinOk(u);
    if HasBit(u, n, e) {
      MyBit(s, v, ui);
    } else if (v, e) in u.downs {
      var i :| 0 <= i < |u.downs| && u.downs[i] == (v, e);
      assert EntryFine(s, ui, i);
    }
  }
}

/** Every run that creates no more nodes ends, and ends with every created node finished. */
module EdgesFinite {
  import opened Common
  import opened Edges
  import opened EdgesProof
  import opened EdgesSteps
  import opened EdgesTheorems

  function AddWork(pc: AddPc): nat {
    match pc
    case Begin => 15
    case TestSet => 14
    case SlowLock => 13
    case SlowTest => 12
    case SlowPush => 11
    case SlowUnlock => 11
    case DupSub => 11
    case Snap(_) => 10
    case Sub => 5
  }

  /** A bound on the operations create_edges has left. */
  function MakeWork(n: Node): nat {
    match n.make
    case Announced => 1 + 20 * |n.req|
    case Edge(j, pc) => (if j < |n.req| then 20 * (|n.req| - j - 1) else 0) + AddWork(pc)
    case _ => 0
  }

  /** A bound on the operations a node has left from being run to the end of finish. */
  function FinWork(n: Node): nat {
    match n.fin
    case FNone => (if n.status.Initing? then 20 else 19) + |n.fast| + |n.downs|
    case FLock => 18 + |n.fast| + |n.downs|
    case FReg => 17 + |n.fast| + |n.downs|
    case FStore(reg) => 16 + |reg| + |n.downs|
    case FBits(todo) => 10 + |todo| + |n.downs|
    case FList(i) => 1 + (if i < |n.downs| then |n.downs| - i else 0)
    case FDone => 0
  }

  function NodeWork(n: Node): nat {
    MakeWork(n) + FinWork(n)
  }

  function Work(s: State): nat {
    Sum(s.nodes, n => NodeWork(n))
  }

  lemma OneLess(s: State, v: nat, n: Node)
    requires v < |s.nodes| && NodeWork(n) < NodeWork(s.nodes[v])
    ensures Work(Put(s, v, n)) < Work(s)
  {
    SumUpdate(s.nodes, n => NodeWork(n), v, n);
  }

  lemma TwoLess(s: State, v: nat, n: Node, u: nat, m: Node)
    requires v < |s.nodes| && u < |s.nodes| && u != v
    requires NodeWork(n) + NodeWork(m) < NodeWork(s.nodes[v]) + NodeWork(s.nodes[u])
    ensures Work(Put(Put(s, v, n), u, m)) < Work(s)
  {
    SumUpdate(s.nodes, n => NodeWork(n), v, n);
    SumUpdate(s.nodes[v := n], n => NodeWork(n), u, m);
  }

  predicate TouchesUp(pc: AddPc) {
    pc.TestSet? || pc.SlowLock? || pc.SlowPush? || pc.SlowUnlock?
  }

  /** Operations on the record of v alone. */
  lemma OwnLess(s: State, v: nat, j: nat, pc: AddPc)
    requires v < |s.nodes| && MakeEnabled(s, v) && s.nodes[v].make == Edge(j, pc) && !TouchesUp(pc)
    ensures Work(AddStep(s, v, j, pc)) < Work(s)
  {
    hide Work, FinWork;
    var s' := AddStep(s, v, j, pc);
    assert s' == Put(s, v, s'.nodes[v]) && FinWork(s'.nodes[v]) == FinWork(s.nodes[v]) by { OwnFinWork(s, v, j, pc); }
    OneLess(s, v, s'.nodes[v]);
  }

  lemma OwnFinWork(s: State, v: nat, j: nat, pc: AddPc)
    requires v < |s.nodes| && MakeEnabled(s, v) && s.nodes[v].make == Edge(j, pc) && !TouchesUp(pc)
    ensures var s' := AddStep(s, v, j, pc);
      v < |s'.nodes| && s' == Put(s, v, s'.nodes[v]) && FinWork(s'.nodes[v]) == FinWork(s.nodes[v])
  {
  }

  /** One bit or one entry more is one operation more for the upstream node to do. */
  lemma UpWork(u: Node, m: Node)
    requires m == u.(fast := m.fast, downs := m.downs, lock := m.lock)
    requires |m.fast| + |m.downs| <= |u.fast| + |u.downs| + 1 && |m.downs| >= |u.downs| && |m.fast| >= |u.fast|
    ensures NodeWork(m) <= NodeWork(u) + (|m.fast| + |m.downs| - |u.fast| - |u.downs|)
  {
  }

  lemma TestSetLess(s: State, v: nat, j: nat)
    requires v < |s.nodes| && MakeEnabled(s, v) && s.nodes[v].make == Edge(j, TestSet)
    ensures Work(AddStep(s, v, j, TestSet)) < Work(s)
  {
    hide Work;
    var s', n, u := AddStep(s, v, j, TestSet), s.nodes[v], s.nodes[Up(s, v)];
    if FastPath(u, n) && n.id !in u.fast {
      var m := u.(fast := u.fast[n.id := j]);
      assert |u.fast[n.id := j]| == |u.fast| + 1;
      UpWork(u, m);
      TwoLess(s, v, n.(make := Edge(j, Snap(false))), Up(s, v), m);
    } else {
      OneLess(s, v, s'.nodes[v]);
    }
  }

  lemma SlowLess(s: State, v: nat, j: nat, pc: AddPc)
    requires v < |s.nodes| && MakeEnabled(s, v) && s.nodes[v].make == Edge(j, pc)
    requires pc.SlowLock? || pc.SlowPush? || pc.SlowUnlock?
    ensures Work(AddStep(s, v, j, pc)) < Work(s)
  {
    hide Work, FinWork;
    var s', n, u := AddStep(s, v, j, pc), s.nodes[v], s.nodes[Up(s, v)];
    var n', m := s'.nodes[v], s'.nodes[Up(s, v)];
    assert s' == Put(Put(s, v, n'), Up(s, v), m);
    UpWork(u, m);
    assert FinWork(n') == FinWork(n) by { MakeKeepsFinWork(n, n'); }
    TwoLess(s, v, n', Up(s, v), m);
  }

  lemma EdgeLess(s: State, v: nat, j: nat, pc: AddPc)
    requires v < |s.nodes| && MakeEnabled(s, v) && s.nodes[v].make == Edge(j, pc)
    ensures Work(MakeStep(s, v)) < Work(s)
  {
    if pc.TestSet? {
      TestSetLess(s, v, j);
    } else if TouchesUp(pc) {
      SlowLess(s, v, j, pc);
    } else {
      OwnLess(s, v, j, pc);
    }
  }

  lemma MakeKeepsFinWork(n: Node, n': Node)
    requires n' == n.(make := n'.make)
    ensures FinWork(n') == FinWork(n)
  {
  }

  lemma ListLess(s: State, u: nat)
    requires Inv(s) && Enabled(s, Fin(u)) && s.nodes[u].fin.FList? && s.nodes[u].fin.i < |s.nodes[u].downs|
    ensures Work(Apply(s, Fin(u))) < Work(s)
  {
    FinListKeeps(s, u);
    var (d, e) := s.nodes[u].downs[s.nodes[u].fin.i];
    var m := s.nodes[u].(fin := FList(s.nodes[u].fin.i + 1));
    assert Apply(s, Fin(u)) == Put(Put(s, d, Discharge(s.nodes[d], e)), u, m) && u != d;
    hide Inv, Work, Enabled, Apply, DChange;
    TwoLess(s, d, Discharge(s.nodes[d], e), u, m);
  }

  lemma FinOwnLess(s: State, u: nat)
    requires NodesOk(s) && Enabled(s, Fin(u)) && (s.nodes[u].fin.FList? ==> s.nodes[u].fin.i >= |s.nodes[u].downs|)
    ensures Work(Apply(s, Fin(u))) < Work(s)
  {
    assert FinOk(s.nodes[u]);
    var s' := Apply(s, Fin(u));
    hide NodesOk, Work;
    assert s' == Put(s, u, s'.nodes[u]);
    OneLess(s, u, s'.nodes[u]);
  }

  lemma FinBitLess(s: State, u: nat, id: nat)
    requires Inv(s) && Enabled(s, FinBit(u, id))
    ensures Work(Apply(s, FinBit(u, id))) < Work(s)
  {
    hide Inv, Work, Enabled, Apply, DChange, NodeWork, Discharge;
    BitIs(s, u, id);
    var d, e, todo := BitTarget(s, u, id), s.nodes[u].fast[id], s.nodes[u].fin.todo;
    var m := s.nodes[u].(fin := FBits(todo - {id}));
    DischargeWork(s.nodes[d], e);
    BitWork(s.nodes[u], id);
    TwoLess(s, d, Discharge(s.nodes[d], e), u, m);
  }

  lemma DischargeWork(n: Node, e: nat)
    ensures NodeWork(Discharge(n, e)) == NodeWork(n)
  {
  }

  lemma BitWork(n: Node, id: nat)
    requires n.fin.FBits? && id in n.fin.todo
    ensures NodeWork(n.(fin := FBits(n.fin.todo - {id}))) < NodeWork(n)
  {
    assert |n.fin.todo - {id}| == |n.fin.todo| - 1;
  }

  lemma BitIs(s: State, u: nat, id: nat)
    requires Inv(s) && Enabled(s, FinBit(u, id))
    ensures u < |s.nodes| && BitTargetOk(s, u, id) && BitTarget(s, u, id) != u && s.nodes[u].fin.FBits? && id in s.nodes[u].fin.todo
    ensures var (d, e) := (BitTarget(s, u, id), s.nodes[u].fast[id]);
      Apply(s, FinBit(u, id)) == Put(Put(s, d, Discharge(s.nodes[d], e)), u, s.nodes[u].(fin := FBits(s.nodes[u].fin.todo - {id})))
  {
    hide Inv;
    FinBitKeeps(s, u, id);
  }

  lemma MakeLess(s: State, v: nat)
    requires Enabled(s, Make(v))
    ensures Work(Apply(s, Make(v))) < Work(s)
  {
    hide Work, AddStep;
    if s.nodes[v].make.Announced? {
      OneLess(s, v, Apply(s, Make(v)).nodes[v]);
    } else {
      EdgeLess(s, v, s.nodes[v].make.j, s.nodes[v].make.pc);
    }
  }

  lemma StartLess(s: State, v: nat)
    requires NodesOk(s) && Enabled(s, Start(v))
    ensures Work(Apply(s, Start(v))) < Work(s)
  {
    hide Work;
    assert FinOk(s.nodes[v]);
    OneLess(s, v, s.nodes[v].(status := Running));
  }

  /** Every operation uses up some of the work left. */
  lemma MoveLess(s: State, a: Action)
    requires Inv(s) && Moves(s, a)
    ensures Work(Apply(s, a)) < Work(s)
  {
    hide Work, Apply, NodesOk, PlacesOk, RequiredOk, MakersOk, BitsOk, ListsOk, ListsDistinct, AllHeld, AllJust;
    match a
    case Make(v) => MakeLess(s, v);
    case Start(v) => StartLess(s, v);
    case Fin(u) =>
      if s.nodes[u].fin.FList? && s.nodes[u].fin.i < |s.nodes[u].downs| {
        ListLess(s, u);
      } else {
        FinOwnLess(s, u);
      }
    case FinBit(u, id) => FinBitLess(s, u, id);
  }

  /** So a run of operations that creates no node is no longer than the work at its start. */
  lemma {:induction false} RunsAreFinite(states: seq<State>, acts: seq<Action>, n: nat)
    requires IsRun(states, acts) && Inv(states[0]) && n <= |acts|
    requires forall i | 0 <= i < |acts| :: Moves(states[i], acts[i])
    ensures Inv(states[n]) && n + Work(states[n]) <= Work(states[0])
  {
    hide Inv, Work, Enabled, Apply;
    if n > 0 {
      RunsAreFinite(states, acts, n - 1);
      assert Moves(states[n - 1], acts[n - 1]) && Enabled(states[n - 1], acts[n - 1]);
      StepKeeps(states[n - 1], acts[n - 1]);
      MoveLess(states[n - 1], acts[n - 1]);
    }
  }
}

/**
 * Dependency edges: nodes being added downstream of others while those may be finishing.
 * Any number of threads run create_edges (one per new node) and finish (one per running
 * node); an action is one atomic operation. A bitmap of a node's downstream neighbours is
 * the map from their ids to the position of the edge in their list of required nodes: the
 * ids are the bits, the positions are history.
 */
module Edges {
  import opened Common

  /** Nodes of a graph with an id below this use the bitmap of the upstream node. */
  const FAST: nat := 63

  datatype Status = Initing | Running | Finish | Recoverable

  predicate Done(st: Status) {
    st.Finish? || st.Recoverable?
  }

  type Marks = map<nat, nat>

  /** The next operation of add_downstream for one required node. */
  datatype AddPc =
    | Begin           // null, the node itself, or load the status of the upstream
    | TestSet         // choose the path; on the fast path test and set the bit
    | DupSub          // the bit was set: count the duplicate off
    | Snap(dup: bool) // read the snapshot under the lock
    | SlowLock        // take the lock of the upstream
    | SlowTest        // load its status again
    | SlowPush        // append to its list and unlock
    | SlowUnlock
    | Sub             // count the edge off

  datatype MakePc =
    | Unmade                   // not passed to create_edges yet
    | Announced                // registered in its graph; wait_count still to be raised
    | Edge(j: nat, pc: AddPc)
    | Made

  datatype FinPc =
    | FNone
    | FLock                    // status is Finish; take the lock
    | FReg                     // load the bitmap
    | FStore(reg: Marks)        // store the snapshot and unlock
    | FBits(todo: set<nat>)    // count off the downstream nodes in the snapshot
    | FList(i: nat)            // count off the list, lock held
    | FDone

  datatype Lock = Free | Adder(v: nat) | Finisher

  /** `open` is the history of undischarged edges, `released` of how often the node was made ready. */
  datatype Node = Node(
    graph: Option<nat>, id: nat, status: Status, wait: int,
    fast: Marks, bak: Option<Marks>, downs: seq<(nat, nat)>, lock: Lock,
    req: seq<Option<nat>>, make: MakePc, fin: FinPc,
    open: set<nat>, released: nat)

  /** `graphs[g][id]` is the node with that id in graph g. */
  datatype State = State(nodes: seq<Node>, graphs: seq<seq<nat>>)

  function NewNode(): Node {
    Node(None, 0, Initing, 0, map[], None, [], Free, [], Unmade, FNone, {}, 0)
  }

  datatype Action =
    | Alloc
    | Create(v: nat, g: nat, req: seq<Option<nat>>)
    | Make(v: nat)                       // next operation of create_edges(v)
    | Start(v: nat)                      // a worker runs a ready node
    | Fin(u: nat)                        // next operation of finish(u)
    | FinBit(u: nat, id: nat)            // finish(u) counts one bit of its snapshot off
    | Recover(u: nat)

  // ---------------------------------------------------------------- steps

  function Put(s: State, v: nat, n: Node): State
    requires v < |s.nodes|
  {
    s.(nodes := s.nodes[v := n])
  }

  /** wait_count.fetch_sub(1): who sees 1 makes the node ready. */
  function Discharge(n: Node, e: nat): Node {
    n.(wait := n.wait - 1, open := n.open - {e}, released := if n.wait == 1 then n.released + 1 else n.released)
  }

  function NextEdge(n: Node, j: nat): MakePc {
    if j + 1 < |n.req| then Edge(j + 1, Begin) else Made
  }

  predicate ReqOk(s: State, req: seq<Option<nat>>) {
    forall j | 0 <= j < |req| :: req[j].Some? ==> req[j].value < |s.nodes|
  }

  /** The upstream node of the edge v is working on. */
  predicate HasUp(s: State, v: nat) {
    && v < |s.nodes| && s.nodes[v].make.Edge?
    && s.nodes[v].make.j < |s.nodes[v].req|
    && s.nodes[v].req[s.nodes[v].make.j].Some?
    && s.nodes[v].req[s.nodes[v].make.j].value < |s.nodes|
    && s.nodes[v].req[s.nodes[v].make.j].value != v
  }

  function Up(s: State, v: nat): nat
    requires HasUp(s, v)
  {
    s.nodes[v].req[s.nodes[v].make.j].value
  }

  /** v would be entered in the bitmap of u. */
  predicate FastPath(u: Node, v: Node) {
    u.graph == v.graph && v.graph.Some? && v.id < FAST
  }

  /** The bitmap of u has the bit of v, set for edge e. */
  predicate HasBit(u: Node, v: Node, e: nat) {
    FastPath(u, v) && v.id in u.fast && u.fast[v.id] == e
  }

  predicate MakeEnabled(s: State, v: nat)
    requires v < |s.nodes|
  {
    var n := s.nodes[v];
    match n.make
    case Unmade => false
    case Made => false
    case Announced => true
    case Edge(j, pc) =>
      j < |n.req| &&
      match pc
      case Begin => n.req[j].Some? ==> n.req[j].value < |s.nodes|
      case Sub => true
      case DupSub => true
      case Snap(_) => HasUp(s, v) && s.nodes[Up(s, v)].lock.Free?
      case SlowLock => HasUp(s, v) && s.nodes[Up(s, v)].lock.Free?
      case _ => HasUp(s, v)
  }

  predicate FinEnabled(n: Node) {
    match n.fin
    case FNone => n.status.Running?
    case FLock => n.lock.Free?
    case FReg => true
    case FStore(_) => true
    case FBits(todo) => todo == {} && n.lock.Free?
    case FList(_) => true
    case FDone => false
  }

  predicate Enabled(s: State, a: Action) {
    match a
    case Alloc => true
    case Create(v, g, req) => v < |s.nodes| && s.nodes[v].make.Unmade? && g < |s.graphs| && ReqOk(s, req)
    case Make(v) => v < |s.nodes| && MakeEnabled(s, v)
    case Start(v) => v < |s.nodes| && s.nodes[v].released == 1 && s.nodes[v].status.Initing?
    case Fin(u) => u < |s.nodes| && FinEnabled(s.nodes[u]) && (s.nodes[u].fin.FList? ==> ListTargetOk(s, u))
    case FinBit(u, id) =>
      u < |s.nodes| && s.nodes[u].fin.FBits? && id in s.nodes[u].fin.todo && BitTargetOk(s, u, id)
    case Recover(u) => u < |s.nodes| && s.nodes[u].fin.FDone? && s.nodes[u].status.Finish?
  }

  /** Entry i of the list, and bit id of the map, lead to a node (get_node finds one). */
  predicate ListTargetOk(s: State, u: nat)
    requires u < |s.nodes| && s.nodes[u].fin.FList?
  {
    s.nodes[u].fin.i < |s.nodes[u].downs| ==> s.nodes[u].downs[s.nodes[u].fin.i].0 < |s.nodes|
  }

  predicate BitTargetOk(s: State, u: nat, id: nat)
    requires u < |s.nodes|
  {
    && s.nodes[u].graph.Some? && s.nodes[u].graph.value < |s.graphs|
    && id < |s.graphs[s.nodes[u].graph.value]|
    && s.graphs[s.nodes[u].graph.value][id] < |s.nodes|
    && id in s.nodes[u].fast
  }

  function BitTarget(s: State, u: nat, id: nat): nat
    requires u < |s.nodes| && BitTargetOk(s, u, id)
  {
    s.graphs[s.nodes[u].graph.value][id]
  }

  function Iota(n: nat): (r: set<nat>)
    ensures |r| == n && forall i: nat :: i in r <==> i < n
  {
    if n == 0 then {} else Iota(n - 1) + {n - 1}
  }

  function MakeStep(s: State, v: nat): State
    requires v < |s.nodes| && MakeEnabled(s, v)
  {
    var n := s.nodes[v];
    match n.make
    case Announced =>
      if |n.req| == 0 then Put(s, v, n.(make := Made, released := n.released + 1))
      else Put(s, v, n.(make := Edge(0, Begin), wait := n.wait + |n.req|, open := Iota(|n.req|)))
    case Edge(j, pc) => AddStep(s, v, j, pc)
    case _ => s
  }

  function AddStep(s: State, v: nat, j: nat, pc: AddPc): State
    requires v < |s.nodes| && MakeEnabled(s, v) && s.nodes[v].make == Edge(j, pc)
  {
    var n := s.nodes[v];
    match pc
    case Begin =>
      if !HasUp(s, v) || Done(s.nodes[Up(s, v)].status) then Put(s, v, n.(make := Edge(j, Sub)))
      else Put(s, v, n.(make := Edge(j, TestSet)))
    case TestSet =>
      var u := s.nodes[Up(s, v)];
      if !FastPath(u, n) then Put(s, v, n.(make := Edge(j, SlowLock)))
      else if n.id in u.fast then Put(s, v, n.(make := Edge(j, DupSub)))
      else Put(Put(s, v, n.(make := Edge(j, Snap(false)))), Up(s, v), u.(fast := u.fast[n.id := j]))
    case DupSub => Put(s, v, Discharge(n, j).(make := Edge(j, Snap(true))))
    case Snap(_) =>
      var u := s.nodes[Up(s, v)];
      if u.bak.None? || n.id in u.bak.value then Put(s, v, n.(make := NextEdge(n, j)))
      else Put(s, v, n.(make := Edge(j, Sub)))
    case SlowLock =>
      var u := s.nodes[Up(s, v)];
      Put(Put(s, v, n.(make := Edge(j, SlowTest))), Up(s, v), u.(lock := Adder(v)))
    case SlowTest =>
      Put(s, v, n.(make := Edge(j, if Done(s.nodes[Up(s, v)].status) then SlowUnlock else SlowPush)))
    case SlowPush =>
      var u := s.nodes[Up(s, v)];
      Put(Put(s, v, n.(make := NextEdge(n, j))), Up(s, v), u.(downs := u.downs + [(v, j)], lock := Free))
    case SlowUnlock =>
      var u := s.nodes[Up(s, v)];
      Put(Put(s, v, n.(make := Edge(j, Sub))), Up(s, v), u.(lock := Free))
    case Sub => Put(s, v, Discharge(n, j).(make := NextEdge(n, j)))
  }

  function FinStep(s: State, u: nat): State
    requires u < |s.nodes| && Enabled(s, Fin(u))
  {
    var n := s.nodes[u];
    match n.fin
    case FNone => Put(s, u, n.(status := Finish, fin := FLock))
    case FLock => Put(s, u, n.(lock := Finisher, fin := FReg))
    case FReg => Put(s, u, n.(fin := FStore(n.fast)))
    case FStore(reg) => Put(s, u, n.(bak := Some(reg), lock := Free, fin := FBits(reg.Keys)))
    case FBits(_) => Put(s, u, n.(lock := Finisher, fin := FList(0)))
    case FList(i) =>
      if i < |n.downs| then
        var (d, e) := n.downs[i];
        var s1 := Put(s, d, Discharge(s.nodes[d], e));
        Put(s1, u, s1.nodes[u].(fin := FList(i + 1)))
      else Put(s, u, n.(lock := Free, fin := FDone))
    case FDone => s
  }

  function FinBitStep(s: State, u: nat, id: nat): State
    requires Enabled(s, FinBit(u, id))
  {
    var d := BitTarget(s, u, id);
    var s1 := Put(s, d, Discharge(s.nodes[d], s.nodes[u].fast[id]));
    Put(s1, u, s1.nodes[u].(fin := FBits(s.nodes[u].fin.todo - {id})))
  }

  function Apply(s: State, a: Action): State
    requires Enabled(s, a)
  {
    match a
    case Alloc => s.(nodes := s.nodes + [NewNode()])
    case Create(v, g, req) =>
      var n := s.nodes[v].(graph := Some(g), id := |s.graphs[g]|, req := req, make := Announced);
      Put(s, v, n).(graphs := s.graphs[g := s.graphs[g] + [v]])
    case Make(v) => MakeStep(s, v)
    case Start(v) => Put(s, v, s.nodes[v].(status := Running))
    case Fin(u) => FinStep(s, u)
    case FinBit(u, id) => FinBitStep(s, u, id)
    case Recover(u) => Put(s, u, s.nodes[u].(status := Recoverable))
  }

  ghost predicate IsRun(states: seq<State>, acts: seq<Action>) {
    && |states| == |acts| + 1
    && (forall i | 0 <= i < |acts| :: Enabled(states[i], acts[i]) && states[i + 1] == Apply(states[i], acts[i]))
  }

  // ---------------------------------------------------------------- the invariant

  /** How many of the edges of a node its create_edges is through with. */
  function Passed(n: Node): nat {
    match n.make
    case Edge(j, _) => j
    case Made => |n.req|
    case _ => 0
  }

  predicate Counted(n: Node) {
    n.make.Edge? || n.make.Made?
  }

  /** The wait count is the number of open edges, and readiness is announced once, at zero. */
  ghost predicate CountOk(n: Node) {
    && n.wait == |n.open|
    && (forall e | e in n.open :: e < |n.req|)
    && (n.make.Edge? ==> n.make.j < |n.req|)
    && (if Counted(n) then n.released == (if n.open == {} then 1 else 0) else n.open == {} && n.released == 0)
    && (n.status != Initing ==> n.released == 1)
  }

  ghost predicate Snapshotted(n: Node) {
    n.fin.FBits? || n.fin.FList? || n.fin.FDone?
  }

  /** The finishing side of a node. */
  ghost predicate FinOk(n: Node) {
    && (n.fin.FNone? <==> !Done(n.status))
    && (n.fin.FReg? || n.fin.FStore? || n.fin.FList? <==> n.lock.Finisher?)
    && (n.bak.Some? <==> Snapshotted(n))
    && (n.fin.FStore? ==> Within(n.fin.reg, n.fast))
    && (n.bak.Some? ==> Within(n.bak.value, n.fast))
    && (n.fin.FBits? ==> n.fin.todo <= n.bak.value.Keys)
    && (n.fin.FList? ==> n.fin.i <= |n.downs|)
  }

  ghost predicate Within(a: Marks, b: Marks) {
    forall id | id in a :: id in b && b[id] == a[id]
  }

  /** The bit is, or will be, in the snapshot: discharging it is up to the finisher. */
  ghost predicate Covered(u: Node, id: nat) {
    match u.bak
    case Some(b) => id in b
    case None => u.fin.FStore? ==> id in u.fin.reg
  }

  /** The finisher has not counted this bit off yet. */
  ghost predicate BitPending(u: Node, id: nat) {
    if u.fin.FBits? then id in u.fin.todo else !u.fin.FList? && !u.fin.FDone?
  }

  /** How many entries of the list the finisher has counted off. */
  ghost function Listed(u: Node): nat {
    if u.fin.FList? then u.fin.i else if u.fin.FDone? then |u.downs| else 0
  }

  /** Edge e of v requires u. */
  ghost predicate IsEdge(v: Node, e: nat, u: nat) {
    e < |v.req| && v.req[e] == Some(u)
  }

  /** create_edges of v has set the bit of edge e and may have to count the edge off itself. */
  predicate Looking(v: Node, e: nat) {
    v.make == Edge(e, Snap(false)) || v.make == Edge(e, Sub)
  }

  /** One bit of u: the edge e of node v it stands for, and who has to discharge it. */
  ghost predicate BitOk(u: Node, ui: nat, id: nat, v: Node, e: nat) {
    && IsEdge(v, e, ui) && v.graph == u.graph && v.id == id
    && (e < Passed(v) || Looking(v, e))
    && (if Covered(u, id) then e in v.open <==> BitPending(u, id)
        else Done(u.status) && (e in v.open <==> Looking(v, e)))
  }

  ghost predicate BitFine(s: State, u: nat, id: nat)
    requires u < |s.nodes| && id in s.nodes[u].fast
  {
    && id < FAST && BitTargetOk(s, u, id) && BitTarget(s, u, id) != u
    && BitOk(s.nodes[u], u, id, s.nodes[BitTarget(s, u, id)], s.nodes[u].fast[id])
  }

  ghost predicate BitsOk(s: State) {
    forall u, id | 0 <= u < |s.nodes| && id in s.nodes[u].fast :: BitFine(s, u, id)
  }

  /** One entry (v, e) of the list of u, at position i. */
  ghost predicate EntryOk(u: Node, ui: nat, i: nat, v: Node, e: nat) {
    && IsEdge(v, e, ui) && e < Passed(v)
    && (e in v.open <==> i >= Listed(u))
    && !HasBit(u, v, e)
  }

  ghost predicate EntryFine(s: State, u: nat, i: nat)
    requires u < |s.nodes| && i < |s.nodes[u].downs|
  {
    var (v, e) := s.nodes[u].downs[i];
    v < |s.nodes| && v != u && EntryOk(s.nodes[u], u, i, s.nodes[v], e)
  }

  ghost predicate ListsOk(s: State) {
    forall u, i | 0 <= u < |s.nodes| && 0 <= i < |s.nodes[u].downs| :: EntryFine(s, u, i)
  }

  ghost predicate ListsDistinct(s: State) {
    forall u, i, k | 0 <= u < |s.nodes| && 0 <= i < k < |s.nodes[u].downs| ::
      s.nodes[u].downs[i] != s.nodes[u].downs[k]
  }

  predicate UsesLock(pc: AddPc) {
    pc.SlowTest? || pc.SlowPush? || pc.SlowUnlock?
  }

  /** The adding side: what create_edges of v may rely on at each of its operations. */
  ghost predicate MakerOk(s: State, v: nat)
    requires v < |s.nodes|
  {
    var n := s.nodes[v];
    n.make.Edge? ==>
      var j, pc := n.make.j, n.make.pc;
      && (forall e | j < e < |n.req| :: e in n.open)
      && (!pc.Snap? ==> j in n.open)
      && (!pc.Begin? && !pc.Sub? ==> HasUp(s, v))
      && (pc.TestSet? && FastPath(s.nodes[Up(s, v)], n) && n.id in s.nodes[Up(s, v)].fast ==>
            Covered(s.nodes[Up(s, v)], n.id))
      && (pc.DupSub? || pc.Snap? ==> FastPath(s.nodes[Up(s, v)], n) && n.id in s.nodes[Up(s, v)].fast)
      && (pc == Snap(false) ==> s.nodes[Up(s, v)].fast[n.id] == j)
      && (pc.DupSub? || pc == Snap(true) ==> Covered(s.nodes[Up(s, v)], n.id) && s.nodes[Up(s, v)].fast[n.id] < j)
      && (pc == Snap(true) ==> j !in n.open)
      && (UsesLock(pc) ==> s.nodes[Up(s, v)].lock == Adder(v))
      && (pc.SlowUnlock? ==> Done(s.nodes[Up(s, v)].status))
      && (pc.SlowPush? ==> s.nodes[Up(s, v)].fin.FNone? || s.nodes[Up(s, v)].fin.FLock?)
      && (pc.Sub? && HasUp(s, v) ==> Done(s.nodes[Up(s, v)].status))
      && (pc.Sub? && HasUp(s, v) && HasBit(s.nodes[Up(s, v)], n, j) ==> !Covered(s.nodes[Up(s, v)], n.id))
  }

  ghost predicate MakersOk(s: State) {
    forall v | 0 <= v < |s.nodes| :: MakerOk(s, v)
  }

  /** Node v is where its graph says it is. */
  ghost predicate PlacesOk(s: State) {
    forall v | 0 <= v < |s.nodes| ::
      && (s.nodes[v].graph.None? <==> s.nodes[v].make.Unmade?)
      && (s.nodes[v].graph.Some? ==>
            && s.nodes[v].graph.value < |s.graphs|
            && s.nodes[v].id < |s.graphs[s.nodes[v].graph.value]|
            && s.graphs[s.nodes[v].graph.value][s.nodes[v].id] == v)
  }

  ghost predicate RequiredOk(s: State) {
    forall v | 0 <= v < |s.nodes| :: ReqOk(s, s.nodes[v].req)
  }

  ghost predicate NodesOk(s: State) {
    forall v | 0 <= v < |s.nodes| :: CountOk(s.nodes[v]) && FinOk(s.nodes[v])
  }

  /** The bitmap or the list of u has edge e of v. */
  ghost predicate HeldBy(u: Node, v: Node, vi: nat, e: nat) {
    HasBit(u, v, e) || (vi, e) in u.downs
  }

  /** An open edge that create_edges is through with is held by its upstream node. */
  ghost predicate OpenHeld(s: State, v: nat, e: nat)
    requires v < |s.nodes| && e < |s.nodes[v].req|
  {
    var n := s.nodes[v];
    e in n.open && e < Passed(n) ==>
      n.req[e].Some? && n.req[e].value < |s.nodes| && n.req[e].value != v
      && HeldBy(s.nodes[n.req[e].value], n, v, e)
  }

  /** An edge is closed only for a null or the node itself, a finished node, or as a duplicate. */
  ghost predicate ClosedJust(s: State, v: nat, e: nat)
    requires v < |s.nodes| && e < |s.nodes[v].req|
  {
    var n := s.nodes[v];
    Counted(n) && e !in n.open && n.req[e].Some? && n.req[e].value != v && n.req[e].value < |s.nodes| ==>
      var u := s.nodes[n.req[e].value];
      Done(u.status) || (FastPath(u, n) && n.id in u.fast && u.fast[n.id] != e)
  }

  ghost predicate AllHeld(s: State) {
    forall v, e | 0 <= v < |s.nodes| && 0 <= e < |s.nodes[v].req| :: OpenHeld(s, v, e)
  }

  ghost predicate AllJust(s: State) {
    forall v, e | 0 <= v < |s.nodes| && 0 <= e < |s.nodes[v].req| :: ClosedJust(s, v, e)
  }

  ghost predicate Inv(s: State) {
    && NodesOk(s) && PlacesOk(s) && RequiredOk(s)
    && MakersOk(s) && BitsOk(s) && ListsOk(s) && ListsDistinct(s)
    && AllHeld(s) && AllJust(s)
  }
}

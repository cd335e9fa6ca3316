/**
 * The dependency edges on the machine fields of the nodes: 64-bit words for the bitmap and
 * its snapshot, a vector for the list. One method per atomic operation of create_edges,
 * add_downstream and finish; the ghost state is the interleaving state machine. A node is
 * referred to by its position in `cells`.
 */
module EdgesMachine {
  import opened Common
  import opened Bits
  import opened BitMap
  import opened Edges
  import opened EdgesTheorems

  /** The snapshot before there is one: only the top bit, which no node id uses. */
  const SNAPSHOT_INIT: nat := 0x8000_0000_0000_0000

  class NodeCell {
    var status: Status
    var waitCount: int
    var parentGraph: Option<nat>
    var nodeId: nat
    var fastDown: nat
    var fastDownBak: nat
    var downStreams: seq<nat>
    var locked: bool

    constructor ()
      ensures Shows(this, NewNode())
    {
      status, waitCount, parentGraph, nodeId := Initing, 0, None, 0;
      fastDown, fastDownBak, downStreams, locked := 0, SNAPSHOT_INIT, [], false;
      new;
      NoBits();
    }
  }

  function Targets(downs: seq<(nat, nat)>): seq<nat> {
    seq(|downs|, i requires 0 <= i < |downs| => downs[i].0)
  }

  ghost predicate WordShows(w: nat, b: Marks) {
    w < TWO64 && BitsOf(w) == b.Keys
  }

  ghost predicate SnapshotShows(w: nat, b: Option<Marks>) {
    match b
    case None => w == SNAPSHOT_INIT
    case Some(m) => WordShows(w, m)
  }

  /** The fields of a node are what the state machine says of it. */
  ghost predicate Shows(c: NodeCell, n: Node)
    reads c
  {
    && c.status == n.status && c.waitCount == n.wait && c.parentGraph == n.graph && c.nodeId == n.id
    && WordShows(c.fastDown, n.fast) && SnapshotShows(c.fastDownBak, n.bak)
    && c.downStreams == Targets(n.downs) && (c.locked <==> !n.lock.Free?)
  }

  lemma NoBits()
    ensures WordShows(0, map[])
  {
    forall j: nat | j < 64 ensures !Bit(0, j) {
      ZeroBit(j);
    }
  }

  /** A snapshot of real bits never looks like the initial value. */
  lemma SnapshotFlagExact(w: nat, b: Option<Marks>)
    requires SnapshotShows(w, b)
    requires b.Some? ==> forall id | id in b.value :: id < FAST
    ensures w == SNAPSHOT_INIT <==> b.None?
  {
    if b.Some? {
      Pow2Of64();
      Pow2Bit(63, 63);
      assert Pow2(63) == SNAPSHOT_INIT by { assert Pow2(64) == 2 * Pow2(63); }
      assert w == SNAPSHOT_INIT ==> 63 in BitsOf(w);
    }
  }

  /** The bits of the maps of a reachable state are those of small node ids. */
  lemma SmallBits(s: State, u: nat)
    requires Reachable(s) && u < |s.nodes|
    ensures forall id | id in s.nodes[u].fast :: id < FAST
    ensures s.nodes[u].bak.Some? ==> forall id | id in s.nodes[u].bak.value :: id < FAST
  {
    ReachableInv(s);
    assert FinOk(s.nodes[u]);
    forall id | id in s.nodes[u].fast ensures id < FAST {
      assert BitFine(s, u, id);
    }
  }

  lemma Registered(s: State, v: nat)
    requires Reachable(s) && v < |s.nodes| && s.nodes[v].make.Edge?
    ensures s.nodes[v].graph.Some?
  {
    ReachableInv(s);
  }

  class Engine {
    var cells: seq<NodeCell>
    var graphs: seq<seq<nat>>
    ghost var s: State

    ghost predicate Distinct()
      reads this
    {
      forall i, j | 0 <= i < j < |cells| :: cells[i] != cells[j]
    }

    ghost predicate Valid()
      reads this, cells
    {
      && Reachable(s) && graphs == s.graphs && |cells| == |s.nodes| && Distinct()
      && (forall i | 0 <= i < |cells| :: Shows(cells[i], s.nodes[i]))
    }

    constructor (n: nat)
      ensures Valid() && IsInit(s) && |s.graphs| == n && cells == []
    {
      cells, graphs := [], seq(n, _ => []);
      s := State([], seq(n, _ => []));
      new;
      var states, acts: seq<Action> := [s], [];
      assert IsRun(states, acts) && IsInit(states[0]) && states[|acts|] == s;
    }

    method New() returns (v: nat)
      requires Valid()
      modifies this
      ensures Valid() && s == Apply(old(s), Alloc) && v == |old(cells)|
      ensures cells[..v] == old(cells) && fresh(cells[v])
    {
      hide Reachable;
      v := |cells|;
      var c := new NodeCell();
      ReachableStep(s, Alloc);
      cells := cells + [c];
      s := Apply(s, Alloc);
    }

    /** create_edges: the node gets the next id of its graph. */
    method Register(v: nat, g: nat, req: seq<Option<nat>>)
      requires Valid() && Enabled(s, Create(v, g, req))
      modifies this, cells[v]
      ensures Valid() && s == Apply(old(s), Create(v, g, req)) && cells == old(cells)
    {
      hide Reachable, WordShows, SnapshotShows;
      ReachableStep(s, Create(v, g, req));
      cells[v].parentGraph, cells[v].nodeId := Some(g), |graphs[g]|;
      graphs := graphs[g := graphs[g] + [v]];
      s := Apply(s, Create(v, g, req));
    }

    /** create_edges: raise the wait count by the number of required nodes, or be ready at once. */
    method AddWaitCount(v: nat, req: seq<Option<nat>>) returns (isReady: bool)
      requires Valid() && Enabled(s, Make(v)) && s.nodes[v].make.Announced? && req == s.nodes[v].req
      modifies this`s, cells[v]
      ensures Valid() && s == Apply(old(s), Make(v)) && (isReady <==> s.nodes[v].released > old(s).nodes[v].released)
    {
      hide Reachable, WordShows, SnapshotShows;
      isReady := |req| == 0;
      cells[v].waitCount := cells[v].waitCount + |req|;
      ReachableStep(s, Make(v));
      s := Apply(s, Make(v));
    }

    /** The edge create_edges of v is at, and the node `up` it requires there, if any. */
    ghost predicate AtEdge(v: nat, pc: AddPc, up: Option<nat>)
      reads this
    {
      && Enabled(s, Make(v)) && s.nodes[v].make.Edge? && s.nodes[v].make.pc == pc
      && up == s.nodes[v].req[s.nodes[v].make.j]
    }

    /** add_downstream: is there no upstream, is it the node itself, or has it finished? */
    method TestUpstream(v: nat, up: Option<nat>) returns (closed: bool)
      requires Valid() && AtEdge(v, Begin, up)
      modifies this`s
      ensures Valid() && s == Apply(old(s), Make(v)) && (closed <==> s.nodes[v].make.pc.Sub?)
    {
      hide Reachable, WordShows, SnapshotShows;
      closed := up.None? || up.value == v || Done(cells[up.value].status);
      ReachableStep(s, Make(v));
      s := Apply(s, Make(v));
    }

    /** add_downstream: None for the slow path, else whether the bit was set before. */
    method TestAndSetBit(v: nat, up: nat) returns (wasSet: Option<bool>)
      requires Valid() && AtEdge(v, TestSet, Some(up))
      modifies this`s, cells[up]
      ensures Valid() && s == Apply(old(s), Make(v))
      ensures wasSet.None? <==> s.nodes[v].make.pc.SlowLock?
      ensures wasSet == Some(true) <==> s.nodes[v].make.pc.DupSub?
    {
      hide Reachable, SnapshotShows;
      wasSet := None;
      if cells[up].parentGraph == cells[v].parentGraph && cells[v].nodeId < FAST {
        Registered(s, v);
        wasSet := BitMapGet(cells[up].fastDown, cells[v].nodeId, FAST);
        if wasSet == Some(false) {
          var w := BitMapSet(cells[up].fastDown, cells[v].nodeId, FAST);
          cells[up].fastDown := w.value;
        }
      }
      ReachableStep(s, Make(v));
      s := Apply(s, Make(v));
    }

    /** sub_wait_count by create_edges: true for who sees 1 and has to make the node ready. */
    method SubWaitCount(v: nat, ghost up: Option<nat>) returns (isReady: bool)
      requires Valid() && (AtEdge(v, Sub, up) || AtEdge(v, DupSub, up))
      modifies this`s, cells[v]
      ensures Valid() && s == Apply(old(s), Make(v)) && (isReady <==> s.nodes[v].released > old(s).nodes[v].released)
    {
      hide Reachable, WordShows, SnapshotShows;
      isReady := cells[v].waitCount == 1;
      cells[v].waitCount := cells[v].waitCount - 1;
      ReachableStep(s, Make(v));
      s := Apply(s, Make(v));
    }

    /** add_downstream: does the snapshot leave the bit to the finisher? */
    method ReadSnapshot(v: nat, up: nat, ghost dup: bool) returns (left: bool)
      requires Valid() && AtEdge(v, Snap(dup), Some(up))
      modifies this`s
      ensures Valid() && s == Apply(old(s), Make(v))
      ensures left <==> s.nodes[v].make == NextEdge(old(s).nodes[v], old(s).nodes[v].make.j)
    {
      hide Reachable;
      SmallBits(s, up);
      SnapshotFlagExact(cells[up].fastDownBak, s.nodes[up].bak);
      left := true;
      if cells[up].fastDownBak != SNAPSHOT_INIT {
        assert cells[v].nodeId < FAST by {
          ReachableInv(s);
          assert MakerOk(s, v);
        }
        var bit := BitMapGet(cells[up].fastDownBak, cells[v].nodeId, FAST);
        left := bit.value;
      }
      ReachableStep(s, Make(v));
      s := Apply(s, Make(v));
    }

    method LockUpstream(v: nat, up: nat)
      requires Valid() && AtEdge(v, SlowLock, Some(up))
      modifies this`s, cells[up]
      ensures Valid() && s == Apply(old(s), Make(v)) && !old(cells[up].locked)
    {
      hide Reachable, WordShows, SnapshotShows;
      cells[up].locked := true;
      ReachableStep(s, Make(v));
      s := Apply(s, Make(v));
    }

    method TestUpstreamLocked(v: nat, up: nat) returns (finished: bool)
      requires Valid() && AtEdge(v, SlowTest, Some(up))
      modifies this`s
      ensures Valid() && s == Apply(old(s), Make(v)) && (finished <==> s.nodes[v].make.pc.SlowUnlock?)
    {
      hide Reachable, WordShows, SnapshotShows;
      finished := Done(cells[up].status);
      ReachableStep(s, Make(v));
      s := Apply(s, Make(v));
    }

    method PushDownstream(v: nat, up: nat)
      requires Valid() && AtEdge(v, SlowPush, Some(up))
      modifies this`s, cells[up]
      ensures Valid() && s == Apply(old(s), Make(v))
    {
      hide Reachable, WordShows, SnapshotShows;
      cells[up].downStreams := cells[up].downStreams + [v];
      cells[up].locked := false;
      ReachableStep(s, Make(v));
      s := Apply(s, Make(v));
    }

    method UnlockUpstream(v: nat, up: nat)
      requires Valid() && AtEdge(v, SlowUnlock, Some(up))
      modifies this`s, cells[up]
      ensures Valid() && s == Apply(old(s), Make(v))
    {
      hide Reachable, WordShows, SnapshotShows;
      cells[up].locked := false;
      ReachableStep(s, Make(v));
      s := Apply(s, Make(v));
    }

    // -------------------------------------------------------------- the finishing side

    /** resume: a worker runs a ready node. */
    method Resume(v: nat)
      requires Valid() && Enabled(s, Start(v))
      modifies this`s, cells[v]
      ensures Valid() && s == Apply(old(s), Start(v))
    {
      hide Reachable, WordShows, SnapshotShows;
      cells[v].status := Running;
      ReachableStep(s, Start(v));
      s := Apply(s, Start(v));
    }

    method SetFinish(u: nat)
      requires Valid() && Enabled(s, Fin(u)) && s.nodes[u].fin.FNone?
      modifies this`s, cells[u]
      ensures Valid() && s == Apply(old(s), Fin(u))
    {
      hide Reachable, WordShows, SnapshotShows;
      cells[u].status := Finish;
      ReachableStep(s, Fin(u));
      s := Apply(s, Fin(u));
    }

    /** finish takes its own lock, before the snapshot and before the list. */
    method LockSelf(u: nat)
      requires Valid() && Enabled(s, Fin(u)) && (s.nodes[u].fin.FLock? || s.nodes[u].fin.FBits?)
      modifies this`s, cells[u]
      ensures Valid() && s == Apply(old(s), Fin(u)) && !old(cells[u].locked)
    {
      hide Reachable, WordShows, SnapshotShows;
      cells[u].locked := true;
      ReachableStep(s, Fin(u));
      s := Apply(s, Fin(u));
    }

    method LoadBits(u: nat) returns (reg: nat)
      requires Valid() && Enabled(s, Fin(u)) && s.nodes[u].fin.FReg?
      modifies this`s
      ensures Valid() && s == Apply(old(s), Fin(u)) && WordShows(reg, s.nodes[u].fin.reg)
    {
      hide Reachable, WordShows, SnapshotShows;
      reg := cells[u].fastDown;
      ReachableStep(s, Fin(u));
      s := Apply(s, Fin(u));
    }

    /** Stores the snapshot, unlocks, and lists the ids of the downstream nodes in it. */
    method StoreSnapshot(u: nat, reg: nat) returns (ids: seq<nat>)
      requires Valid() && Enabled(s, Fin(u)) && s.nodes[u].fin.FStore? && WordShows(reg, s.nodes[u].fin.reg)
      modifies this`s, cells[u]
      ensures Valid() && s == Apply(old(s), Fin(u))
      ensures Increasing(ids) && forall id: nat :: id in ids <==> id in s.nodes[u].fin.todo
    {
      hide Reachable;
      cells[u].fastDownBak := reg;
      cells[u].locked := false;
      ReachableStep(s, Fin(u));
      s := Apply(s, Fin(u));
      SmallBits(s, u);
      var r := BitMapIdx(reg, FAST);
      ids := r.value;
    }

    /** get_node, and sub_wait_count of the node with the id. */
    method CountBit(u: nat, id: nat) returns (isReady: bool)
      requires Valid() && Enabled(s, FinBit(u, id))
      modifies this`s, cells[BitTarget(s, u, id)]
      ensures Valid() && s == Apply(old(s), FinBit(u, id))
      ensures isReady <==> s.nodes[BitTarget(old(s), u, id)].released > old(s).nodes[BitTarget(old(s), u, id)].released
    {
      hide Reachable, WordShows, SnapshotShows;
      var d := graphs[cells[u].parentGraph.value][id];
      isReady := cells[d].waitCount == 1;
      cells[d].waitCount := cells[d].waitCount - 1;
      ReachableStep(s, FinBit(u, id));
      s := Apply(s, FinBit(u, id));
    }

    method CountEntry(u: nat, i: nat) returns (isReady: bool)
      requires Valid() && Enabled(s, Fin(u)) && s.nodes[u].fin == FList(i) && i < |s.nodes[u].downs|
      modifies this`s, cells[s.nodes[u].downs[i].0]
      ensures Valid() && s == Apply(old(s), Fin(u))
      ensures var d := s.nodes[u].downs[i].0; isReady <==> s.nodes[d].released > old(s).nodes[d].released
    {
      hide Reachable, WordShows, SnapshotShows;
      var d := cells[u].downStreams[i];
      isReady := cells[d].waitCount == 1;
      cells[d].waitCount := cells[d].waitCount - 1;
      ReachableStep(s, Fin(u));
      s := Apply(s, Fin(u));
    }

    method UnlockSelf(u: nat, i: nat)
      requires Valid() && Enabled(s, Fin(u)) && s.nodes[u].fin == FList(i) && i >= |cells[u].downStreams|
      modifies this`s, cells[u]
      ensures Valid() && s == Apply(old(s), Fin(u)) && s.nodes[u].fin.FDone?
    {
      hide Reachable, WordShows, SnapshotShows;
      cells[u].locked := false;
      ReachableStep(s, Fin(u));
      s := Apply(s, Fin(u));
    }

    method SetRecoverable(u: nat)
      requires Valid() && Enabled(s, Recover(u))
      modifies this`s, cells[u]
      ensures Valid() && s == Apply(old(s), Recover(u))
    {
      hide Reachable, WordShows, SnapshotShows;
      cells[u].status := Recoverable;
      ReachableStep(s, Recover(u));
      s := Apply(s, Recover(u));
    }
  }
}

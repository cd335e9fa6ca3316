/** Every operation keeps the edge invariant. */
module EdgesProof {
  import opened Common
  import opened Edges

  // ---------------------------------------------------------------- create_edges moves on by itself

  /**
   * create_edges of v works on edge j: its own record changes in the program point and, if
   * it counts the edge off, in the wait count; every other edge of v is as before.
   */
  ghost predicate VChange(s: State, s': State, v: nat, j: nat, n': Node) {
    && v < |s.nodes| && s.nodes[v].make.Edge? && s.nodes[v].make.j == j
    && s' == Put(s, v, n')
    && n' == s.nodes[v].(make := n'.make, wait := n'.wait, open := n'.open, released := n'.released)
    && ((n'.make.Edge? && n'.make.j == j) || n'.make == NextEdge(s.nodes[v], j))
    && (forall e | e != j :: e in n'.open <==> e in s.nodes[v].open)
    && CountOk(n')
  }

  /** The bit or list entry of edge j, and the edge itself, are right after the change. */
  ghost predicate EdgeFits(s': State, v: nat, j: nat) {
    && v < |s'.nodes| && j < |s'.nodes[v].req|
    && OpenHeld(s', v, j) && ClosedJust(s', v, j)
    && (forall u, id | 0 <= u < |s'.nodes| && id in s'.nodes[u].fast ::
          s'.nodes[u].fast[id] == j && BitTargetOk(s', u, id) && BitTarget(s', u, id) == v
          ==> BitOk(s'.nodes[u], u, id, s'.nodes[v], j))
  }

  lemma VNodes(s: State, s': State, v: nat, j: nat, n': Node)
    requires Inv(s) && VChange(s, s', v, j, n')
    ensures NodesOk(s') && PlacesOk(s') && RequiredOk(s') && ListsDistinct(s')
  {
    hide MakersOk, BitsOk, ListsOk, AllHeld, AllJust;
  }

  lemma VLists(s: State, s': State, v: nat, j: nat, n': Node)
    requires Inv(s) && VChange(s, s', v, j, n')
    ensures ListsOk(s')
  {
    hide MakersOk, BitsOk, AllHeld, AllJust, PlacesOk, ListsDistinct;
    forall u, i | 0 <= u < |s'.nodes| && 0 <= i < |s'.nodes[u].downs| ensures EntryFine(s', u, i) {
      assert EntryFine(s, u, i);
      var (w, e) := s.nodes[u].downs[i];
      assert s'.nodes[u].downs[i] == (w, e);
      assert HasBit(s'.nodes[u], s'.nodes[w], e) == HasBit(s.nodes[u], s.nodes[w], e);
    }
  }

  lemma VBit(s: State, s': State, v: nat, j: nat, n': Node, x: nat, id: nat)
    requires VChange(s, s', v, j, n') && EdgeFits(s', v, j)
    requires x < |s.nodes| && id in s.nodes[x].fast && BitFine(s, x, id)
    ensures x < |s'.nodes| && id in s'.nodes[x].fast && BitFine(s', x, id)
  {
    var w := BitTarget(s, x, id);
    assert s'.nodes[x].fast == s.nodes[x].fast;
    assert BitTarget(s', x, id) == w;
  }

  lemma VBits(s: State, s': State, v: nat, j: nat, n': Node)
    requires Inv(s) && VChange(s, s', v, j, n') && EdgeFits(s', v, j)
    ensures BitsOk(s')
  {
    assert forall x | 0 <= x < |s'.nodes| :: x < |s.nodes| && s'.nodes[x].fast == s.nodes[x].fast;
    hide MakersOk, ListsOk, AllHeld, AllJust, PlacesOk, ListsDistinct, BitFine, VChange, EdgeFits;
    forall x, id | 0 <= x < |s'.nodes| && id in s'.nodes[x].fast ensures BitFine(s', x, id) {
      VBit(s, s', v, j, n', x, id);
    }
  }

  lemma VMakers(s: State, s': State, v: nat, j: nat, n': Node)
    requires Inv(s) && VChange(s, s', v, j, n') && MakerOk(s', v)
    ensures MakersOk(s')
  {
    hide ListsOk, AllHeld, AllJust, PlacesOk, ListsDistinct, BitsOk;
    forall w | 0 <= w < |s'.nodes| ensures MakerOk(s', w) {
      assert MakerOk(s, w);
    }
  }

  lemma VEdges(s: State, s': State, v: nat, j: nat, n': Node)
    requires Inv(s) && VChange(s, s', v, j, n') && EdgeFits(s', v, j)
    ensures AllHeld(s') && AllJust(s')
  {
    hide ListsOk, MakersOk, PlacesOk, ListsDistinct, BitsOk;
    forall w, e | 0 <= w < |s'.nodes| && 0 <= e < |s'.nodes[w].req|
      ensures OpenHeld(s', w, e) && ClosedJust(s', w, e)
    {
      assert OpenHeld(s, w, e) && ClosedJust(s, w, e);
    }
  }

  lemma VKeeps(s: State, s': State, v: nat, j: nat, n': Node)
    requires Inv(s) && VChange(s, s', v, j, n') && EdgeFits(s', v, j) && MakerOk(s', v)
    ensures Inv(s')
  {
    VNodes(s, s', v, j, n');
    VLists(s, s', v, j, n');
    VBits(s, s', v, j, n');
    VMakers(s, s', v, j, n');
    VEdges(s, s', v, j, n');
  }

  // ---------------------------------------------------------------- the finisher moves on by itself

  predicate BeforeLock(n: Node) {
    n.fin.FNone? || n.fin.FLock?
  }

  /** finish(u) moves: status, snapshot, lock and program point of u, nothing else. */
  ghost predicate FChange(s: State, s': State, u: nat, n': Node) {
    && u < |s.nodes| && s' == Put(s, u, n')
    && n' == s.nodes[u].(status := n'.status, fin := n'.fin, lock := n'.lock, bak := n'.bak)
    && CountOk(n') && FinOk(n')
    && (Done(s.nodes[u].status) ==> Done(n'.status))
    && (forall id | id in n'.fast :: Covered(n', id) == Covered(s.nodes[u], id))
    && (forall id | id in n'.fast && Covered(n', id) :: BitPending(n', id) == BitPending(s.nodes[u], id))
    && Listed(n') == Listed(s.nodes[u])
    && (forall w | 0 <= w < |s.nodes| && HasUp(s, w) && Up(s, w) == u && UsesLock(s.nodes[w].make.pc) ::
          n'.lock == Adder(w) && (BeforeLock(s.nodes[u]) ==> BeforeLock(n')))
  }

  lemma FNodes(s: State, s': State, u: nat, n': Node)
    requires Inv(s) && FChange(s, s', u, n')
    ensures NodesOk(s') && PlacesOk(s') && RequiredOk(s') && ListsDistinct(s')
  {
    hide MakersOk, BitsOk, ListsOk, AllHeld, AllJust;
  }

  lemma FLists(s: State, s': State, u: nat, n': Node)
    requires Inv(s) && FChange(s, s', u, n')
    ensures ListsOk(s')
  {
    hide MakersOk, BitsOk, AllHeld, AllJust, PlacesOk, ListsDistinct;
    forall x, i | 0 <= x < |s'.nodes| && 0 <= i < |s'.nodes[x].downs| ensures EntryFine(s', x, i) {
      assert EntryFine(s, x, i);
      var (w, e) := s.nodes[x].downs[i];
      assert s'.nodes[x].downs[i] == (w, e);
      assert HasBit(s'.nodes[x], s'.nodes[w], e) == HasBit(s.nodes[x], s.nodes[w], e);
    }
  }

  lemma FBit(s: State, s': State, u: nat, n': Node, x: nat, id: nat)
    requires FChange(s, s', u, n')
    requires x < |s.nodes| && id in s.nodes[x].fast && BitFine(s, x, id)
    ensures x < |s'.nodes| && id in s'.nodes[x].fast && BitFine(s', x, id)
  {
    hide FinOk;
    var w := BitTarget(s, x, id);
    assert s'.nodes[x].fast == s.nodes[x].fast;
    assert BitTarget(s', x, id) == w;
  }

  lemma FBitsKept(s: State, s': State, u: nat, n': Node)
    requires Inv(s) && FChange(s, s', u, n')
    ensures BitsOk(s')
  {
    assert forall x | 0 <= x < |s'.nodes| :: x < |s.nodes| && s'.nodes[x].fast == s.nodes[x].fast;
    hide MakersOk, ListsOk, AllHeld, AllJust, PlacesOk, ListsDistinct, BitFine, FChange;
    forall x, id | 0 <= x < |s'.nodes| && id in s'.nodes[x].fast ensures BitFine(s', x, id) {
      FBit(s, s', u, n', x, id);
    }
  }

  lemma FMakers(s: State, s': State, u: nat, n': Node)
    requires Inv(s) && FChange(s, s', u, n')
    ensures MakersOk(s')
  {
    hide ListsOk, AllHeld, AllJust, PlacesOk, ListsDistinct, BitsOk;
    forall w | 0 <= w < |s'.nodes| ensures MakerOk(s', w) {
      assert MakerOk(s, w);
    }
  }

  lemma FEdges(s: State, s': State, u: nat, n': Node)
    requires Inv(s) && FChange(s, s', u, n')
    ensures AllHeld(s') && AllJust(s')
  {
    hide ListsOk, MakersOk, PlacesOk, ListsDistinct, BitsOk;
    forall w, e | 0 <= w < |s'.nodes| && 0 <= e < |s'.nodes[w].req|
      ensures OpenHeld(s', w, e) && ClosedJust(s', w, e)
    {
      assert OpenHeld(s, w, e) && ClosedJust(s, w, e);
    }
  }

  lemma FKeeps(s: State, s': State, u: nat, n': Node)
    requires Inv(s) && FChange(s, s', u, n')
    ensures Inv(s')
  {
    FNodes(s, s', u, n');
    FLists(s, s', u, n');
    FBitsKept(s, s', u, n');
    FMakers(s, s', u, n');
    FEdges(s, s', u, n');
  }

  // ---------------------------------------------------------------- setting a bit

  ghost predicate SetsBit(s: State, s': State, v: nat) {
    && HasUp(s, v) && s.nodes[v].make.pc == TestSet
    && FastPath(s.nodes[Up(s, v)], s.nodes[v]) && s.nodes[v].id !in s.nodes[Up(s, v)].fast
    && var (n, u) := (s.nodes[v], s.nodes[Up(s, v)]);
       s' == Put(Put(s, v, n.(make := Edge(n.make.j, Snap(false)))), Up(s, v), u.(fast := u.fast[n.id := n.make.j]))
  }

  /** Two nodes in the same place are the same node. */
  lemma SamePlace(s: State, v: nat, w: nat)
    requires PlacesOk(s) && v < |s.nodes| && w < |s.nodes|
    requires s.nodes[v].graph == s.nodes[w].graph && s.nodes[v].graph.Some? && s.nodes[v].id == s.nodes[w].id
    ensures v == w
  {
  }

  lemma SetNodes(s: State, s': State, v: nat)
    requires Inv(s) && SetsBit(s, s', v)
    ensures NodesOk(s') && PlacesOk(s') && RequiredOk(s') && ListsDistinct(s')
  {
    hide MakersOk, BitsOk, ListsOk, AllHeld, AllJust;
  }

  lemma SetLists(s: State, s': State, v: nat)
    requires Inv(s) && SetsBit(s, s', v)
    ensures ListsOk(s')
  {
    hide MakersOk, BitsOk, AllHeld, AllJust, ListsDistinct;
    forall x, i | 0 <= x < |s'.nodes| && 0 <= i < |s'.nodes[x].downs| ensures EntryFine(s', x, i) {
      assert EntryFine(s, x, i);
      var (w, e) := s.nodes[x].downs[i];
      assert s'.nodes[x].downs[i] == (w, e);
      if HasBit(s'.nodes[x], s'.nodes[w], e) && !HasBit(s.nodes[x], s.nodes[w], e) {
        SamePlace(s, v, w);
      }
    }
  }

  lemma SetBit(s: State, s': State, v: nat, x: nat, id: nat)
    requires SetsBit(s, s', v) && MakerOk(s, v)
    requires x < |s.nodes| && id in s.nodes[x].fast && BitFine(s, x, id)
    requires x != Up(s, v) || id != s.nodes[v].id
    ensures x < |s'.nodes| && id in s'.nodes[x].fast && BitFine(s', x, id)
  {
    var w := BitTarget(s, x, id);
    assert s'.nodes[x].fast[id] == s.nodes[x].fast[id];
    assert BitTarget(s', x, id) == w;
  }

  lemma SetNewBit(s: State, s': State, v: nat)
    requires SetsBit(s, s', v) && PlacesOk(s) && NodesOk(s) && MakerOk(s, v)
    ensures s.nodes[v].id in s'.nodes[Up(s, v)].fast && BitFine(s', Up(s, v), s.nodes[v].id)
  {
    assert BitTarget(s', Up(s, v), s.nodes[v].id) == v;
  }

  lemma SetBits(s: State, s': State, v: nat)
    requires Inv(s) && SetsBit(s, s', v)
    ensures BitsOk(s')
  {
    SetNewBit(s, s', v);
    var ui, vid := Up(s, v), s.nodes[v].id;
    assert forall x, id | 0 <= x < |s'.nodes| && id in s'.nodes[x].fast ::
      x < |s.nodes| && ((x == ui && id == vid) || id in s.nodes[x].fast);
    hide MakersOk, ListsOk, AllHeld, AllJust, PlacesOk, ListsDistinct, BitFine, SetsBit;
    forall x, id | 0 <= x < |s'.nodes| && id in s'.nodes[x].fast ensures BitFine(s', x, id) {
      if x != ui || id != vid {
        SetBit(s, s', v, x, id);
      }
    }
  }

  lemma SetMaker(s: State, s': State, v: nat, w: nat)
    requires SetsBit(s, s', v)
    requires v < |s.nodes| && w < |s.nodes| && MakerOk(s, w) && MakerOk(s, v) && PlacesOk(s)
    ensures w < |s'.nodes| && MakerOk(s', w)
  {
    if w != v && s.nodes[w].graph == s.nodes[v].graph && s.nodes[w].id == s.nodes[v].id {
      SamePlace(s, v, w);
    }
    hide PlacesOk;
    assert HasUp(s', w) == HasUp(s, w);
  }

  lemma SetMakers(s: State, s': State, v: nat)
    requires Inv(s) && SetsBit(s, s', v)
    ensures MakersOk(s')
  {
    assert |s'.nodes| == |s.nodes|;
    hide ListsOk, AllHeld, AllJust, PlacesOk, ListsDistinct, BitsOk, MakerOk, SetsBit;
    forall w | 0 <= w < |s'.nodes| ensures MakerOk(s', w) {
      SetMaker(s, s', v, w);
    }
  }

  lemma SetEdges(s: State, s': State, v: nat)
    requires Inv(s) && SetsBit(s, s', v)
    ensures AllHeld(s') && AllJust(s')
  {
    hide ListsOk, MakersOk, PlacesOk, ListsDistinct, BitsOk;
    forall w, e | 0 <= w < |s'.nodes| && 0 <= e < |s'.nodes[w].req|
      ensures OpenHeld(s', w, e) && ClosedJust(s', w, e)
    {
      assert OpenHeld(s, w, e) && ClosedJust(s, w, e);
    }
  }

  lemma SetKeeps(s: State, s': State, v: nat)
    requires Inv(s) && SetsBit(s, s', v)
    ensures Inv(s')
  {
    SetNodes(s, s', v);
    SetLists(s, s', v);
    SetBits(s, s', v);
    SetMakers(s, s', v);
    SetEdges(s, s', v);
  }

  // ---------------------------------------------------------------- appending to a list

  /** The append of the slow path, before the lock is given back. */
  ghost predicate Pushes(s: State, s': State, v: nat) {
    && HasUp(s, v) && s.nodes[v].make.pc == SlowPush
    && var (n, u) := (s.nodes[v], s.nodes[Up(s, v)]);
       s' == Put(Put(s, v, n.(make := NextEdge(n, n.make.j))), Up(s, v), u.(downs := u.downs + [(v, n.make.j)]))
  }

  lemma PushNodes(s: State, s': State, v: nat)
    requires Inv(s) && Pushes(s, s', v)
    ensures NodesOk(s') && PlacesOk(s') && RequiredOk(s')
  {
    hide MakersOk, BitsOk, ListsOk, AllHeld, AllJust;
  }

  lemma PushIsNew(s: State, v: nat)
    requires Inv(s) && HasUp(s, v) && s.nodes[v].make.pc == SlowPush
    ensures !HasBit(s.nodes[Up(s, v)], s.nodes[v], s.nodes[v].make.j)
    ensures (v, s.nodes[v].make.j) !in s.nodes[Up(s, v)].downs
  {
    hide AllHeld, AllJust, MakersOk, ListsDistinct;
    var u, id, j := Up(s, v), s.nodes[v].id, s.nodes[v].make.j;
    assert id in s.nodes[u].fast ==> BitFine(s, u, id);
    forall i | 0 <= i < |s.nodes[u].downs| ensures s.nodes[u].downs[i] != (v, j) {
      assert EntryFine(s, u, i);
    }
  }

  lemma PushEntry(s: State, s': State, v: nat, x: nat, i: nat)
    requires Pushes(s, s', v)
    requires x < |s.nodes| && i < |s.nodes[x].downs| && EntryFine(s, x, i)
    ensures x < |s'.nodes| && i < |s'.nodes[x].downs| && EntryFine(s', x, i)
  {
    var (w, e) := s.nodes[x].downs[i];
    assert s'.nodes[x].downs[i] == (w, e);
    assert HasBit(s'.nodes[x], s'.nodes[w], e) == HasBit(s.nodes[x], s.nodes[w], e);
  }

  lemma PushNewEntry(s: State, s': State, v: nat)
    requires Pushes(s, s', v) && NodesOk(s) && MakerOk(s, v)
    requires !HasBit(s.nodes[Up(s, v)], s.nodes[v], s.nodes[v].make.j)
    ensures EntryFine(s', Up(s, v), |s.nodes[Up(s, v)].downs|)
  {
    var u := Up(s, v);
    var i := |s.nodes[u].downs|;
    assert s'.nodes[u].downs[i] == (v, s.nodes[v].make.j);
    assert Listed(s'.nodes[u]) == 0;
  }

  lemma PushLists(s: State, s': State, v: nat)
    requires Inv(s) && Pushes(s, s', v)
    ensures ListsOk(s') && ListsDistinct(s')
  {
    PushIsNew(s, v);
    PushNewEntry(s, s', v);
    var ui, n := Up(s, v), |s.nodes[Up(s, v)].downs|;
    var more := s.nodes[ui].downs + [(v, s.nodes[v].make.j)];
    assert forall x | 0 <= x < |s'.nodes| :: x < |s.nodes| && s'.nodes[x].downs == (if x == ui then more else s.nodes[x].downs);
    hide AllHeld, AllJust, MakersOk, BitsOk, PlacesOk, NodesOk, EntryFine, Pushes;
    forall x, i | 0 <= x < |s'.nodes| && 0 <= i < |s'.nodes[x].downs| ensures EntryFine(s', x, i) {
      if x != ui || i != n {
        PushEntry(s, s', v, x, i);
      }
    }
  }

  lemma PushBit(s: State, s': State, v: nat, x: nat, id: nat)
    requires Pushes(s, s', v)
    requires x < |s.nodes| && id in s.nodes[x].fast && BitFine(s, x, id)
    ensures x < |s'.nodes| && id in s'.nodes[x].fast && BitFine(s', x, id)
  {
    var w := BitTarget(s, x, id);
    assert s'.nodes[x].fast == s.nodes[x].fast;
    assert BitTarget(s', x, id) == w;
  }

  lemma PushBits(s: State, s': State, v: nat)
    requires Inv(s) && Pushes(s, s', v)
    ensures BitsOk(s')
  {
    assert forall x | 0 <= x < |s'.nodes| :: x < |s.nodes| && s'.nodes[x].fast == s.nodes[x].fast;
    hide MakersOk, ListsOk, AllHeld, AllJust, PlacesOk, ListsDistinct, BitFine, Pushes;
    forall x, id | 0 <= x < |s'.nodes| && id in s'.nodes[x].fast ensures BitFine(s', x, id) {
      PushBit(s, s', v, x, id);
    }
  }

  lemma PushMaker(s: State, s': State, v: nat, w: nat)
    requires Pushes(s, s', v)
    requires v < |s.nodes| && w < |s.nodes| && MakerOk(s, w) && MakerOk(s, v)
    ensures w < |s'.nodes| && MakerOk(s', w)
  {
    assert HasUp(s', w) == HasUp(s, w) || w == v;
  }

  lemma PushMakers(s: State, s': State, v: nat)
    requires Inv(s) && Pushes(s, s', v)
    ensures MakersOk(s')
  {
    assert |s'.nodes| == |s.nodes|;
    hide ListsOk, AllHeld, AllJust, PlacesOk, ListsDistinct, BitsOk, MakerOk, Pushes;
    forall w | 0 <= w < |s'.nodes| ensures MakerOk(s', w) {
      PushMaker(s, s', v, w);
    }
  }

  lemma PushEdges(s: State, s': State, v: nat)
    requires Inv(s) && Pushes(s, s', v)
    ensures AllHeld(s') && AllJust(s')
  {
    hide ListsOk, PlacesOk, ListsDistinct, BitsOk;
    assert MakerOk(s, v);
    forall w, e | 0 <= w < |s'.nodes| && 0 <= e < |s'.nodes[w].req|
      ensures OpenHeld(s', w, e) && ClosedJust(s', w, e)
    {
      assert OpenHeld(s, w, e) && ClosedJust(s, w, e);
    }
  }

  lemma PushKeeps(s: State, s': State, v: nat)
    requires Inv(s) && Pushes(s, s', v)
    ensures Inv(s')
  {
    PushNodes(s, s', v);
    PushLists(s, s', v);
    PushBits(s, s', v);
    PushMakers(s, s', v);
    PushEdges(s, s', v);
  }

  // ---------------------------------------------------------------- the finisher counts an edge off

  /** finish(u) counts edge e of d off and notes it in its program point. */
  ghost predicate DChange(s: State, s': State, u: nat, d: nat, e: nat, fin: FinPc) {
    && u < |s.nodes| && d < |s.nodes| && u != d
    && s' == Put(Put(s, d, Discharge(s.nodes[d], e)), u, s.nodes[u].(fin := fin))
    && IsEdge(s.nodes[d], e, u) && e in s.nodes[d].open
    && (e < Passed(s.nodes[d]) || s.nodes[d].make == Edge(e, Snap(false)))
    && s.nodes[u].bak.Some? && FinOk(s.nodes[u].(fin := fin))
    && (HasBit(s.nodes[u], s.nodes[d], e) ==> Covered(s.nodes[u], s.nodes[d].id))
    && (forall id | id in s.nodes[u].fast && Covered(s.nodes[u], id) ::
          BitPending(s'.nodes[u], id) <==>
            BitPending(s.nodes[u], id) && !(BitTargetOk(s, u, id) && BitTarget(s, u, id) == d && s.nodes[u].fast[id] == e))
    && (forall i | 0 <= i < |s.nodes[u].downs| ::
          i >= Listed(s'.nodes[u]) <==> i >= Listed(s.nodes[u]) && s.nodes[u].downs[i] != (d, e))
  }

  lemma DNodes(s: State, s': State, u: nat, d: nat, e: nat, fin: FinPc)
    requires Inv(s) && DChange(s, s', u, d, e, fin)
    ensures NodesOk(s') && PlacesOk(s') && RequiredOk(s') && ListsDistinct(s')
  {
    hide MakersOk, BitsOk, ListsOk, AllHeld, AllJust;
    assert CountOk(s.nodes[d]);
    assert |s.nodes[d].open - {e}| == |s.nodes[d].open| - 1;
    if s.nodes[d].open - {e} == {} {
      assert s.nodes[d].open == {e};
    }
    assert CountOk(s'.nodes[d]);
  }

  lemma DLists(s: State, s': State, u: nat, d: nat, e: nat, fin: FinPc)
    requires Inv(s) && DChange(s, s', u, d, e, fin)
    ensures ListsOk(s')
  {
    hide MakersOk, BitsOk, AllHeld, AllJust, PlacesOk, ListsDistinct;
    forall x, i | 0 <= x < |s'.nodes| && 0 <= i < |s'.nodes[x].downs| ensures EntryFine(s', x, i) {
      assert EntryFine(s, x, i);
      var (w, f) := s.nodes[x].downs[i];
      assert s'.nodes[x].downs[i] == (w, f);
      assert HasBit(s'.nodes[x], s'.nodes[w], f) == HasBit(s.nodes[x], s.nodes[w], f);
    }
  }

  lemma DBit(s: State, s': State, u: nat, d: nat, e: nat, fin: FinPc, x: nat, id: nat)
    requires DChange(s, s', u, d, e, fin)
    requires x < |s.nodes| && id in s.nodes[x].fast && BitFine(s, x, id)
    ensures x < |s'.nodes| && id in s'.nodes[x].fast && BitFine(s', x, id)
  {
    hide FinOk;
    var w := BitTarget(s, x, id);
    assert s'.nodes[x].fast == s.nodes[x].fast;
    assert BitTarget(s', x, id) == w;
    if w == d && s.nodes[x].fast[id] == e {
      assert x == u;
    }
    assert x != u ==> s'.nodes[x].fin == s.nodes[x].fin;
  }

  lemma DBits(s: State, s': State, u: nat, d: nat, e: nat, fin: FinPc)
    requires Inv(s) && DChange(s, s', u, d, e, fin)
    ensures BitsOk(s')
  {
    assert forall x | 0 <= x < |s'.nodes| :: x < |s.nodes| && s'.nodes[x].fast == s.nodes[x].fast;
    hide MakersOk, ListsOk, AllHeld, AllJust, PlacesOk, ListsDistinct, BitFine, DChange;
    forall x, id | 0 <= x < |s'.nodes| && id in s'.nodes[x].fast ensures BitFine(s', x, id) {
      DBit(s, s', u, d, e, fin, x, id);
    }
  }

  lemma DMaker(s: State, s': State, u: nat, d: nat, e: nat, fin: FinPc, w: nat)
    requires DChange(s, s', u, d, e, fin)
    requires w < |s.nodes| && MakerOk(s, w) && FinOk(s.nodes[u])
    ensures w < |s'.nodes| && MakerOk(s', w)
  {
    assert !s.nodes[u].fin.FNone? && !s.nodes[u].fin.FLock?;
    assert !s'.nodes[u].fin.FNone? && !s'.nodes[u].fin.FStore?;
    hide FinOk, BitPending, Listed;
    assert HasUp(s', w) == HasUp(s, w);
    if HasUp(s, w) {
      assert Covered(s'.nodes[Up(s, w)], s.nodes[w].id) == Covered(s.nodes[Up(s, w)], s.nodes[w].id);
    }
  }

  lemma DMakers(s: State, s': State, u: nat, d: nat, e: nat, fin: FinPc)
    requires Inv(s) && DChange(s, s', u, d, e, fin)
    ensures MakersOk(s')
  {
    assert |s'.nodes| == |s.nodes|;
    assert FinOk(s.nodes[u]);
    hide ListsOk, AllHeld, AllJust, PlacesOk, ListsDistinct, BitsOk, MakerOk, DChange;
    forall w | 0 <= w < |s'.nodes| ensures MakerOk(s', w) {
      DMaker(s, s', u, d, e, fin, w);
    }
  }

  lemma DEdges(s: State, s': State, u: nat, d: nat, e: nat, fin: FinPc)
    requires Inv(s) && DChange(s, s', u, d, e, fin)
    ensures AllHeld(s') && AllJust(s')
  {
    hide ListsOk, MakersOk, PlacesOk, ListsDistinct, BitsOk;
    forall w, f | 0 <= w < |s'.nodes| && 0 <= f < |s'.nodes[w].req|
      ensures OpenHeld(s', w, f) && ClosedJust(s', w, f)
    {
      assert OpenHeld(s, w, f) && ClosedJust(s, w, f);
    }
  }

  lemma DKeeps(s: State, s': State, u: nat, d: nat, e: nat, fin: FinPc)
    requires Inv(s) && DChange(s, s', u, d, e, fin)
    ensures Inv(s')
  {
    DNodes(s, s', u, d, e, fin);
    DLists(s, s', u, d, e, fin);
    DBits(s, s', u, d, e, fin);
    DMakers(s, s', u, d, e, fin);
    DEdges(s, s', u, d, e, fin);
  }
}

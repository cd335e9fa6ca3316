/** Every action keeps the edge invariant, so every reachable state has it. */
module EdgesSteps {
  import opened Common
  import opened Edges
  import opened EdgesProof

  // ---------------------------------------------------------------- registration

  lemma AllocKeeps(s: State)
    requires Inv(s)
    ensures Inv(Apply(s, Alloc))
  {
    var s' := Apply(s, Alloc);
    hide Apply;
    assert s' == s.(nodes := s.nodes + [NewNode()]) by { AllocIs(s); }
    AllocParts(s, s');
    AllocBits(s, s');
    AllocMakers(s, s');
    AllocEdges(s, s');
  }

  lemma AllocIs(s: State)
    ensures Apply(s, Alloc) == s.(nodes := s.nodes + [NewNode()])
  {
  }

  lemma AllocParts(s: State, s': State)
    requires Inv(s) && s' == s.(nodes := s.nodes + [NewNode()])
    ensures NodesOk(s') && PlacesOk(s') && RequiredOk(s') && ListsDistinct(s') && ListsOk(s')
  {
    hide MakersOk, BitsOk, AllHeld, AllJust;
    assert CountOk(NewNode()) && FinOk(NewNode());
    hide CountOk, FinOk;
    forall u, i | 0 <= u < |s'.nodes| && 0 <= i < |s'.nodes[u].downs| ensures EntryFine(s', u, i) {
      assert EntryFine(s, u, i);
    }
  }

  lemma AllocBits(s: State, s': State)
    requires Inv(s) && s' == s.(nodes := s.nodes + [NewNode()])
    ensures BitsOk(s')
  {
    hide MakersOk, ListsOk, AllHeld, AllJust, PlacesOk, ListsDistinct, NodesOk;
    forall u, id | 0 <= u < |s'.nodes| && id in s'.nodes[u].fast ensures BitFine(s', u, id) {
      assert BitFine(s, u, id);
    }
  }

  lemma AllocMakers(s: State, s': State)
    requires Inv(s) && s' == s.(nodes := s.nodes + [NewNode()])
    ensures MakersOk(s')
  {
    hide BitsOk, ListsOk, AllHeld, AllJust, PlacesOk, ListsDistinct, NodesOk;
    forall w | 0 <= w < |s'.nodes| ensures MakerOk(s', w) {
      if w < |s.nodes| {
        assert MakerOk(s, w) && ReqOk(s, s.nodes[w].req);
        assert HasUp(s', w) == HasUp(s, w);
      }
    }
  }

  lemma AllocEdges(s: State, s': State)
    requires Inv(s) && s' == s.(nodes := s.nodes + [NewNode()])
    ensures AllHeld(s') && AllJust(s')
  {
    hide BitsOk, ListsOk, MakersOk, PlacesOk, ListsDistinct, NodesOk;
    forall w, e | 0 <= w < |s'.nodes| && 0 <= e < |s'.nodes[w].req|
      ensures OpenHeld(s', w, e) && ClosedJust(s', w, e)
    {
      assert w < |s.nodes|;
      assert OpenHeld(s, w, e) && ClosedJust(s, w, e) && ReqOk(s, s.nodes[w].req);
    }
  }

  /** An unregistered node has no bits set, and no list or bitmap leads to it. */
  ghost predicate Untouched(s: State, v: nat)
    requires v < |s.nodes|
  {
    && s.nodes[v].fast == map[]
    && (forall u, i | 0 <= u < |s.nodes| && 0 <= i < |s.nodes[u].downs| :: s.nodes[u].downs[i].0 != v)
    && (forall u, id | 0 <= u < |s.nodes| && id in s.nodes[u].fast :: BitTargetOk(s, u, id) && BitTarget(s, u, id) != v)
  }

  lemma UnmadeUntouched(s: State, v: nat)
    requires Inv(s) && v < |s.nodes| && s.nodes[v].make.Unmade?
    ensures Untouched(s, v)
  {
    hide MakersOk, AllHeld, AllJust, ListsDistinct;
    forall u, id | 0 <= u < |s.nodes| && id in s.nodes[u].fast
      ensures BitTargetOk(s, u, id) && BitTarget(s, u, id) != v && u != v
    {
      assert BitFine(s, u, id);
    }
    assert s.nodes[v].fast == map[] by {
      assert forall id | id in s.nodes[v].fast :: false;
    }
    forall u, i | 0 <= u < |s.nodes| && 0 <= i < |s.nodes[u].downs| ensures s.nodes[u].downs[i].0 != v {
      assert EntryFine(s, u, i);
    }
  }

  ghost predicate Creates(s: State, s': State, v: nat, g: nat, req: seq<Option<nat>>) {
    && v < |s.nodes| && s.nodes[v].make.Unmade? && g < |s.graphs| && ReqOk(s, req)
    && s' == Put(s, v, s.nodes[v].(graph := Some(g), id := |s.graphs[g]|, req := req, make := Announced))
             .(graphs := s.graphs[g := s.graphs[g] + [v]])
  }

  lemma CreateKeeps(s: State, v: nat, g: nat, req: seq<Option<nat>>)
    requires Inv(s) && Enabled(s, Create(v, g, req))
    ensures Inv(Apply(s, Create(v, g, req)))
  {
    var s' := Apply(s, Create(v, g, req));
    assert Creates(s, s', v, g, req);
    hide Apply, Enabled;
    UnmadeUntouched(s, v);
    CreateParts(s, s', v, g, req);
    CreateLists(s, s', v, g, req);
    CreateBits(s, s', v, g, req);
    CreateMakers(s, s', v, g, req);
    CreateEdges(s, s', v, g, req);
  }

  lemma CreateParts(s: State, s': State, v: nat, g: nat, req: seq<Option<nat>>)
    requires Inv(s) && Creates(s, s', v, g, req)
    ensures NodesOk(s') && PlacesOk(s') && RequiredOk(s') && ListsDistinct(s')
  {
    hide MakersOk, BitsOk, ListsOk, AllHeld, AllJust;
  }

  lemma CreateLists(s: State, s': State, v: nat, g: nat, req: seq<Option<nat>>)
    requires Inv(s) && Creates(s, s', v, g, req) && Untouched(s, v)
    ensures ListsOk(s')
  {
    hide MakersOk, BitsOk, AllHeld, AllJust, PlacesOk, ListsDistinct, NodesOk;
    forall x, i | 0 <= x < |s'.nodes| && 0 <= i < |s'.nodes[x].downs| ensures EntryFine(s', x, i) {
      assert EntryFine(s, x, i);
      var (w, e) := s.nodes[x].downs[i];
      assert s'.nodes[x].downs[i] == (w, e);
      assert w != v;
      assert HasBit(s'.nodes[x], s'.nodes[w], e) == HasBit(s.nodes[x], s.nodes[w], e);
    }
  }

  lemma CreateBits(s: State, s': State, v: nat, g: nat, req: seq<Option<nat>>)
    requires Inv(s) && Creates(s, s', v, g, req) && Untouched(s, v)
    ensures BitsOk(s')
  {
    hide MakersOk, ListsOk, AllHeld, AllJust, PlacesOk, ListsDistinct, NodesOk;
    forall x, id | 0 <= x < |s'.nodes| && id in s'.nodes[x].fast ensures BitFine(s', x, id) {
      assert x != v && s'.nodes[x] == s.nodes[x];
      assert BitFine(s, x, id);
      assert BitTargetOk(s', x, id) && BitTarget(s', x, id) == BitTarget(s, x, id);
    }
  }

  lemma CreateMakers(s: State, s': State, v: nat, g: nat, req: seq<Option<nat>>)
    requires Inv(s) && Creates(s, s', v, g, req) && Untouched(s, v)
    ensures MakersOk(s')
  {
    hide BitsOk, ListsOk, AllHeld, AllJust, PlacesOk, ListsDistinct, NodesOk;
    forall w | 0 <= w < |s'.nodes| ensures MakerOk(s', w) {
      assert MakerOk(s, w);
      assert HasUp(s', w) == HasUp(s, w);
    }
  }

  lemma CreateEdges(s: State, s': State, v: nat, g: nat, req: seq<Option<nat>>)
    requires Inv(s) && Creates(s, s', v, g, req) && Untouched(s, v)
    ensures AllHeld(s') && AllJust(s')
  {
    hide BitsOk, ListsOk, MakersOk, PlacesOk, ListsDistinct;
    assert CountOk(s.nodes[v]);
    hide NodesOk;
    forall w, e | 0 <= w < |s'.nodes| && 0 <= e < |s'.nodes[w].req|
      ensures OpenHeld(s', w, e) && ClosedJust(s', w, e)
    {
      if w != v {
        assert OpenHeld(s, w, e) && ClosedJust(s, w, e);
      }
    }
  }

  /** Raising the wait count to the number of required nodes. */
  ghost predicate Announces(s: State, s': State, v: nat) {
    && v < |s.nodes| && s.nodes[v].make.Announced? && s' == MakeStep(s, v)
  }

  lemma AnnounceKeeps(s: State, s': State, v: nat)
    requires Inv(s) && Announces(s, s', v)
    ensures Inv(s')
  {
    AnnounceParts(s, s', v);
    AnnounceLists(s, s', v);
    AnnounceBits(s, s', v);
    AnnounceMakers(s, s', v);
    AnnounceEdges(s, s', v);
  }

  lemma AnnounceParts(s: State, s': State, v: nat)
    requires Inv(s) && Announces(s, s', v)
    ensures NodesOk(s') && PlacesOk(s') && RequiredOk(s') && ListsDistinct(s')
  {
    hide MakersOk, BitsOk, ListsOk, AllHeld, AllJust;
    assert CountOk(s.nodes[v]) && s.nodes[v].wait == 0;
    if |s.nodes[v].req| > 0 {
      assert 0 in Iota(|s.nodes[v].req|);
    }
    assert CountOk(s'.nodes[v]);
  }

  lemma AnnounceLists(s: State, s': State, v: nat)
    requires Inv(s) && Announces(s, s', v)
    ensures ListsOk(s')
  {
    hide MakersOk, BitsOk, AllHeld, AllJust, PlacesOk, ListsDistinct, NodesOk;
    forall x, i | 0 <= x < |s'.nodes| && 0 <= i < |s'.nodes[x].downs| ensures EntryFine(s', x, i) {
      assert EntryFine(s, x, i);
      var (w, e) := s.nodes[x].downs[i];
      assert s'.nodes[x].downs[i] == (w, e);
      assert w != v;
      assert HasBit(s'.nodes[x], s'.nodes[w], e) == HasBit(s.nodes[x], s.nodes[w], e);
    }
  }

  lemma AnnounceBits(s: State, s': State, v: nat)
    requires Inv(s) && Announces(s, s', v)
    ensures BitsOk(s')
  {
    hide MakersOk, ListsOk, AllHeld, AllJust, PlacesOk, ListsDistinct, NodesOk;
    forall x, id | 0 <= x < |s'.nodes| && id in s'.nodes[x].fast ensures BitFine(s', x, id) {
      assert BitFine(s, x, id);
      assert BitTarget(s, x, id) != v;
    }
  }

  lemma AnnounceMakers(s: State, s': State, v: nat)
    requires Inv(s) && Announces(s, s', v)
    ensures MakersOk(s')
  {
    hide BitsOk, ListsOk, AllHeld, AllJust, PlacesOk, ListsDistinct, NodesOk;
    forall w | 0 <= w < |s'.nodes| ensures MakerOk(s', w) {
      assert MakerOk(s, w);
      assert w != v ==> HasUp(s', w) == HasUp(s, w);
    }
  }

  lemma AnnounceEdges(s: State, s': State, v: nat)
    requires Inv(s) && Announces(s, s', v)
    ensures AllHeld(s') && AllJust(s')
  {
    hide BitsOk, ListsOk, MakersOk, PlacesOk, ListsDistinct, NodesOk;
    forall w, e | 0 <= w < |s'.nodes| && 0 <= e < |s'.nodes[w].req|
      ensures OpenHeld(s', w, e) && ClosedJust(s', w, e)
    {
      assert OpenHeld(s, w, e) && ClosedJust(s, w, e);
    }
  }

  // ---------------------------------------------------------------- finish

  /** A change of the status alone, which does not undo finishing. */
  lemma StatusKeeps(s: State, u: nat, st: Status)
    requires Inv(s) && u < |s.nodes| && (Done(st) <==> Done(s.nodes[u].status))
    requires s.nodes[u].released == 1
    ensures Inv(Put(s, u, s.nodes[u].(status := st)))
  {
    var n' := s.nodes[u].(status := st);
    assert CountOk(s.nodes[u]) && FinOk(s.nodes[u]);
    forall w | 0 <= w < |s.nodes| && HasUp(s, w) && Up(s, w) == u && UsesLock(s.nodes[w].make.pc)
      ensures n'.lock == Adder(w)
    {
      assert MakerOk(s, w);
    }
    assert FChange(s, Put(s, u, n'), u, n');
    hide Inv, FChange;
    FKeeps(s, Put(s, u, n'), u, n');
  }

  /** The operations of finish(u) that only touch u. */
  lemma FinOwnKeeps(s: State, u: nat)
    requires Inv(s) && Enabled(s, Fin(u))
    requires s.nodes[u].fin.FList? ==> s.nodes[u].fin.i >= |s.nodes[u].downs|
    ensures Inv(Apply(s, Fin(u)))
  {
    hide PlacesOk, RequiredOk, BitsOk, ListsOk, ListsDistinct, AllHeld, AllJust;
    var s' := Apply(s, Fin(u));
    assert CountOk(s.nodes[u]) && FinOk(s.nodes[u]);
    FinOwnChange(s, u);
    FKeeps(s, s', u, s'.nodes[u]);
  }

  lemma FinOwnChange(s: State, u: nat)
    requires NodesOk(s) && MakersOk(s) && Enabled(s, Fin(u))
    requires s.nodes[u].fin.FList? ==> s.nodes[u].fin.i >= |s.nodes[u].downs|
    ensures FChange(s, Apply(s, Fin(u)), u, Apply(s, Fin(u)).nodes[u])
  {
    var s' := Apply(s, Fin(u));
    assert CountOk(s.nodes[u]) && FinOk(s.nodes[u]);
    assert s' == Put(s, u, s'.nodes[u]);
    forall w | 0 <= w < |s.nodes| && HasUp(s, w) && Up(s, w) == u && UsesLock(s.nodes[w].make.pc)
      ensures s'.nodes[u].lock == Adder(w) && (BeforeLock(s.nodes[u]) ==> BeforeLock(s'.nodes[u]))
    {
      assert MakerOk(s, w);
    }
  }

  /** finish(u) counts an entry of its list off. */
  lemma FinListKeeps(s: State, u: nat)
    requires Inv(s) && Enabled(s, Fin(u)) && s.nodes[u].fin.FList? && s.nodes[u].fin.i < |s.nodes[u].downs|
    ensures DChange(s, Apply(s, Fin(u)), u, s.nodes[u].downs[s.nodes[u].fin.i].0,
                    s.nodes[u].downs[s.nodes[u].fin.i].1, FList(s.nodes[u].fin.i + 1))
    ensures Inv(Apply(s, Fin(u)))
  {
    FinListChange(s, u);
    hide Inv, DChange, Apply, Enabled;
    var (d, e) := s.nodes[u].downs[s.nodes[u].fin.i];
    DKeeps(s, Apply(s, Fin(u)), u, d, e, FList(s.nodes[u].fin.i + 1));
  }

  lemma FinListChange(s: State, u: nat)
    requires Inv(s) && Enabled(s, Fin(u)) && s.nodes[u].fin.FList? && s.nodes[u].fin.i < |s.nodes[u].downs|
    ensures DChange(s, Apply(s, Fin(u)), u, s.nodes[u].downs[s.nodes[u].fin.i].0,
                    s.nodes[u].downs[s.nodes[u].fin.i].1, FList(s.nodes[u].fin.i + 1))
  {
    hide MakersOk, PlacesOk, RequiredOk, BitsOk, AllHeld, AllJust;
    var i := s.nodes[u].fin.i;
    assert EntryFine(s, u, i) && FinOk(s.nodes[u]);
    var (d, e) := s.nodes[u].downs[i];
    forall k | 0 <= k < |s.nodes[u].downs|
      ensures k >= i + 1 <==> k >= i && s.nodes[u].downs[k] != (d, e)
    {
    }
  }

  /** finish(u) counts a bit of its snapshot off. */
  lemma FinBitKeeps(s: State, u: nat, id: nat)
    requires Inv(s) && Enabled(s, FinBit(u, id))
    ensures DChange(s, Apply(s, FinBit(u, id)), u, BitTarget(s, u, id), s.nodes[u].fast[id],
                    FBits(s.nodes[u].fin.todo - {id}))
    ensures Inv(Apply(s, FinBit(u, id)))
  {
    FinBitChange(s, u, id);
    assert id in s.nodes[u].fast && BitTargetOk(s, u, id) && s.nodes[u].fin.FBits?;
    hide Inv, DChange, Apply, Enabled;
    DKeeps(s, Apply(s, FinBit(u, id)), u, BitTarget(s, u, id), s.nodes[u].fast[id], FBits(s.nodes[u].fin.todo - {id}));
  }

  lemma FinBitChange(s: State, u: nat, id: nat)
    requires Inv(s) && Enabled(s, FinBit(u, id))
    ensures DChange(s, Apply(s, FinBit(u, id)), u, BitTarget(s, u, id), s.nodes[u].fast[id],
                    FBits(s.nodes[u].fin.todo - {id}))
  {
    hide PlacesOk, RequiredOk, AllHeld, AllJust, ListsDistinct;
    var d, e := BitTarget(s, u, id), s.nodes[u].fast[id];
    assert BitFine(s, u, id) && FinOk(s.nodes[u]) && MakerOk(s, d);
    assert e in s.nodes[d].open;
    forall k | k in s.nodes[u].fast && Covered(s.nodes[u], k)
      ensures BitTargetOk(s, u, k) && (BitTarget(s, u, k) == d ==> k == id)
    {
      assert BitFine(s, u, k);
    }
    forall i | 0 <= i < |s.nodes[u].downs| ensures s.nodes[u].downs[i] != (d, e) {
      assert EntryFine(s, u, i);
    }
    var s' := Apply(s, FinBit(u, id));
    assert FinOk(s'.nodes[u]);
    assert Listed(s'.nodes[u]) == 0 == Listed(s.nodes[u]);
    assert forall k | k in s.nodes[u].fast && Covered(s.nodes[u], k) :: BitPending(s'.nodes[u], k) <==>
      BitPending(s.nodes[u], k) && !(BitTargetOk(s, u, k) && BitTarget(s, u, k) == d && s.nodes[u].fast[k] == e);
  }

  // ---------------------------------------------------------------- create_edges

  /** No bit stands for the edge create_edges of v has not set a bit for. */
  lemma NoBitYet(s: State, v: nat, j: nat)
    requires BitsOk(s) && v < |s.nodes| && s.nodes[v].make.Edge? && s.nodes[v].make.j == j && !Looking(s.nodes[v], j)
    ensures forall u, id | 0 <= u < |s.nodes| && id in s.nodes[u].fast ::
      BitTargetOk(s, u, id) && (BitTarget(s, u, id) == v ==> s.nodes[u].fast[id] != j)
  {
    forall u, id | 0 <= u < |s.nodes| && id in s.nodes[u].fast
      ensures BitTargetOk(s, u, id) && (BitTarget(s, u, id) == v ==> s.nodes[u].fast[id] != j)
    {
      assert BitFine(s, u, id);
    }
  }

  lemma MyBit(s: State, v: nat, u: nat)
    requires BitsOk(s) && PlacesOk(s) && v < |s.nodes| && u < |s.nodes|
    requires FastPath(s.nodes[u], s.nodes[v]) && s.nodes[v].id in s.nodes[u].fast
    ensures BitFine(s, u, s.nodes[v].id) && BitTarget(s, u, s.nodes[v].id) == v
  {
  }

  ghost predicate At(s: State, v: nat, pc: AddPc) {
    v < |s.nodes| && s.nodes[v].make.Edge? && s.nodes[v].make.pc == pc && MakeEnabled(s, v)
  }

  /** A move of create_edges that counts nothing off: the bits and the edge need no attention. */
  lemma PlainFits(s: State, s': State, v: nat, j: nat, n': Node)
    requires Inv(s) && VChange(s, s', v, j, n') && n'.make.Edge? && n'.make.j == j && n'.open == s.nodes[v].open
    requires !Looking(s.nodes[v], j)
    ensures EdgeFits(s', v, j)
  {
    hide MakersOk, ListsOk, ListsDistinct, RequiredOk;
    NoBitYet(s, v, j);
    hide BitsOk;
    assert OpenHeld(s, v, j) && ClosedJust(s, v, j);
  }

  lemma BeginKeeps(s: State, v: nat)
    requires Inv(s) && At(s, v, Begin)
    ensures Inv(MakeStep(s, v))
  {
    var s' := MakeStep(s, v);
    var j := s.nodes[v].make.j;
    assert CountOk(s.nodes[v]) && MakerOk(s, v);
    assert VChange(s, s', v, j, s'.nodes[v]);
    PlainFits(s, s', v, j, s'.nodes[v]);
    assert MakerOk(s', v) by { BeginMaker(s, v); }
    hide Inv, VChange, EdgeFits, MakeStep;
    VKeeps(s, s', v, j, s'.nodes[v]);
  }

  lemma BeginMaker(s: State, v: nat)
    requires Inv(s) && At(s, v, Begin)
    ensures v < |MakeStep(s, v).nodes| && MakerOk(MakeStep(s, v), v)
  {
    hide ListsOk, ListsDistinct, RequiredOk, AllHeld, AllJust;
    assert MakerOk(s, v);
    if HasUp(s, v) {
      var u := Up(s, v);
      assert FinOk(s.nodes[u]);
      if FastPath(s.nodes[u], s.nodes[v]) && s.nodes[v].id in s.nodes[u].fast {
        MyBit(s, v, u);
      }
    }
  }

  lemma TestSetKeeps(s: State, v: nat)
    requires Inv(s) && At(s, v, TestSet)
    ensures Inv(MakeStep(s, v))
  {
    var s' := MakeStep(s, v);
    var j, u := s.nodes[v].make.j, Up(s, v);
    if FastPath(s.nodes[u], s.nodes[v]) && s.nodes[v].id !in s.nodes[u].fast {
      assert SetsBit(s, s', v);
      hide Inv, SetsBit, MakeStep;
      SetKeeps(s, s', v);
    } else {
      assert CountOk(s.nodes[v]) && MakerOk(s, v);
      assert VChange(s, s', v, j, s'.nodes[v]);
      PlainFits(s, s', v, j, s'.nodes[v]);
      if FastPath(s.nodes[u], s.nodes[v]) {
        MyBit(s, v, u);
      }
      assert MakerOk(s', v);
      hide Inv, VChange, EdgeFits, MakeStep;
      VKeeps(s, s', v, j, s'.nodes[v]);
    }
  }

  /** Counting an open edge off keeps the count of the open edges. */
  lemma DischargeCounts(n: Node, e: nat)
    requires CountOk(n) && e in n.open && Counted(n)
    ensures CountOk(Discharge(n, e))
    ensures Discharge(n, e).released > n.released <==> n.open == {e}
  {
    assert |n.open - {e}| == |n.open| - 1;
    if n.open - {e} == {} {
      assert n.open == {e};
    }
  }

  lemma DupSubKeeps(s: State, v: nat)
    requires Inv(s) && At(s, v, DupSub)
    ensures Inv(MakeStep(s, v))
  {
    var s' := MakeStep(s, v);
    var j := s.nodes[v].make.j;
    assert CountOk(s.nodes[v]) && MakerOk(s, v);
    DischargeCounts(s.nodes[v], j);
    NoBitYet(s, v, j);
    assert VChange(s, s', v, j, s'.nodes[v]);
    DupSubFits(s, v);
    hide Inv, VChange, EdgeFits, MakeStep, MakerOk;
    VKeeps(s, s', v, j, s'.nodes[v]);
  }

  lemma DupSubFits(s: State, v: nat)
    requires Inv(s) && At(s, v, DupSub)
    ensures EdgeFits(MakeStep(s, v), v, s.nodes[v].make.j) && MakerOk(MakeStep(s, v), v)
  {
    hide ListsOk, ListsDistinct, RequiredOk, AllHeld, AllJust;
    var j := s.nodes[v].make.j;
    assert MakerOk(s, v);
    NoBitYet(s, v, j);
    hide BitsOk, PlacesOk, NodesOk, MakersOk;
  }

  /** Reading the snapshot: none yet, or the bit is in it. */
  predicate LeftToFinisher(s: State, v: nat)
    requires HasUp(s, v)
  {
    s.nodes[Up(s, v)].bak.None? || s.nodes[v].id in s.nodes[Up(s, v)].bak.value
  }

  lemma SnapKeeps(s: State, v: nat, dup: bool)
    requires Inv(s) && At(s, v, Snap(dup))
    ensures Inv(MakeStep(s, v))
  {
    var s' := MakeStep(s, v);
    var j := s.nodes[v].make.j;
    assert CountOk(s.nodes[v]);
    assert VChange(s, s', v, j, s'.nodes[v]);
    if LeftToFinisher(s, v) {
      SnapLeft(s, v, dup);
    } else {
      SnapMissed(s, v, dup);
    }
    hide Inv, VChange, EdgeFits, MakeStep, MakerOk;
    VKeeps(s, s', v, j, s'.nodes[v]);
  }

  lemma SnapLeft(s: State, v: nat, dup: bool)
    requires Inv(s) && At(s, v, Snap(dup)) && LeftToFinisher(s, v)
    ensures EdgeFits(MakeStep(s, v), v, s.nodes[v].make.j) && MakerOk(MakeStep(s, v), v)
  {
    hide ListsOk, ListsDistinct, RequiredOk;
    var j, ui := s.nodes[v].make.j, Up(s, v);
    var u := s.nodes[ui];
    assert MakerOk(s, v) && FinOk(u) && CountOk(s.nodes[v]);
    assert Covered(u, s.nodes[v].id);
    MyBit(s, v, ui);
    assert ClosedJust(s, v, j) && OpenHeld(s, v, j);
    hide NodesOk, MakersOk, AllHeld, AllJust, PlacesOk;
    var s' := MakeStep(s, v);
    forall x, id | 0 <= x < |s'.nodes| && id in s'.nodes[x].fast && s'.nodes[x].fast[id] == j
        && BitTargetOk(s', x, id) && BitTarget(s', x, id) == v
      ensures BitOk(s'.nodes[x], x, id, s'.nodes[v], j)
    {
      assert BitFine(s, x, id);
      assert x == ui;
    }
  }

  lemma SnapMissed(s: State, v: nat, dup: bool)
    requires Inv(s) && At(s, v, Snap(dup)) && !LeftToFinisher(s, v)
    ensures EdgeFits(MakeStep(s, v), v, s.nodes[v].make.j) && MakerOk(MakeStep(s, v), v)
  {
    hide ListsOk, ListsDistinct, RequiredOk;
    var j, ui := s.nodes[v].make.j, Up(s, v);
    var u := s.nodes[ui];
    assert MakerOk(s, v) && FinOk(u) && CountOk(s.nodes[v]);
    MyBit(s, v, ui);
    assert ClosedJust(s, v, j) && OpenHeld(s, v, j);
    hide NodesOk, MakersOk, AllHeld, AllJust, PlacesOk;
    var s' := MakeStep(s, v);
    forall x, id | 0 <= x < |s'.nodes| && id in s'.nodes[x].fast && s'.nodes[x].fast[id] == j
        && BitTargetOk(s', x, id) && BitTarget(s', x, id) == v
      ensures BitOk(s'.nodes[x], x, id, s'.nodes[v], j)
    {
      assert BitFine(s, x, id);
      assert x == ui;
    }
  }

  lemma SubKeeps(s: State, v: nat)
    requires Inv(s) && At(s, v, Sub)
    ensures Inv(MakeStep(s, v))
  {
    var s' := MakeStep(s, v);
    var j := s.nodes[v].make.j;
    assert CountOk(s.nodes[v]) && MakerOk(s, v);
    DischargeCounts(s.nodes[v], j);
    assert VChange(s, s', v, j, s'.nodes[v]);
    SubFits(s, v);
    hide Inv, VChange, EdgeFits, MakeStep, MakerOk;
    VKeeps(s, s', v, j, s'.nodes[v]);
  }

  lemma SubFits(s: State, v: nat)
    requires Inv(s) && At(s, v, Sub)
    ensures EdgeFits(MakeStep(s, v), v, s.nodes[v].make.j) && MakerOk(MakeStep(s, v), v)
  {
    hide ListsOk, ListsDistinct, AllHeld, AllJust;
    var s' := MakeStep(s, v);
    var j := s.nodes[v].make.j;
    assert MakerOk(s, v) && CountOk(s.nodes[v]) && ReqOk(s, s.nodes[v].req);
    hide NodesOk, MakersOk, PlacesOk, RequiredOk;
    forall x, id | 0 <= x < |s'.nodes| && id in s'.nodes[x].fast && s'.nodes[x].fast[id] == j
        && BitTargetOk(s', x, id) && BitTarget(s', x, id) == v
      ensures BitOk(s'.nodes[x], x, id, s'.nodes[v], j)
    {
      assert BitFine(s, x, id);
      assert HasUp(s, v) && Up(s, v) == x;
    }
  }

  /** Taking or giving back the lock of u. */
  lemma LockChange(s: State, u: nat, lock: Lock)
    requires Inv(s) && u < |s.nodes| && s.nodes[u].lock != Finisher && lock != Finisher
    requires forall w | 0 <= w < |s.nodes| && HasUp(s, w) && Up(s, w) == u && UsesLock(s.nodes[w].make.pc) :: lock == Adder(w)
    ensures Inv(Put(s, u, s.nodes[u].(lock := lock)))
  {
    var n' := s.nodes[u].(lock := lock);
    assert CountOk(s.nodes[u]) && FinOk(s.nodes[u]);
    assert FChange(s, Put(s, u, n'), u, n');
    hide Inv, FChange;
    FKeeps(s, Put(s, u, n'), u, n');
  }

  lemma SlowLockKeeps(s: State, v: nat)
    requires Inv(s) && At(s, v, SlowLock)
    ensures Inv(MakeStep(s, v))
  {
    var s' := MakeStep(s, v);
    var j, u := s.nodes[v].make.j, Up(s, v);
    var s1 := Put(s, u, s.nodes[u].(lock := Adder(v)));
    forall w | 0 <= w < |s.nodes| && HasUp(s, w) && Up(s, w) == u ensures !UsesLock(s.nodes[w].make.pc) {
      assert MakerOk(s, w);
    }
    LockChange(s, u, Adder(v));
    assert CountOk(s1.nodes[v]) && MakerOk(s1, v);
    assert s' == Put(s1, v, s'.nodes[v]);
    assert VChange(s1, s', v, j, s'.nodes[v]);
    assert MakerOk(s', v);
    PlainFits(s1, s', v, j, s'.nodes[v]);
    hide Inv, VChange, EdgeFits, MakeStep, MakerOk;
    VKeeps(s1, s', v, j, s'.nodes[v]);
  }

  lemma SlowTestKeeps(s: State, v: nat)
    requires Inv(s) && At(s, v, SlowTest)
    ensures Inv(MakeStep(s, v))
  {
    var s' := MakeStep(s, v);
    var j := s.nodes[v].make.j;
    assert CountOk(s.nodes[v]) && MakerOk(s, v) && FinOk(s.nodes[Up(s, v)]);
    assert VChange(s, s', v, j, s'.nodes[v]);
    assert MakerOk(s', v);
    PlainFits(s, s', v, j, s'.nodes[v]);
    hide Inv, VChange, EdgeFits, MakeStep, MakerOk;
    VKeeps(s, s', v, j, s'.nodes[v]);
  }

  lemma SlowPushKeeps(s: State, v: nat)
    requires Inv(s) && At(s, v, SlowPush)
    ensures Inv(MakeStep(s, v))
  {
    var s' := MakeStep(s, v);
    var n, u := s.nodes[v], Up(s, v);
    var s1 := Put(Put(s, v, n.(make := NextEdge(n, n.make.j))), u, s.nodes[u].(downs := s.nodes[u].downs + [(v, n.make.j)]));
    assert Pushes(s, s1, v);
    PushKeeps(s, s1, v);
    OneHolder(s, v);
    assert MakerOk(s, v);
    forall w | 0 <= w < |s1.nodes| && HasUp(s1, w) && Up(s1, w) == u ensures !UsesLock(s1.nodes[w].make.pc) {
      assert w != v ==> s.nodes[w].make == s1.nodes[w].make && HasUp(s, w);
    }
    assert s' == Put(s1, u, s1.nodes[u].(lock := Free));
    hide Inv;
    LockChange(s1, u, Free);
  }

  /** Only create_edges of v is between lock and unlock of the upstream it holds. */
  lemma OneHolder(s: State, v: nat)
    requires MakersOk(s) && HasUp(s, v) && UsesLock(s.nodes[v].make.pc)
    ensures forall w | 0 <= w < |s.nodes| && w != v && HasUp(s, w) && Up(s, w) == Up(s, v) :: !UsesLock(s.nodes[w].make.pc)
  {
    assert MakerOk(s, v);
    forall w | 0 <= w < |s.nodes| && w != v && HasUp(s, w) && Up(s, w) == Up(s, v) ensures !UsesLock(s.nodes[w].make.pc) {
      assert MakerOk(s, w);
    }
  }

  lemma SlowUnlockKeeps(s: State, v: nat)
    requires Inv(s) && At(s, v, SlowUnlock)
    ensures Inv(MakeStep(s, v))
  {
    var s' := MakeStep(s, v);
    var j, u := s.nodes[v].make.j, Up(s, v);
    var n' := s.nodes[v].(make := Edge(j, Sub));
    var s1 := Put(s, v, n');
    assert CountOk(s.nodes[v]) && MakerOk(s, v);
    assert VChange(s, s1, v, j, n');
    PlainFits(s, s1, v, j, n');
    if FastPath(s.nodes[u], s.nodes[v]) && s.nodes[v].id in s.nodes[u].fast {
      MyBit(s, v, u);
    }
    assert MakerOk(s1, v);
    VKeeps(s, s1, v, j, n');
    OneHolder(s, v);
    forall w | 0 <= w < |s1.nodes| && HasUp(s1, w) && Up(s1, w) == u ensures !UsesLock(s1.nodes[w].make.pc) {
      assert w != v ==> s.nodes[w].make == s1.nodes[w].make && HasUp(s, w);
    }
    assert s' == Put(s1, u, s1.nodes[u].(lock := Free));
    hide Inv;
    LockChange(s1, u, Free);
  }

  lemma MakeKeeps(s: State, v: nat)
    requires Inv(s) && Enabled(s, Make(v))
    ensures Inv(Apply(s, Make(v)))
  {
    hide Inv;
    match s.nodes[v].make
    case Announced => AnnounceKeeps(s, MakeStep(s, v), v);
    case Edge(j, pc) =>
      match pc
      case Begin => BeginKeeps(s, v);
      case TestSet => TestSetKeeps(s, v);
      case DupSub => DupSubKeeps(s, v);
      case Snap(dup) => SnapKeeps(s, v, dup);
      case SlowLock => SlowLockKeeps(s, v);
      case SlowTest => SlowTestKeeps(s, v);
      case SlowPush => SlowPushKeeps(s, v);
      case SlowUnlock => SlowUnlockKeeps(s, v);
      case Sub => SubKeeps(s, v);
  }

  /** The invariant is kept by every action. */
  lemma StepKeeps(s: State, a: Action)
    requires Inv(s) && Enabled(s, a)
    ensures Inv(Apply(s, a))
  {
    hide Inv;
    match a
    case Alloc => AllocKeeps(s);
    case Create(v, g, req) => CreateKeeps(s, v, g, req);
    case Make(v) => MakeKeeps(s, v);
    case Start(v) => StatusKeeps(s, v, Running) by { StartIsStatus(s, v); }
    case Recover(u) => StatusKeeps(s, u, Recoverable) by { RecoverIsStatus(s, u); }
    case FinBit(u, id) => FinBitKeeps(s, u, id);
    case Fin(u) =>
      if s.nodes[u].fin.FList? && s.nodes[u].fin.i < |s.nodes[u].downs| {
        FinListKeeps(s, u);
      } else {
        FinOwnKeeps(s, u);
      }
  }

  lemma StartIsStatus(s: State, v: nat)
    requires Inv(s) && Enabled(s, Start(v))
    ensures !Done(s.nodes[v].status) && s.nodes[v].released == 1
  {
  }

  lemma RecoverIsStatus(s: State, u: nat)
    requires Inv(s) && Enabled(s, Recover(u))
    ensures Done(s.nodes[u].status) && s.nodes[u].released == 1
  {
    assert CountOk(s.nodes[u]);
  }
}

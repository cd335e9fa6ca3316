/** The operations on the edges keep the dispatch invariant. */
module DispatchEdges {
  import opened Common
  import opened Dispatch
  import opened DispatchInv
  import Edges
  import EdgesTheorems
  import ParallelLimit

  // ---------------------------------------------------------------- an operation that makes nothing ready

  ghost predicate SameNodes(e: Edges.State, e': Edges.State) {
    && |e'.nodes| == |e.nodes| && |e'.graphs| == |e.graphs|
    && forall x | 0 <= x < |e.nodes| :: SameNode(e, e', x)
  }

  ghost predicate SameReleased(e: Edges.State, e': Edges.State, x: nat) {
    x < |e.nodes| && x < |e'.nodes| ==> e'.nodes[x].released == e.nodes[x].released
  }

  ghost predicate Quiet(s: State, s': State) {
    && SameNodes(s.e, s'.e) && s' == s.(e := s'.e) && EdgesTheorems.Reachable(s'.e)
    && forall x | 0 <= x < |s.e.nodes| :: SameReleased(s.e, s'.e, x)
  }

  lemma SameCall(s: State, s': State, c: Call)
    requires SameNodes(s.e, s'.e) && s'.lims == s.lims && CallOk(s, c)
    ensures CallOk(s', c)
  {
    assert c.Push? ==> SameNode(s.e, s'.e, c.v);
  }

  lemma QuietNode(s: State, s': State, v: nat)
    requires |s.d| == |s.e.nodes| && Quiet(s, s') && v < |s.d| && RunOk(s, v) && HandOk(s, v) && MakeOk(s, v)
    ensures RunOk(s', v) && HandOk(s', v) && MakeOk(s', v)
  {
    assert SameNode(s.e, s'.e, v);
    SameCall(s, s', s.d[v].fin.call);
    SameCall(s, s', s.d[v].make);
    if s.d[v].fin.phase.Keep? {
      assert SameNode(s.e, s'.e, s.d[v].fin.list[0]);
    }
    forall x | x in s'.d[v].fin.list ensures Requires(s'.e, x, v) {
      assert Requires(s.e, x, v) && SameNode(s.e, s'.e, x);
      var k :| Edges.IsEdge(s.e.nodes[x], k, v);
      assert Edges.IsEdge(s'.e.nodes[x], k, v);
    }
  }

  lemma QuietPlace(s: State, s': State, v: nat)
    requires |s.d| == |s.e.nodes| && Quiet(s, s') && v < |s.d| && PlaceOk(s, v)
    ensures PlaceOk(s', v)
  {
    assert SameReleased(s.e, s'.e, v);
  }

  lemma QuietLim(s: State, s': State, g: nat)
    requires |s.d| == |s.e.nodes| && Quiet(s, s') && g < |s.lims| && LimOk(s, g)
    ensures LimOk(s', g)
  {
    if s.lims[g].Some? {
      forall u: nat ensures u in Poppers(s', g) <==> u in Poppers(s, g) {
        assert u < |s.d| ==> SameNode(s.e, s'.e, u);
      }
      assert Poppers(s', g) == Poppers(s, g);
      forall t: nat ensures TieOk(s'.lims[g].value, t, SlotIn(s', g, t)) {
        assert TieOk(s.lims[g].value, t, SlotIn(s, g, t));
        assert t < |s.e.nodes| ==> SameNode(s.e, s'.e, t);
        assert SlotOf(s', t) == SlotOf(s, t);
      }
    }
  }

  lemma QuietKeeps(s: State, s': State)
    requires Inv(s) && Quiet(s, s')
    ensures Inv(s')
  {
    hide RunOk, HandOk, MakeOk, PlaceOk, LimOk, FoundOk, Quiet;
    assert s'.d == s.d && s'.lims == s.lims && |s'.e.nodes| == |s.e.nodes| by { QuietIs(s, s'); }
    forall v | 0 <= v < |s'.d| ensures RunOk(s', v) && HandOk(s', v) && MakeOk(s', v) && PlaceOk(s', v) {
      QuietNode(s, s', v);
      QuietPlace(s, s', v);
    }
    forall v: nat, p ensures FoundOk(s', v, p) {
      assert FoundOk(s, v, p);
      QuietFound(s, s', v, p);
    }
    forall g | 0 <= g < |s'.lims| ensures LimOk(s', g) {
      QuietLim(s, s', g);
    }
    assert Shape(s') by { QuietIs(s, s'); }
  }

  lemma QuietIs(s: State, s': State)
    requires Quiet(s, s')
    ensures s'.d == s.d && s'.lims == s.lims && |s'.e.nodes| == |s.e.nodes| && |s'.e.graphs| == |s.e.graphs|
    ensures EdgesTheorems.Reachable(s'.e)
  {
  }

  lemma QuietFound(s: State, s': State, v: nat, p: Place)
    requires Quiet(s, s') && FoundOk(s, v, p)
    ensures FoundOk(s', v, p)
  {
  }

  // ---------------------------------------------------------------- an operation that makes a node ready

  /** Node t is made ready: by its own create_edges, which will call ready(), or by finish of u, which lists it. */
  ghost predicate Delivers(s: State, s': State, t: nat, p: Place) {
    && SameNodes(s.e, s'.e) && EdgesTheorems.Reachable(s'.e) && |s.d| == |s.e.nodes|
    && (forall x | 0 <= x < |s.e.nodes| && x != t :: SameReleased(s.e, s'.e, x))
    && t < |s.d| && s.e.nodes[t].released == 0 && s'.e.nodes[t].released == 1 && s.e.nodes[t].graph.Some?
    && s' == s.(e := s'.e, d := s'.d)
    && match p
       case Maker(w) => w == t && s.d[t].make.Idle? && s'.d == s.d[t := s.d[t].(make := Ready(t), at := p)]
       case Finisher(u) =>
         && u < |s.d| && u != t && s.d[u].run.Finishing? && s.d[u].fin.phase.Collect? && Requires(s.e, t, u)
         && s'.d == s.d[u := s.d[u].(fin := s.d[u].fin.(list := s.d[u].fin.list + [t]))][t := s.d[t].(at := p)]
       case _ => false
  }

  lemma DeliverRun(s: State, s': State, t: nat, p: Place, v: nat)
    requires Delivers(s, s', t, p) && v < |s.d| && RunOk(s, v)
    ensures v < |s'.d| && |s'.d| == |s'.e.nodes| && RunOk(s', v)
  {
    assert SameNode(s.e, s'.e, v);
  }

  lemma DeliverHand(s: State, s': State, t: nat, p: Place, v: nat)
    requires Delivers(s, s', t, p) && v < |s.d| && HandOk(s, v) && MakeOk(s, v) && FoundOk(s, t, Finisher(v)) && PlaceOk(s, t)
    ensures v < |s'.d| && |s'.d| == |s'.e.nodes| && HandOk(s', v) && MakeOk(s', v)
  {
    assert SameNode(s.e, s'.e, v);
    SameCall(s, s', s.d[v].fin.call);
    SameCall(s, s', s.d[v].make);
    if s.d[v].fin.phase.Keep? {
      assert SameNode(s.e, s'.e, s.d[v].fin.list[0]);
    }
    forall x | x in s'.d[v].fin.list ensures Requires(s'.e, x, v) {
      assert Requires(s.e, x, v) && SameNode(s.e, s'.e, x);
      var k :| Edges.IsEdge(s.e.nodes[x], k, v);
      assert Edges.IsEdge(s'.e.nodes[x], k, v);
    }
  }

  lemma DeliverPlace(s: State, s': State, t: nat, p: Place, v: nat)
    requires Delivers(s, s', t, p) && v < |s.d| && PlaceOk(s, v) && (s.d[v].at.Maker? ==> s.d[v].at == Maker(v))
    ensures v < |s'.d| && |s'.d| == |s'.e.nodes| && PlaceOk(s', v)
  {
    assert v != t ==> SameReleased(s.e, s'.e, v);
  }

  lemma DeliverFound(s: State, s': State, t: nat, p: Place, v: nat, q: Place)
    requires Delivers(s, s', t, p) && FoundOk(s, v, q) && PlaceOk(s, t)
    ensures FoundOk(s', v, q)
  {
  }

  lemma DeliverLim(s: State, s': State, t: nat, p: Place, g: nat)
    requires Delivers(s, s', t, p) && g < |s.lims| && LimOk(s, g) && PlaceOk(s, t)
    requires forall v, q :: FoundOk(s, v, q)
    ensures g < |s'.lims| && LimOk(s', g)
  {
    if s.lims[g].Some? {
      forall u: nat ensures u in Poppers(s', g) <==> u in Poppers(s, g) {
        assert u < |s.d| ==> SameNode(s.e, s'.e, u);
      }
      assert Poppers(s', g) == Poppers(s, g);
      forall x: nat ensures TieOk(s'.lims[g].value, x, SlotIn(s', g, x)) {
        assert TieOk(s.lims[g].value, x, SlotIn(s, g, x));
        assert x < |s.e.nodes| ==> SameNode(s.e, s'.e, x);
        assert FoundOk(s, t, p) && FoundOk(s, x, p);
        DeliverSlot(s, s', t, p, x);
      }
    }
  }

  lemma MadeSlot(s: State, s': State, t: nat, x: nat)
    requires Delivers(s, s', t, Maker(t)) && PlaceOk(s, t) && FoundOk(s, t, Maker(t)) && FoundOk(s, x, Maker(t))
    ensures SlotOf(s', x) == SlotOf(s, x)
  {
    hide SameNodes, EdgesTheorems.Reachable, Requires, SameReleased;
  }

  lemma NotifiedSlot(s: State, s': State, t: nat, u: nat, x: nat)
    requires Delivers(s, s', t, Finisher(u)) && PlaceOk(s, t) && FoundOk(s, t, Finisher(u)) && FoundOk(s, x, Finisher(u))
    ensures SlotOf(s', x) == SlotOf(s, x)
  {
    hide SameNodes, EdgesTheorems.Reachable, Requires, SameReleased;
  }

  lemma DeliverSlot(s: State, s': State, t: nat, p: Place, x: nat)
    requires Delivers(s, s', t, p) && PlaceOk(s, t) && FoundOk(s, t, p) && FoundOk(s, x, p)
    ensures SlotOf(s', x) == SlotOf(s, x)
  {
    hide SlotOf, PlaceOk, FoundOk;
    if p.Maker? {
      MadeSlot(s, s', t, x);
    } else {
      NotifiedSlot(s, s', t, p.u, x);
    }
  }
}

/** The steps of Graph::finish keep the dispatch invariant. */
module DispatchDeal {
  import opened Common
  import opened Dispatch
  import opened DispatchInv
  import opened DispatchSteps
  import opened DispatchCalls
  import Edges
  import ParallelLimit

  // ---------------------------------------------------------------- the nodes in the hands of u

  ghost predicate Dealing(s: State, u: nat) {
    && |s.d| == |s.e.nodes| && |s.lims| == |s.e.graphs| && u < |s.d| && s.d[u].run.Finishing? && s.d[u].fin.call.Idle?
    && Known(s, s.d[u].fin.list) && NodeOk(s, u)
    && (s.d[u].fin.phase.Loop? || (s.d[u].fin.phase.Keep? && s.d[u].fin.list != [])
        || (s.d[u].fin.phase.Collect? && s.e.nodes[u].fin.FDone?))
  }

  /** The same nodes stay in its hands. */
  lemma DealCarries(s: State, u: nat, x: nat)
    requires Dealing(s, u)
    ensures Carries(NextDeal(s, u).fin, x) <==> Carries(s.d[u].fin, x)
  {
    var f := s.d[u].fin;
    if |f.list| > 1 {
      assert f.list == [f.list[0]] + [f.list[1]] + f.list[2..];
    } else if |f.list| == 1 {
      assert f.list == [f.list[0]];
    }
  }

  ghost predicate Deals(s: State, s': State, u: nat) {
    Dealing(s, u) && s' == DealStep(s, u)
  }

  lemma DealsIs(s: State, s': State, u: nat)
    requires Deals(s, s', u)
    ensures s'.e == s.e && s'.tasks == s.tasks && s'.workers == s.workers && |s'.lims| == |s.lims|
    ensures s'.d == s.d[u := s.d[u].(fin := NextDeal(s, u).fin)]
    ensures forall g | 0 <= g < |s.lims| :: s'.lims[g].Some? <==> s.lims[g].Some?
  {
    hide NodeOk, NextDeal;
  }

  lemma DealLists(s: State, u: nat)
    requires Dealing(s, u)
    ensures Distinct(NextDeal(s, u).fin.list)
    ensures forall x | x in NextDeal(s, u).fin.list :: x in s.d[u].fin.list
    ensures var l := s.d[u].fin.list; |l| > 1 ==> l[1] !in [l[0]] + l[2..]
  {
    var f := s.d[u].fin;
    if |f.list| > 1 && !f.phase.Collect? {
      var rest := [f.list[0]] + f.list[2..];
      assert forall i | 0 <= i < |rest| :: rest[i] == f.list[if i == 0 then 0 else i + 1];
    }
  }

  lemma DealHand(s: State, s': State, u: nat)
    requires Deals(s, s', u)
    ensures u < |s'.d| && |s'.d| == |s'.e.nodes| && HandOk(s', u) && MakeOk(s', u)
  {
    hide PlaceOk, Distinct, DealStep;
    DealLists(s, u);
    DealsIs(s, s', u);
    var f := s.d[u].fin;
    assert forall i | 0 <= i < |f.list| :: f.list[i] in f.list;
    hide Known;
  }

  // ---------------------------------------------------------------- one finisher changes what it has in hand

  /** Only the hands of u change, and the state of limited graphs. */
  ghost predicate HandTo(s: State, s': State, u: nat, f: Hand) {
    && |s.d| == |s.e.nodes| && u < |s.d| && s'.e == s.e && s'.tasks == s.tasks && s'.workers == s.workers
    && s'.d == s.d[u := s.d[u].(fin := f)]
    && |s'.lims| == |s.lims| && forall g | 0 <= g < |s.lims| :: s'.lims[g].Some? <==> s.lims[g].Some?
  }

  lemma OthersRun(s: State, s': State, u: nat, f: Hand, x: nat)
    requires HandTo(s, s', u, f) && x < |s.d| && NodeOk(s, x)
    ensures RunOk(s', x)
  {
  }

  lemma OthersHand(s: State, s': State, u: nat, f: Hand, x: nat)
    requires HandTo(s, s', u, f) && x < |s.d| && NodeOk(s, x) && x != u
    ensures HandOk(s', x) && MakeOk(s', x)
  {
    forall y | y in s'.d[x].fin.list ensures Requires(s'.e, y, x) {
      assert Requires(s.e, y, x);
    }
  }

  /** The same nodes in hand, and the same queues: nobody changes place. */
  lemma SamePlaces(s: State, s': State, u: nat, f: Hand, x: nat, q: Place)
    requires HandTo(s, s', u, f) && (forall y: nat :: Carries(f, y) <==> Carries(s.d[u].fin, y))
    requires forall g | 0 <= g < |s.lims| && s.lims[g].Some? :: s'.lims[g].value.queued == s.lims[g].value.queued
    ensures IsAt(s', x, q) <==> IsAt(s, x, q)
    ensures x < |s.d| ==> s'.d[x].at == s.d[x].at
  {
  }

  // ---------------------------------------------------------------- slots

  /** The slot a node has in the hands of its finisher. */
  function HandSlot(f: Hand, t: nat): Slot {
    if About(f.call) == Some(t) then CallSlot(f.call) else if f.next == Some(t) then Active else Fresh
  }

  lemma SlotInHands(s: State, s': State, u: nat, f: Hand, t: nat)
    requires HandTo(s, s', u, f) && s.d[u].run.Finishing?
    requires FoundOk(s, u, Exec) && FoundOk(s, t, Finisher(u)) && (t < |s.d| ==> PlaceOk(s, t))
    ensures SlotOf(s', t) == (
      if t == u then (if f.passed then Retired else Active)
      else if Carries(s.d[u].fin, t) then HandSlot(f, t)
      else SlotOf(s, t))
    ensures t == u ==> SlotOf(s, t) == (if s.d[u].fin.passed then Retired else Active)
    ensures t != u && Carries(s.d[u].fin, t) ==> SlotOf(s, t) == HandSlot(s.d[u].fin, t)
  {
  }

  lemma DealSlots(s: State, u: nat, t: nat)
    requires Dealing(s, u) && t != u && Carries(s.d[u].fin, t) && Limited(s, t) && !Carries(s.d[u].fin, u)
    ensures var n := NextDeal(s, u);
      if n.act.Some? && Limited(s, n.on) && GraphOf(s, n.on) == GraphOf(s, t) then
        && HandSlot(n.fin, t) == SlotAfter(n.act.value, SlotsOf(s, n.on), t, HandSlot(s.d[u].fin, t))
        && Fits(n.act.value, t, HandSlot(s.d[u].fin, t))
      else HandSlot(n.fin, t) == HandSlot(s.d[u].fin, t)
  {
    var f := s.d[u].fin;
    if f.list != [] && !f.phase.Collect? {
      assert f.list[0] in f.list;
      if |f.list| > 1 {
        assert f.list[1] in f.list;
      }
    }
  }

  lemma OwnSlot(s: State, u: nat)
    requires Dealing(s, u) && Limited(s, u) && !Carries(s.d[u].fin, u)
    ensures var n := NextDeal(s, u);
      var was, st := if s.d[u].fin.passed then Retired else Active, if n.fin.passed then Retired else Active;
      if n.act.Some? && Limited(s, n.on) && GraphOf(s, n.on) == GraphOf(s, u) then
        st == SlotAfter(n.act.value, SlotsOf(s, n.on), u, was) && Fits(n.act.value, u, was)
      else st == was
  {
    var f := s.d[u].fin;
    if f.list != [] && !f.phase.Collect? {
      assert f.list[0] in f.list;
      if |f.list| > 1 {
        assert f.list[1] in f.list;
      }
    }
  }

  /** A node that is not in hand is not the business of the operation. */
  lemma NotInHand(s: State, u: nat, t: nat, l: Slots, st: Slot)
    requires Dealing(s, u) && t != u && !Carries(s.d[u].fin, t) && NextDeal(s, u).act.Some?
    ensures Fits(NextDeal(s, u).act.value, t, st) || NextDeal(s, u).act.value.HandOver?
    ensures NextDeal(s, u).act.value.HandOver? ==>
      NextDeal(s, u).act.value.t == u && NextDeal(s, u).act.value.n != t && Carries(s.d[u].fin, NextDeal(s, u).act.value.n)
    ensures SlotAfter(NextDeal(s, u).act.value, l, t, st) == st
  {
    hide NodeOk;
    var f := s.d[u].fin;
    if f.list != [] && !f.phase.Collect? {
      assert f.list[0] in f.list;
      if |f.list| > 1 {
        assert f.list[1] in f.list;
      }
    }
  }

  /** Every node of graph g, seen from g, before and after. */
  lemma DealSeen(s: State, s': State, u: nat, g: nat, t: nat)
    requires Deals(s, s', u) && g < |s.lims| && s.lims[g].Some? && (t < |s.d| ==> NodeOk(s, t)) && (forall x, q :: FoundOk(s, x, q))
    ensures var n := NextDeal(s, u);
      if n.act.Some? && Limited(s, n.on) && GraphOf(s, n.on) == g then
        && Fits(n.act.value, t, SlotIn(s, g, t))
        && SlotIn(s', g, t) == SlotAfter(n.act.value, s.lims[g].value, t, SlotIn(s, g, t))
      else SlotIn(s', g, t) == SlotIn(s, g, t)
  {
    hide NextDeal, SlotOf, FoundOk, NodeOk;
    var n := NextDeal(s, u);
    DealsIs(s, s', u);
    NotOwn(s, u);
    assert FoundOk(s, u, Exec) && FoundOk(s, t, Finisher(u));
    var inG := t < |s.e.nodes| && s.e.nodes[t].graph == Some(g);
    if t < |s.d| {
      PlaceIs(s, t);
    }
    SlotInHands(s, s', u, n.fin, t);
    if t == u {
      if inG {
        OwnSlot(s, u);
      } else {
        NotMine(s, u, g, t);
      }
    } else if Carries(s.d[u].fin, t) {
      if inG {
        DealSlots(s, u, t);
      } else {
        NotMine(s, u, g, t);
      }
    } else if n.act.Some? {
      NotInHand(s, u, t, s.lims[g].value, SlotIn(s, g, t));
    }
  }

  /** An operation on graph g is about nodes of g only. */
  lemma NotMine(s: State, u: nat, g: nat, t: nat)
    requires Dealing(s, u) && g < |s.lims| && s.lims[g].Some? && !(t < |s.e.nodes| && s.e.nodes[t].graph == Some(g))
    requires !Carries(s.d[u].fin, u)
    ensures var n := NextDeal(s, u); n.act.Some? && Limited(s, n.on) && GraphOf(s, n.on) == g ==>
      Fits(n.act.value, t, Fresh) && SlotAfter(n.act.value, s.lims[g].value, t, Fresh) == Fresh
  {
    hide NodeOk;
    var f := s.d[u].fin;
    if f.list != [] && !f.phase.Collect? {
      assert f.list[0] in f.list;
      if |f.list| > 1 {
        assert f.list[1] in f.list;
      }
    }
  }

  lemma NotOwn(s: State, u: nat)
    requires Dealing(s, u) && (forall x, q :: FoundOk(s, x, q))
    ensures !Carries(s.d[u].fin, u)
  {
    assert FoundOk(s, u, Exec) && FoundOk(s, u, Finisher(u));
  }

  /** The finishers waiting at the queue of g, when u changes what it does. */
  lemma PoppersMove(s: State, s': State, u: nat, f: Hand, g: nat)
    requires HandTo(s, s', u, f)
    ensures var mine := s.e.nodes[u].graph == Some(g);
      |Poppers(s', g)| == |Poppers(s, g)| + (if mine && f.phase.Pop? then 1 else 0) - (if mine && s.d[u].fin.phase.Pop? then 1 else 0)
  {
    var a, b := Poppers(s, g), Poppers(s', g);
    forall x: nat ensures x in b <==> (if x == u then s.e.nodes[u].graph == Some(g) && f.phase.Pop? else x in a) {
      PopperStays(s, s', u, f, g, x);
    }
    assert u in a <==> s.e.nodes[u].graph == Some(g) && s.d[u].fin.phase.Pop?;
    hide Poppers, HandTo;
    MemberMoves(a, b, u);
  }

  lemma PopperStays(s: State, s': State, u: nat, f: Hand, g: nat, x: nat)
    requires HandTo(s, s', u, f)
    ensures x in Poppers(s', g) <==> (if x == u then s.e.nodes[u].graph == Some(g) && f.phase.Pop? else x in Poppers(s, g))
  {
  }

  /** Two sets that differ at most in u. */
  lemma MemberMoves(a: set<nat>, b: set<nat>, u: nat)
    requires forall x | x != u :: x in b <==> x in a
    ensures |b| == |a| + (if u in b then 1 else 0) - (if u in a then 1 else 0)
  {
    if u in b && u !in a {
      assert b == a + {u};
    } else if u !in b && u in a {
      assert b == a - {u};
      SizeWithout(a, u);
    } else {
      assert b == a;
    }
  }

  /** u goes to the queue exactly when it gives its slot back and the counter says a node is held. */
  lemma DealPops(s: State, u: nat)
    requires Dealing(s, u)
    ensures var n := NextDeal(s, u);
      n.fin.phase.Pop? <==> n.act.Some? && n.act.value.Retire? && Limited(s, u) && n.on == u && SlotsOf(s, u).mCount > 0
    ensures NextDeal(s, u).act.Some? ==> !NextDeal(s, u).act.value.Pop? && !NextDeal(s, u).act.value.Push?
    ensures NextDeal(s, u).act.Some? && NextDeal(s, u).act.value.Retire? ==> Limited(s, u) && NextDeal(s, u).on == u
  {
    hide NodeOk;
  }

  lemma DealPoppers(s: State, s': State, u: nat, g: nat)
    requires Deals(s, s', u) && g < |s.lims| && s.lims[g].Some?
    ensures var n := NextDeal(s, u);
      |Poppers(s', g)| == |Poppers(s, g)|
        + (if n.act.Some? && Limited(s, n.on) && GraphOf(s, n.on) == g && n.act.value.Retire? && s.lims[g].value.mCount > 0
           then 1 else 0)
    ensures NextDeal(s, u).act.Some? ==> !NextDeal(s, u).act.value.Pop? && !NextDeal(s, u).act.value.Push?
  {
    hide NodeOk, NextDeal, Poppers;
    DealsIs(s, s', u);
    DealPops(s, u);
    PoppersMove(s, s', u, NextDeal(s, u).fin, g);
  }

  lemma DealLim(s: State, s': State, u: nat, g: nat)
    requires Deals(s, s', u) && (forall x, q :: FoundOk(s, x, q)) && (forall x | 0 <= x < |s.d| :: NodeOk(s, x))
    requires g < |s.lims| && LimOk(s, g)
    ensures |s'.lims| == |s.lims| && LimOk(s', g)
    ensures s.lims[g].Some? ==> s'.lims[g].Some? && s'.lims[g].value.queued == s.lims[g].value.queued
  {
    hide NextDeal, SlotIn, SlotOf, FoundOk, NodeOk, LimOk, Poppers, SlotAfter, Fits;
    DealsIs(s, s', u);
    var n := NextDeal(s, u);
    if s.lims[g].Some? {
      forall t: nat
        ensures if n.act.Some? && Limited(s, n.on) && GraphOf(s, n.on) == g then
            Fits(n.act.value, t, SlotIn(s, g, t)) && SlotIn(s', g, t) == SlotAfter(n.act.value, s.lims[g].value, t, SlotIn(s, g, t))
          else SlotIn(s', g, t) == SlotIn(s, g, t)
      {
        DealSeen(s, s', u, g, t);
      }
      DealPoppers(s, s', u, g);
      if n.act.Some? && Limited(s, n.on) && GraphOf(s, n.on) == g {
        LimMoves(s, s', g, n.act.value);
      } else {
        LimStays(s, s', g);
      }
    } else {
      NoLimit(s', g);
    }
  }

  lemma NoLimit(s: State, g: nat)
    requires g < |s.lims| && s.lims[g].None?
    ensures LimOk(s, g)
  {
  }

  lemma DealKeeps(s: State, u: nat)
    requires Inv(s) && Enabled(s, Deal(u))
    ensures Inv(Apply(s, Deal(u)))
  {
    hide Inv, NodeOk, FoundOk, LimOk, Shape, NextDeal, DealStep;
    var s' := Apply(s, Deal(u));
    ShapeAt(s);
    AllFound(s);
    forall x | 0 <= x < |s.d| ensures NodeOk(s, x) {
      NodeAt(s, x);
    }
    assert |s.lims| == |s.e.graphs| by { ShapeIs(s); }
    assert Deals(s, s', u);
    DealsIs(s, s', u);
    forall g | 0 <= g < |s.lims|
      ensures LimOk(s', g) && (s.lims[g].Some? ==> s'.lims[g].Some? && s'.lims[g].value.queued == s.lims[g].value.queued)
    {
      LimAt(s, g);
      DealLim(s, s', u, g);
    }
    forall x: nat ensures Carries(NextDeal(s, u).fin, x) <==> Carries(s.d[u].fin, x) {
      DealCarries(s, u, x);
    }
    HandsKeep(s, s', u, NextDeal(s, u).fin);
    LimitsStay(s, s');
    Assemble(s');
  }

  lemma ShapeIs(s: State)
    requires Shape(s)
    ensures |s.lims| == |s.e.graphs| && |s.d| == |s.e.nodes|
  {
  }

  /** All nodes and places, when the hands of u change but not what is in them. */
  lemma HandsKeep(s: State, s': State, u: nat, f: Hand)
    requires Deals(s, s', u) && HandTo(s, s', u, f)
    requires (forall x | 0 <= x < |s.d| :: NodeOk(s, x)) && (forall x, q :: FoundOk(s, x, q))
    requires forall y: nat :: Carries(f, y) <==> Carries(s.d[u].fin, y)
    requires forall g | 0 <= g < |s.lims| && s.lims[g].Some? :: s'.lims[g].value.queued == s.lims[g].value.queued
    ensures (forall x | 0 <= x < |s'.d| :: NodeOk(s', x)) && (forall x, q :: FoundOk(s', x, q))
  {
    hide NextDeal, FoundOk, NodeOk, Carries;
    forall x: nat, q ensures FoundOk(s', x, q) {
      assert FoundOk(s, x, q);
      SamePlaces(s, s', u, f, x, q);
      FoundSame(s, s', x, q);
    }
    forall x | 0 <= x < |s'.d| ensures NodeOk(s', x) {
      OthersRun(s, s', u, f, x);
      if x == u {
        DealHand(s, s', u);
      } else {
        OthersHand(s, s', u, f, x);
      }
      PlaceIs(s, x);
      SamePlaces(s, s', u, f, x, s.d[x].at);
      assert PlaceOk(s', x);
      NodeIs(s', x);
    }
  }

  lemma FoundSame(s: State, s': State, x: nat, q: Place)
    requires FoundOk(s, x, q) && |s'.d| == |s.d| && (IsAt(s', x, q) <==> IsAt(s, x, q)) && (x < |s.d| ==> s'.d[x].at == s.d[x].at)
    ensures FoundOk(s', x, q)
  {
  }

  // ---------------------------------------------------------------- a node out of the queue

  ghost predicate Pops(s: State, s': State, u: nat, x: nat, g: nat) {
    && |s.d| == |s.e.nodes| && |s.lims| == |s.e.graphs| && u < |s.d| && x < |s.d| && x != u
    && g < |s.lims| && s.lims[g].Some? && s.e.nodes[u].graph == Some(g) && s.e.nodes[x].graph == Some(g)
    && s.d[u].fin.phase.Pop? && s.d[u].run.Finishing? && s.d[u].fin.next.None? && s.d[u].fin.call.Idle?
    && |s.d[u].fin.list| <= 1 && s.d[x].at == HeldIn(g) && s'.e == s.e
    && ParallelLimit.Enabled(s.lims[g].value, ParallelLimit.Pop(x))
    && s' == s.(lims := s.lims[g := Some(Moved(s.lims[g].value, ParallelLimit.Pop(x)))],
                d := s.d[x := s.d[x].(at := Finisher(u))][u := s.d[u].(fin := PoppedHand(s.d[u].fin, x))])
  }

  function PoppedHand(f: Hand, x: nat): Hand {
    Hand([], Some(x), Return, if f.list == [] then Idle else Ready(f.list[0]), f.passed)
  }

  lemma PopNode(s: State, s': State, u: nat, x: nat, g: nat, y: nat)
    requires Pops(s, s', u, x, g) && y < |s.d| && NodeOk(s, y) && NodeOk(s, u) && (forall z, q :: FoundOk(s, z, q))
    ensures y < |s'.d| && |s'.d| == |s'.e.nodes| && RunOk(s', y) && HandOk(s', y) && MakeOk(s', y)
  {
    assert FoundOk(s, x, Finisher(u));
    assert s.d[u].fin.list != [] ==> s.d[u].fin.list[0] in s.d[u].fin.list;
    forall z | z in s'.d[y].fin.list ensures Requires(s'.e, z, y) {
      assert Requires(s.e, z, y);
    }
  }

  lemma PopCarries(s: State, s': State, u: nat, x: nat, g: nat, y: nat)
    requires Pops(s, s', u, x, g)
    ensures Carries(s'.d[u].fin, y) <==> y == x || Carries(s.d[u].fin, y)
  {
    var f := s.d[u].fin;
    assert f.list != [] ==> f.list == [f.list[0]];
  }

  lemma PopPlace(s: State, s': State, u: nat, x: nat, g: nat, y: nat)
    requires Pops(s, s', u, x, g) && y < |s.d| && NodeOk(s, y) && (forall z, q :: FoundOk(s, z, q))
    ensures y < |s'.d| && |s'.d| == |s'.e.nodes| && PlaceOk(s', y)
  {
    hide HandOk, RunOk, MakeOk, Carries;
    PopCarries(s, s', u, x, g, y);
    assert FoundOk(s, y, HeldIn(g));
  }

  lemma PopFound(s: State, s': State, u: nat, x: nat, g: nat, y: nat, q: Place)
    requires Pops(s, s', u, x, g) && (forall z, p :: FoundOk(s, z, p))
    ensures FoundOk(s', y, q)
  {
    hide Carries;
    PopCarries(s, s', u, x, g, y);
    assert FoundOk(s, y, q) && FoundOk(s, x, q);
  }

  lemma PopSlots(s: State, s': State, u: nat, x: nat, g: nat, t: nat)
    requires Pops(s, s', u, x, g) && (forall z, p :: FoundOk(s, z, p)) && NodeOk(s, u) && (t < |s.d| ==> NodeOk(s, t))
    ensures SlotOf(s', t) == (if t == x then Active else SlotOf(s, t)) && SlotOf(s, x) == Queued
  {
    assert FoundOk(s, u, Exec) && FoundOk(s, x, Finisher(u)) && FoundOk(s, t, Finisher(u));
    var f := s.d[u].fin;
    assert f.list != [] ==> f.list == [f.list[0]] && f.list[0] in f.list;
  }

  lemma PopLim(s: State, s': State, u: nat, x: nat, g: nat, h: nat)
    requires Pops(s, s', u, x, g) && (forall z, p :: FoundOk(s, z, p)) && (forall y | 0 <= y < |s.d| :: NodeOk(s, y))
    requires h < |s.lims| && LimOk(s, h)
    ensures |s'.lims| == |s.lims| && LimOk(s', h)
  {
    hide SlotOf, FoundOk, NodeOk, LimOk, Poppers;
    forall t: nat ensures SlotOf(s', t) == (if t == x then Active else SlotOf(s, t)) && SlotOf(s, x) == Queued {
      PopSlots(s, s', u, x, g, t);
    }
    PopPoppers(s, s', u, x, g, h);
    if h == g {
      assert s.lims[g].value.poppers > 0;
      LimMoves(s, s', g, ParallelLimit.Pop(x));
    } else {
      LimStays(s, s', h);
    }
  }

  lemma PopPoppers(s: State, s': State, u: nat, x: nat, g: nat, h: nat)
    requires Pops(s, s', u, x, g)
    ensures |Poppers(s', h)| == |Poppers(s, h)| - (if h == g then 1 else 0)
  {
    if h == g {
      assert Poppers(s', g) == Poppers(s, g) - {u} && u in Poppers(s, g);
      SizeWithout(Poppers(s, g), u);
    } else {
      assert Poppers(s', h) == Poppers(s, h);
    }
  }

  /** What the invariant says of a node in the queue and of the finisher that takes it. */
  lemma PopsWhat(s: State, u: nat, x: nat)
    requires Inv(s) && Enabled(s, PopHeld(u, x))
    ensures Pops(s, Apply(s, PopHeld(u, x)), u, x, GraphOf(s, u))
  {
    var g := GraphOf(s, u);
    assert HandOk(s, u) && RunOk(s, u) && LimOk(s, g);
    assert FoundOk(s, x, HeldIn(g)) && FoundOk(s, u, Exec);
    assert TieOk(s.lims[g].value, x, SlotIn(s, g, x));
    assert u in Poppers(s, g);
    hide Inv;
  }

  lemma PopKeeps(s: State, u: nat, x: nat)
    requires Inv(s) && Enabled(s, PopHeld(u, x))
    ensures Inv(Apply(s, PopHeld(u, x)))
  {
    hide Inv, NodeOk, FoundOk, LimOk, Shape, Pops;
    PopsWhat(s, u, x);
    var s', g := Apply(s, PopHeld(u, x)), GraphOf(s, u);
    hide Apply, Enabled;
    PopsIs(s, s', u, x, g);
    ShapeAt(s);
    AllFound(s);
    forall y | 0 <= y < |s.d| ensures NodeOk(s, y) {
      NodeAt(s, y);
    }
    forall y | 0 <= y < |s'.d| ensures NodeOk(s', y) {
      PopNode(s, s', u, x, g, y);
      PopPlace(s, s', u, x, g, y);
      NodeIs(s', y);
    }
    forall y: nat, q ensures FoundOk(s', y, q) {
      PopFound(s, s', u, x, g, y, q);
    }
    forall h | 0 <= h < |s'.lims| ensures LimOk(s', h) {
      LimAt(s, h);
      PopLim(s, s', u, x, g, h);
    }
    LimitsStay(s, s');
    Assemble(s');
  }

  lemma PopsIs(s: State, s': State, u: nat, x: nat, g: nat)
    requires Pops(s, s', u, x, g)
    ensures |s'.d| == |s.d| == |s.e.nodes| && s'.e == s.e && |s'.lims| == |s.lims| && u < |s.d| && x < |s.d|
    ensures forall h | 0 <= h < |s.lims| :: s'.lims[h].Some? <==> s.lims[h].Some?
  {
  }
}

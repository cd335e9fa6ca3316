/** Calls of ready() and Graph::finish keep the dispatch invariant: nodes move on, and slots with them. */
module DispatchCalls {
  import opened Common
  import opened Dispatch
  import opened DispatchInv
  import opened DispatchSteps
  import Edges
  import ParallelLimit

  // ---------------------------------------------------------------- slots

  /** The slot of node t after an operation on the counter or the queue of its graph. */
  function SlotAfter(a: ParallelLimit.Action, l: Slots, t: nat, st: Slot): Slot {
    match a
    case Offer(x) => if t == x then (if l.mCount >= 0 then Pushing else Active) else st
    case Push(x) => if t == x then Queued else st
    case Retire(x) => if t == x then Retired else st
    case Pop(x) => if t == x then Active else st
    case HandOver(x, n) => if t == x then Retired else if t == n then Active else st
    case Bypass(x) => if t == x then Active else st
  }

  /** The operation fits what node t has. */
  predicate Fits(a: ParallelLimit.Action, t: nat, st: Slot) {
    match a
    case Offer(x) => t == x ==> st.Fresh?
    case Push(x) => t == x ==> st.Pushing?
    case Retire(x) => t == x ==> st.Active?
    case Pop(x) => t == x ==> st.Queued?
    case HandOver(x, n) => x != n && (t == x ==> st.Active?) && (t == n ==> st.Fresh?)
    case Bypass(x) => t == x ==> st.Fresh?
  }

  lemma TieMoves(l: Slots, a: ParallelLimit.Action, t: nat, st: Slot)
    requires ParallelLimit.Enabled(l, a) && TieOk(l, t, st) && Fits(a, t, st)
    ensures TieOk(ParallelLimit.Apply(l, a), t, SlotAfter(a, l, t, st))
  {
  }

  /** So it can be done, and the graph agrees with its nodes afterwards. */
  lemma LimMoves(s: State, s': State, g: nat, a: ParallelLimit.Action)
    requires g < |s.lims| && |s'.lims| == |s.lims| && LimOk(s, g) && s.lims[g].Some?
    requires forall t: nat :: Fits(a, t, SlotIn(s, g, t))
    requires a.Pop? ==> s.lims[g].value.poppers > 0
    requires s'.lims[g] == Some(Moved(s.lims[g].value, a))
    requires forall t: nat :: SlotIn(s', g, t) == SlotAfter(a, s.lims[g].value, t, SlotIn(s, g, t))
    requires |Poppers(s', g)| == |Poppers(s, g)|
      + (if a.Retire? && s.lims[g].value.mCount > 0 then 1 else if a.Pop? then -1 else 0)
    ensures LimOk(s', g) && ParallelLimit.Enabled(s.lims[g].value, a)
  {
    hide SlotOf, SlotIn, Poppers;
    var l := s.lims[g].value;
    FitsEnabled(s, g, a);
    ParallelLimit.StepKeeps(l, a);
    hide ParallelLimit.Inv;
    forall t: nat ensures TieOk(s'.lims[g].value, t, SlotIn(s', g, t)) {
      assert TieOk(l, t, SlotIn(s, g, t)) && Fits(a, t, SlotIn(s, g, t));
      TieMoves(l, a, t, SlotIn(s, g, t));
    }
    PoppersAfter(l, a);
  }

  lemma FitsEnabled(s: State, g: nat, a: ParallelLimit.Action)
    requires g < |s.lims| && LimOk(s, g) && s.lims[g].Some?
    requires forall t: nat :: Fits(a, t, SlotIn(s, g, t))
    requires a.Pop? ==> s.lims[g].value.poppers > 0
    ensures ParallelLimit.Enabled(s.lims[g].value, a)
  {
    hide SlotOf, SlotIn, Poppers;
    var l := s.lims[g].value;
    match a
    case Offer(x) => assert TieOk(l, x, SlotIn(s, g, x)) && Fits(a, x, SlotIn(s, g, x)) && ParallelLimit.PlaceOk(l, x);
    case Push(x) => assert TieOk(l, x, SlotIn(s, g, x)) && Fits(a, x, SlotIn(s, g, x));
    case Retire(x) => assert TieOk(l, x, SlotIn(s, g, x)) && Fits(a, x, SlotIn(s, g, x));
    case Pop(x) => assert TieOk(l, x, SlotIn(s, g, x)) && Fits(a, x, SlotIn(s, g, x));
    case HandOver(x, n) =>
      assert TieOk(l, x, SlotIn(s, g, x)) && Fits(a, x, SlotIn(s, g, x));
      assert TieOk(l, n, SlotIn(s, g, n)) && Fits(a, n, SlotIn(s, g, n)) && ParallelLimit.PlaceOk(l, n);
    case Bypass(x) => assert TieOk(l, x, SlotIn(s, g, x)) && Fits(a, x, SlotIn(s, g, x)) && ParallelLimit.PlaceOk(l, x);
  }

  lemma PoppersAfter(l: Slots, a: ParallelLimit.Action)
    requires ParallelLimit.Enabled(l, a)
    ensures ParallelLimit.Apply(l, a).poppers
      == l.poppers + (if a.Retire? && l.mCount > 0 then 1 else if a.Pop? then -1 else 0)
  {
  }

  /** A graph none of whose nodes changes its slot. */
  lemma LimStays(s: State, s': State, g: nat)
    requires g < |s.lims| && |s'.lims| == |s.lims| && LimOk(s, g) && s'.lims[g] == s.lims[g]
    requires s.lims[g].Some? ==> forall t: nat :: SlotIn(s', g, t) == SlotIn(s, g, t)
    requires s.lims[g].Some? ==> |Poppers(s', g)| == |Poppers(s, g)|
    ensures LimOk(s', g)
  {
    hide SlotOf, SlotIn, Poppers;
    if s.lims[g].Some? {
      forall t: nat ensures TieOk(s'.lims[g].value, t, SlotIn(s', g, t)) {
        assert TieOk(s.lims[g].value, t, SlotIn(s, g, t));
      }
    }
  }

  // ---------------------------------------------------------------- calls of ready()

  /** The call its maker or its finisher makes for node v. */
  function CallOf(s: State, own: Place): Call {
    match own
    case Maker(w) => if w < |s.d| then s.d[w].make else Idle
    case Finisher(u) => if u < |s.d| then s.d[u].fin.call else Idle
    case _ => Idle
  }

  function SetCall(i: Item, own: Place, c: Call): Item {
    if own.Maker? then i.(make := c) else i.(fin := i.fin.(call := c))
  }

  function OwnerOf(own: Place): nat {
    match own
    case Maker(w) => w
    case Finisher(u) => u
    case _ => 0
  }

  /** One operation of the call. */
  ghost predicate Calls(s: State, s': State, own: Place) {
    && (own.Maker? || own.Finisher?) && OwnerOf(own) < |s.d| && |s.d| == |s.e.nodes| && |s.lims| == |s.e.graphs|
    && var (c, o) := (CallOf(s, own), OwnerOf(own));
       && !c.Idle? && About(c).value < |s.d| && (own.Maker? ==> About(c).value == o) && (own.Finisher? ==> About(c).value != o)
       && CallOk(s, c)
       && s'.e == s.e && s'.workers == s.workers
       && s'.tasks == (if c.Enqueue? then s.tasks + multiset{c.v} else s.tasks)
       && s'.lims == (if Limited(s, About(c).value) && (c.Ready? || c.Push?) then
            s.lims[GraphOf(s, About(c).value) := Some(Moved(SlotsOf(s, About(c).value),
              if c.Ready? then ParallelLimit.Offer(c.v) else ParallelLimit.Push(c.v)))] else s.lims)
       && s'.d == Rested(s, c)[o := SetCall(Rested(s, c)[o], own, CallNext(s, c))]
  }

  function Rested(s: State, c: Call): seq<Item> {
    match c
    case Push(v) => if v < |s.d| && Limited(s, v) then s.d[v := s.d[v].(at := HeldIn(GraphOf(s, v)))] else s.d
    case Enqueue(v) => if v < |s.d| then s.d[v := s.d[v].(at := Tasks)] else s.d
    case _ => s.d
  }

  /** What the call does to one node: its place, and the call itself. */
  lemma CallItem(s: State, s': State, own: Place, x: nat)
    requires Calls(s, s', own) && x < |s.d|
    ensures |s'.d| == |s.d| == |s'.e.nodes| && s'.e == s.e && |s'.lims| == |s.lims|
    ensures s'.d[x] == s.d[x].(
      at := s'.d[x].at,
      make := if own == Maker(x) then CallNext(s, CallOf(s, own)) else s.d[x].make,
      fin := if own == Finisher(x) then s.d[x].fin.(call := CallNext(s, CallOf(s, own))) else s.d[x].fin)
    ensures forall v :: Limited(s', v) <==> Limited(s, v)
    ensures own == Maker(x) ==> CallOf(s, own) == s.d[x].make && About(s.d[x].make) == Some(x)
    ensures own == Finisher(x) ==> CallOf(s, own) == s.d[x].fin.call && !s.d[x].fin.call.Idle?
  {
  }

  lemma NextCall(s: State, c: Call)
    ensures About(CallNext(s, c)) == About(c) || CallNext(s, c).Idle?
    ensures CallOk(s, CallNext(s, c))
  {
  }

  lemma CallRun(s: State, s': State, own: Place, x: nat)
    requires Calls(s, s', own) && x < |s.d| && NodeOk(s, x)
    ensures x < |s'.d| && |s'.d| == |s'.e.nodes| && RunOk(s', x)
  {
    hide Calls, HandOk, MakeOk, PlaceOk, CallNext;
    CallItem(s, s', own, x);
    if s.d[x].run.Asking? || s.d[x].run.Waiting? {
      CallItem(s, s', own, s.d[x].run.b);
    }
    if s.d[x].helps.Some? {
      CallItem(s, s', own, s.d[x].helps.value);
    }
  }

  lemma CallHand(s: State, s': State, own: Place, x: nat)
    requires Calls(s, s', own) && x < |s.d| && NodeOk(s, x)
    ensures x < |s'.d| && |s'.d| == |s'.e.nodes| && HandOk(s', x) && MakeOk(s', x)
  {
    hide Calls, RunOk, PlaceOk, CallNext;
    CallItem(s, s', own, x);
    NextCall(s, CallOf(s, own));
    forall y | y in s'.d[x].fin.list ensures Requires(s'.e, y, x) {
      assert Requires(s.e, y, x);
    }
  }

  /** Where the node the call is about goes. */
  lemma CallMoves(s: State, s': State, own: Place, x: nat)
    requires Calls(s, s', own) && x < |s.d|
    ensures |s'.d| == |s.d| && s'.d[x].at == (
      match CallOf(s, own)
      case Push(v) => if v == x then HeldIn(GraphOf(s, v)) else s.d[x].at
      case Enqueue(v) => if v == x then Tasks else s.d[x].at
      case _ => s.d[x].at)
  {
  }

  lemma CallSlots(s: State, s': State, own: Place, t: nat)
    requires Calls(s, s', own) && (forall y, p :: FoundOk(s, y, p)) && NodeOk(s, OwnerOf(own)) && (t < |s.d| ==> NodeOk(s, t))
    ensures var c := CallOf(s, own);
      SlotOf(s', t) == (
        if About(c) != Some(t) then SlotOf(s, t)
        else match c
          case Ready(v) => if Limited(s, v) && SlotsOf(s, v).mCount >= 0 then Pushing else Active
          case Push(_) => Queued
          case Enqueue(_) => Active)
    ensures var c := CallOf(s, own); About(c) == Some(t) ==>
      SlotOf(s, t) == (match c case Ready(_) => Fresh case Push(_) => Pushing case Enqueue(_) => Active)
  {
    hide Calls, NodeOk;
    CallsAre(s, s', own);
    assert FoundOk(s, About(CallOf(s, own)).value, own) && FoundOk(s, t, own);
    if t < |s.d| {
      PlaceIs(s, t);
      CallMoves(s, s', own, t);
      CallItem(s, s', own, t);
      match s.d[t].at
      case Maker(w) => if w < |s.d| { CallItem(s, s', own, w); }
      case Finisher(u) => if u < |s.d| { CallItem(s, s', own, u); }
      case _ =>
    }
  }

  lemma PlaceIs(s: State, t: nat)
    requires NodeOk(s, t)
    ensures t < |s.d| && |s.d| == |s.e.nodes| && PlaceOk(s, t)
  {
  }

  lemma CallsAre(s: State, s': State, own: Place)
    requires Calls(s, s', own)
    ensures |s'.d| == |s.d| && (own.Maker? || own.Finisher?) && OwnerOf(own) < |s.d|
    ensures About(CallOf(s, own)).Some? && About(CallOf(s, own)).value < |s.d|
    ensures IsAt(s, About(CallOf(s, own)).value, own)
  {
  }

  /** The operation on the graph of the node the call is about. */
  function CallAct(c: Call): ParallelLimit.Action {
    match c
    case Ready(v) => ParallelLimit.Offer(v)
    case Push(v) => ParallelLimit.Push(v)
    case _ => ParallelLimit.Offer(0)
  }

  ghost predicate CallCounts(s: State, own: Place) {
    var c := CallOf(s, own);
    About(c).Some? && Limited(s, About(c).value) && (c.Ready? || c.Push?)
  }

  lemma CallLim(s: State, s': State, own: Place, g: nat)
    requires Calls(s, s', own) && (forall y, p :: FoundOk(s, y, p)) && (forall x | 0 <= x < |s.d| :: NodeOk(s, x))
    requires g < |s.lims| && LimOk(s, g)
    ensures |s'.lims| == |s.lims| && LimOk(s', g)
    ensures CallCounts(s, own) && GraphOf(s, About(CallOf(s, own)).value) == g ==>
      ParallelLimit.Enabled(s.lims[g].value, CallAct(CallOf(s, own)))
  {
    hide NodeOk, LimOk, FoundOk, SlotOf;
    var c := CallOf(s, own);
    forall t: nat
      ensures SlotOf(s', t) == (
        if About(c) != Some(t) then SlotOf(s, t)
        else match c
          case Ready(v) => if Limited(s, v) && SlotsOf(s, v).mCount >= 0 then Pushing else Active
          case Push(_) => Queued
          case Enqueue(_) => Active)
      ensures About(c) == Some(t) ==> SlotOf(s, t) == (match c case Ready(_) => Fresh case Push(_) => Pushing case Enqueue(_) => Active)
    {
      CallSlots(s, s', own, t);
    }
    PhasesStay(s, s', own);
    assert Poppers(s', g) == Poppers(s, g);
    if CallCounts(s, own) && GraphOf(s, About(c).value) == g {
      LimMoves(s, s', g, CallAct(c));
    } else {
      LimStays(s, s', g);
    }
  }

  lemma PhasesStay(s: State, s': State, own: Place)
    requires Calls(s, s', own)
    ensures |s'.d| == |s.d| && |s'.lims| == |s.lims| && s'.e == s.e
    ensures forall u | 0 <= u < |s.d| :: s'.d[u].fin.phase == s.d[u].fin.phase
  {
  }

  /** A node that is pushed arrives in the queue. */
  ghost predicate PushLands(s: State, own: Place) {
    CallOf(s, own).Push? && CallCounts(s, own) ==> ParallelLimit.Enabled(SlotsOf(s, CallOf(s, own).v), ParallelLimit.Push(CallOf(s, own).v))
  }

  lemma CallFound(s: State, s': State, own: Place, x: nat, q: Place)
    requires Calls(s, s', own) && (forall y, p :: FoundOk(s, y, p)) && NodeOk(s, OwnerOf(own))
    ensures FoundOk(s', x, q)
  {
    hide RunOk, PlaceOk;
    assert FoundOk(s, About(CallOf(s, own)).value, own) && FoundOk(s, x, q) && FoundOk(s, About(CallOf(s, own)).value, q);
  }

  /** The queues: none loses a node, and the one that is pushed or enqueued is there. */
  lemma CallQueues(s: State, s': State, own: Place, x: nat, g: nat)
    requires Calls(s, s', own) && PushLands(s, own)
    ensures IsAt(s, x, HeldIn(g)) ==> IsAt(s', x, HeldIn(g))
    ensures CallOf(s, own).Push? && CallOf(s, own).v == x && GraphOf(s, x) == g ==> IsAt(s', x, HeldIn(g))
    ensures s'.tasks == (if CallOf(s, own).Enqueue? then s.tasks + multiset{CallOf(s, own).v} else s.tasks)
  {
  }

  lemma CallPlace(s: State, s': State, own: Place, x: nat)
    requires Calls(s, s', own) && (forall y, p :: FoundOk(s, y, p)) && x < |s.d| && NodeOk(s, x) && PushLands(s, own)
    ensures x < |s'.d| && |s'.d| == |s'.e.nodes| && PlaceOk(s', x)
  {
    hide Calls, NodeOk, PushLands, CallNext;
    CallsAre(s, s', own);
    PlaceIs(s, x);
    CallMoves(s, s', own, x);
    CallItem(s, s', own, x);
    NextCall(s, CallOf(s, own));
    CallQueues(s, s', own, x, if s'.d[x].at.HeldIn? then s'.d[x].at.g else 0);
    var v := About(CallOf(s, own)).value;
    assert FoundOk(s, v, own) && FoundOk(s, v, Tasks) && FoundOk(s, x, own);
    match s'.d[x].at
    case Maker(w) => if w < |s.d| { CallItem(s, s', own, w); StillAbout(s, own); }
    case Finisher(u) => if u < |s.d| { CallItem(s, s', own, u); StillAbout(s, own); }
    case _ =>
  }

  /** A call that does not end with the operation is still about the same node. */
  lemma StillAbout(s: State, own: Place)
    ensures CallOf(s, own).Ready? ==> About(CallNext(s, CallOf(s, own))) == About(CallOf(s, own))
  {
  }

  lemma CallKeeps(s: State, s': State, own: Place)
    requires Inv(s) && Calls(s, s', own)
    ensures Inv(s')
  {
    hide Inv, NodeOk, FoundOk, LimOk, Calls, CallOk, Shape;
    AllFound(s);
    ShapeAt(s);
    CallsIs(s, s', own);
    forall x | 0 <= x < |s.d| ensures NodeOk(s, x) {
      NodeAt(s, x);
    }
    forall g | 0 <= g < |s.lims|
      ensures LimOk(s', g)
      ensures CallCounts(s, own) && GraphOf(s, About(CallOf(s, own)).value) == g ==>
        ParallelLimit.Enabled(s.lims[g].value, CallAct(CallOf(s, own)))
    {
      LimAt(s, g);
      CallLim(s, s', own, g);
    }
    assert PushLands(s, own);
    forall x | 0 <= x < |s'.d| ensures NodeOk(s', x) {
      CallRun(s, s', own, x);
      CallHand(s, s', own, x);
      CallPlace(s, s', own, x);
      NodeIs(s', x);
    }
    forall x: nat, q ensures FoundOk(s', x, q) {
      CallFound(s, s', own, x, q);
    }
    CallShape(s, s', own);
    Assemble(s');
  }

  lemma NodeAt(s: State, x: nat)
    requires Inv(s) && x < |s.d|
    ensures NodeOk(s, x)
  {
    At(s, x);
  }

  lemma NodeIs(s: State, x: nat)
    requires x < |s.d| && |s.d| == |s.e.nodes| && RunOk(s, x) && HandOk(s, x) && MakeOk(s, x) && PlaceOk(s, x)
    ensures NodeOk(s, x)
  {
  }

  lemma CallsIs(s: State, s': State, own: Place)
    requires Calls(s, s', own)
    ensures |s'.d| == |s.d| == |s.e.nodes| && s'.e == s.e && |s'.lims| == |s.lims| && OwnerOf(own) < |s.d|
    ensures About(CallOf(s, own)).Some?
  {
  }

  /** Nothing but the state of limited graphs changes, not which graphs are limited. */
  lemma LimitsStay(s: State, s': State)
    requires Shape(s) && s'.e == s.e && |s'.d| == |s.d| && |s'.lims| == |s.lims|
    requires forall g | 0 <= g < |s.lims| :: s'.lims[g].Some? <==> s.lims[g].Some?
    ensures Shape(s')
  {
  }

  lemma CallShape(s: State, s': State, own: Place)
    requires Shape(s) && Calls(s, s', own)
    ensures Shape(s')
  {
    LimitsStay(s, s');
  }
}

/**
 * A graph that runs at most `parallel` of its nodes at a time. Its signed counter starts at
 * -parallel; a node offered while it is negative is dispatched, otherwise held in the
 * queue; a finishing node gives its slot back through the counter, to a held node if there
 * is one, or hands it directly to a node of the graph it has made ready. A finishing node of
 * another limited graph can bypass the counter.
 */
module ParallelLimit {
  import opened Common

  type Task = nat

  /**
   * `offered`, `retired` and `bypassed` are history: nodes ever made ready, nodes through with
   * finish, and how many nodes, finished or not, never asked the counter.
   */
  datatype State = State(
    parallel: nat, mCount: int,
    active: set<Task>,   // dispatched and unfinished
    pushing: set<Task>,  // counted as held, not in the queue yet
    queued: set<Task>,
    poppers: nat,        // finishers that owe their slot to a held node
    offered: set<Task>, retired: set<Task>, bypassed: nat)

  datatype Action =
    | Offer(t: Task)            // try_enqueue: fetch_add
    | Push(t: Task)             // try_enqueue: into the queue
    | Retire(t: Task)           // try_dequeue: fetch_sub
    | Pop(t: Task)              // try_dequeue: out of the queue
    | HandOver(t: Task, n: Task) // finish returns a node of the graph it has made ready
    | Bypass(t: Task)           // finish of a node of another limited graph returns t

  predicate IsInit(s: State) {
    && s.mCount + s.parallel == 0 && s.poppers == 0 && s.bypassed == 0
    && s.active == s.pushing == s.queued == s.offered == s.retired == {}
  }

  predicate Enabled(s: State, a: Action) {
    match a
    case Offer(t) => t !in s.offered
    case Push(t) => t in s.pushing
    case Retire(t) => t in s.active
    case Pop(t) => s.poppers > 0 && t in s.queued
    case HandOver(t, n) => t in s.active && n !in s.offered
    case Bypass(t) => t !in s.offered
  }

  function Apply(s: State, a: Action): State
    requires Enabled(s, a)
  {
    match a
    case Offer(t) =>
      var s1 := s.(mCount := s.mCount + 1, offered := s.offered + {t});
      if s.mCount >= 0 then s1.(pushing := s.pushing + {t}) else s1.(active := s.active + {t})
    case Push(t) => s.(pushing := s.pushing - {t}, queued := s.queued + {t})
    case Retire(t) =>
      var s1 := s.(mCount := s.mCount - 1, active := s.active - {t}, retired := s.retired + {t});
      if s.mCount > 0 then s1.(poppers := s.poppers + 1) else s1
    case Pop(t) => s.(poppers := s.poppers - 1, queued := s.queued - {t}, active := s.active + {t})
    case HandOver(t, n) =>
      s.(active := s.active - {t} + {n}, offered := s.offered + {n}, retired := s.retired + {t})
    case Bypass(t) => s.(active := s.active + {t}, offered := s.offered + {t}, bypassed := s.bypassed + 1)
  }

  function Held(s: State): set<Task> {
    s.pushing + s.queued
  }

  /** Where a node is: it is offered if it is somewhere, and it is in one place only. */
  ghost predicate PlaceOk(s: State, t: Task) {
    && (t in s.offered <==> t in s.active || t in s.pushing || t in s.queued || t in s.retired)
    && (t in s.active ==> t !in s.pushing && t !in s.queued && t !in s.retired)
    && (t in s.pushing ==> t !in s.queued && t !in s.retired)
    && (t in s.queued ==> t !in s.retired)
  }

  ghost predicate Places(s: State) {
    forall t :: PlaceOk(s, t)
  }

  /** The held nodes that no finisher will take are what the counter counts above zero. */
  ghost predicate Slots(s: State) {
    && s.mCount + s.parallel + s.bypassed == |s.active| + |s.pushing| + |s.queued|
    && |s.pushing| + |s.queued| == s.poppers + (if s.mCount > 0 then s.mCount else 0)
  }

  ghost predicate Inv(s: State) {
    Places(s) && Slots(s)
  }

  lemma PlacesKept(s: State, a: Action)
    requires Places(s) && Enabled(s, a)
    ensures Places(Apply(s, a))
  {
    forall t ensures PlaceOk(Apply(s, a), t) {
      assert PlaceOk(s, t);
    }
  }

  lemma OfferSlots(s: State, t: Task)
    requires PlaceOk(s, t) && Slots(s) && Enabled(s, Offer(t))
    ensures Slots(Apply(s, Offer(t)))
  {
  }

  lemma PushSlots(s: State, t: Task)
    requires PlaceOk(s, t) && Slots(s) && Enabled(s, Push(t))
    ensures Slots(Apply(s, Push(t)))
  {
    SizeWithout(s.pushing, t);
  }

  lemma RetireSlots(s: State, t: Task)
    requires PlaceOk(s, t) && Slots(s) && Enabled(s, Retire(t))
    ensures Slots(Apply(s, Retire(t)))
  {
    SizeWithout(s.active, t);
  }

  lemma PopSlots(s: State, t: Task)
    requires PlaceOk(s, t) && Slots(s) && Enabled(s, Pop(t))
    ensures Slots(Apply(s, Pop(t)))
  {
    SizeWithout(s.queued, t);
  }

  lemma HandOverSlots(s: State, t: Task, n: Task)
    requires PlaceOk(s, n) && Slots(s) && Enabled(s, HandOver(t, n))
    ensures Slots(Apply(s, HandOver(t, n)))
  {
    SizeWithout(s.active, t);
  }

  lemma BypassSlots(s: State, t: Task)
    requires PlaceOk(s, t) && Slots(s) && Enabled(s, Bypass(t))
    ensures Slots(Apply(s, Bypass(t)))
  {
  }

  lemma SlotsKept(s: State, a: Action)
    requires Places(s) && Slots(s) && Enabled(s, a)
    ensures Slots(Apply(s, a))
  {
    hide Slots, PlaceOk;
    match a
    case Offer(t) => OfferSlots(s, t);
    case Push(t) => PushSlots(s, t);
    case Retire(t) => RetireSlots(s, t);
    case Pop(t) => PopSlots(s, t);
    case HandOver(t, n) => HandOverSlots(s, t, n);
    case Bypass(t) => BypassSlots(s, t);
  }

  lemma StepKeeps(s: State, a: Action)
    requires Inv(s) && Enabled(s, a)
    ensures Inv(Apply(s, a)) && Apply(s, a).parallel == s.parallel
  {
    PlacesKept(s, a);
    SlotsKept(s, a);
    hide Places, Slots;
  }

  ghost predicate IsRun(states: seq<State>, acts: seq<Action>) {
    && |states| == |acts| + 1 && IsInit(states[0])
    && (forall i | 0 <= i < |acts| :: Enabled(states[i], acts[i]) && states[i + 1] == Apply(states[i], acts[i]))
  }

  ghost predicate Reachable(s: State) {
    exists states, acts :: IsRun(states, acts) && states[|acts|] == s
  }

  lemma {:induction false} RunKeeps(states: seq<State>, acts: seq<Action>, n: nat)
    requires IsRun(states, acts) && n <= |acts|
    ensures Inv(states[n]) && states[n].parallel == states[0].parallel
  {
    if n > 0 {
      RunKeeps(states, acts, n - 1);
      hide Inv, Enabled, Apply;
      StepKeeps(states[n - 1], acts[n - 1]);
    }
  }

  lemma ReachableInv(s: State)
    requires Reachable(s)
    ensures Inv(s)
  {
    var states, acts :| IsRun(states, acts) && states[|acts|] == s;
    RunKeeps(states, acts, |acts|);
  }

  lemma ReachableStep(s: State, a: Action)
    requires Reachable(s) && Enabled(s, a)
    ensures Reachable(Apply(s, a))
  {
    hide Enabled, Apply, IsInit;
    var states, acts :| IsRun(states, acts) && states[|acts|] == s;
    var states', acts' := states + [Apply(s, a)], acts + [a];
    forall i | 0 <= i < |acts'| ensures Enabled(states'[i], acts'[i]) && states'[i + 1] == Apply(states'[i], acts'[i]) {
      assert i < |acts| ==> Enabled(states[i], acts[i]) && states'[i + 1] == states[i + 1];
    }
    assert IsRun(states', acts') && states'[0] == states[0];
  }

  // ---------------------------------------------------------------- what the limit guarantees

  /**
   * At most `parallel` nodes are dispatched and unfinished, whatever the interleaving, and one
   * more for each node that ever bypassed the counter: it counts itself off when it finishes.
   */
  lemma AtMostParallel(s: State)
    requires Reachable(s)
    ensures |s.active| + s.poppers <= s.parallel + s.bypassed
  {
    ReachableInv(s);
  }

  /** More nodes are held than finishers will take exactly while the counter is positive, and only while every slot is in use. */
  lemma HeldOnlyWhileFull(s: State)
    requires Reachable(s)
    ensures |Held(s)| > s.poppers <==> s.mCount > 0
    ensures |Held(s)| > s.poppers ==> |s.active| + s.poppers == s.parallel + s.bypassed
  {
    ReachableInv(s);
    assert s.pushing * s.queued == {} by {
      assert forall t | t in s.pushing :: PlaceOk(s, t);
    }
    assert |s.pushing + s.queued| == |s.pushing| + |s.queued|;
  }

  /** The bound is met while they run: n nodes that bypass the counter come on top of `parallel` that did not. */
  lemma {:induction false} BoundIsMet(parallel: nat, n: nat) returns (s: State)
    ensures Reachable(s) && s.parallel == parallel && s.bypassed == n && |s.active| == parallel + n
    ensures s.mCount == 0 && forall t | t in s.offered :: t < parallel + n
  {
    if n == 0 {
      s := FillSlots(parallel, parallel);
    } else {
      var s1 := BoundIsMet(parallel, n - 1);
      var t := parallel + n - 1;
      s := Grow(s1, t, Bypass(t));
    }
  }

  lemma {:induction false} FillSlots(parallel: nat, n: nat) returns (s: State)
    requires n <= parallel
    ensures Reachable(s) && s.parallel == parallel && s.bypassed == 0 && |s.active| == n
    ensures s.mCount == n - parallel && forall t | t in s.offered :: t < n
  {
    if n == 0 {
      s := State(parallel, -1 * parallel, {}, {}, {}, 0, {}, {}, 0);
      var none: seq<Action> := [];
      assert IsRun([s], none) && [s][|none|] == s;
    } else {
      var s1 := FillSlots(parallel, n - 1);
      s := Grow(s1, n - 1, Offer(n - 1));
    }
  }

  lemma Grow(s1: State, t: Task, a: Action) returns (s: State)
    requires Reachable(s1) && t !in s1.offered && (a == Bypass(t) || (a == Offer(t) && s1.mCount < 0))
    ensures Reachable(s) && s == Apply(s1, a) && |s.active| == |s1.active| + 1
  {
    ReachableInv(s1);
    assert PlaceOk(s1, t);
    ReachableStep(s1, a);
    s := Apply(s1, a);
  }

  /** One more step of a run. */
  lemma Longer(states: seq<State>, acts: seq<Action>, a: Action) returns (states': seq<State>, acts': seq<Action>)
    requires IsRun(states, acts) && Enabled(states[|acts|], a)
    ensures IsRun(states', acts') && acts' == acts + [a] && states'[|acts'|] == Apply(states[|acts|], a)
  {
    hide Enabled, Apply, IsInit;
    states', acts' := states + [Apply(states[|acts|], a)], acts + [a];
    forall i | 0 <= i < |acts'| ensures Enabled(states'[i], acts'[i]) && states'[i + 1] == Apply(states'[i], acts'[i]) {
      assert i < |acts| ==> states'[i] == states[i] && states'[i + 1] == states[i + 1] && acts'[i] == acts[i];
    }
    assert states'[0] == states[0];
  }

  /** n nodes have bypassed the counter and finished since, and k that asked it are dispatched. */
  ghost predicate Raised(states: seq<State>, acts: seq<Action>, parallel: nat, n: nat, k: nat) {
    && IsRun(states, acts)
    && var s := states[|acts|];
       && s.parallel == parallel && s.bypassed == n && s.mCount == k - parallel - n && |s.active| == k
       && (forall t | t in s.offered :: t < n + k)
       && forall i | 0 <= i < |acts| && acts[i].Bypass? :: acts[i].t in s.retired
  }

  lemma {:induction false} Raise(parallel: nat, n: nat) returns (states: seq<State>, acts: seq<Action>)
    ensures Raised(states, acts, parallel, n, 0)
  {
    if n == 0 {
      states, acts := [State(parallel, -1 * parallel, {}, {}, {}, 0, {}, {}, 0)], [];
    } else {
      var states0, acts0 := Raise(parallel, n - 1);
      states, acts := RaiseOnce(states0, acts0, parallel, n - 1);
    }
  }

  lemma RaiseOnce(states0: seq<State>, acts0: seq<Action>, parallel: nat, n: nat) returns (states: seq<State>, acts: seq<Action>)
    requires Raised(states0, acts0, parallel, n, 0)
    ensures Raised(states, acts, parallel, n + 1, 0)
  {
    var s := states0[|acts0|];
    var states1, acts1 := Longer(states0, acts0, Bypass(n));
    states, acts := Longer(states1, acts1, Retire(n));
    assert s.active == {} && states[|acts|].active == {};
  }

  /** Every node that ever bypassed the counter raises the limit for good, also when it has finished. */
  lemma {:induction false} LimitStaysRaised(parallel: nat, n: nat, k: nat) returns (states: seq<State>, acts: seq<Action>)
    requires k <= parallel + n
    ensures Raised(states, acts, parallel, n, k)
  {
    if k == 0 {
      states, acts := Raise(parallel, n);
    } else {
      var states0, acts0 := LimitStaysRaised(parallel, n, k - 1);
      states, acts := FillOnce(states0, acts0, parallel, n, k - 1);
    }
  }

  lemma FillOnce(states0: seq<State>, acts0: seq<Action>, parallel: nat, n: nat, k: nat) returns (states: seq<State>, acts: seq<Action>)
    requires Raised(states0, acts0, parallel, n, k) && k < parallel + n
    ensures Raised(states, acts, parallel, n, k + 1)
  {
    var t, s := n + k, states0[|acts0|];
    RunKeeps(states0, acts0, |acts0|);
    assert PlaceOk(s, t);
    hide IsRun;
    states, acts := Longer(states0, acts0, Offer(t));
  }

  /** A node made ready is dispatched, held or finished, and only one of the three. */
  lemma OfferedIsSomewhere(s: State, t: Task)
    requires Reachable(s)
    ensures t in s.offered <==> t in s.active || t in Held(s) || t in s.retired
    ensures !(t in s.active && t in Held(s)) && !(t in s.active && t in s.retired) && !(t in Held(s) && t in s.retired)
  {
    ReachableInv(s);
    assert PlaceOk(s, t);
  }

  /** No call is between its two operations and no node of the graph is running. */
  predicate Quiet(s: State) {
    s.active == {} && s.pushing == {} && s.poppers == 0
  }

  /** A finisher that has to take a held node will find one: it is queued, or about to be. */
  lemma PopperFindsOne(s: State)
    requires Reachable(s) && s.poppers > 0
    ensures s.queued != {} || s.pushing != {}
  {
    ReachableInv(s);
  }

  /**
   * Held nodes are never stranded, exactly when the graph has a slot at all: with none, the
   * first node made ready is held for ever.
   */
  lemma NoneStrandedIffSlots(parallel: nat)
    ensures parallel >= 1 <==> (forall s: State | Reachable(s) && s.parallel == parallel && Quiet(s) :: s.queued == {})
  {
    forall s: State | parallel >= 1 && Reachable(s) && s.parallel == parallel && Quiet(s) ensures s.queued == {} {
      ReachableInv(s);
    }
    if parallel == 0 {
      var s0 := State(0, 0, {}, {}, {}, 0, {}, {}, 0);
      var none: seq<Action> := [];
      assert IsRun([s0], none) && [s0][|none|] == s0;
      ReachableStep(s0, Offer(0));
      var s1 := Apply(s0, Offer(0));
      ReachableStep(s1, Push(0));
      var s2 := Apply(s1, Push(0));
      assert Reachable(s2) && Quiet(s2) && 0 in s2.queued;
    }
  }

  // ---------------------------------------------------------------- the queue on its fields

  const TWO31: int := 0x8000_0000

  /** SelfQueue of a limited graph: a 32-bit counter and a queue large enough for what is held. */
  class SelfQueue {
    var mCount: int
    var limitQueue: set<Task>
    ghost var s: State

    ghost predicate Valid()
      reads this
    {
      Reachable(s) && mCount == s.mCount && limitQueue == s.queued
    }

    constructor (parallel: nat)
      ensures Valid() && IsInit(s) && s.parallel == parallel
    {
      mCount, limitQueue := -1 * parallel, {};
      s := State(parallel, -1 * parallel, {}, {}, {}, 0, {}, {}, 0);
      new;
      var none: seq<Action> := [];
      assert IsRun([s], none) && [s][|none|] == s;
    }

    method EnqueueFetchAdd(t: Task) returns (hold: bool)
      requires Valid() && Enabled(s, Offer(t)) && mCount + 1 < TWO31
      modifies this`s, this`mCount
      ensures Valid() && s == Apply(old(s), Offer(t)) && (hold <==> t in s.pushing)
    {
      ReachableInv(s);
      assert PlaceOk(s, t);
      hide Reachable, Places;
      var oldCount := mCount;
      mCount := mCount + 1;
      hold := oldCount >= 0;
      ReachableStep(s, Offer(t));
      s := Apply(s, Offer(t));
    }

    method EnqueuePush(t: Task)
      requires Valid() && Enabled(s, Push(t))
      modifies this`s, this`limitQueue
      ensures Valid() && s == Apply(old(s), Push(t))
    {
      hide Reachable;
      limitQueue := limitQueue + {t};
      ReachableStep(s, Push(t));
      s := Apply(s, Push(t));
    }

    method DequeueFetchSub(ghost me: Task) returns (take: bool)
      requires Valid() && Enabled(s, Retire(me)) && mCount - 1 >= -TWO31
      modifies this`s, this`mCount
      ensures Valid() && s == Apply(old(s), Retire(me)) && (take <==> s.poppers > old(s).poppers)
    {
      hide Reachable;
      var oldCount := mCount;
      mCount := mCount - 1;
      take := oldCount > 0;
      ReachableStep(s, Retire(me));
      s := Apply(s, Retire(me));
    }

    /** One round of the loop around the queue's try_dequeue. */
    method DequeuePop() returns (t: Option<Task>)
      requires Valid() && s.poppers > 0
      modifies this`s, this`limitQueue
      ensures Valid() && (t.None? <==> old(s).queued == {})
      ensures t.None? ==> s == old(s) && s.pushing != {}
      ensures t.Some? ==> Enabled(old(s), Pop(t.value)) && s == Apply(old(s), Pop(t.value))
    {
      PopperFindsOne(s);
      hide Reachable;
      if limitQueue == {} {
        return None;
      }
      var x :| x in limitQueue;
      limitQueue := limitQueue - {x};
      ReachableStep(s, Pop(x));
      s := Apply(s, Pop(x));
      t := Some(x);
    }
  }
}

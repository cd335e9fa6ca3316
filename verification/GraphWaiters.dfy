/**
 * Nodes that wait for a whole graph: create_edges on a graph registers a waiter, and who
 * brings the graph's count of unfinished nodes to zero sweeps the list of waiters. The list
 * is never cleared, the count may rise and fall again, and a sweeper may be late: the claims
 * are that a waiter is released exactly once, none is forgotten, and when a release is early.
 */
module GraphWaiters {
  import opened Common

  datatype RegPc =
    | Load       // test the count without the lock
    | NeedLock
    | Reload     // test it again, lock held
    | Push       // raise the waiter's own count and append it, lock held
    | Leave      // unlock
    | Out

  /**
   * History: `pushed` (in the list), `released` (times made ready), `upto` (nodes created when
   * the count was found nonzero under the lock) and `clean` (no sweep was due at that moment).
   */
  datatype Waiter = Waiter(pc: RegPc, wait: int, pushed: bool, released: nat, upto: nat, clean: bool)

  datatype Sweep = Due | At(i: nat) | Done

  datatype Holder = Nobody | Registrar(w: nat) | Sweeper(k: nat)

  datatype State = State(
    count: int, unfinished: set<nat>, created: nat, lock: Holder,
    downs: seq<nat>, waiters: seq<Waiter>, sweeps: seq<Sweep>)

  datatype Action =
    | Create               // create_edges: wait_count.fetch_add
    | Finish(n: nat)       // Graph::finish: wait_count.fetch_sub
    | SweepLock(k: nat)
    | SweepNext(k: nat)    // count one waiter off, or unlock
    | NewWaiter
    | Register(w: nat)     // next operation of create_edges on the graph

  predicate IsInit(s: State) {
    && s.count == 0 && s.unfinished == {} && s.created == 0 && s.lock.Nobody?
    && s.downs == [] && s.waiters == [] && s.sweeps == []
  }

  predicate Enabled(s: State, a: Action) {
    match a
    case Create => true
    case Finish(n) => n in s.unfinished
    case SweepLock(k) => k < |s.sweeps| && s.sweeps[k].Due? && s.lock.Nobody?
    case SweepNext(k) => k < |s.sweeps| && s.sweeps[k].At? && (s.sweeps[k].i < |s.downs| ==> s.downs[s.sweeps[k].i] < |s.waiters|)
    case NewWaiter => true
    case Register(w) => w < |s.waiters| && !s.waiters[w].pc.Out? && (s.waiters[w].pc.NeedLock? ==> s.lock.Nobody?)
  }

  /** sub_wait_count of a waiter: who sees 1 makes it ready. */
  function CountOff(x: Waiter): Waiter {
    x.(wait := x.wait - 1, released := if x.wait == 1 then x.released + 1 else x.released)
  }

  predicate NoSweepDue(s: State) {
    forall k | 0 <= k < |s.sweeps| :: s.sweeps[k].Done?
  }

  function RegisterStep(s: State, w: nat): State
    requires Enabled(s, Register(w))
  {
    var x := s.waiters[w];
    match x.pc
    case Load =>
      s.(waiters := s.waiters[w := if s.count == 0 then x.(pc := Out, released := x.released + 1) else x.(pc := NeedLock)])
    case NeedLock => s.(lock := Registrar(w), waiters := s.waiters[w := x.(pc := Reload)])
    case Reload =>
      s.(waiters := s.waiters[w := if s.count == 0 then x.(pc := Leave, released := x.released + 1)
                                   else x.(pc := Push, upto := s.created, clean := NoSweepDue(s))])
    case Push => s.(waiters := s.waiters[w := x.(pc := Leave, wait := x.wait + 1, pushed := true)], downs := s.downs + [w])
    case Leave => s.(lock := Nobody, waiters := s.waiters[w := x.(pc := Out)])
    case Out => s
  }

  function Apply(s: State, a: Action): State
    requires Enabled(s, a)
  {
    match a
    case Create => s.(count := s.count + 1, created := s.created + 1, unfinished := s.unfinished + {s.created})
    case Finish(n) =>
      s.(count := s.count - 1, unfinished := s.unfinished - {n}, sweeps := if s.count == 1 then s.sweeps + [Due] else s.sweeps)
    case SweepLock(k) => s.(lock := Sweeper(k), sweeps := s.sweeps[k := At(0)])
    case SweepNext(k) =>
      var i := s.sweeps[k].i;
      if i < |s.downs| then
        s.(waiters := s.waiters[s.downs[i] := CountOff(s.waiters[s.downs[i]])], sweeps := s.sweeps[k := At(i + 1)])
      else s.(lock := Nobody, sweeps := s.sweeps[k := Done])
    case NewWaiter => s.(waiters := s.waiters + [Waiter(Load, 0, false, 0, 0, false)])
    case Register(w) => RegisterStep(s, w)
  }

  // ---------------------------------------------------------------- the invariant

  predicate HoldsLock(pc: RegPc) {
    pc.Reload? || pc.Push? || pc.Leave?
  }

  /** Sweep k has yet to come past waiter w. */
  predicate Ahead(s: State, k: nat, w: nat) {
    k < |s.sweeps| && (s.sweeps[k].Due? || (s.sweeps[k].At? && w !in s.downs[..Min(s.sweeps[k].i, |s.downs|)]))
  }

  ghost predicate SomeAhead(s: State, w: nat) {
    exists k :: Ahead(s, k, w)
  }

  function Min(a: nat, b: nat): nat {
    if a < b then a else b
  }

  /** Found the graph unfinished and is not released yet. */
  predicate Pending(x: Waiter) {
    x.pc.Push? || (x.pushed && x.wait == 1)
  }

  /** All nodes created before number `upto` have finished. */
  ghost predicate Since(s: State, upto: nat) {
    forall n | n in s.unfinished :: n >= upto
  }

  ghost predicate StageOk(x: Waiter) {
    if x.pushed then (x.pc.Leave? || x.pc.Out?) && x.wait <= 1 && x.released == (if x.wait <= 0 then 1 else 0)
    else x.wait == 0 && x.released == (if x.pc.Leave? || x.pc.Out? then 1 else 0)
  }

  ghost predicate WaiterOk(s: State, w: nat)
    requires w < |s.waiters|
  {
    var x := s.waiters[w];
    && StageOk(x) && x.upto <= s.created
    && (x.pushed <==> w in s.downs)
    && (HoldsLock(x.pc) ==> s.lock == Registrar(w))
    && (Pending(x) ==> s.count > 0 || SomeAhead(s, w))
    && (Pending(x) && x.clean && SomeAhead(s, w) ==> Since(s, x.upto))
  }

  ghost predicate SweepOk(s: State, k: nat)
    requires k < |s.sweeps|
  {
    s.sweeps[k].At? ==> s.lock == Sweeper(k) && s.sweeps[k].i <= |s.downs|
  }

  ghost predicate Counts(s: State) {
    && s.count == |s.unfinished| && (forall n | n in s.unfinished :: n < s.created)
    && (forall i | 0 <= i < |s.downs| :: s.downs[i] < |s.waiters|)
    && (forall i, j | 0 <= i < j < |s.downs| :: s.downs[i] != s.downs[j])
  }

  ghost predicate WaitersOk(s: State) {
    forall w | 0 <= w < |s.waiters| :: WaiterOk(s, w)
  }

  ghost predicate SweepsOk(s: State) {
    forall k | 0 <= k < |s.sweeps| :: SweepOk(s, k)
  }

  ghost predicate Inv(s: State) {
    Counts(s) && WaitersOk(s) && SweepsOk(s)
  }

  lemma SizesKept(s: State, a: Action)
    requires Counts(s) && Enabled(s, a)
    ensures Apply(s, a).count == |Apply(s, a).unfinished|
    ensures forall n | n in Apply(s, a).unfinished :: n < Apply(s, a).created
  {
    match a
    case Create => SizeWith(s.unfinished, s.created);
    case Finish(n) => SizeWithout(s.unfinished, n);
    case _ => OthersKeepCount(s, a);
  }

  lemma OthersKeepCount(s: State, a: Action)
    requires Enabled(s, a) && !a.Create? && !a.Finish?
    ensures var s' := Apply(s, a); s'.count == s.count && s'.unfinished == s.unfinished && s'.created == s.created
  {
  }

  lemma DownsKept(s: State, a: Action)
    requires Counts(s) && Enabled(s, a) && (a.Register? ==> WaiterOk(s, a.w))
    ensures forall i | 0 <= i < |Apply(s, a).downs| :: Apply(s, a).downs[i] < |Apply(s, a).waiters|
    ensures forall i, j | 0 <= i < j < |Apply(s, a).downs| :: Apply(s, a).downs[i] != Apply(s, a).downs[j]
  {
    if a.Register? && s.waiters[a.w].pc.Push? {
      assert a.w !in s.downs;
      hide WaiterOk;
      assert Apply(s, a).downs == s.downs + [a.w];
    }
  }

  lemma CountsKept(s: State, a: Action)
    requires Inv(s) && Enabled(s, a)
    ensures Counts(Apply(s, a))
  {
    hide Counts, Apply, Enabled, WaiterOk, SweepsOk;
    if a.Register? {
      assert a.w < |s.waiters| by { IsWaiter(s, a.w); }
      assert WaiterOk(s, a.w);
    }
    SizesKept(s, a);
    DownsKept(s, a);
    CountsIs(Apply(s, a));
  }

  lemma IsWaiter(s: State, w: nat)
    requires Enabled(s, Register(w))
    ensures w < |s.waiters|
  {
  }

  lemma CountsIs(s: State)
    requires s.count == |s.unfinished| && (forall n | n in s.unfinished :: n < s.created)
    requires forall i | 0 <= i < |s.downs| :: s.downs[i] < |s.waiters|
    requires forall i, j | 0 <= i < j < |s.downs| :: s.downs[i] != s.downs[j]
    ensures Counts(s)
  {
  }

  lemma SweepKept(s: State, a: Action, k: nat)
    requires Inv(s) && Enabled(s, a) && k < |Apply(s, a).sweeps|
    ensures SweepOk(Apply(s, a), k)
  {
    if k < |s.sweeps| {
      assert SweepOk(s, k);
    }
    if a.Register? {
      assert WaiterOk(s, a.w);
    } else if a.SweepNext? {
      assert SweepOk(s, a.k);
    }
    hide WaitersOk, SweepsOk, Counts;
  }

  /** The waiter an action works on. */
  predicate Touches(s: State, a: Action, w: nat)
    requires Enabled(s, a)
  {
    a == Register(w) || (a.SweepNext? && s.sweeps[a.k].i < |s.downs| && s.downs[s.sweeps[a.k].i] == w)
  }

  /** Sweeps only come past waiters they touch, unless they are new. */
  lemma AheadKept(s: State, a: Action, k: nat, w: nat)
    requires Inv(s) && Enabled(s, a) && w < |s.waiters| && !Touches(s, a, w) && Pending(s.waiters[w])
    requires k < |s.sweeps|
    ensures Ahead(Apply(s, a), k, w) <==> Ahead(s, k, w)
  {
    var s' := Apply(s, a);
    assert WaiterOk(s, w) && SweepOk(s, k);
    if a.SweepNext? && a.k == k {
      var i := s.sweeps[k].i;
      if i < |s.downs| {
        assert s.downs[..i + 1] == s.downs[..i] + [s.downs[i]];
      } else {
        assert s.downs[..i] == s.downs;
      }
    } else if a.Register? && s.waiters[a.w].pc.Push? && s.sweeps[k].At? {
      assert s'.downs[..s.sweeps[k].i] == s.downs[..s.sweeps[k].i];
    }
  }

  /** A new sweep is ahead of everyone, and finds no unfinished node. */
  lemma SomeAheadKept(s: State, a: Action, w: nat)
    requires Inv(s) && Enabled(s, a) && w < |s.waiters| && !Touches(s, a, w) && Pending(s.waiters[w])
    ensures SomeAhead(Apply(s, a), w) <==> SomeAhead(s, w) || (a.Finish? && s.count == 1)
  {
    var s' := Apply(s, a);
    forall k | 0 <= k < |s.sweeps| ensures Ahead(s', k, w) <==> Ahead(s, k, w) {
      AheadKept(s, a, k, w);
    }
    if a.Finish? && s.count == 1 {
      assert Ahead(s', |s.sweeps|, w);
    }
  }

  lemma FinishKeepsWaiter(s: State, n: nat, w: nat)
    requires Inv(s) && Enabled(s, Finish(n)) && w < |s.waiters|
    ensures WaiterOk(Apply(s, Finish(n)), w)
  {
    assert WaiterOk(s, w);
    if Pending(s.waiters[w]) {
      SomeAheadKept(s, Finish(n), w);
    }
    assert |s.unfinished - {n}| == s.count - 1;
    hide WaitersOk, SweepsOk, SomeAhead, StageOk;
  }

  lemma UntouchedKept(s: State, a: Action, w: nat)
    requires Inv(s) && Enabled(s, a) && w < |s.waiters| && !Touches(s, a, w) && !a.Finish?
    ensures w < |Apply(s, a).waiters| && WaiterOk(Apply(s, a), w)
  {
    assert WaiterOk(s, w);
    if a.Register? {
      assert WaiterOk(s, a.w);
    } else if a.SweepNext? {
      assert SweepOk(s, a.k);
    }
    if Pending(s.waiters[w]) {
      SomeAheadKept(s, a, w);
    }
    hide WaitersOk, SweepsOk, SomeAhead, StageOk;
  }

  /** While a registrar holds the lock, every unfinished sweep has yet to start. */
  lemma AheadWhileLocked(s: State, w: nat)
    requires Inv(s) && w < |s.waiters| && HoldsLock(s.waiters[w].pc)
    ensures SomeAhead(s, w) <==> !NoSweepDue(s)
    ensures forall k | 0 <= k < |s.sweeps| :: !s.sweeps[k].At?
  {
    assert WaiterOk(s, w);
    forall k | 0 <= k < |s.sweeps| ensures !s.sweeps[k].At? && (Ahead(s, k, w) <==> !s.sweeps[k].Done?) {
      assert SweepOk(s, k);
    }
  }

  lemma RegisteredKept(s: State, w: nat)
    requires Inv(s) && Enabled(s, Register(w))
    ensures w < |Apply(s, Register(w)).waiters| && WaiterOk(Apply(s, Register(w)), w)
  {
    var s' := Apply(s, Register(w));
    assert WaiterOk(s, w);
    if HoldsLock(s.waiters[w].pc) {
      AheadWhileLocked(s, w);
      if s.waiters[w].pc.Reload? || s.waiters[w].pc.Push? || s.waiters[w].pushed {
        assert forall k :: Ahead(s', k, w) <==> Ahead(s, k, w);
      }
    }
    hide WaitersOk, SweepsOk;
  }

  lemma SweptKept(s: State, k: nat, w: nat)
    requires Inv(s) && Enabled(s, SweepNext(k)) && w < |s.waiters| && Touches(s, SweepNext(k), w)
    ensures w < |Apply(s, SweepNext(k)).waiters| && WaiterOk(Apply(s, SweepNext(k)), w)
  {
    assert WaiterOk(s, w) && SweepOk(s, k);
    hide WaitersOk, SweepsOk;
  }

  lemma StepKeeps(s: State, a: Action)
    requires Inv(s) && Enabled(s, a)
    ensures Inv(Apply(s, a))
  {
    CountsKept(s, a);
    var s' := Apply(s, a);
    forall k | 0 <= k < |s'.sweeps| ensures SweepOk(s', k) {
      SweepKept(s, a, k);
    }
    forall w | 0 <= w < |s'.waiters| ensures WaiterOk(s', w) {
      if a.Finish? {
        FinishKeepsWaiter(s, a.n, w);
      } else if w < |s.waiters| && !Touches(s, a, w) {
        UntouchedKept(s, a, w);
      } else if a.Register? {
        RegisteredKept(s, w);
      } else if a.SweepNext? {
        SweptKept(s, a.k, w);
      }
    }
  }

  ghost predicate IsRun(states: seq<State>, acts: seq<Action>) {
    && |states| == |acts| + 1 && IsInit(states[0])
    && (forall i | 0 <= i < |acts| :: Enabled(states[i], acts[i]) && states[i + 1] == Apply(states[i], acts[i]))
  }

  ghost predicate Reachable(s: State) {
    exists states, acts :: IsRun(states, acts) && states[|acts|] == s
  }

  lemma {:induction false} RunKeeps(states: seq<State>, acts: seq<Action>, n: nat)
    requires IsRun(states, acts) && n <= |acts|
    ensures Inv(states[n])
  {
    if n > 0 {
      RunKeeps(states, acts, n - 1);
      hide Inv, Enabled, Apply;
      StepKeeps(states[n - 1], acts[n - 1]);
    }
  }

  lemma ReachableInv(s: State)
    requires Reachable(s)
    ensures Inv(s)
  {
    var states, acts :| IsRun(states, acts) && states[|acts|] == s;
    RunKeeps(states, acts, |acts|);
  }

  lemma ReachableStart(s: State)
    requires IsInit(s)
    ensures Reachable(s)
  {
    var none: seq<Action> := [];
    assert IsRun([s], none) && [s][|none|] == s;
  }

  lemma ReachableStep(s: State, a: Action)
    requires Reachable(s) && Enabled(s, a)
    ensures Reachable(Apply(s, a))
  {
    hide Enabled, Apply, IsInit;
    var states, acts :| IsRun(states, acts) && states[|acts|] == s;
    var states', acts' := states + [Apply(s, a)], acts + [a];
    forall i | 0 <= i < |acts'| ensures Enabled(states'[i], acts'[i]) && states'[i + 1] == Apply(states'[i], acts'[i]) {
      assert i < |acts| ==> Enabled(states[i], acts[i]) && states'[i + 1] == states[i + 1];
    }
    assert IsRun(states', acts') && states'[0] == states[0];
  }

  // ---------------------------------------------------------------- what waiters may rely on

  /** Never twice, however often the count returns to zero and the list is swept again. */
  lemma ReleasedAtMostOnce(s: State, w: nat)
    requires Reachable(s) && w < |s.waiters|
    ensures s.waiters[w].released <= 1
  {
    ReachableInv(s);
    assert WaiterOk(s, w);
  }

  /** No waiter is forgotten: at count zero, with no sweep due and no registration under way, all are released. */
  lemma NoWaiterLost(s: State, w: nat)
    requires Reachable(s) && w < |s.waiters| && s.waiters[w].pc.Out? && s.count == 0 && NoSweepDue(s)
    ensures s.waiters[w].released == 1
  {
    ReachableInv(s);
    assert WaiterOk(s, w);
  }

  /**
   * A waiter registered while no sweep was due is released only when every node created
   * before that has finished; one that found the count at zero, when all had finished.
   */
  lemma ReleaseIsTimely(s: State, a: Action, w: nat)
    requires Reachable(s) && Enabled(s, a) && w < |s.waiters|
    requires Apply(s, a).waiters[w].released > s.waiters[w].released
    ensures if s.waiters[w].pushed then s.waiters[w].clean ==> Since(s, s.waiters[w].upto) else s.unfinished == {}
  {
    ReachableInv(s);
    assert WaiterOk(s, w);
    if a.SweepNext? {
      assert SweepOk(s, a.k);
      if s.waiters[w].pushed {
        assert s.downs[s.sweeps[a.k].i] == w;
        assert Ahead(s, a.k, w);
      }
    }
  }

  /** Either test lets the waiter be ready exactly if all nodes have finished; else it goes for the lock, or into the list. */
  lemma ReadyIffFinished(s: State, w: nat)
    requires Reachable(s) && Enabled(s, Register(w)) && (s.waiters[w].pc.Load? || s.waiters[w].pc.Reload?)
    ensures var (x, y) := (s.waiters[w], Apply(s, Register(w)).waiters[w]);
      if s.unfinished == {} then y.released == x.released + 1 && y.pc == if x.pc.Load? then Out else Leave
      else y.released == x.released && y.pc == if x.pc.Load? then NeedLock else Push
  {
    ReachableInv(s);
    assert s.count == 0 <==> s.unfinished == {};
  }

  /** A finish makes a sweep due exactly if it leaves no node unfinished. */
  lemma SweepDueIff(s: State, n: nat)
    requires Reachable(s) && Enabled(s, Finish(n))
    ensures Apply(s, Finish(n)).sweeps == s.sweeps + if s.unfinished == {n} then [Due] else []
  {
    ReachableInv(s);
    SizeWithout(s.unfinished, n);
    assert s.count == 1 ==> s.unfinished - {n} == {};
    assert s.unfinished == {n} ==> s.count == 1;
    assert s.sweeps + [] == s.sweeps;
  }

  /** A finisher that brought the count to zero is delayed; a node and a waiter come in between. */
  lemma LateSweep() returns (s: State)
    ensures Reachable(s) && s == State(1, {1}, 2, Nobody, [], [Waiter(Load, 0, false, 0, 0, false)], [Due])
  {
    hide Reachable;
    var s0 := State(0, {}, 0, Nobody, [], [], []);
    ReachableStart(s0);
    var s1 := State(1, {0}, 1, Nobody, [], [], []);
    Go(s0, Create, s1);
    var s2 := State(0, {}, 1, Nobody, [], [], [Due]);
    Go(s1, Finish(0), s2);
    var s3 := State(1, {1}, 2, Nobody, [], [], [Due]);
    Go(s2, Create, s3);
    s := s3.(waiters := [Waiter(Load, 0, false, 0, 0, false)]);
    Go(s3, NewWaiter, s);
  }

  /**
   * Without that condition a release can be early: a finisher that brought the count to zero
   * is delayed, a node is created, a waiter registers, and the late sweep releases it.
   */
  lemma EarlyRelease() returns (s: State, a: Action)
    ensures Reachable(s) && Enabled(s, a) && |s.waiters| == 1 && s.waiters[0].pushed
    ensures Apply(s, a).waiters[0].released > s.waiters[0].released && !Since(s, s.waiters[0].upto)
  {
    hide Reachable;
    var late := LateSweep();
    var x := late.waiters[0];
    var found := late.(waiters := [x.(pc := NeedLock)]);
    Go(late, Register(0), found);
    var locked := late.(waiters := [x.(pc := Reload)], lock := Registrar(0));
    Go(found, Register(0), locked);
    var rechecked := late.(waiters := [x.(pc := Push, upto := 2)], lock := Registrar(0));
    assert !locked.sweeps[0].Done?;
    Go(locked, Register(0), rechecked);
    var y := Waiter(Leave, 1, true, 0, 2, false);
    var pushed := late.(waiters := [y], downs := [0], lock := Registrar(0));
    Go(rechecked, Register(0), pushed);
    var out := late.(waiters := [y.(pc := Out)], downs := [0]);
    Go(pushed, Register(0), out);
    s := late.(waiters := [y.(pc := Out)], downs := [0], lock := Sweeper(0), sweeps := [At(0)]);
    Go(out, SweepLock(0), s);
    a := SweepNext(0);
  }

  lemma Go(s: State, a: Action, t: State)
    requires Reachable(s) && Enabled(s, a) && t == Apply(s, a)
    ensures Reachable(t)
  {
    ReachableStep(s, a);
  }

  // ---------------------------------------------------------------- exactly when a release can be early

  ghost predicate Releases(s: State, a: Action, w: nat) {
    && Enabled(s, a) && w < |s.waiters| && w < |Apply(s, a).waiters|
    && Apply(s, a).waiters[w].released > s.waiters[w].released
  }

  /** The actions lead to the release of w before all nodes created before number `upto` have finished. */
  ghost predicate EarlyPath(s: State, acts: seq<Action>, w: nat, upto: nat)
    decreases |acts|
  {
    && acts != [] && Enabled(s, acts[0])
    && if |acts| == 1 then Releases(s, acts[0], w) && !Since(s, upto)
       else EarlyPath(Apply(s, acts[0]), acts[1..], w, upto)
  }

  /** Past the second test nothing changes what the waiter noted there. */
  predicate Noted(s: State, w: nat, upto: nat) {
    && w < |s.waiters| && s.waiters[w].clean && s.waiters[w].upto == upto
    && (s.waiters[w].pc.Push? || s.waiters[w].pc.Leave? || s.waiters[w].pc.Out?)
  }

  lemma {:induction false} CleanIsNeverEarly(s: State, acts: seq<Action>, w: nat, upto: nat)
    requires Reachable(s) && Noted(s, w, upto)
    ensures !EarlyPath(s, acts, w, upto)
    decreases |acts|
  {
    hide Reachable;
    if EarlyPath(s, acts, w, upto) {
      if |acts| == 1 {
        ReleaseIsTimely(s, acts[0], w);
      } else {
        ReachableStep(s, acts[0]);
        CleanIsNeverEarly(Apply(s, acts[0]), acts[1..], w, upto);
      }
    }
  }

  /** A sweep under way that has yet to come past w releases it, with no node finishing in between. */
  lemma {:induction false} SweepReleases(s: State, k: nat, w: nat, upto: nat) returns (acts: seq<Action>)
    requires Reachable(s) && k < |s.sweeps| && s.sweeps[k].At? && Ahead(s, k, w) && !Since(s, upto)
    requires w < |s.waiters| && s.waiters[w].pushed && s.waiters[w].wait == 1
    ensures EarlyPath(s, acts, w, upto)
    decreases |s.downs| - s.sweeps[k].i
  {
    hide Reachable;
    ReachableInv(s);
    assert WaiterOk(s, w) && SweepOk(s, k);
    var i := s.sweeps[k].i;
    assert s.downs[..|s.downs|] == s.downs;
    acts := [SweepNext(k)];
    if s.downs[i] != w {
      var s' := Apply(s, SweepNext(k));
      assert s.downs[..i + 1] == s.downs[..i] + [s.downs[i]];
      ReachableStep(s, SweepNext(k));
      var rest := SweepReleases(s', k, w, upto);
      acts := [SweepNext(k)] + rest;
      assert acts[1..] == rest;
    }
  }

  /** One action more in front. */
  lemma Before(s: State, a: Action, rest: seq<Action>, w: nat, upto: nat)
    requires Enabled(s, a) && EarlyPath(Apply(s, a), rest, w, upto)
    ensures EarlyPath(s, [a] + rest, w, upto)
  {
    assert ([a] + rest)[1..] == rest;
  }

  /** A sweep due when w found the graph unfinished can release it at once. */
  lemma DueReleasesEarly(s: State, w: nat, k: nat) returns (acts: seq<Action>)
    requires Reachable(s) && w < |s.waiters| && s.waiters[w].pc.Push? && k < |s.sweeps| && s.sweeps[k].Due?
    requires !Since(s, s.waiters[w].upto)
    ensures EarlyPath(s, acts, w, s.waiters[w].upto)
  {
    hide Reachable;
    ReachableInv(s);
    assert WaiterOk(s, w);
    var upto := s.waiters[w].upto;
    var s1 := Apply(s, Register(w));
    ReachableStep(s, Register(w));
    var s2 := Apply(s1, Register(w));
    ReachableStep(s1, Register(w));
    var s3 := Apply(s2, SweepLock(k));
    ReachableStep(s2, SweepLock(k));
    hide Inv;
    assert s3.downs[..0] == [];
    acts := SweepReleases(s3, k, w, upto);
    Before(s2, SweepLock(k), acts, w, upto);
    acts := [SweepLock(k)] + acts;
    Before(s1, Register(w), acts, w, upto);
    acts := [Register(w)] + acts;
    Before(s, Register(w), acts, w, upto);
    acts := [Register(w)] + acts;
  }

  /**
   * When create_edges finds the graph unfinished under the lock, every continuation releases
   * the waiter in time if and only if no sweep is due at that moment.
   */
  lemma TimelyIffNoSweepDue(s: State, w: nat)
    requires Reachable(s) && Enabled(s, Register(w)) && s.waiters[w].pc.Reload? && s.count > 0
    ensures NoSweepDue(s) <==> forall acts :: !EarlyPath(Apply(s, Register(w)), acts, w, s.created)
  {
    var s' := Apply(s, Register(w));
    ReachableStep(s, Register(w));
    ReachableInv(s);
    AheadWhileLocked(s, w);
    hide Reachable;
    if NoSweepDue(s) {
      forall acts ensures !EarlyPath(s', acts, w, s.created) {
        CleanIsNeverEarly(s', acts, w, s.created);
      }
    } else {
      var k :| 0 <= k < |s.sweeps| && !s.sweeps[k].Done?;
      assert s.unfinished != {};
      var n :| n in s.unfinished;
      assert !Since(s', s.created);
      var acts := DueReleasesEarly(s', w, k);
    }
  }

  // ---------------------------------------------------------------- on the fields of the graph

  /** The waiting side of a graph: its count, its list and its mutex, and the waiters' own counts. */
  class GraphCell {
    var waitCount: int
    var downStreams: seq<nat>
    var locked: bool
    var counts: seq<int>
    ghost var s: State

    ghost predicate Valid()
      reads this
    {
      && Reachable(s) && waitCount == s.count && downStreams == s.downs && (locked <==> !s.lock.Nobody?)
      && |counts| == |s.waiters| && (forall w | 0 <= w < |counts| :: counts[w] == s.waiters[w].wait)
    }

    constructor ()
      ensures Valid() && IsInit(s)
    {
      waitCount, downStreams, locked, counts := 0, [], false, [];
      s := State(0, {}, 0, Nobody, [], [], []);
      new;
      ReachableStart(s);
    }

    method AddNode()
      requires Valid()
      modifies this`s, this`waitCount
      ensures Valid() && s == Apply(old(s), Create)
    {
      hide Reachable;
      waitCount := waitCount + 1;
      ReachableStep(s, Create);
      s := Apply(s, Create);
    }

    method FinishFetchSub(ghost n: nat) returns (sweep: bool)
      requires Valid() && Enabled(s, Finish(n))
      modifies this`s, this`waitCount
      ensures Valid() && s == Apply(old(s), Finish(n)) && (sweep <==> |s.sweeps| > |old(s).sweeps|)
    {
      hide Reachable;
      sweep := waitCount == 1;
      waitCount := waitCount - 1;
      ReachableStep(s, Finish(n));
      s := Apply(s, Finish(n));
    }

    method LockForSweep(ghost k: nat)
      requires Valid() && Enabled(s, SweepLock(k))
      modifies this`s, this`locked
      ensures Valid() && s == Apply(old(s), SweepLock(k)) && !old(locked)
    {
      hide Reachable;
      locked := true;
      ReachableStep(s, SweepLock(k));
      s := Apply(s, SweepLock(k));
    }

    /** The body of the loop over the list: true for a waiter that is ready now. */
    method CountWaiterOff(ghost k: nat, i: nat) returns (isReady: bool)
      requires Valid() && Enabled(s, SweepNext(k)) && s.sweeps[k] == At(i) && i < |downStreams|
      modifies this`s, this`counts
      ensures Valid() && s == Apply(old(s), SweepNext(k))
      ensures var w := downStreams[i]; isReady <==> s.waiters[w].released > old(s).waiters[w].released
    {
      hide Reachable;
      var w := downStreams[i];
      isReady := counts[w] == 1;
      counts := counts[w := counts[w] - 1];
      ReachableStep(s, SweepNext(k));
      s := Apply(s, SweepNext(k));
    }

    method UnlockAfterSweep(ghost k: nat, i: nat)
      requires Valid() && Enabled(s, SweepNext(k)) && s.sweeps[k] == At(i) && i >= |downStreams|
      modifies this`s, this`locked
      ensures Valid() && s == Apply(old(s), SweepNext(k)) && s.sweeps[k].Done?
    {
      hide Reachable;
      locked := false;
      ReachableStep(s, SweepNext(k));
      s := Apply(s, SweepNext(k));
    }

    method AddWaiter() returns (w: nat)
      requires Valid()
      modifies this`s, this`counts
      ensures Valid() && s == Apply(old(s), NewWaiter) && w == |old(s).waiters|
    {
      hide Reachable;
      w := |counts|;
      counts := counts + [0];
      ReachableStep(s, NewWaiter);
      s := Apply(s, NewWaiter);
    }

    /** Either test of the count: true if the waiter is ready at once. */
    method TestCount(w: nat) returns (isReady: bool)
      requires Valid() && Enabled(s, Register(w)) && (s.waiters[w].pc.Load? || s.waiters[w].pc.Reload?)
      modifies this`s
      ensures Valid() && s == Apply(old(s), Register(w)) && (isReady <==> s.waiters[w].released > old(s).waiters[w].released)
    {
      hide Reachable;
      isReady := waitCount == 0;
      ReachableStep(s, Register(w));
      s := Apply(s, Register(w));
    }

    method LockToRegister(w: nat)
      requires Valid() && Enabled(s, Register(w)) && s.waiters[w].pc.NeedLock?
      modifies this`s, this`locked
      ensures Valid() && s == Apply(old(s), Register(w)) && !old(locked)
    {
      hide Reachable;
      locked := true;
      ReachableStep(s, Register(w));
      s := Apply(s, Register(w));
    }

    method PushWaiter(w: nat)
      requires Valid() && Enabled(s, Register(w)) && s.waiters[w].pc.Push?
      modifies this`s, this`counts, this`downStreams
      ensures Valid() && s == Apply(old(s), Register(w))
    {
      hide Reachable;
      counts := counts[w := counts[w] + 1];
      downStreams := downStreams + [w];
      ReachableStep(s, Register(w));
      s := Apply(s, Register(w));
    }

    method UnlockAfterRegister(w: nat)
      requires Valid() && Enabled(s, Register(w)) && s.waiters[w].pc.Leave?
      modifies this`s, this`locked
      ensures Valid() && s == Apply(old(s), Register(w))
    {
      hide Reachable;
      locked := false;
      ReachableStep(s, Register(w));
      s := Apply(s, Register(w));
    }
  }
}

/**
 * When the lock-free queue may refuse a call: only if what the call could have had is spoken
 * for, by tickets given out, by calls that have a number and no decision, or by misses
 * since the call began.
 */
module FreeLockRefusal {
  import opened Common
  import opened FreeLockGate
  import opened FreeLockQueue
  import opened FreeLockProgress
  import opened FreeLockStale
  import Cyclic

  // ---------------------------------------------------------------- one check

  /** try_enqueue refuses at its second check exactly if this many slots are spoken for. */
  lemma SecondFullIff(s: State, c: nat, m: nat, a: nat)
    requires Reachable(s) && c < |s.calls| && s.calls[c].Enq? && s.calls[c].gate == Recheck(m, a)
    ensures Sized(s) && Enabled(s, Step(c))
    ensures a in Apply(s, Step(c)).w.lost
        <==> |s.w.won| + Undecided(s.calls, WriteEnd) + (s.w.missed - m) >= |s.rOwner| + s.cap + (s.w.ahead - a)
  {
    hide Reachable;
    ReachableInv(s);
    assert a !in s.w.lost && a < s.w.ahead by { assert PcOk(Recheck(m, a), s.w); }
    AheadIs(s.calls, WriteEnd, s.w, |s.wOwner|, |s.rOwner| + s.cap);
  }

  /** And at its first check. */
  lemma FirstFullIff(s: State, c: nat, p: nat, m: nat)
    requires Reachable(s) && c < |s.calls| && s.calls[c].Enq? && s.calls[c].gate == LoadAhead(p, m)
    ensures Sized(s) && Enabled(s, Step(c))
    ensures Apply(s, Step(c)).calls[c].Failed?
        <==> |s.w.won| + Undecided(s.calls, WriteEnd) + (s.w.missed - m) >= p + s.cap
  {
    hide Reachable;
    ReachableInv(s);
    AheadIs(s.calls, WriteEnd, s.w, |s.wOwner|, |s.rOwner| + s.cap);
  }

  /** try_dequeue refuses exactly if this many items are spoken for. */
  lemma SecondEmptyIff(s: State, c: nat, m: nat, a: nat)
    requires Reachable(s) && c < |s.calls| && s.calls[c] == Deq(Recheck(m, a))
    ensures Sized(s) && Enabled(s, Step(c))
    ensures a in Apply(s, Step(c)).r.lost
        <==> |s.r.won| + Undecided(s.calls, ReadEnd) + (s.r.missed - m) >= |s.wOwner| + (s.r.ahead - a)
  {
    hide Reachable;
    ReachableInv(s);
    assert a !in s.r.lost && a < s.r.ahead by { assert PcOk(Recheck(m, a), s.r); }
    AheadIs(s.calls, ReadEnd, s.r, |s.rOwner|, |s.wOwner|);
  }

  lemma FirstEmptyIff(s: State, c: nat, p: nat, m: nat)
    requires Reachable(s) && c < |s.calls| && s.calls[c] == Deq(LoadAhead(p, m))
    ensures Sized(s) && Enabled(s, Step(c))
    ensures Apply(s, Step(c)).calls[c].Failed?
        <==> |s.r.won| + Undecided(s.calls, ReadEnd) + (s.r.missed - m) >= p
  {
    hide Reachable;
    ReachableInv(s);
    AheadIs(s.calls, ReadEnd, s.r, |s.rOwner|, |s.wOwner|);
  }

  // ---------------------------------------------------------------- one call

  /** What a call at its gate has loaded is not older than the call, which began with these counters. */
  predicate Since(pc: GatePc, peer: nat, missed: nat) {
    match pc
    case LoadPeer => true
    case LoadMissed(p) => p >= peer
    case LoadAhead(p, m) => p >= peer && m >= missed
    case FetchAhead(m) => m >= missed
    case Recheck(m, _) => m >= missed
    case _ => true
  }

  ghost predicate CallSince(s0: State, s: State, c: nat) {
    c < |s.calls| &&
    match s.calls[c]
    case Enq(_, pc) => Since(pc, |s0.rOwner|, s0.w.missed)
    case Deq(pc) => Since(pc, |s0.wOwner|, s0.r.missed)
    case _ => true
  }

  /** Counters never go back. */
  ghost predicate Later(s0: State, s: State) {
    && s.cap == s0.cap && |s.rOwner| >= |s0.rOwner| && |s.wOwner| >= |s0.wOwner|
    && s.w.missed >= s0.w.missed && s.r.missed >= s0.r.missed
  }

  lemma StepSince(s0: State, s: State, a: Action, c: nat)
    requires Sized(s) && Enabled(s, a) && Later(s0, s) && CallSince(s0, s, c)
    ensures Later(s0, Apply(s, a)) && CallSince(s0, Apply(s, a), c)
  {
    hide Cyclic.Slot;
  }

  lemma {:induction false} RunSince(states: seq<State>, acts: seq<Action>, i: nat, n: nat, c: nat)
    requires IsRun(states, acts) && i <= n <= |acts| && c < |states[i].calls|
    requires states[i].calls[c] == Deq(LoadPeer) || (states[i].calls[c].Enq? && states[i].calls[c].gate.LoadPeer?)
    ensures Later(states[i], states[n]) && CallSince(states[i], states[n], c)
    decreases n - i
  {
    hide Sized, Enabled, Apply;
    if i < n {
      RunSince(states, acts, i, n - 1, c);
      StepSince(states[i], states[n - 1], acts[n - 1], c);
    }
  }

  lemma PrefixReaches(states: seq<State>, acts: seq<Action>, n: nat)
    requires IsRun(states, acts) && IsInit(states[0]) && n <= |acts|
    ensures Reachable(states[n])
  {
    hide Sized, Enabled, Apply, IsInit;
    var states', acts' := states[..n + 1], acts[..n];
    assert IsRun(states', acts') && states'[|acts'|] == states[n];
  }

  /** Step n of a run is a check that refuses call c. */
  ghost predicate RefusesEnqueue(s: State, s': State, c: nat) {
    c < |s.calls| && c < |s'.calls| && s.calls[c].Enq?
    && match s.calls[c].gate
       case LoadAhead(_, _) => s'.calls[c].Failed?
       case Recheck(_, a) => s'.calls[c] == Enq(s.calls[c].item, Miss(a))
       case _ => false
  }

  ghost predicate RefusesDequeue(s: State, s': State, c: nat) {
    c < |s.calls| && c < |s'.calls| && s.calls[c].Deq?
    && match s.calls[c].gate
       case LoadAhead(_, _) => s'.calls[c].Failed?
       case Recheck(_, a) => s'.calls[c] == Deq(Miss(a))
       case _ => false
  }

  /**
   * In every run: if a call of try_enqueue that began in state i is refused in step n, then all
   * slots the readers had freed when it began are taken by tickets let in, by undecided calls,
   * or by misses since it began; at the second check also all they have freed by then.
   */
  lemma RefusedOnlyIfFull(states: seq<State>, acts: seq<Action>, i: nat, n: nat, c: nat)
    requires IsRun(states, acts) && IsInit(states[0]) && i <= n < |acts| && acts[n] == Step(c)
    requires c < |states[i].calls| && states[i].calls[c].Enq? && states[i].calls[c].gate.LoadPeer?
    requires RefusesEnqueue(states[n], states[n + 1], c)
    ensures var s := states[n];
      && |s.w.won| + Undecided(s.calls, WriteEnd) + (s.w.missed - states[i].w.missed) >= |states[i].rOwner| + s.cap
      && (s.calls[c].gate.Recheck? ==>
            |s.w.won| + Undecided(s.calls, WriteEnd) + (s.w.missed - states[i].w.missed) > |s.rOwner| + s.cap)
  {
    hide Reachable, Sized, Enabled, IsInit;
    PrefixReaches(states, acts, n);
    RunSince(states, acts, i, n, c);
    var s := states[n];
    if s.calls[c].gate.LoadAhead? {
      FirstFullIff(s, c, s.calls[c].gate.peer, s.calls[c].gate.missed);
    } else {
      SecondFullIff(s, c, s.calls[c].gate.missed, s.calls[c].gate.number);
      ReachableInv(s);
      assert PcOk(s.calls[c].gate, s.w);
    }
  }

  /** And of try_dequeue: all items written when it began are spoken for. */
  lemma RefusedOnlyIfEmpty(states: seq<State>, acts: seq<Action>, i: nat, n: nat, c: nat)
    requires IsRun(states, acts) && IsInit(states[0]) && i <= n < |acts| && acts[n] == Step(c)
    requires c < |states[i].calls| && states[i].calls[c] == Deq(LoadPeer)
    requires RefusesDequeue(states[n], states[n + 1], c)
    ensures var s := states[n];
      && |s.r.won| + Undecided(s.calls, ReadEnd) + (s.r.missed - states[i].r.missed) >= |states[i].wOwner|
      && (s.calls[c].gate.Recheck? ==>
            |s.r.won| + Undecided(s.calls, ReadEnd) + (s.r.missed - states[i].r.missed) > |s.wOwner|)
  {
    hide Reachable, Sized, Enabled, IsInit;
    PrefixReaches(states, acts, n);
    RunSince(states, acts, i, n, c);
    var s := states[n];
    if s.calls[c].gate.LoadAhead? {
      FirstEmptyIff(s, c, s.calls[c].gate.peer, s.calls[c].gate.missed);
    } else {
      SecondEmptyIff(s, c, s.calls[c].gate.missed, s.calls[c].gate.number);
      ReachableInv(s);
      assert PcOk(s.calls[c].gate, s.r);
    }
  }
}

/**
 * What becomes of the lock-free queue when its admission checks work on 64-bit words: as long
 * as every check is fresh nothing changes, and beyond that a late call overruns the queue.
 */
module FreeLockOverrun {
  import opened Common
  import opened FreeLockWords
  import opened FreeLockGate
  import opened FreeLockQueue
  import opened FreeLockProgress
  import opened FreeLockStale
  import opened Cyclic

  // ---------------------------------------------------------------- a full queue, an empty queue

  /** Beyond the window the fullness test takes a full queue for one with room. */
  lemma StaleTestAdmits(number: nat, missed: nat, peer: nat, capacity: nat)
    requires WINDOW <= number - missed - capacity - peer < TWO64
    ensures !IsFull(Word(peer), Word(Word(number) - Word(missed)), capacity)
  {
    WordDiff(number, missed);
    IsFullExact(peer, number - missed, capacity);
  }

  /** The write end has let in all it may. */
  ghost predicate Full(s: State) {
    |s.w.won| == |s.rOwner| + s.cap
  }

  /** At a full queue the first check of try_enqueue is right exactly while its loads are fresh. */
  lemma FirstCheckRightIff(s: State, c: nat, p: nat, m: nat)
    requires Reachable(s) && s.cap <= MAXCAP && Full(s)
    requires c < |s.calls| && s.calls[c].Enq? && s.calls[c].gate == LoadAhead(p, m)
    requires s.w.ahead - m - s.cap - p < TWO64
    ensures IsFull(Word(p), Word(Word(s.w.ahead) - Word(m)), s.cap)
        <==> LoadFresh(s.w, Undecided(s.calls, WriteEnd), |s.rOwner|, p, m)
  {
    hide Word, IsFull, Reachable;
    ReachableInv(s);
    ReachablePeers(s);
    assert PeerOk(s, c);
    AheadIs(s.calls, WriteEnd, s.w, |s.wOwner|, |s.rOwner| + s.cap);
    LoadBounds(s.calls, c, WriteEnd, s.w, |s.wOwner|, |s.rOwner| + s.cap, p, m);
    WordDiff(s.w.ahead, m);
    IsFullExact(p, s.w.ahead - m, s.cap);
  }

  /** The exact second check at a full queue refuses, whatever number the call has. */
  lemma FullRefuses(s: State, c: nat, m: nat, a: nat)
    requires Reachable(s) && Full(s) && c < |s.calls| && s.calls[c].Enq? && s.calls[c].gate == Recheck(m, a)
    ensures a - m >= |s.rOwner| + s.cap
  {
    hide Reachable;
    ReachableInv(s);
    assert a !in s.w.won by { assert PcOk(Recheck(m, a), s.w); }
    if a - m < |s.rOwner| + s.cap {
      EnqGateIs(s, c);
      ReachableStep(s, Step(c));
      var s' := Apply(s, Step(c));
      assert s'.w.won == s.w.won + {a};
      ReachableInv(s');
      hide Inv;
      AheadIs(s'.calls, WriteEnd, s'.w, |s'.wOwner|, |s'.rOwner| + s'.cap);
    }
  }

  /** The second check of try_enqueue is the one that admits. At a full queue it is right exactly in this range. */
  lemma SecondCheckRightIff(s: State, c: nat, m: nat, a: nat)
    requires Reachable(s) && s.cap <= MAXCAP && Full(s)
    requires c < |s.calls| && s.calls[c].Enq? && s.calls[c].gate == Recheck(m, a)
    requires a - m - s.cap - |s.rOwner| < TWO64
    ensures IsFull(Word(|s.rOwner|), Word(Word(a) - Word(m)), s.cap)
        <==> s.w.missed - m + Undecided(s.calls, WriteEnd) < WINDOW + (s.w.ahead - a)
  {
    hide Word, IsFull, Reachable;
    ReachableInv(s);
    FullRefuses(s, c, m, a);
    AheadIs(s.calls, WriteEnd, s.w, |s.wOwner|, |s.rOwner| + s.cap);
    WordDiff(a, m);
    IsFullExact(|s.rOwner|, a - m, s.cap);
  }

  /** The read end has let in all it may. */
  ghost predicate Drained(s: State) {
    |s.r.won| == |s.wOwner|
  }

  lemma DrainedRefuses(s: State, c: nat, m: nat, a: nat)
    requires Reachable(s) && Drained(s) && c < |s.calls| && s.calls[c] == Deq(Recheck(m, a))
    ensures a - m >= |s.wOwner|
  {
    hide Reachable;
    ReachableInv(s);
    assert a !in s.r.won by { assert PcOk(Recheck(m, a), s.r); }
    if a - m < |s.wOwner| {
      DeqGateIs(s, c);
      ReachableStep(s, Step(c));
      var s' := Apply(s, Step(c));
      assert s'.r.won == s.r.won + {a};
      ReachableInv(s');
      hide Inv;
      AheadIs(s'.calls, ReadEnd, s'.r, |s'.rOwner|, |s'.wOwner|);
    }
  }

  /** The same at the read end: both checks of try_dequeue at a queue without an item to take. */
  lemma SecondEmptyRightIff(s: State, c: nat, m: nat, a: nat)
    requires Reachable(s) && Drained(s) && c < |s.calls| && s.calls[c] == Deq(Recheck(m, a))
    requires a - m - |s.wOwner| < TWO64
    ensures IsEmpty(Word(Word(a) - Word(m)), Word(|s.wOwner|))
        <==> s.r.missed - m + Undecided(s.calls, ReadEnd) < WINDOW + (s.r.ahead - a)
  {
    hide Word, IsEmpty, Reachable;
    ReachableInv(s);
    DrainedRefuses(s, c, m, a);
    AheadIs(s.calls, ReadEnd, s.r, |s.rOwner|, |s.wOwner|);
    WordDiff(a, m);
    IsEmptyExact(a - m, |s.wOwner|);
  }

  lemma FirstEmptyRightIff(s: State, c: nat, p: nat, m: nat)
    requires Reachable(s) && Drained(s) && c < |s.calls| && s.calls[c] == Deq(LoadAhead(p, m))
    requires s.r.ahead - m - p < TWO64
    ensures IsEmpty(Word(Word(s.r.ahead) - Word(m)), Word(p))
        <==> LoadFresh(s.r, Undecided(s.calls, ReadEnd), |s.wOwner|, p, m)
  {
    hide Word, IsEmpty, Reachable;
    ReachableInv(s);
    ReachablePeers(s);
    assert PeerOk(s, c);
    AheadIs(s.calls, ReadEnd, s.r, |s.rOwner|, |s.wOwner|);
    LoadBounds(s.calls, c, ReadEnd, s.r, |s.rOwner|, |s.wOwner|, p, m);
    WordDiff(s.r.ahead, m);
    IsEmptyExact(s.r.ahead - m, p);
  }

  // ---------------------------------------------------------------- the queue with its tests on words

  /** The test of a check at either end: is there nothing to be had for this number? */
  predicate NoneLeft(side: Side, peer: nat, number: nat, missed: nat, slack: nat) {
    if side.WriteEnd? then IsFull(Word(peer), Word(Word(number) - Word(missed)), slack)
    else IsEmpty(Word(Word(number) - Word(missed)), Word(peer))
  }

  /** One operation at a gate, as the program does it: both checks on 64-bit words. */
  function WordGateStep(side: Side, pc: GatePc, g: Gate, peer: nat, slack: nat): (Gate, Outcome) {
    match pc
    case LoadAhead(p, m) => (g, if NoneLeft(side, p, g.ahead, m, slack) then Reject else Go(FetchAhead(m)))
    case Recheck(m, a) =>
      if NoneLeft(side, peer, a, m, slack) then (g.(lost := g.lost + {a}), Go(Miss(a)))
      else (g.(won := g.won + {a}), Go(Take(a)))
    case _ => GateStep(pc, g, peer, slack)
  }

  function WordEnqStep(s: State, c: nat): State
    requires c < |s.calls| && s.calls[c].Enq?
  {
    var x := s.calls[c].item;
    var (g, out) := WordGateStep(WriteEnd, s.calls[c].gate, s.w, |s.rOwner|, s.cap);
    match out
    case Go(pc) => s.(w := g, calls := s.calls[c := Enq(x, pc)])
    case Reject => s.(w := g, calls := s.calls[c := Failed])
    case Admit => s.(w := g, calls := s.calls[c := Writing(x, |s.wOwner|, WWait)], wOwner := s.wOwner + [c], items := s.items + [x])
  }

  function WordDeqStep(s: State, c: nat): State
    requires c < |s.calls| && s.calls[c].Deq?
  {
    var (g, out) := WordGateStep(ReadEnd, s.calls[c].gate, s.r, |s.wOwner|, 0);
    match out
    case Go(pc) => s.(r := g, calls := s.calls[c := Deq(pc)])
    case Reject => s.(r := g, calls := s.calls[c := Failed])
    case Admit => s.(r := g, calls := s.calls[c := Reading(|s.rOwner|, RWait)], rOwner := s.rOwner + [c])
  }

  function WordApply(s: State, a: Action): State
    requires Sized(s) && Enabled(s, a)
  {
    if a.Step? && s.calls[a.call].Enq? then WordEnqStep(s, a.call)
    else if a.Step? && s.calls[a.call].Deq? then WordDeqStep(s, a.call)
    else Apply(s, a)
  }

  /** What a check works with is fresh. */
  predicate FreshStep(s: State, a: Action) {
    a.Step? && a.call < |s.calls| ==>
      match s.calls[a.call]
      case Enq(_, LoadAhead(p, m)) => LoadFresh(s.w, Undecided(s.calls, WriteEnd), |s.rOwner|, p, m)
      case Enq(_, Recheck(m, n)) => RecheckFresh(s.w, Undecided(s.calls, WriteEnd), m, n)
      case Deq(LoadAhead(p, m)) => LoadFresh(s.r, Undecided(s.calls, ReadEnd), |s.wOwner|, p, m)
      case Deq(Recheck(m, n)) => RecheckFresh(s.r, Undecided(s.calls, ReadEnd), m, n)
      case _ => true
  }

  lemma GateAgrees(side: Side, pc: GatePc, g: Gate, peer: nat, slack: nat)
    requires side.ReadEnd? ==> slack == 0
    requires pc.LoadAhead? ==> InWindow(g.ahead - pc.missed - slack - pc.peer)
    requires pc.Recheck? ==> InWindow(pc.number - pc.missed - slack - peer)
    ensures WordGateStep(side, pc, g, peer, slack) == GateStep(pc, g, peer, slack)
  {
    hide Word, IsFull, IsEmpty, InWindow;
    if pc.LoadAhead? {
      if side.WriteEnd? {
        FullTest(g.ahead, pc.missed, pc.peer, slack);
      } else {
        EmptyTest(g.ahead, pc.missed, pc.peer);
      }
    } else if pc.Recheck? {
      if side.WriteEnd? {
        FullTest(pc.number, pc.missed, peer, slack);
      } else {
        EmptyTest(pc.number, pc.missed, peer);
      }
    }
  }

  /** A fresh operation on words is the exact one. */
  lemma WordAgrees(s: State, a: Action)
    requires Reachable(s) && Sized(s) && Enabled(s, a) && s.cap <= MAXCAP && FreshStep(s, a)
    ensures WordApply(s, a) == Apply(s, a)
  {
    hide Reachable, Word, InWindow, WordGateStep, GateStep, LoadFresh, RecheckFresh;
    if a.Step? && s.calls[a.call].Enq? {
      var pc := s.calls[a.call].gate;
      if pc.LoadAhead? {
        EnqFirstWindow(s, a.call, pc.peer, pc.missed);
      } else if pc.Recheck? {
        EnqRecheckWindow(s, a.call, pc.missed, pc.number);
      }
      GateAgrees(WriteEnd, pc, s.w, |s.rOwner|, s.cap);
    } else if a.Step? && s.calls[a.call].Deq? {
      var pc := s.calls[a.call].gate;
      if pc.LoadAhead? {
        DeqFirstWindow(s, a.call, pc.peer, pc.missed);
      } else if pc.Recheck? {
        DeqRecheckWindow(s, a.call, pc.missed, pc.number);
      }
      GateAgrees(ReadEnd, pc, s.r, |s.wOwner|, 0);
    }
  }

  ghost predicate IsWordRun(states: seq<State>, acts: seq<Action>) {
    && |states| == |acts| + 1 && IsInit(states[0])
    && (forall i | 0 <= i < |acts| ::
          Sized(states[i]) && Enabled(states[i], acts[i]) && states[i + 1] == WordApply(states[i], acts[i]))
  }

  lemma {:induction false} FreshRunIsExact(states: seq<State>, acts: seq<Action>, n: nat)
    requires IsWordRun(states, acts) && states[0].cap <= MAXCAP && n <= |acts|
    requires forall i | 0 <= i < |acts| :: FreshStep(states[i], acts[i])
    ensures Reachable(states[n]) && states[n].cap == states[0].cap
  {
    if n == 0 {
      var s, none: seq<Action> := states[0], [];
      assert IsRun([s], none) && IsInit([s][0]) && [s][|none|] == s;
    } else {
      FreshRunIsExact(states, acts, n - 1);
      hide Reachable, FreshStep, Enabled, Apply, WordApply, IsInit;
      WordAgrees(states[n - 1], acts[n - 1]);
      ReachableStep(states[n - 1], acts[n - 1]);
    }
  }

  /** So on words too read <= write <= read + capacity, as long as every check is fresh. */
  lemma FreshNeverOverruns(states: seq<State>, acts: seq<Action>, n: nat)
    requires IsWordRun(states, acts) && states[0].cap <= MAXCAP && n <= |acts|
    requires forall i | 0 <= i < |acts| :: FreshStep(states[i], acts[i])
    ensures |states[n].rOwner| <= |states[n].wOwner| <= |states[n].rOwner| + states[0].cap
  {
    hide FreshStep, Enabled, WordApply, IsInit;
    FreshRunIsExact(states, acts, n);
    ReachableInv(states[n]);
    TicketBounds(states[n]);
  }

  // ---------------------------------------------------------------- a call that sleeps too long

  ghost predicate WordReachable(s: State) {
    exists states: seq<State>, acts: seq<Action> :: IsWordRun(states, acts) && states[|acts|] == s
  }

  lemma WordReachableStep(s: State, a: Action)
    requires WordReachable(s) && Sized(s) && Enabled(s, a)
    ensures WordReachable(WordApply(s, a))
  {
    hide Enabled, WordApply, IsInit;
    var states: seq<State>, acts: seq<Action> :| IsWordRun(states, acts) && states[|acts|] == s;
    var states', acts' := states + [WordApply(s, a)], acts + [a];
    forall i | 0 <= i < |acts'|
      ensures Sized(states'[i]) && Enabled(states'[i], acts'[i]) && states'[i + 1] == WordApply(states'[i], acts'[i])
    {
      assert i < |acts| ==> states'[i] == states[i] && states'[i + 1] == states[i + 1] && acts'[i] == acts[i];
    }
    assert IsWordRun(states', acts') && states'[0] == states[0];
  }

  /** On words and exactly. */
  ghost predicate Agreed(s: State) {
    Reachable(s) && WordReachable(s) && Sized(s) && 2 <= s.cap <= MAXCAP
  }

  /** n calls have passed the first check of an empty queue; call 0 has loaded but not checked. */
  ghost predicate Waiting(s: State, n: nat, k: nat) {
    && Agreed(s) && n <= s.cap + WINDOW && |s.calls| == n + 1 && k <= n
    && s.calls[0] == Enq(0, LoadAhead(0, 0))
    && (forall i | k < i <= n :: s.calls[i] == Enq(0, FetchAhead(0)))
    && s.w.ahead == k && s.w.missed == (if k <= s.cap then 0 else k - s.cap)
    && |s.wOwner| == (if k <= s.cap then k else s.cap) && |s.rOwner| == 0
  }

  lemma {:induction false} AllPassFirstCheck(cap: nat, n: nat) returns (s: State)
    requires 2 <= cap <= MAXCAP && n <= cap + WINDOW
    ensures Waiting(s, n, 0) && s.cap == cap
  {
    if n == 0 {
      StartAgrees(cap);
      s := Enter(Init(cap));
      s := EnqMoves(s, 0);
      s := EnqMoves(s, 0);
    } else {
      s := AllPassFirstCheck(cap, n - 1);
      s := OnePasses(s, n);
    }
  }

  lemma OnePasses(s: State, n: nat) returns (s': State)
    requires n > 0 && Waiting(s, n - 1, 0) && n <= s.cap + WINDOW
    ensures Waiting(s', n, 0) && s'.cap == s.cap
  {
    hide Reachable, WordReachable;
    s' := Enter(s);
    s' := EnqMoves(s', n);
    s' := EnqMoves(s', n);
    s' := EnqMoves(s', n);
  }

  lemma StartAgrees(cap: nat)
    requires 2 <= cap <= MAXCAP
    ensures Agreed(Init(cap))
  {
    ReachableInit(cap);
    InitIsInit(cap);
    var s, none: seq<Action> := Init(cap), [];
    assert IsWordRun([s], none) && [s][|none|] == s;
  }

  lemma Enter(s: State) returns (s': State)
    requires Agreed(s)
    ensures Agreed(s') && s' == s.(calls := s.calls + [Enq(0, LoadPeer)])
  {
    hide Reachable, WordReachable;
    BeginIs(s, BeginEnqueue(0));
    ReachableStep(s, BeginEnqueue(0));
    WordReachableStep(s, BeginEnqueue(0));
    s' := Apply(s, BeginEnqueue(0));
  }

  /** A call at the write gate whose next check, if it is one, is in the window. */
  ghost predicate Timely(s: State, c: nat) {
    && c < |s.calls| && s.calls[c].Enq?
    && match s.calls[c].gate
       case LoadAhead(p, m) => InWindow(s.w.ahead - m - s.cap - p)
       case Recheck(m, a) => InWindow(a - m - s.cap - |s.rOwner|)
       case _ => true
  }

  /** One operation of call c at the write gate: the same on words. */
  lemma EnqMoves(s: State, c: nat) returns (s': State)
    requires Agreed(s) && Timely(s, c)
    ensures Agreed(s') && s'.cap == s.cap && s'.rOwner == s.rOwner
    ensures s'.calls == s.calls[c := NextEnq(s, s.calls[c].item, s.calls[c].gate)]
    ensures s'.w.ahead == s.w.ahead + (if s.calls[c].gate.FetchAhead? then 1 else 0)
    ensures s'.w.missed == s.w.missed + (if s.calls[c].gate.Miss? then 1 else 0)
    ensures |s'.wOwner| == |s.wOwner| + (if s.calls[c].gate.Take? then 1 else 0)
  {
    hide Reachable, WordReachable, WordGateStep, InWindow;
    GateAgrees(WriteEnd, s.calls[c].gate, s.w, |s.rOwner|, s.cap);
    ReachableStep(s, Step(c));
    WordReachableStep(s, Step(c));
    s' := Apply(s, Step(c));
  }

  /** One after the other draws a number; the first cap get tickets, the others miss. */
  lemma {:induction false} OthersDecide(cap: nat, n: nat, k: nat) returns (s: State)
    requires 2 <= cap <= MAXCAP && k <= n <= cap + WINDOW
    ensures Waiting(s, n, k) && s.cap == cap
  {
    if k == 0 {
      s := AllPassFirstCheck(cap, n);
    } else {
      var s0 := OthersDecide(cap, n, k - 1);
      s := Decide(s0, n, k);
    }
  }

  lemma Decide(s: State, n: nat, k: nat) returns (s': State)
    requires 0 < k <= n && Waiting(s, n, k - 1)
    ensures Waiting(s', n, k) && s'.cap == s.cap
  {
    hide Reachable, WordReachable;
    s' := EnqMoves(s, k);
    s' := EnqMoves(s', k);
    s' := EnqMoves(s', k);
  }

  /** Call 0 checks, draws a number, checks again and takes a ticket, all on words. */
  lemma LateCallTakesTicket(s: State, n: nat) returns (s': State)
    requires Waiting(s, n, n) && n == s.cap + WINDOW
    ensures WordReachable(s') && s'.cap == s.cap && s'.rOwner == s.rOwner && s'.wOwner == s.wOwner + [0]
    ensures |s'.calls| == |s.calls| > 0 && s'.calls[1..] == s.calls[1..] && s'.calls[0] == Writing(0, |s.wOwner|, WWait)
  {
    hide Word, IsFull, Reachable, WordReachable;
    StaleTestAdmits(n, 0, 0, s.cap);
    WordReachableStep(s, Step(0));
    var s1 := WordApply(s, Step(0));
    WordReachableStep(s1, Step(0));
    var s2 := WordApply(s1, Step(0));
    WordReachableStep(s2, Step(0));
    var s3 := WordApply(s2, Step(0));
    WordReachableStep(s3, Step(0));
    s' := WordApply(s3, Step(0));
  }

  /**
   * A call that loads both counters of an empty queue and then sleeps while the queue fills and
   * 2^32 - 1 others miss finds room in the full queue, at both checks on words, and draws a
   * ticket that is more than a capacity ahead of the readers. Up to its first check the run is
   * one of the exact machine too.
   */
  lemma LateCallOverruns(cap: nat) returns (s: State, s': State)
    requires 2 <= cap <= MAXCAP
    ensures Reachable(s) && WordReachable(s) && s.cap == cap && |s.wOwner| == |s.rOwner| + cap
    ensures |s.calls| > 0 && s.calls[0] == Enq(0, LoadAhead(0, 0))
    ensures !LoadFresh(s.w, Undecided(s.calls, WriteEnd), |s.rOwner|, 0, 0)
    ensures WordReachable(s') && s'.cap == cap && |s'.wOwner| == |s'.rOwner| + cap + 1
    ensures |s'.calls| == |s.calls| > 0 && s'.calls[1..] == s.calls[1..]
  {
    hide Reachable, WordReachable;
    var n := cap + WINDOW;
    s := OthersDecide(cap, n, n);
    s' := LateCallTakesTicket(s, n);
  }
}

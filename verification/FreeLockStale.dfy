/**
 * How far the stale numbers an admission check of the lock-free queue works with can be off.
 * The wrapping tests are right in a window of differences; whether a check is inside it
 * depends on the misses since its load of `missed`, on the calls at the gate, and on nothing
 * else that can grow.
 */
module FreeLockStale {
  import opened Common
  import opened FreeLockWords
  import opened FreeLockGate
  import opened FreeLockQueue
  import opened FreeLockProgress
  import opened Cyclic

  // ---------------------------------------------------------------- one operation at a gate

  lemma BeginIs(s: State, a: Action)
    requires Sized(s) && !a.Step?
    ensures Enabled(s, a) && Sized(Apply(s, a))
    ensures Apply(s, a) == s.(calls := s.calls + [if a.BeginEnqueue? then Enq(a.item, LoadPeer) else Deq(LoadPeer)])
  {
  }

  function NextEnq(s: State, x: Item, pc: GatePc): Call {
    match pc
    case LoadPeer => Enq(x, LoadMissed(|s.rOwner|))
    case LoadMissed(p) => Enq(x, LoadAhead(p, s.w.missed))
    case LoadAhead(p, m) => if s.w.ahead - m < p + s.cap then Enq(x, FetchAhead(m)) else Failed
    case FetchAhead(m) => Enq(x, Recheck(m, s.w.ahead))
    case Recheck(m, number) => Enq(x, if number - m < |s.rOwner| + s.cap then Take(number) else Miss(number))
    case Take(number) => Writing(x, |s.wOwner|, WWait)
    case Miss(number) => Failed
  }

  /** What one operation at the write gate does to the counters and the call. */
  lemma EnqGateIs(s: State, c: nat)
    requires Sized(s) && c < |s.calls| && s.calls[c].Enq? && !s.calls[c].gate.Miss?
    ensures Enabled(s, Step(c))
    ensures var (s', x, pc) := (Apply(s, Step(c)), s.calls[c].item, s.calls[c].gate);
      && Sized(s') && s'.cap == s.cap && s'.rOwner == s.rOwner && s'.w.missed == s.w.missed
      && s'.w.ahead == (if pc.FetchAhead? then s.w.ahead + 1 else s.w.ahead)
      && s'.wOwner == (if pc.Take? then s.wOwner + [c] else s.wOwner)
      && s'.items == (if pc.Take? then s.items + [x] else s.items)
      && |s'.calls| == |s.calls| && s'.calls[..c] == s.calls[..c] && s'.calls[c] == NextEnq(s, x, pc)
  {
  }

  function NextDeq(s: State, pc: GatePc): Call {
    match pc
    case LoadPeer => Deq(LoadMissed(|s.wOwner|))
    case LoadMissed(p) => Deq(LoadAhead(p, s.r.missed))
    case LoadAhead(p, m) => if s.r.ahead - m < p then Deq(FetchAhead(m)) else Failed
    case FetchAhead(m) => Deq(Recheck(m, s.r.ahead))
    case Recheck(m, number) => Deq(if number - m < |s.wOwner| then Take(number) else Miss(number))
    case Take(number) => Reading(|s.rOwner|, RWait)
    case Miss(number) => Failed
  }

  lemma DeqGateIs(s: State, c: nat)
    requires Sized(s) && c < |s.calls| && s.calls[c].Deq? && !s.calls[c].gate.Miss?
    ensures Enabled(s, Step(c))
    ensures var (s', pc) := (Apply(s, Step(c)), s.calls[c].gate);
      && Sized(s') && s'.cap == s.cap && s'.wOwner == s.wOwner && s'.items == s.items && s'.r.missed == s.r.missed
      && s'.r.ahead == (if pc.FetchAhead? then s.r.ahead + 1 else s.r.ahead)
      && s'.rOwner == (if pc.Take? then s.rOwner + [c] else s.rOwner)
      && |s'.calls| == |s.calls| && s'.calls[..c] == s.calls[..c] && s'.calls[c] == NextDeq(s, pc)
  {
  }

  // ---------------------------------------------------------------- loads of the other end

  /** The ticket counter of the other end a call has loaded is not ahead of it. */
  ghost predicate PeerOk(s: State, c: nat)
    requires c < |s.calls|
  {
    match s.calls[c]
    case Enq(_, LoadMissed(p)) => p <= |s.rOwner|
    case Enq(_, LoadAhead(p, _)) => p <= |s.rOwner|
    case Deq(LoadMissed(p)) => p <= |s.wOwner|
    case Deq(LoadAhead(p, _)) => p <= |s.wOwner|
    case _ => true
  }

  ghost predicate PeersOk(s: State) {
    forall c | 0 <= c < |s.calls| :: PeerOk(s, c)
  }

  lemma StepPeers(s: State, a: Action)
    requires PeersOk(s) && Sized(s) && Enabled(s, a)
    ensures PeersOk(Apply(s, a))
  {
    hide Sized, Slot;
    var s' := Apply(s, a);
    assert |s.rOwner| <= |s'.rOwner| && |s.wOwner| <= |s'.wOwner|;
    forall c | 0 <= c < |s'.calls| ensures PeerOk(s', c) {
      assert c < |s.calls| ==> PeerOk(s, c);
    }
  }

  lemma {:induction false} RunPeers(states: seq<State>, acts: seq<Action>, n: nat)
    requires IsRun(states, acts) && IsInit(states[0]) && n <= |acts|
    ensures PeersOk(states[n])
  {
    if n > 0 {
      RunPeers(states, acts, n - 1);
      hide Apply, Enabled, Sized;
      StepPeers(states[n - 1], acts[n - 1]);
    }
  }

  lemma ReachablePeers(s: State)
    requires Reachable(s)
    ensures PeersOk(s)
  {
    var states: seq<State>, acts: seq<Action> :|
      IsRun(states, acts) && IsInit(states[0]) && states[|acts|] == s;
    RunPeers(states, acts, |acts|);
  }

  // ---------------------------------------------------------------- the bounds

  /** Calls that have drawn an admission number and neither taken a ticket for it nor given it up. */
  function Undecided(calls: seq<Call>, side: Side): nat {
    Count(calls, side, AtMiss) + Count(calls, side, AtRecheck)
  }

  /** The numbers drawn at a gate: given up, let in, or not decided yet. */
  lemma AheadIs(calls: seq<Call>, side: Side, g: Gate, ticket: nat, limit: nat)
    requires GateInv(calls, side, g, ticket, limit)
    ensures g.missed <= |g.lost| && ticket <= |g.won| <= limit
    ensures g.ahead == |g.won| + g.missed + Undecided(calls, side)
  {
    WonBounded(g, limit);
  }

  /** The second check: what it compares, between the numbers drawn since its own and the misses since its load. */
  lemma RecheckBounds(calls: seq<Call>, c: nat, side: Side, g: Gate, ticket: nat, limit: nat, m: nat, a: nat)
    requires GateInv(calls, side, g, ticket, limit) && c < |calls| && At(calls[c], side) == Some(Recheck(m, a))
    ensures m <= g.missed + Undecided(calls, side) && a < g.ahead
    ensures a - m - limit < (g.missed - m) + Undecided(calls, side)
    ensures a - m - ticket >= -(g.ahead - a)
  {
    AheadIs(calls, side, g, ticket, limit);
    assert PcOk(Recheck(m, a), g);
    var low, high := Below(g.won, a), g.won - Below(g.won, a);
    assert Below(g.lost, a) !! low;
    assert |Below(g.lost, a) + low| == |Below(g.lost, a)| + |low|;
    BoundedSetSize(Below(g.lost, a) + low, a);
    SubsetSize(Below(g.lost, a), g.lost);
    assert g.won == low + high && low !! high;
    RangeSize(high, a, g.ahead);
  }

  /** The numbers of a set that lie between two bounds. */
  lemma {:induction false} RangeSize(s: set<nat>, lo: nat, hi: nat)
    requires lo <= hi && forall x | x in s :: lo <= x < hi
    ensures |s| <= hi - lo
    decreases hi - lo
  {
    if lo == hi {
      assert s == {};
    } else {
      RangeSize(s - {lo}, lo + 1, hi);
      assert |s| <= |s - {lo}| + 1 by {
        if lo in s {
          SizeWithout(s, lo);
        } else {
          assert s - {lo} == s;
        }
      }
    }
  }

  /** The first check likewise, for a call that has not drawn a number yet. */
  lemma LoadBounds(calls: seq<Call>, c: nat, side: Side, g: Gate, ticket: nat, limit: nat, p: nat, m: nat)
    requires GateInv(calls, side, g, ticket, limit) && c < |calls| && At(calls[c], side) == Some(LoadAhead(p, m))
    ensures m <= g.missed
    ensures ticket <= g.ahead - m <= limit + (g.missed - m) + Undecided(calls, side)
  {
    AheadIs(calls, side, g, ticket, limit);
    assert PcOk(LoadAhead(p, m), g);
  }

  // ---------------------------------------------------------------- when the tests are right

  /** What a capacity can be: align_size is an int. */
  const MAXCAP: nat := 0x4000_0000

  /**
   * The second check of a call with a load m of `missed` and number a: fewer than 2^32 - 1
   * misses and undecided calls since the load, fewer than about 2^64 numbers drawn since its own.
   */
  predicate RecheckFresh(g: Gate, undecided: nat, m: nat, a: nat) {
    g.missed - m + undecided <= WINDOW && g.ahead - a <= TWO64 - WINDOW - MAXCAP
  }

  lemma EnqRecheckWindow(s: State, c: nat, m: nat, a: nat)
    requires Reachable(s) && s.cap <= MAXCAP && c < |s.calls| && s.calls[c].Enq? && s.calls[c].gate == Recheck(m, a)
    requires RecheckFresh(s.w, Undecided(s.calls, WriteEnd), m, a)
    ensures InWindow(a - m - s.cap - |s.rOwner|)
  {
    ReachableInv(s);
    TicketBounds(s);
    RecheckBounds(s.calls, c, WriteEnd, s.w, |s.wOwner|, |s.rOwner| + s.cap, m, a);
  }

  lemma DeqRecheckWindow(s: State, c: nat, m: nat, a: nat)
    requires Reachable(s) && s.cap <= MAXCAP && c < |s.calls| && s.calls[c] == Deq(Recheck(m, a))
    requires RecheckFresh(s.r, Undecided(s.calls, ReadEnd), m, a)
    ensures InWindow(a - m - |s.wOwner|)
  {
    ReachableInv(s);
    TicketBounds(s);
    RecheckBounds(s.calls, c, ReadEnd, s.r, |s.rOwner|, |s.wOwner|, m, a);
  }

  /** The first check: misses since the load of `missed`, tickets of the other end since the load before it. */
  predicate LoadFresh(g: Gate, undecided: nat, peerNow: nat, p: nat, m: nat) {
    g.missed - m + (peerNow - p) + undecided < WINDOW
  }

  lemma EnqFirstWindow(s: State, c: nat, p: nat, m: nat)
    requires Reachable(s) && s.cap <= MAXCAP && c < |s.calls| && s.calls[c].Enq? && s.calls[c].gate == LoadAhead(p, m)
    requires LoadFresh(s.w, Undecided(s.calls, WriteEnd), |s.rOwner|, p, m)
    ensures InWindow(s.w.ahead - m - s.cap - p)
  {
    ReachableInv(s);
    ReachablePeers(s);
    assert PeerOk(s, c);
    TicketBounds(s);
    LoadBounds(s.calls, c, WriteEnd, s.w, |s.wOwner|, |s.rOwner| + s.cap, p, m);
  }

  lemma DeqFirstWindow(s: State, c: nat, p: nat, m: nat)
    requires Reachable(s) && s.cap <= MAXCAP && c < |s.calls| && s.calls[c] == Deq(LoadAhead(p, m))
    requires LoadFresh(s.r, Undecided(s.calls, ReadEnd), |s.wOwner|, p, m)
    ensures InWindow(s.r.ahead - m - p)
  {
    ReachableInv(s);
    ReachablePeers(s);
    assert PeerOk(s, c);
    TicketBounds(s);
    LoadBounds(s.calls, c, ReadEnd, s.r, |s.rOwner|, |s.wOwner|, p, m);
  }

  /** Calls at the gate that have not decided account for the numbers beyond tickets and misses. */
  lemma UndecidedIs(s: State)
    requires Reachable(s)
    ensures Undecided(s.calls, WriteEnd) <= s.w.ahead - s.w.missed - |s.wOwner|
    ensures Undecided(s.calls, ReadEnd) <= s.r.ahead - s.r.missed - |s.rOwner|
  {
    ReachableInv(s);
    AheadIs(s.calls, WriteEnd, s.w, |s.wOwner|, |s.rOwner| + s.cap);
    AheadIs(s.calls, ReadEnd, s.r, |s.rOwner|, |s.wOwner|);
  }

  // ---------------------------------------------------------------- how far a slot can be behind

  /** The calls under way. */
  function Active(s: State): set<nat> {
    set c: nat | c < |s.calls| && !Returned(s.calls[c])
  }

  /** Every ticket a slot is behind, counted in rounds, is held by a call that has not returned. */
  lemma HeldWriter(s: State, k: nat)
    requires Inv(s) && k < |s.wOwner| && s.turn[Slot(k, s.cap)].at < k
    ensures s.cap <= k && s.turn[Slot(k, s.cap)].at <= k - s.cap && Slot(k - s.cap, s.cap) == Slot(k, s.cap)
    ensures s.wOwner[k] in Active(s) && s.wOwner[k] < |s.calls| && s.calls[s.wOwner[k]].Writing? && s.calls[s.wOwner[k]].ticket == k
  {
    hide Slot, GatesInv, SlotsOk, GotOk;
    Gap(s.turn[Slot(k, s.cap)].at, k, s.cap);
    AddCap(k - s.cap, s.cap);
    assert WriteOk(s, s.calls[s.wOwner[k]]);
  }

  lemma {:induction false} WritersBehind(s: State, k: nat) returns (w: set<nat>)
    requires Sized(s) && Inv(s) && k < |s.wOwner| && s.turn[Slot(k, s.cap)].at <= k
    ensures w <= Active(s) && k - s.turn[Slot(k, s.cap)].at <= |w| * s.cap
    ensures forall c | c in w :: c < |s.calls| && s.calls[c].Writing? && s.calls[c].ticket <= k
  {
    hide Slot, Inv, Active;
    w := {};
    if s.turn[Slot(k, s.cap)].at < k {
      HeldWriter(s, k);
      var w0 := WritersBehind(s, k - s.cap);
      assert s.wOwner[k] !in w0;
      SizeWith(w0, s.wOwner[k]);
      MulNext(|w0|, s.cap);
      w := w0 + {s.wOwner[k]};
    }
  }

  lemma HeldReader(s: State, k: nat)
    requires Inv(s) && k < |s.rOwner| && s.turn[Slot(k, s.cap)].at < k
    ensures s.cap <= k && s.turn[Slot(k, s.cap)].at <= k - s.cap && Slot(k - s.cap, s.cap) == Slot(k, s.cap)
    ensures s.rOwner[k] in Active(s) && s.rOwner[k] < |s.calls| && s.calls[s.rOwner[k]].Reading? && s.calls[s.rOwner[k]].ticket == k
  {
    hide Slot, GatesInv, SlotsOk, GotOk;
    Gap(s.turn[Slot(k, s.cap)].at, k, s.cap);
    AddCap(k - s.cap, s.cap);
    assert ReadOk(s, s.calls[s.rOwner[k]]);
  }

  lemma {:induction false} ReadersBehind(s: State, k: nat) returns (w: set<nat>)
    requires Sized(s) && Inv(s) && k < |s.rOwner| && s.turn[Slot(k, s.cap)].at <= k
    ensures w <= Active(s) && k - s.turn[Slot(k, s.cap)].at <= |w| * s.cap
    ensures forall c | c in w :: c < |s.calls| && s.calls[c].Reading? && s.calls[c].ticket <= k
  {
    hide Slot, Inv, Active;
    w := {};
    if s.turn[Slot(k, s.cap)].at < k {
      HeldReader(s, k);
      var w0 := ReadersBehind(s, k - s.cap);
      assert s.rOwner[k] !in w0;
      SizeWith(w0, s.rOwner[k]);
      MulNext(|w0|, s.cap);
      w := w0 + {s.rOwner[k]};
    }
  }

  lemma MulNext(n: nat, m: nat)
    ensures (n + 1) * m == n * m + m
  {
  }

  lemma MulMonotone(a: nat, b: nat, m: nat)
    requires a <= b
    ensures a * m <= b * m
  {
    assert b * m == a * m + (b - a) * m;
  }

  /** The version a waiting call looks at is behind its ticket by at most a capacity per call under way, and one more. */
  lemma LagIsCalls(s: State, c: nat)
    requires Reachable(s) && c < |s.calls| && (s.calls[c].Writing? || s.calls[c].Reading?)
    ensures Sized(s) && s.calls[c].ticket - s.ver[Slot(s.calls[c].ticket, s.cap)] <= (|Active(s)| + 1) * s.cap
  {
    hide Slot, GatesInv, SlotsOk, GotOk, Active;
    ReachableInv(s);
    var k := s.calls[c].ticket;
    assert WriteOk(s, s.calls[c]) && ReadOk(s, s.calls[c]);
    var w: set<nat>;
    if s.calls[c].Writing? {
      w := WritersBehind(s, k);
    } else {
      w := ReadersBehind(s, k);
    }
    SubsetSize(w, Active(s));
    MulMonotone(|w|, |Active(s)|, s.cap);
    MulNext(|Active(s)|, s.cap);
  }
}

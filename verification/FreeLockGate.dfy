/**
 * The calls of the lock-free bounded queue and the admission gate each of its two ends
 * has: a call first takes a number from `ahead`, compares it with a limit using a stale
 * `missed`, and only then takes a real ticket or gives the number up.
 */
module FreeLockGate {
  import opened Common

  /** A queued pointer; the null pointer is Option.None. */
  type Item = nat

  datatype Side = WriteEnd | ReadEnd

  /** The next atomic operation of a call that has no ticket yet, with the locals it holds. */
  datatype GatePc =
    | LoadPeer                                  // load the ticket counter of the other end
    | LoadMissed(peer: nat)                     // load this end's `missed`
    | LoadAhead(peer: nat, missed: nat)         // load `ahead` and make the first check
    | FetchAhead(missed: nat)                   // ahead.fetch_add(1)
    | Recheck(missed: nat, number: nat)         // reload the other end and check again
    | Take(number: nat)                         // admitted: ticket.fetch_add(1)
    | Miss(number: nat)                         // not admitted: missed.fetch_add(1)

  datatype WritePhase = WWait | WReady | WStored
  datatype ReadPhase = RWait | RReady | RLoaded(x: Item) | RCleared(x: Item)

  /** One call of try_enqueue or try_dequeue, at the atomic operation it performs next. */
  datatype Call =
    | Enq(item: Item, gate: GatePc)
    | Deq(gate: GatePc)
    | Writing(item: Item, ticket: nat, wphase: WritePhase)
    | Reading(ticket: nat, rphase: ReadPhase)
    | Enqueued(item: Item, ticket: nat)
    | Dequeued(got: Item, ticket: nat)
    | Failed                                    // returned false
    | Crashed                                   // the assertion on a null item fired

  /** The two counters of a gate, and the numbers whose fate is decided. */
  datatype Gate = Gate(ahead: nat, missed: nat, lost: set<nat>, won: set<nat>)

  datatype Outcome = Go(pc: GatePc) | Reject | Admit

  function At(call: Call, side: Side): Option<GatePc> {
    match call
    case Enq(_, g) => if side.WriteEnd? then Some(g) else None
    case Deq(g) => if side.ReadEnd? then Some(g) else None
    case _ => None
  }

  /**
   * One atomic operation at a gate. `peer` is the ticket counter of the other end,
   * `slack` the capacity for the write end and zero for the read end: the queue is full
   * (empty) for a number when number - missed >= peer + slack.
   */
  function GateStep(pc: GatePc, g: Gate, peer: nat, slack: nat): (Gate, Outcome) {
    match pc
    case LoadPeer => (g, Go(LoadMissed(peer)))
    case LoadMissed(p) => (g, Go(LoadAhead(p, g.missed)))
    case LoadAhead(p, m) => (g, if g.ahead - m < p + slack then Go(FetchAhead(m)) else Reject)
    case FetchAhead(m) => (g.(ahead := g.ahead + 1), Go(Recheck(m, g.ahead)))
    case Recheck(m, a) =>
      if a - m < peer + slack then (g.(won := g.won + {a}), Go(Take(a)))
      else (g.(lost := g.lost + {a}), Go(Miss(a)))
    case Take(_) => (g, Admit)
    case Miss(_) => (g.(missed := g.missed + 1), Reject)
  }

  datatype Kind = AtRecheck | AtTake | AtMiss

  function Weight(call: Call, side: Side, kind: Kind): nat {
    match At(call, side)
    case Some(Recheck(_, _)) => if kind.AtRecheck? then 1 else 0
    case Some(Take(_)) => if kind.AtTake? then 1 else 0
    case Some(Miss(_)) => if kind.AtMiss? then 1 else 0
    case _ => 0
  }

  function WeightOf(side: Side, kind: Kind): Call -> nat {
    (call: Call) => Weight(call, side, kind)
  }

  function Count(calls: seq<Call>, side: Side, kind: Kind): nat {
    Sum(calls, WeightOf(side, kind))
  }

  /** The numbers of a set that lie below `b`. */
  function Below(s: set<nat>, b: nat): set<nat> {
    set x | x in s && x < b
  }

  // ---------------------------------------------------------------- the gate invariant

  /** What a call may hold at this gate. */
  ghost predicate PcOk(pc: GatePc, g: Gate) {
    match pc
    case LoadPeer => true
    case LoadMissed(_) => true
    case LoadAhead(_, m) => m <= g.missed
    case FetchAhead(m) => m <= g.missed
    case Recheck(m, a) => a < g.ahead && a !in g.lost && a !in g.won && m <= |Below(g.lost, a)|
    case Take(a) => true
    case Miss(a) => true
  }

  ghost predicate PcsOk(calls: seq<Call>, side: Side, g: Gate) {
    forall c | 0 <= c < |calls| :: At(calls[c], side).Some? ==> PcOk(At(calls[c], side).value, g)
  }

  ghost predicate NumbersDistinct(calls: seq<Call>, side: Side) {
    forall c, d | 0 <= c < d < |calls| ::
      At(calls[c], side).Some? && At(calls[d], side).Some?
      && At(calls[c], side).value.Recheck? && At(calls[d], side).value.Recheck?
      ==> At(calls[c], side).value.number != At(calls[d], side).value.number
  }

  ghost predicate CountsOk(calls: seq<Call>, side: Side, g: Gate, ticket: nat) {
    && g.missed + Count(calls, side, AtMiss) == |g.lost|
    && ticket + Count(calls, side, AtTake) == |g.won|
    && g.ahead == |g.lost| + |g.won| + Count(calls, side, AtRecheck)
  }

  ghost predicate FatesOk(g: Gate) {
    && g.lost !! g.won
    && (forall a | a in g.lost :: a < g.ahead)
    && (forall a | a in g.won :: a < g.ahead)
  }

  /** Every admitted number fits the limit once the lost numbers before it are discounted. */
  ghost predicate WithinLimit(g: Gate, limit: nat) {
    forall b {:trigger Below(g.lost, b)} | b in g.won :: b + 1 - |Below(g.lost, b)| <= limit
  }

  ghost predicate GateInv(calls: seq<Call>, side: Side, g: Gate, ticket: nat, limit: nat) {
    && FatesOk(g)
    && WithinLimit(g, limit)
    && PcsOk(calls, side, g)
    && NumbersDistinct(calls, side)
    && CountsOk(calls, side, g, ticket)
  }

  // ---------------------------------------------------------------- lemmas on lost numbers

  lemma BelowGrows(s: set<nat>, x: nat, b: nat)
    ensures |Below(s, b)| <= |Below(s + {x}, b)|
  {
    SubsetSize(Below(s, b), Below(s + {x}, b));
  }

  lemma BelowAll(s: set<nat>, b: nat)
    requires forall x | x in s :: x < b
    ensures Below(s, b) == s
  {
  }

  /** The admitted numbers alone never exceed the limit, whoever is late and whatever is stale. */
  lemma WonBounded(g: Gate, limit: nat)
    requires FatesOk(g) && WithinLimit(g, limit)
    ensures |g.won| <= limit
  {
    if g.won != {} {
      var b := MaxElement(g.won);
      var l := Below(g.lost, b);
      assert g.won !! l;
      assert |g.won + l| == |g.won| + |l|;
      BoundedSetSize(g.won + l, b + 1);
    }
  }

  // ---------------------------------------------------------------- preservation

  /** How the program point counts move when one call changes. */
  lemma CountUpdate(calls: seq<Call>, c: nat, x: Call, side: Side)
    requires c < |calls|
    ensures forall k :: Count(calls[c := x], side, k)
                        == Count(calls, side, k) - Weight(calls[c], side, k) + Weight(x, side, k)
  {
    forall k {
      SumUpdate(calls, WeightOf(side, k), c, x);
    }
  }

  /** A gate step that decides no number leaves every other call's locals acceptable. */
  lemma PcOkStable(pc: GatePc, g: Gate, g': Gate)
    requires PcOk(pc, g)
    requires g.ahead <= g'.ahead && g.missed <= g'.missed && g.lost <= g'.lost
    requires pc.Recheck? ==> pc.number !in g'.lost && pc.number !in g'.won
    ensures PcOk(pc, g')
  {
    if pc.Recheck? {
      SubsetSize(Below(g.lost, pc.number), Below(g'.lost, pc.number));
    }
  }

  lemma PcsStable(calls: seq<Call>, c: nat, x: Call, side: Side, g: Gate, g': Gate)
    requires c < |calls|
    requires PcsOk(calls, side, g) && NumbersDistinct(calls, side)
    requires g.ahead <= g'.ahead && g.missed <= g'.missed && g.lost <= g'.lost
    requires forall d | 0 <= d < |calls| && d != c && At(calls[d], side).Some? && At(calls[d], side).value.Recheck?
      :: At(calls[d], side).value.number !in g'.lost && At(calls[d], side).value.number !in g'.won
    requires At(x, side).Some? ==> PcOk(At(x, side).value, g')
    requires At(x, side).Some? && At(x, side).value.Recheck? ==>
      forall d | 0 <= d < |calls| && d != c && At(calls[d], side).Some? && At(calls[d], side).value.Recheck?
        :: At(calls[d], side).value.number != At(x, side).value.number
    ensures PcsOk(calls[c := x], side, g') && NumbersDistinct(calls[c := x], side)
  {
    var after := calls[c := x];
    forall d | 0 <= d < |after|
      ensures At(after[d], side).Some? ==> PcOk(At(after[d], side).value, g')
    {
      if d != c && At(calls[d], side).Some? {
        PcOkStable(At(calls[d], side).value, g, g');
      }
    }
  }

  /** What a call looks like after a step with this outcome, seen from its own gate. */
  ghost predicate Follows(x: Call, side: Side, out: Outcome) {
    At(x, side) == (if out.Go? then Some(out.pc) else None)
  }

  /**
   * Every atomic operation of a call at its gate keeps the gate invariant. The stale
   * `missed` only overstates the numbers in front, and the limit read can only be too low.
   */
  lemma GateStepKeeps(calls: seq<Call>, c: nat, x: Call, side: Side,
                               g: Gate, ticket: nat, peer: nat, slack: nat)
    requires c < |calls| && At(calls[c], side).Some?
    requires GateInv(calls, side, g, ticket, peer + slack)
    requires Follows(x, side, GateStep(At(calls[c], side).value, g, peer, slack).1)
    ensures var (g', out) := GateStep(At(calls[c], side).value, g, peer, slack);
      GateInv(calls[c := x], side, g', ticket + (if out.Admit? then 1 else 0), peer + slack)
  {
    var pc := At(calls[c], side).value;
    var (g', out) := GateStep(pc, g, peer, slack);
    if pc.Recheck? {
      RecheckKeepsFates(g, g', pc.missed, pc.number, peer + slack);
    }
    GateStepPcs(calls, c, x, side, g, g', out, ticket, peer, slack);
    GateStepCounts(calls, c, x, side, g, g', out, ticket, peer, slack);
  }

  lemma GateStepPcs(calls: seq<Call>, c: nat, x: Call, side: Side, g: Gate, g': Gate, out: Outcome,
                    ticket: nat, peer: nat, slack: nat)
    requires c < |calls| && At(calls[c], side).Some?
    requires GateInv(calls, side, g, ticket, peer + slack)
    requires (g', out) == GateStep(At(calls[c], side).value, g, peer, slack) && Follows(x, side, out)
    ensures PcsOk(calls[c := x], side, g') && NumbersDistinct(calls[c := x], side)
  {
    MissedBounded(calls, side, g, ticket);
    BelowAll(g.lost, g.ahead);
    PcsStable(calls, c, x, side, g, g');
  }

  lemma MissedBounded(calls: seq<Call>, side: Side, g: Gate, ticket: nat)
    requires CountsOk(calls, side, g, ticket)
    ensures g.missed <= |g.lost|
  {
  }

  lemma GateStepCounts(calls: seq<Call>, c: nat, x: Call, side: Side, g: Gate, g': Gate, out: Outcome,
                       ticket: nat, peer: nat, slack: nat)
    requires c < |calls| && At(calls[c], side).Some?
    requires CountsOk(calls, side, g, ticket) && PcOk(At(calls[c], side).value, g)
    requires (g', out) == GateStep(At(calls[c], side).value, g, peer, slack) && Follows(x, side, out)
    ensures CountsOk(calls[c := x], side, g', ticket + (if out.Admit? then 1 else 0))
  {
    CountUpdate(calls, c, x, side);
  }

  lemma RecheckKeepsFates(g: Gate, g': Gate, m: nat, a: nat, limit: nat)
    requires FatesOk(g) && WithinLimit(g, limit) && PcOk(Recheck(m, a), g)
    requires g' == if a - m < limit then g.(won := g.won + {a}) else g.(lost := g.lost + {a})
    ensures FatesOk(g') && WithinLimit(g', limit)
    ensures |g'.lost| + |g'.won| == |g.lost| + |g.won| + 1
  {
    forall b | b in g'.won
      ensures b + 1 - |Below(g'.lost, b)| <= limit
    {
      if b in g.won {
        BelowGrows(g.lost, a, b);
      }
    }
  }

  /** A call elsewhere moves, and the limit can only grow: the gate invariant stays. */
  lemma GateFrame(calls: seq<Call>, c: nat, x: Call, side: Side,
                           g: Gate, ticket: nat, limit: nat, limit': nat)
    requires c < |calls| && At(calls[c], side).None? && At(x, side).None?
    requires GateInv(calls, side, g, ticket, limit) && limit <= limit'
    ensures GateInv(calls[c := x], side, g, ticket, limit')
  {
    CountUpdate(calls, c, x, side);
    PcsStable(calls, c, x, side, g, g);
  }

  lemma GateAppend(calls: seq<Call>, x: Call, side: Side, g: Gate, ticket: nat, limit: nat)
    requires At(x, side).None? || At(x, side) == Some(LoadPeer)
    requires GateInv(calls, side, g, ticket, limit)
    ensures GateInv(calls + [x], side, g, ticket, limit)
  {
    forall k ensures Count(calls + [x], side, k) == Count(calls, side, k) {
      SumAppend(calls, WeightOf(side, k), x);
    }
    var after := calls + [x];
    assert forall d | 0 <= d < |calls| :: after[d] == calls[d];
  }
}

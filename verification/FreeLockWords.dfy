/** The machine arithmetic of the lock-free queue: wrapping tests, ring indices, versions. */
module FreeLockWords {
  import opened Common
  import opened Bits
  import opened Cyclic

  const WINDOW: int := 0xffff_ffff

  /** read_ - write_ in 64-bit arithmetic, compared with a 32-bit bound. */
  predicate IsEmpty(r: nat, w: nat) {
    Word(r - w) < WINDOW
  }

  predicate IsFull(r: nat, w: nat, capacity: nat) {
    Word(w - capacity - r) < WINDOW
  }

  /** The differences for which the wrapping tests are right. */
  predicate InWindow(d: int) {
    WINDOW - TWO64 <= d < WINDOW
  }

  /**
   * Within one turn of the 64-bit counters, the emptiness test on wrapped counters agrees
   * with the comparison of the true counters exactly in the window.
   */
  lemma IsEmptyExact(r: int, w: int)
    requires -TWO64 <= r - w < TWO64
    ensures (IsEmpty(Word(r), Word(w)) <==> r >= w) <==> InWindow(r - w)
  {
    WordDiff(r, w);
  }

  lemma FullDiff(w: int, r: int, capacity: nat)
    ensures Word(Word(w) - capacity - Word(r)) == Word(w - capacity - r)
  {
    hide Word;
    WordDiff(w, r);
    WordAdd(Word(w) - Word(r), 0 - capacity);
    WordAdd(w - r, 0 - capacity);
    assert Word(w) - Word(r) + (0 - capacity) == Word(w) - capacity - Word(r);
    assert w - r + (0 - capacity) == w - capacity - r;
  }

  lemma IsFullExact(r: int, w: int, capacity: nat)
    requires -TWO64 <= w - capacity - r < TWO64
    ensures (IsFull(Word(r), Word(w), capacity) <==> w - r >= capacity) <==> InWindow(w - capacity - r)
  {
    FullDiff(w, r, capacity);
  }

  /** The admission checks on wrapped counters, in the window of the true difference. */
  lemma FullTest(number: nat, missed: nat, peer: nat, capacity: nat)
    requires InWindow(number - missed - capacity - peer)
    ensures IsFull(Word(peer), Word(Word(number) - Word(missed)), capacity) <==> number - missed - peer >= capacity
  {
    WordDiff(number, missed);
    IsFullExact(peer, number - missed, capacity);
  }

  lemma EmptyTest(number: nat, missed: nat, peer: nat)
    requires InWindow(number - missed - peer)
    ensures IsEmpty(Word(Word(number) - Word(missed)), Word(peer)) <==> number - missed >= peer
  {
    WordDiff(number, missed);
    IsEmptyExact(number - missed, peer);
  }

  // ---------------------------------------------------------------- the versions a reader sees

  /** A 64-bit version stored in a 32-bit signed local and widened again for the comparison. */
  function ThroughInt(version: nat): nat {
    var low := version % 0x1_0000_0000;
    if low < 0x8000_0000 then low else low + TWO64 - 0x1_0000_0000
  }

  predicate ReaderTest(version: nat, ticket: nat) {
    ThroughInt(version) == ticket
  }

  /** Tickets a reader can still recognise after the narrowing. */
  predicate Survives(ticket: nat) {
    Word(ticket) < 0x8000_0000 || Word(ticket) >= TWO64 - 0x8000_0000
  }

  /**
   * With versions within 2^32 of the ticket, the narrowed test succeeds exactly on the right
   * version of a ticket that survives: from ticket 2^31 on (until 2^64 - 2^31) a reader waits
   * for ever.
   */
  lemma ReaderTestIs(version: int, ticket: nat)
    requires -0x1_0000_0000 < version - ticket < 0x1_0000_0000
    ensures ReaderTest(Word(version), Word(ticket)) <==> version == ticket && Survives(ticket)
  {
    WordIsRemainder(version);
    WordIsRemainder(ticket);
  }

  lemma WriterTestExact(version: int, target: int)
    requires -TWO64 < version - target < TWO64
    ensures Word(version) == Word(target) <==> version == target
  {
    WordDiff(version, target);
    assert Word(0) == 0;
  }
}

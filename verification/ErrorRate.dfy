/**
 * The error rate of a sliding window: one bit per record in a ring of 64-bit words, errors
 * counted byte by byte with a table.
 */
module ErrorRate {
  import opened Common
  import opened Bits
  import opened BitMap
  import Cyclic

  /** Number of ones of each byte, in rows of sixteen. */
  const FAST: seq<seq<nat>> := [
    [0, 1, 1, 2, 1, 2, 2, 3, 1, 2, 2, 3, 2, 3, 3, 4],
    [1, 2, 2, 3, 2, 3, 3, 4, 2, 3, 3, 4, 3, 4, 4, 5],
    [1, 2, 2, 3, 2, 3, 3, 4, 2, 3, 3, 4, 3, 4, 4, 5],
    [2, 3, 3, 4, 3, 4, 4, 5, 3, 4, 4, 5, 4, 5, 5, 6],
    [1, 2, 2, 3, 2, 3, 3, 4, 2, 3, 3, 4, 3, 4, 4, 5],
    [2, 3, 3, 4, 3, 4, 4, 5, 3, 4, 4, 5, 4, 5, 5, 6],
    [2, 3, 3, 4, 3, 4, 4, 5, 3, 4, 4, 5, 4, 5, 5, 6],
    [3, 4, 4, 5, 4, 5, 5, 6, 4, 5, 5, 6, 5, 6, 6, 7],
    [1, 2, 2, 3, 2, 3, 3, 4, 2, 3, 3, 4, 3, 4, 4, 5],
    [2, 3, 3, 4, 3, 4, 4, 5, 3, 4, 4, 5, 4, 5, 5, 6],
    [2, 3, 3, 4, 3, 4, 4, 5, 3, 4, 4, 5, 4, 5, 5, 6],
    [3, 4, 4, 5, 4, 5, 5, 6, 4, 5, 5, 6, 5, 6, 6, 7],
    [2, 3, 3, 4, 3, 4, 4, 5, 3, 4, 4, 5, 4, 5, 5, 6],
    [3, 4, 4, 5, 4, 5, 5, 6, 4, 5, 5, 6, 5, 6, 6, 7],
    [3, 4, 4, 5, 4, 5, 5, 6, 4, 5, 5, 6, 5, 6, 6, 7],
    [4, 5, 5, 6, 5, 6, 6, 7, 5, 6, 6, 7, 6, 7, 7, 8]]

  predicate Shifted(row: seq<nat>, k: nat) {
    row == [k, k + 1, k + 1, k + 2, k + 1, k + 2, k + 2, k + 3, k + 1, k + 2, k + 2, k + 3, k + 2, k + 3, k + 3, k + 4]
  }

  lemma SmallPops()
    ensures Pop(0) == 0 && Pop(1) == 1 && Pop(2) == 1 && Pop(3) == 2 && Pop(4) == 1 && Pop(5) == 2 && Pop(6) == 2 && Pop(7) == 3
    ensures Pop(8) == 1 && Pop(9) == 2 && Pop(10) == 2 && Pop(11) == 3 && Pop(12) == 2 && Pop(13) == 3 && Pop(14) == 3 && Pop(15) == 4
  {
  }

  lemma ShiftedAt(row: seq<nat>, k: nat, i: nat)
    requires Shifted(row, k) && i < 16
    ensures |row| == 16 && row[i] == k + Pop(i)
  {
    SmallPops();
    hide Pop;
  }

  lemma FastRows(r: nat)
    requires r < 16
    ensures |FAST| == 16 && Shifted(FAST[r], Pop(r))
  {
    SmallPops();
    hide Pop;
  }

  function ShiftLeft(h: nat, n: nat): nat
    decreases n
  {
    if n == 0 then h else 2 * ShiftLeft(h, n - 1)
  }

  /** Ones can be counted in the low n bits and the rest. */
  lemma {:induction false} PopJoin(l: nat, h: nat, n: nat)
    requires l < Pow2(n)
    ensures Pop(l + ShiftLeft(h, n)) == Pop(l) + Pop(h)
  {
    if n > 0 {
      var b, l', s := l % 2, l / 2, ShiftLeft(h, n - 1);
      assert l == b + 2 * l' && l' < Pow2(n - 1);
      PopJoin(l', h, n - 1);
      assert l + ShiftLeft(h, n) == b + 2 * (l' + s);
      hide ShiftLeft, Pow2, Pop;
      PopStep(b, l' + s);
      PopStep(b, l');
    }
  }

  lemma PopOfNibbles(l: nat, h: nat)
    requires l < 16
    ensures Pop(l + 16 * h) == Pop(l) + Pop(h)
  {
    assert ShiftLeft(h, 2) == 4 * h;
    assert ShiftLeft(h, 4) == 16 * h;
    assert Pow2(2) == 4;
    assert Pow2(4) == 16;
    PopJoin(l, h, 4);
  }

  lemma PopOfBytes(l: nat, h: nat)
    requires l < 256
    ensures Pop(l + 256 * h) == Pop(l) + Pop(h)
  {
    assert ShiftLeft(h, 2) == 4 * h;
    assert ShiftLeft(h, 4) == 16 * h;
    assert ShiftLeft(h, 6) == 64 * h;
    assert ShiftLeft(h, 8) == 256 * h;
    Pow2Of64();
    PopJoin(l, h, 8);
  }

  function FastAt(b: nat): nat
    requires b < 256
  {
    assert |FAST| == 16;
    FastRows(b / 16);
    FAST[b / 16][b % 16]
  }

  /** The table holds the number of ones of every byte. */
  lemma FastIsPop(b: nat)
    requires b < 256
    ensures FastAt(b) == Pop(b)
  {
    var r, i := b / 16, b % 16;
    assert b == i + 16 * r;
    hide Pop;
    FastRows(r);
    ShiftedAt(FAST[r], Pop(r), i);
    PopOfNibbles(i, r);
  }

  // ---------------------------------------------------------------- errors among the last records

  /** Records, true for an error. */
  type Records = seq<bool>

  function Errors(r: Records): nat {
    if r == [] then 0 else (if r[0] then 1 else 0) + Errors(r[1..])
  }

  /** The last n records. */
  function Last(r: Records, n: nat): Records {
    if |r| <= n then r else r[|r| - n..]
  }

  lemma {:induction false} ErrorsConcat(a: Records, b: Records)
    ensures Errors(a + b) == Errors(a) + Errors(b)
  {
    if a == [] {
      assert a + b == b;
    } else {
      ErrorsConcat(a[1..], b);
      assert (a + b)[1..] == a[1..] + b;
    }
  }

  lemma ErrorsUpdate(r: Records, p: nat, e: bool)
    requires p < |r|
    ensures Errors(r[p := e]) + (if r[p] then 1 else 0) == Errors(r) + (if e then 1 else 0)
  {
    assert r == r[..p] + ([r[p]] + r[p + 1..]);
    assert r[p := e] == r[..p] + ([e] + r[p + 1..]);
    ErrorsConcat(r[..p], [r[p]] + r[p + 1..]);
    ErrorsConcat(r[..p], [e] + r[p + 1..]);
    assert ([r[p]] + r[p + 1..])[1..] == r[p + 1..] == ([e] + r[p + 1..])[1..];
  }

  /** Where record number n goes in a window of w bits: its position modulo the window. */
  ghost function Ring(r: Records, w: nat): (ring: Records)
    requires w > 0
    ensures |ring| == w
  {
    if r == [] then seq(w, _ => false)
    else Ring(r[..|r| - 1], w)[Cyclic.Slot(|r| - 1, w) := r[|r| - 1]]
  }

  /** The ring holds the last w records, and nothing where there was none yet. */
  lemma {:induction false} RingHolds(r: Records, w: nat, i: nat)
    requires w > 0
    ensures i < |r| <= i + w ==> Ring(r, w)[Cyclic.Slot(i, w)] == r[i]
    ensures |r| <= i < w ==> !Ring(r, w)[i]
  {
    if r != [] {
      var n := |r| - 1;
      RingHolds(r[..n], w, i);
      if i < n < i + w && Cyclic.Slot(i, w) == Cyclic.Slot(n, w) {
        Cyclic.Gap(i, n, w);
      }
    }
  }

  /** The record that leaves a window of w records when the next one comes. */
  function Leaving(r: Records, w: nat): nat
    requires w > 0
  {
    if |r| >= w && r[|r| - w] then 1 else 0
  }

  lemma OneRecord(e: bool)
    ensures Errors([e]) == if e then 1 else 0
  {
  }

  lemma FullWindowSlides(r: Records, w: nat, e: bool)
    requires 0 < w <= |r|
    ensures Errors(Last(r + [e], w)) + Errors([r[|r| - w]]) == Errors(Last(r, w)) + Errors([e])
  {
    var was, rest := r[|r| - w], r[|r| - w + 1..];
    assert Last(r, w) == [was] + rest;
    assert Last(r + [e], w) == rest + [e];
    hide Last, Errors;
    ErrorsConcat([was], rest);
    ErrorsConcat(rest, [e]);
  }

  /** One more record: the window gains it and loses the record w before, if there is one. */
  lemma LastSlides(r: Records, w: nat, e: bool)
    requires w > 0
    ensures Errors(Last(r + [e], w)) + Leaving(r, w) == Errors(Last(r, w)) + Errors([e])
  {
    if |r| < w {
      assert Last(r + [e], w) == r + [e] && Last(r, w) == r;
      ErrorsConcat(r, [e]);
    } else {
      FullWindowSlides(r, w, e);
      OneRecord(r[|r| - w]);
    }
    hide Errors, Last;
  }

  /** In the ring it takes the place of the record w before. */
  lemma RingSlides(r: Records, w: nat, e: bool)
    requires w > 0
    ensures Errors(Ring(r + [e], w)) + Leaving(r, w) == Errors(Ring(r, w)) + Errors([e])
  {
    var n := |r|;
    Recorded(r, e, w);
    RingHolds(r, w, if n < w then n else n - w);
    if n >= w {
      Cyclic.AddCap(n - w, w);
    }
    OneRecord(e);
    hide Ring, Errors;
    ErrorsUpdate(Ring(r, w), Cyclic.Slot(n, w), e);
  }

  lemma Recorded(r: Records, e: bool, w: nat)
    requires w > 0
    ensures Ring(r + [e], w) == Ring(r, w)[Cyclic.Slot(|r|, w) := e]
  {
    assert (r + [e])[..|r|] == r;
  }

  /** So its errors are those of the last w records. */
  lemma {:induction false} RingErrors(r: Records, w: nat)
    requires w > 0
    ensures Errors(Ring(r, w)) == Errors(Last(r, w))
  {
    if r == [] {
      NoErrors(w);
    } else {
      var n := |r| - 1;
      var r0 := r[..n];
      assert r == r0 + [r[n]];
      RingErrors(r0, w);
      hide Errors, Last, Ring, Leaving;
      LastSlides(r0, w, r[n]);
      RingSlides(r0, w, r[n]);
    }
  }

  lemma {:induction false} NoErrors(w: nat)
    ensures Errors(seq(w, _ => false)) == 0
  {
    if w > 0 {
      NoErrors(w - 1);
      assert seq(w, _ => false)[1..] == seq(w - 1, _ => false);
    }
  }

  // ---------------------------------------------------------------- the ring in words

  /** Bit k of word j is position 64 j + k of the ring. */
  ghost predicate WordsShow(words: seq<nat>, ring: Records) {
    && |ring| == 64 * |words|
    && (forall j | 0 <= j < |words| :: words[j] < TWO64)
    && (forall j, k | 0 <= j < |words| && 0 <= k < 64 :: Bit(words[j], k) == ring[64 * j + k])
  }

  function Ones(words: seq<nat>): nat {
    if words == [] then 0 else Ones(words[..|words| - 1]) + Pop(words[|words| - 1])
  }

  lemma {:induction false} PopIsErrors(x: nat, bits: Records)
    requires x < Pow2(|bits|) && forall k | 0 <= k < |bits| :: Bit(x, k) == bits[k]
    ensures Pop(x) == Errors(bits)
  {
    if bits != [] {
      assert Bit(x, 0) == bits[0];
      forall k | 0 <= k < |bits| - 1 ensures Bit(x / 2, k) == bits[1..][k] {
        assert Bit(x, k + 1) == bits[k + 1];
      }
      PopIsErrors(x / 2, bits[1..]);
    }
  }

  lemma {:induction false} OnesAreErrors(words: seq<nat>, ring: Records)
    requires WordsShow(words, ring)
    ensures Ones(words) == Errors(ring)
  {
    if words != [] {
      var n := |words| - 1;
      var front, back := ring[..64 * n], ring[64 * n..];
      assert ring == front + back;
      ErrorsConcat(front, back);
      OnesAreErrors(words[..n], front);
      Pow2Of64();
      forall k | 0 <= k < 64 ensures Bit(words[n], k) == back[k] {
      }
      PopIsErrors(words[n], back);
    }
  }

  lemma Within(x: nat, c: nat)
    requires c > 0
    ensures x % (64 * c) == 64 * ((x / 64) % c) + x % 64
  {
    var h := x / 64;
    var q, r := h / c, h % c;
    assert h == q * c + r;
    assert 64 * (q * c) == q * (64 * c);
    Cyclic.Unique(x, 64 * c, q, 64 * r + x % 64);
  }

  /**
   * The masks pick the position of record n: its number modulo the window, in words and bits.
   * The window divides 2^64, so the wrap of the counter does not move the position.
   */
  lemma Position(n: nat, m: nat)
    requires m < 58
    ensures And(Word(n), 63) < 64 && And(Word(n) / 64, Pow2(m) - 1) < Pow2(m)
    ensures Cyclic.Slot(n, 64 * Pow2(m)) == 64 * And(Word(n) / 64, Pow2(m) - 1) + And(Word(n), 63)
  {
    Pow2Of64();
    MaskIsRemainder(Word(n), 6);
    MaskIsRemainder(Word(n) / 64, m);
    Pow2Add(6, m);
    IndexIsSlot(n, 6 + m);
    MaskIsRemainder(Word(n), 6 + m);
    Within(Word(n), Pow2(m));
    hide Pow2, And, Word;
  }

  /** Setting or clearing bit k of a word. */
  function WithBit(x: nat, k: nat, e: bool): nat {
    if e then Or(x, Pow2(k)) else And(x, Not(Pow2(k), 64))
  }

  lemma WithBitIs(x: nat, k: nat, e: bool, b: nat)
    requires x < TWO64 && k < 64 && b < 64
    ensures WithBit(x, k, e) < TWO64
    ensures Bit(WithBit(x, k, e), b) == if b == k then e else Bit(x, b)
  {
    Pow2Of64();
    Pow2Monotone(k + 1, 64);
    OrBound(x, Pow2(k), 64);
    AndBound(x, Not(Pow2(k), 64));
    Pow2Bit(k, b);
    OrBit(x, Pow2(k), b);
    AndBit(x, Not(Pow2(k), 64), b);
    NotBit(Pow2(k), 64, b);
    hide And, Or, Not, Pow2, Bit;
  }

  lemma BitChanges(words: seq<nat>, ring: Records, j: nat, k: nat, e: bool)
    requires WordsShow(words, ring) && j < |words| && k < 64
    ensures 64 * j + k < |ring|
    ensures WordsShow(words[j := WithBit(words[j], k, e)], ring[64 * j + k := e])
  {
    var words', ring' := words[j := WithBit(words[j], k, e)], ring[64 * j + k := e];
    WithBitIs(words[j], k, e, 0);
    hide WithBit, Bit;
    forall i, b | 0 <= i < |words| && 0 <= b < 64 ensures Bit(words'[i], b) == ring'[64 * i + b] {
      if i == j {
        WithBitIs(words[j], k, e, b);
      }
    }
  }

  /** Writing the bit of the next record keeps the words and the ring in step. */
  lemma RecordShows(words: seq<nat>, r: Records, m: nat, e: bool)
    requires m < 58 && |words| == Pow2(m) && WordsShow(words, Ring(r, 64 * |words|))
    ensures var (j, k) := (And(Word(|r|) / 64, |words| - 1), And(Word(|r|), 63));
      && j < |words| && k < 64
      && WordsShow(words[j := WithBit(words[j], k, e)], Ring(r + [e], 64 * |words|))
    ensures Word(Word(|r|) + 1) == Word(|r| + 1)
  {
    hide Ring, Word, WordsShow, And, Pow2, WithBit, Cyclic.Slot;
    Position(|r|, m);
    WordAdd(|r|, 1);
    Recorded(r, e, 64 * |words|);
    var j, k := And(Word(|r|) / 64, |words| - 1), And(Word(|r|), 63);
    BitChanges(words, Ring(r, 64 * |words|), j, k, e);
  }

  class LocalErrorRate {
    var idx: nat
    const container: array<nat>
    const bitSize: nat
    const highBit: nat
    ghost const m: nat
    ghost var records: Records

    ghost predicate Valid()
      reads this, container
    {
      && m < 58 && container.Length == Pow2(m) == highBit + 1 && bitSize == 64 * container.Length
      && idx == Word(|records|)
      && WordsShow(container[..], Ring(records, bitSize))
    }

    /** Sizes up to 32 are rounded to a window of less than one word, which has no container. */
    constructor (size: nat)
      requires 32 < size <= 0x4000_0000
      ensures Valid() && records == [] && fresh(container)
      ensures bitSize == AlignSize(size)
    {
      WindowWords(size);
      var words := AlignSize(size) / 64;
      idx, bitSize := 0, AlignSize(size);
      container := new nat[words](_ => 0);
      highBit := words - 1;
      m := Lg(words);
      records := [];
      new;
      forall k: nat ensures !Bit(0, k) {
        ZeroBit(k);
      }
    }

    method RecordError()
      requires Valid()
      modifies this`idx, this`records, container
      ensures Valid() && records == old(records) + [true]
    {
      RecordShows(container[..], records, m, true);
      hide WordsShow, Ring;
      var j, k := And(idx / 64, highBit), And(idx, 63);
      ghost var before := container[..];
      container[j] := Or(container[j], Pow2(k));
      assert container[..] == before[j := WithBit(before[j], k, true)];
      idx := Word(idx + 1);
      records := records + [true];
    }

    method RecordSuccess()
      requires Valid()
      modifies this`idx, this`records, container
      ensures Valid() && records == old(records) + [false]
    {
      RecordShows(container[..], records, m, false);
      hide WordsShow, Ring;
      var j, k := And(idx / 64, highBit), And(idx, 63);
      ghost var before := container[..];
      container[j] := And(container[j], Not(Pow2(k), 64));
      assert container[..] == before[j := WithBit(before[j], k, false)];
      idx := Word(idx + 1);
      records := records + [false];
    }

    /** The number of errors among the last `bitSize` records. */
    method ErrorCnt() returns (res: nat)
      requires Valid()
      ensures res == Errors(Last(records, bitSize))
    {
      res := 0;
      for i := 0 to highBit + 1
        invariant res == Ones(container[..i])
      {
        assert container[..i + 1][..i] == container[..i];
        ghost var sum := res + Pop(container[i]);
        var c := container[i];
        while c > 0
          invariant res + Pop(c) == sum
        {
          var low := c % 256;
          assert c == low + 256 * (c / 256);
          PopOfBytes(low, c / 256);
          FastIsPop(low);
          res := res + FastAt(low);
          c := c / 256;
        }
      }
      assert container[..highBit + 1] == container[..];
      OnesAreErrors(container[..], Ring(records, bitSize));
      RingErrors(records, bitSize);
    }

    /** The rate is taken of 128 records whatever the window. */
    method Get() returns (rate: real)
      requires Valid()
      ensures rate == (Errors(Last(records, bitSize)) as real) / 128.0
    {
      var n := ErrorCnt();
      rate := (n as real) / 128.0;
    }
  }

  /** It is the rate over the window exactly for the window of 128, or when there is no error. */
  lemma RateIsOfWindow(errors: nat, window: nat)
    requires window > 0
    ensures (errors as real) / 128.0 == (errors as real) / (window as real) <==> window == 128 || errors == 0
  {
    var e, w := errors as real, window as real;
    if e / 128.0 == e / w {
      assert e * w == e * 128.0;
      assert e * (w - 128.0) == 0.0;
    }
  }

  /** A window has at least one word exactly when more than 32 bits were asked for. */
  lemma WindowWords(size: nat)
    requires 0 < size <= 0x4000_0000
    ensures AlignSize(size) / 64 > 0 <==> size > 32
    ensures size > 32 ==> AlignSize(size) == 64 * (AlignSize(size) / 64)
    ensures size > 32 ==> Lg(AlignSize(size) / 64) < 58 && AlignSize(size) / 64 == Pow2(Lg(AlignSize(size) / 64))
  {
    AlignSizeIsLeast(size);
    AlignedLog(size);
    var n := LogOf(size);
    assert Pow2(5) == 32;
    if size > 32 {
      if n <= 5 {
        Pow2Monotone(n, 5);
      }
      hide AlignSize, LogOf;
      PowerInWords(AlignSize(size), n);
    }
  }

  lemma PowerInWords(a: nat, n: nat)
    requires a == Pow2(n) && n >= 6
    ensures a == 64 * (a / 64) && a / 64 == Pow2(n - 6) && a / 64 > 0 && Lg(a / 64) == n - 6
  {
    var c := Pow2(n - 6);
    assert Pow2(n - 4) == 4 * c;
    assert Pow2(n - 2) == 16 * c;
    assert Pow2(n) == 64 * c;
    LgOfPow2(n - 6);
    hide Pow2, Lg;
  }

  lemma {:induction false} LgOfPow2(n: nat)
    ensures Lg(Pow2(n)) == n
  {
    if n > 0 {
      LgOfPow2(n - 1);
    }
  }
}

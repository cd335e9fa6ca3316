/** The bit-map helpers of the engine and its power-of-two rounding (src/util.cpp). */
module BitMap {
  import opened Common
  import opened Bits

  /** The bits a 64-bit word has set. */
  function BitsOf(w: nat): set<nat> {
    set j: nat | j < 64 && Bit(w, j)
  }

  /**
   * Sets one bit of the map. A map of 64 bits or more is refused by an exception; a bit
   * beyond the size is ignored.
   */
  method BitMapSet(w: nat, bit: nat, size: nat) returns (r: Option<nat>)
    requires w < TWO64
    ensures size >= 64 <==> r.None?
    ensures r.Some? ==> r.value < TWO64
    ensures r.Some? ==> BitsOf(r.value) == BitsOf(w) + (if bit < size then {bit} else {})
  {
    if size >= 64 {
      return None;
    }
    if bit >= size {
      return Some(w);
    }
    r := Some(Or(w, Pow2(bit)));
    SetsOneBit(w, bit);
  }

  lemma SetsOneBit(w: nat, bit: nat)
    requires w < TWO64 && bit < 64
    ensures Or(w, Pow2(bit)) < TWO64
    ensures BitsOf(Or(w, Pow2(bit))) == BitsOf(w) + {bit}
  {
    Pow2Of64();
    Pow2Monotone(bit + 1, 64);
    OrBound(w, Pow2(bit), 64);
    forall j: nat | j < 64 ensures Bit(Or(w, Pow2(bit)), j) <==> Bit(w, j) || j == bit {
      OrBit(w, Pow2(bit), j);
      Pow2Bit(bit, j);
    }
  }

  method BitMapGet(w: nat, bit: nat, size: nat) returns (r: Option<bool>)
    ensures size >= 64 <==> r.None?
    ensures r.Some? ==> (r.value <==> bit < size && bit in BitsOf(w))
  {
    if size >= 64 {
      return None;
    }
    if bit >= size {
      return Some(false);
    }
    MaskOneBit(w, bit);
    r := Some(And(Pow2(bit), w) > 0);
  }

  ghost predicate Increasing(s: seq<nat>) {
    forall i, j | 0 <= i < j < |s| :: s[i] < s[j]
  }

  /** The set bits below the size, each once, in increasing order. */
  method BitMapIdx(w: nat, size: nat) returns (r: Option<seq<nat>>)
    ensures size >= 64 <==> r.None?
    ensures r.Some? ==> Increasing(r.value)
    ensures r.Some? ==> forall j: nat :: j in r.value <==> j < size && j in BitsOf(w)
  {
    if size >= 64 {
      return None;
    }
    var idx: seq<nat> := [];
    var bit := 1;
    for i := 0 to size
      invariant bit == Pow2(i)
      invariant Increasing(idx)
      invariant forall j: nat :: j in idx <==> j < i && j in BitsOf(w)
    {
      MaskOneBit(w, i);
      if And(bit, w) != 0 {
        assert forall k | 0 <= k < |idx| :: idx[k] in idx;
        idx := idx + [i];
      }
      bit := 2 * bit;
    }
    r := Some(idx);
  }

  // ---------------------------------------------------------------- rounding to a power of two

  /** The index of the highest one bit. */
  function Lg(size: nat): nat
    requires size > 0
  {
    if size == 1 then 0 else 1 + Lg(size / 2)
  }

  lemma {:induction false} LgBounds(size: nat)
    requires size > 0
    ensures Pow2(Lg(size)) <= size < Pow2(Lg(size) + 1)
  {
    if size > 1 {
      LgBounds(size / 2);
    }
  }

  function AlignSize(size: nat): nat
    requires size > 0
  {
    if Pow2(Lg(size)) == size then size else Pow2(Lg(size) + 1)
  }

  /** The aligned size is the least power of two not below the size. */
  lemma AlignSizeIsLeast(size: nat)
    requires size > 0
    ensures exists n :: AlignSize(size) == Pow2(n)
    ensures size <= AlignSize(size) < 2 * size
    ensures forall n: nat :: size <= Pow2(n) ==> AlignSize(size) <= Pow2(n)
  {
    LgBounds(size);
    forall n: nat | size <= Pow2(n) ensures AlignSize(size) <= Pow2(n) {
      if n <= Lg(size) {
        Pow2Monotone(n, Lg(size));
      } else {
        Pow2Monotone(Lg(size) + 1, n);
      }
    }
  }

  /**
   * What the shift `1 << n` of a 32-bit int becomes when compared with or returned as a
   * 64-bit word: the sign bit is extended, and from 32 on the shift is undefined.
   */
  function IntShift(n: nat): Option<nat> {
    if n < 31 then Some(Pow2(n)) else if n == 31 then Some(TWO64 - 0x8000_0000) else None
  }

  /** align_size as the program computes it, or None where it is undefined. */
  function IntAlign(size: nat): Option<nat>
    requires size > 0
  {
    var bit := IntShift(Lg(size));
    if bit.None? then None else if bit == Some(size) then bit else IntShift(Lg(size) + 1)
  }

  /** The program rounds a 64-bit size up to the least power of two exactly up to 2^30. */
  lemma IntAlignExactIff(size: nat)
    requires size > 0
    ensures IntAlign(size) == Some(AlignSize(size)) <==> size <= 0x4000_0000
  {
    LgBounds(size);
    CapacityBound(30);
    AlignSizeIsLeast(size);
    if size <= 0x4000_0000 {
      if Lg(size) > 30 {
        Pow2Monotone(31, Lg(size));
      }
      if Lg(size) == 30 {
        assert Pow2(30) == size;
      }
    } else {
      if Lg(size) < 30 {
        Pow2Monotone(Lg(size) + 1, 30);
      }
    }
  }

  ghost function LogOf(size: nat): nat
    requires size > 0
  {
    if Pow2(Lg(size)) == size then Lg(size) else Lg(size) + 1
  }

  lemma AlignedLog(size: nat)
    requires 1 <= size <= 0x4000_0000
    ensures LogOf(size) <= 30 && AlignSize(size) == Pow2(LogOf(size)) && (size >= 2 ==> LogOf(size) >= 1 && AlignSize(size) >= 2)
  {
    LgBounds(size);
    CapacityBound(30);
    if LogOf(size) >= 1 {
      Pow2Monotone(1, LogOf(size));
    }
    if Lg(size) >= 30 {
      Pow2Monotone(30, Lg(size));
      if Lg(size) > 30 {
        Pow2Monotone(31, Lg(size));
      }
    }
  }

  lemma CapacityBound(n: nat)
    requires n <= 30
    ensures Pow2(n) <= 0x4000_0000 == Pow2(30)
  {
    assert Pow2(3) == 8;
    hide Pow2;
    Pow2Add(3, 3);
    Pow2Add(6, 6);
    Pow2Add(12, 12);
    Pow2Add(24, 6);
    Pow2Monotone(n, 30);
  }
}

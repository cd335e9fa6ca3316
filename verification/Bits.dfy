/** Bitwise operations on machine words, bit by bit from the least significant end. */
module Bits {
  import opened Common
  import Cyclic

  function Pow2(n: nat): (p: nat)
    ensures p >= 1
  {
    if n == 0 then 1 else 2 * Pow2(n - 1)
  }

  /** Bit j of a word. */
  predicate Bit(x: nat, j: nat)
    decreases j
  {
    if j == 0 then x % 2 == 1 else Bit(x / 2, j - 1)
  }

  function And(x: nat, y: nat): nat
    decreases x
  {
    if x == 0 then 0
    else (if x % 2 == 1 && y % 2 == 1 then 1 else 0) + 2 * And(x / 2, y / 2)
  }

  function Or(x: nat, y: nat): nat
    decreases x + y
  {
    if x + y == 0 then 0
    else (if x % 2 == 1 || y % 2 == 1 then 1 else 0) + 2 * Or(x / 2, y / 2)
  }

  /** The complement of a word of n bits. */
  function Not(x: nat, n: nat): nat {
    if n == 0 then 0 else (if x % 2 == 1 then 0 else 1) + 2 * Not(x / 2, n - 1)
  }

  /** Number of one bits. */
  function Pop(x: nat): nat {
    if x == 0 then 0 else x % 2 + Pop(x / 2)
  }

  // ---------------------------------------------------------------- what the operations mean

  lemma BitStep(b: nat, h: nat, j: nat)
    requires b < 2
    ensures Bit(b + 2 * h, j) <==> if j == 0 then b == 1 else Bit(h, j - 1)
  {
    Halve(b, h);
  }

  lemma {:induction false} AndBit(x: nat, y: nat, j: nat)
    ensures Bit(And(x, y), j) <==> Bit(x, j) && Bit(y, j)
    decreases j
  {
    if x == 0 {
      ZeroBit(j);
    } else {
      BitStep(if x % 2 == 1 && y % 2 == 1 then 1 else 0, And(x / 2, y / 2), j);
      if j > 0 {
        AndBit(x / 2, y / 2, j - 1);
      }
    }
  }

  lemma {:induction false} OrBit(x: nat, y: nat, j: nat)
    ensures Bit(Or(x, y), j) <==> Bit(x, j) || Bit(y, j)
    decreases j
  {
    if x + y == 0 {
      ZeroBit(j);
    } else {
      BitStep(if x % 2 == 1 || y % 2 == 1 then 1 else 0, Or(x / 2, y / 2), j);
      if j > 0 {
        OrBit(x / 2, y / 2, j - 1);
      }
    }
  }

  lemma {:induction false} NotBit(x: nat, n: nat, j: nat)
    ensures Bit(Not(x, n), j) <==> j < n && !Bit(x, j)
    decreases j
  {
    if n == 0 {
      ZeroBit(j);
    } else {
      BitStep(if x % 2 == 1 then 0 else 1, Not(x / 2, n - 1), j);
      if j > 0 {
        NotBit(x / 2, n - 1, j - 1);
      }
    }
  }

  lemma Halve(b: nat, h: nat)
    requires b < 2
    ensures (b + 2 * h) / 2 == h && (b + 2 * h) % 2 == b
  {
  }

  lemma {:induction false} ZeroBit(j: nat)
    ensures !Bit(0, j)
  {
    if j > 0 {
      ZeroBit(j - 1);
    }
  }

  lemma {:induction false} Pow2Bit(k: nat, j: nat)
    ensures Bit(Pow2(k), j) <==> j == k
    decreases j
  {
    if k == 0 {
      if j > 0 {
        ZeroBit(j - 1);
      }
    } else if j > 0 {
      Pow2Bit(k - 1, j - 1);
    }
  }

  lemma {:induction false} Pow2Monotone(a: nat, b: nat)
    requires a <= b
    ensures Pow2(a) <= Pow2(b)
    decreases b - a
  {
    if a < b {
      Pow2Monotone(a + 1, b);
    }
  }

  lemma {:induction false} Pow2Add(a: nat, b: nat)
    ensures Pow2(a + b) == Pow2(a) * Pow2(b)
  {
    if a > 0 {
      Pow2Add(a - 1, b);
      assert Pow2(a + b) == 2 * Pow2(a - 1 + b);
    }
  }

  lemma Pow2Of64()
    ensures Pow2(64) == TWO64 && Pow2(32) == 0x1_0000_0000 && Pow2(6) == 64 && Pow2(8) == 256
  {
    assert Pow2(4) == 16;
    Pow2Add(4, 4);
    Pow2Add(8, 8);
    assert Pow2(16) == 65536;
    Pow2Add(16, 16);
    Pow2Add(32, 32);
  }

  lemma {:induction false} OrBound(x: nat, y: nat, n: nat)
    requires x < Pow2(n) && y < Pow2(n)
    ensures Or(x, y) < Pow2(n)
    decreases n
  {
    if n > 0 {
      OrBound(x / 2, y / 2, n - 1);
    }
  }

  lemma {:induction false} AndBound(x: nat, y: nat)
    ensures And(x, y) <= x
    decreases x
  {
    if x > 0 {
      AndBound(x / 2, y / 2);
    }
  }

  /** Testing one bit with a one-bit mask. */
  lemma {:induction false} MaskOneBit(x: nat, k: nat)
    ensures And(Pow2(k), x) == if Bit(x, k) then Pow2(k) else 0
    decreases k
  {
    if k > 0 {
      MaskOneBit(x / 2, k - 1);
      assert Pow2(k) % 2 == 0 && Pow2(k) / 2 == Pow2(k - 1);
    }
  }

  lemma PopStep(b: nat, h: nat)
    requires b < 2
    ensures Pop(b + 2 * h) == b + Pop(h)
  {
    Halve(b, h);
  }

  /** Masking with 2^n - 1 is the remainder modulo 2^n: how every ring of the engine indexes. */
  lemma {:induction false} MaskIsRemainder(x: nat, n: nat)
    ensures And(x, Pow2(n) - 1) == x % Pow2(n)
    decreases n
  {
    if n == 0 {
      AndZero(x);
    } else if x == 0 {
    } else {
      MaskIsRemainder(x / 2, n - 1);
      var p := Pow2(n - 1);
      assert (Pow2(n) - 1) / 2 == p - 1 && (Pow2(n) - 1) % 2 == 1;
      assert And(x, Pow2(n) - 1) == x % 2 + 2 * ((x / 2) % p);
      RemainderStep(x, p);
    }
  }

  lemma {:induction false} AndZero(x: nat)
    ensures And(x, 0) == 0
    decreases x
  {
    if x > 0 {
      AndZero(x / 2);
    }
  }

  lemma RemainderStep(x: nat, p: nat)
    requires p > 0
    ensures x % (2 * p) == x % 2 + 2 * ((x / 2) % p)
  {
    var h := x / 2;
    var q := h / p;
    var r := h % p;
    assert h == q * p + r;
    assert x == 2 * (q * p + r) + x % 2;
    assert 2 * (q * p) == q * (2 * p);
    Cyclic.Unique(x, 2 * p, q, 2 * r + x % 2);
  }

  /** A wrapped counter has the same remainder modulo a divisor of 2^64. */
  lemma WordSlot(k: nat, cap: nat, m: nat)
    requires cap > 0 && m * cap == TWO64
    ensures Word(k) % cap == k % cap
  {
    WordIsRemainder(k);
    var q, q', r := k / TWO64, Word(k) / cap, Word(k) % cap;
    assert k == q * (m * cap) + q' * cap + r;
    Distribute(q, m, q', cap);
    Cyclic.Unique(k, cap, q * m + q', r);
  }

  lemma Distribute(q: int, m: int, q': int, cap: int)
    ensures q * (m * cap) + q' * cap == (q * m + q') * cap
  {
  }

  /** Masking a wrapped counter gives the slot of the counter: a power of two divides 2^64. */
  lemma IndexIsSlot(k: nat, n: nat)
    requires n <= 64
    ensures And(Word(k), Pow2(n) - 1) == Cyclic.Slot(k, Pow2(n))
  {
    var cap := Pow2(n);
    MaskIsRemainder(Word(k), n);
    Cyclic.SlotIsRemainder(k, cap);
    Pow2Of64();
    Pow2Add(64 - n, n);
    WordSlot(k, cap, Pow2(64 - n));
  }
}

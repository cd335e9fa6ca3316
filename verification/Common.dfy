/** Small vocabulary shared by the models of the queues, the graph and the scheduler. */
module Common {
  import Cyclic

  datatype Option<+T> = None | Some(value: T)

  /** What a pointer to an atomic word can hold on the machine: 64 bits, unsigned. */
  const TWO64: int := 0x1_0000_0000_0000_0000

  /** The machine word of a mathematical integer: unsigned 64-bit arithmetic wraps round. */
  function Word(x: int): (w: nat)
    ensures w < TWO64
    decreases if x < 0 then 2 * TWO64 - x else x
  {
    if 0 <= x < TWO64 then x else if x < 0 then Word(x + TWO64) else Word(x - TWO64)
  }

  lemma {:induction false} WordIsRemainder(x: int)
    ensures Word(x) == x % TWO64
    decreases if x < 0 then 2 * TWO64 - x else x
  {
    if x < 0 {
      WordIsRemainder(x + TWO64);
    } else if x >= TWO64 {
      WordIsRemainder(x - TWO64);
    }
  }

  lemma WordShift(x: int, m: int)
    ensures Word(x + m * TWO64) == Word(x)
  {
    WordIsRemainder(x + m * TWO64);
    WordIsRemainder(x);
    hide Word;
    var q, r := x / TWO64, x % TWO64;
    assert x == q * TWO64 + r;
    Cyclic.Unique(x + m * TWO64, TWO64, q + m, r);
  }

  lemma WordDiff(a: int, b: int)
    ensures Word(Word(a) - Word(b)) == Word(a - b)
  {
    WordIsRemainder(a);
    WordIsRemainder(b);
    var qa, qb := a / TWO64, b / TWO64;
    WordShift(Word(a) - Word(b), qa - qb);
  }

  lemma WordAdd(a: int, b: int)
    ensures Word(Word(a) + b) == Word(a + b)
  {
    WordIsRemainder(a);
    WordShift(Word(a) + b, a / TWO64);
  }

  /** Weighted count of the elements of a sequence (the threads at some program point). */
  function Sum<X>(s: seq<X>, f: X -> nat): nat {
    if s == [] then 0 else f(s[0]) + Sum(s[1..], f)
  }

  lemma {:induction false} SumUpdate<X>(s: seq<X>, f: X -> nat, i: nat, x: X)
    requires i < |s|
    ensures Sum(s[i := x], f) == Sum(s, f) - f(s[i]) + f(x)
    ensures Sum(s, f) >= f(s[i])
  {
    if i == 0 {
      assert s[i := x][1..] == s[1..];
    } else {
      SumUpdate(s[1..], f, i - 1, x);
      assert s[i := x][1..] == s[1..][i - 1 := x];
    }
  }

  lemma {:induction false} SumAppend<X>(s: seq<X>, f: X -> nat, x: X)
    ensures Sum(s + [x], f) == Sum(s, f) + f(x)
  {
    if s != [] {
      SumAppend(s[1..], f, x);
      assert (s + [x])[1..] == s[1..] + [x];
    } else {
      assert s + [x] == [x];
    }
  }

  lemma {:induction false} SumZero<X>(s: seq<X>, f: X -> nat)
    requires forall i | 0 <= i < |s| :: f(s[i]) == 0
    ensures Sum(s, f) == 0
  {
    if s != [] {
      SumZero(s[1..], f);
    }
  }

  lemma {:induction false} SumPositive<X>(s: seq<X>, f: X -> nat) returns (i: nat)
    requires Sum(s, f) > 0
    ensures i < |s| && f(s[i]) > 0
  {
    if f(s[0]) > 0 {
      i := 0;
    } else {
      var j := SumPositive(s[1..], f);
      i := j + 1;
    }
  }

  lemma SizeWith<X>(a: set<X>, x: X)
    requires x !in a
    ensures |a + {x}| == |a| + 1
  {
  }

  lemma SizeWithout<X>(a: set<X>, x: X)
    requires x in a
    ensures |a - {x}| == |a| - 1
  {
  }

  lemma {:induction false} SubsetSize<X>(a: set<X>, b: set<X>)
    requires a <= b
    ensures |a| <= |b|
  {
    if a != {} {
      var x :| x in a;
      SubsetSize(a - {x}, b - {x});
    }
  }

  /** A set of naturals below `n` has at most `n` elements. */
  lemma {:induction false} BoundedSetSize(a: set<nat>, n: nat)
    requires forall x | x in a :: x < n
    ensures |a| <= n
  {
    if n == 0 {
      assert a == {};
    } else {
      BoundedSetSize(a - {n - 1}, n - 1);
      if n - 1 in a {
        assert a == (a - {n - 1}) + {n - 1};
      } else {
        assert a == a - {n - 1};
      }
    }
  }

  lemma {:induction false} MaxElement(a: set<nat>) returns (m: nat)
    requires a != {}
    ensures m in a && forall x | x in a :: x <= m
  {
    var x :| x in a;
    assert forall y | y in a :: y == x || y in a - {x};
    if a - {x} == {} {
      m := x;
    } else {
      var k := MaxElement(a - {x});
      m := if k < x then x else k;
    }
  }
}

/** Positions of a ring: tickets of one slot are a capacity apart. */
module Cyclic {

  /** The slot of a ticket: the ticket modulo the capacity, by repeated subtraction. */
  function Slot(k: nat, cap: nat): (i: nat)
    requires cap > 0
    ensures i < cap
  {
    if k < cap then k else Slot(k - cap, cap)
  }

  lemma {:induction false} SlotIsRemainder(k: nat, cap: nat)
    requires cap > 0
    ensures Slot(k, cap) == k % cap
  {
    if k < cap {
      Unique(k, cap, 0, k);
    } else {
      SlotIsRemainder(k - cap, cap);
      var q, r := (k - cap) / cap, (k - cap) % cap;
      assert k - cap == q * cap + r;
      Unique(k, cap, q + 1, r);
    }
  }

  /** Quotient and remainder are unique. */
  lemma Unique(x: int, cap: nat, q: int, r: int)
    requires cap > 0 && 0 <= r < cap
    requires x == q * cap + r
    ensures x / cap == q && x % cap == r
  {
    var q0, r0 := x / cap, x % cap;
    assert x == q0 * cap + r0;
    assert (q - q0) * cap == r0 - r;
    if q > q0 {
      assert (q - q0) * cap >= cap by { MulAtLeast(q - q0, cap); }
    } else if q < q0 {
      assert (q0 - q) * cap >= cap by { MulAtLeast(q0 - q, cap); }
    }
  }

  lemma MulAtLeast(n: int, cap: nat)
    requires n >= 1
    ensures n * cap >= cap
  {
    assert n * cap == cap + (n - 1) * cap;
    assert (n - 1) * cap >= 0;
  }

  /** Two different tickets of the same slot are at least a capacity apart. */
  lemma {:induction false} Gap(a: nat, b: nat, cap: nat)
    requires cap > 0 && Slot(a, cap) == Slot(b, cap) && a < b
    ensures a + cap <= b
  {
    if a >= cap {
      Gap(a - cap, b - cap, cap);
    }
  }

  lemma {:induction false} AddCap(k: nat, cap: nat)
    requires cap > 0
    ensures Slot(k + cap, cap) == Slot(k, cap)
  {
  }

  /** The "empty" version of a ticket and the "full" version of another never coincide. */
  lemma Neighbours(a: nat, b: nat, cap: nat)
    requires cap >= 2 && Slot(a, cap) == Slot(b, cap)
    ensures a + 1 != b && a - cap + 1 != b && b - cap + 1 != a
  {
    if a < b {
      Gap(a, b, cap);
    } else if b < a {
      Gap(b, a, cap);
      if a == b + cap - 1 {
        assert false;
      }
    }
  }
}

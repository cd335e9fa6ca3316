/**
 * The wait-for relation between nodes and the search that keeps it free of cycles. A node's
 * upstreams are the nodes it was created to wait for, and the helper nodes of the waits it
 * has gone into while running; None stands for the flag that closes the created part.
 */
module CycleCheck {
  import opened Common

  datatype State = State(ups: seq<seq<Option<nat>>>, live: set<nat>)

  ghost predicate ListOk(s: State, n: nat)
    requires n < |s.ups|
  {
    forall i | 0 <= i < |s.ups[n]| && s.ups[n][i].Some? :: s.ups[n][i].value < |s.ups|
  }

  ghost predicate WellFormed(s: State) {
    (forall n | n in s.live :: n < |s.ups|) && (forall n | 0 <= n < |s.ups| :: ListOk(s, n))
  }

  /** a is unfinished and waits for the unfinished b. */
  predicate Waits(s: State, a: nat, b: nat) {
    a in s.live && b in s.live && a < |s.ups| && Some(b) in s.ups[a]
  }

  /** A chain of unfinished nodes, each waiting for the next. */
  ghost predicate IsPath(s: State, p: seq<nat>) {
    p != [] && p[0] in s.live && forall i | 0 <= i < |p| - 1 :: Waits(s, p[i], p[i + 1])
  }

  ghost predicate Reaches(s: State, a: nat, b: nat) {
    exists p :: IsPath(s, p) && p[0] == a && p[|p| - 1] == b
  }

  ghost predicate Reachable(s: State, from: seq<nat>, b: nat) {
    exists a | a in from :: Reaches(s, a, b)
  }

  // ---------------------------------------------------------------- no cycles

  ghost predicate Falls(s: State, rank: seq<nat>, a: nat, b: nat) {
    Waits(s, a, b) && a != b ==> a < |rank| && b < |rank| && rank[b] < rank[a]
  }

  /** A rank falls along the relation, but for nodes that list themselves. */
  ghost predicate Ranked(s: State, rank: seq<nat>) {
    |rank| == |s.ups| && forall a, b :: Falls(s, rank, a, b)
  }

  ghost predicate Layered(s: State) {
    exists rank :: Ranked(s, rank)
  }

  /** No chain of waits returns to its start. */
  ghost predicate Acyclic(s: State) {
    forall p | IsPath(s, p) && |p| > 1 :: p[0] != p[|p| - 1]
  }

  /** The unfinished node waits for itself: it was required by its own create_edges. */
  predicate ListsItself(s: State, n: nat) {
    Waits(s, n, n)
  }

  lemma {:induction false} PathFalls(s: State, rank: seq<nat>, p: seq<nat>, i: nat, j: nat)
    requires Ranked(s, rank) && WellFormed(s) && IsPath(s, p) && i <= j < |p|
    ensures p[i] < |rank| && p[j] < |rank| && rank[p[j]] <= rank[p[i]]
    ensures (exists k | i < k <= j :: p[k] != p[k - 1]) ==> rank[p[j]] < rank[p[i]]
    decreases j - i
  {
    if i < j {
      assert Waits(s, p[j - 1], p[j]) && Falls(s, rank, p[j - 1], p[j]);
      PathFalls(s, rank, p, i, j - 1);
    }
    assert p[i] in s.live by {
      assert i > 0 ==> Waits(s, p[i - 1], p[i]);
    }
  }

  /** Apart from nodes that list themselves there is no cycle. */
  lemma LayeredCycle(s: State, p: seq<nat>, k: nat)
    requires Layered(s) && WellFormed(s) && IsPath(s, p) && 0 < k < |p| && p[k] != p[k - 1]
    ensures p[0] != p[|p| - 1]
  {
    var rank :| Ranked(s, rank);
    PathFalls(s, rank, p, 0, |p| - 1);
  }

  lemma AcyclicIff(s: State)
    requires Layered(s) && WellFormed(s)
    ensures Acyclic(s) <==> forall n :: !ListsItself(s, n)
  {
    if n: nat :| ListsItself(s, n) {
      var p := [n, n];
      assert IsPath(s, p) && p[0] == p[|p| - 1];
    } else {
      forall p | IsPath(s, p) && |p| > 1 ensures p[0] != p[|p| - 1] {
        assert Waits(s, p[0], p[1]) && !ListsItself(s, p[0]);
        LayeredCycle(s, p, 1);
      }
    }
  }

  // ---------------------------------------------------------------- the search

  /** The unfinished nodes among some. */
  ghost function Start(s: State, from: seq<nat>): set<nat> {
    set n | n in from && n in s.live
  }

  /** The unfinished nodes some node of the frontier waits for. */
  ghost function Next(s: State, frontier: set<nat>): set<nat> {
    set b | b in s.live && exists a :: a in frontier && Waits(s, a, b)
  }

  ghost function Frontier(s: State, from: seq<nat>, k: nat): set<nat> {
    if k == 0 then Start(s, from) else Next(s, Frontier(s, from, k - 1))
  }

  /** The frontier after k rounds is what chains of k waits lead to. */
  lemma {:induction false} FrontierIsPaths(s: State, from: seq<nat>, k: nat, b: nat)
    ensures b in Frontier(s, from, k) <==> exists p :: IsPath(s, p) && |p| == k + 1 && p[0] in from && p[k] == b
  {
    if k == 0 {
      if b in Start(s, from) {
        assert IsPath(s, [b]) && |[b]| == 1;
      }
    } else {
      if b in Frontier(s, from, k) {
        var a :| a in Frontier(s, from, k - 1) && Waits(s, a, b);
        FrontierIsPaths(s, from, k - 1, a);
        var p :| IsPath(s, p) && |p| == k && p[0] in from && p[k - 1] == a;
        assert IsPath(s, p + [b]) && (p + [b])[k] == b;
      }
      if p :| IsPath(s, p) && |p| == k + 1 && p[0] in from && p[k] == b {
        var q := p[..k];
        assert IsPath(s, q) && q[k - 1] == p[k - 1];
        FrontierIsPaths(s, from, k - 1, p[k - 1]);
        assert Waits(s, p[k - 1], p[k]);
      }
    }
  }

  lemma ReachableIsFrontier(s: State, from: seq<nat>, b: nat)
    ensures Reachable(s, from, b) <==> exists k: nat :: b in Frontier(s, from, k)
  {
    if Reachable(s, from, b) {
      var a :| a in from && Reaches(s, a, b);
      var p :| IsPath(s, p) && p[0] == a && p[|p| - 1] == b;
      FrontierIsPaths(s, from, |p| - 1, b);
    }
    if k: nat :| b in Frontier(s, from, k) {
      FrontierIsPaths(s, from, k, b);
      var p :| IsPath(s, p) && |p| == k + 1 && p[0] in from && p[k] == b;
      assert Reaches(s, p[0], b);
    }
  }

  /** Once empty, the frontier stays empty. */
  lemma {:induction false} EmptyStays(s: State, from: seq<nat>, k: nat, m: nat)
    requires Frontier(s, from, k) == {} && k <= m
    ensures Frontier(s, from, m) == {}
    decreases m - k
  {
    if k < m {
      EmptyStays(s, from, k, m - 1);
    }
  }

  ghost predicate WaitsWithin(s: State, cycle: set<nat>, a: nat) {
    exists b :: b in cycle && Waits(s, a, b)
  }

  /** While every node of a set waits for one of the set, the frontier keeps a node of it. */
  lemma {:induction false} TrapNeverEmpties(s: State, from: seq<nat>, trap: set<nat>, start: nat, k: nat) returns (c: nat)
    requires start in trap && start in from
    requires forall a | a in trap :: WaitsWithin(s, trap, a)
    ensures c in trap && c in Frontier(s, from, k)
  {
    hide WaitsWithin;
    if k == 0 {
      var b := Follow(s, trap, start);
      c := start;
    } else {
      var a := TrapNeverEmpties(s, from, trap, start, k - 1);
      c := Follow(s, trap, a);
    }
  }

  lemma Follow(s: State, trap: set<nat>, a: nat) returns (b: nat)
    requires WaitsWithin(s, trap, a)
    ensures b in trap && Waits(s, a, b)
  {
    b :| b in trap && Waits(s, a, b);
  }

  /** The search ends: in some round the frontier is empty or holds the goal. */
  ghost predicate Ends(s: State, from: seq<nat>, goal: nat) {
    exists k: nat :: Frontier(s, from, k) == {} || goal in Frontier(s, from, k)
  }

  /** Some chain of waits from the checked nodes comes to a node twice. */
  ghost predicate Repeats(s: State, from: seq<nat>) {
    exists p :: IsPath(s, p) && p[0] in from && HasTwice(p)
  }

  ghost predicate HasTwice(p: seq<nat>) {
    exists i, j | 0 <= i < j < |p| :: p[i] == p[j]
  }

  /** More numbers below n than n: one comes twice. */
  lemma {:induction false} Pigeonhole(p: seq<nat>, n: nat)
    requires |p| > n && forall i | 0 <= i < |p| :: p[i] < n
    ensures HasTwice(p)
    decreases n
  {
    var last := p[|p| - 1];
    if last !in p[..|p| - 1] {
      var q := seq(|p| - 1, i requires 0 <= i < |p| - 1 => if p[i] == n - 1 then last else p[i]);
      assert forall i | 0 <= i < |q| :: p[i] != last && q[i] < n - 1 by {
        assert forall i | 0 <= i < |p| - 1 :: p[i] in p[..|p| - 1];
      }
      Pigeonhole(q, n - 1);
      var i, j :| 0 <= i < j < |q| && q[i] == q[j];
      assert p[i] == p[j];
    } else {
      var i :| 0 <= i < |p| - 1 && p[..|p| - 1][i] == last;
      assert p[i] == p[|p| - 1];
    }
  }

  /** Without repetition the frontier runs empty after as many rounds as there are nodes. */
  lemma NoRepeatEnds(s: State, from: seq<nat>)
    requires WellFormed(s) && !Repeats(s, from)
    ensures Frontier(s, from, |s.ups|) == {}
  {
    forall b | b in Frontier(s, from, |s.ups|) ensures false {
      FrontierIsPaths(s, from, |s.ups|, b);
      var p :| IsPath(s, p) && |p| == |s.ups| + 1 && p[0] in from && p[|s.ups|] == b;
      forall i | 0 <= i < |p| ensures p[i] < |s.ups| {
        assert i > 0 ==> Waits(s, p[i - 1], p[i]);
      }
      Pigeonhole(p, |s.ups|);
    }
  }

  /** With one, no frontier is empty. */
  lemma RepeatNeverEmpties(s: State, from: seq<nat>, k: nat)
    requires Repeats(s, from)
    ensures Frontier(s, from, k) != {}
  {
    var p: seq<nat> :| IsPath(s, p) && p[0] in from && HasTwice(p);
    var i, j :| 0 <= i < j < |p| && p[i] == p[j];
    var trap := set m | 0 <= m < j :: p[m];
    forall a | a in trap ensures WaitsWithin(s, trap, a) {
      var m :| 0 <= m < j && p[m] == a;
      assert Waits(s, p[m], p[m + 1]);
      assert (if m + 1 < j then p[m + 1] else p[i]) in trap;
    }
    var c := TrapNeverEmpties(s, from, trap, p[0], k);
  }

  /**
   * The search keeps no visited set: it ends if and only if the goal can be reached or no
   * chain from the checked nodes comes to a node twice.
   */
  lemma EndsIff(s: State, from: seq<nat>, goal: nat)
    requires WellFormed(s)
    ensures Ends(s, from, goal) <==> Reachable(s, from, goal) || !Repeats(s, from)
  {
    ReachableIsFrontier(s, from, goal);
    if !Repeats(s, from) {
      NoRepeatEnds(s, from);
    } else if !Reachable(s, from, goal) {
      forall k: nat ensures Frontier(s, from, k) != {} && goal !in Frontier(s, from, k) {
        RepeatNeverEmpties(s, from, k);
      }
    }
  }

  /** In an acyclic relation it always ends. */
  lemma AcyclicEnds(s: State, from: seq<nat>, goal: nat)
    requires WellFormed(s) && Acyclic(s)
    ensures Ends(s, from, goal)
  {
    if Repeats(s, from) {
      var p :| IsPath(s, p) && p[0] in from && HasTwice(p);
      var i, j :| 0 <= i < j < |p| && p[i] == p[j];
      var q := p[i..j + 1];
      assert i > 0 ==> Waits(s, p[i - 1], p[i]);
      forall m | 0 <= m < |q| - 1 ensures Waits(s, q[m], q[m + 1]) {
        assert Waits(s, p[i + m], p[i + m + 1]);
      }
      assert IsPath(s, q);
    }
    EndsIff(s, from, goal);
  }

  /** do_check_circle: is `current` reachable from the checked nodes through unfinished nodes? */
  method DoCheckCircle(s: State, current: nat, check: seq<nat>) returns (found: bool)
    requires WellFormed(s) && Ends(s, check, current)
    ensures found <==> Reachable(s, check, current)
  {
    ghost var last: nat :| Frontier(s, check, last) == {} || current in Frontier(s, check, last);
    var a := CollectLive(s, check);
    ghost var k := 0;
    while a != {}
      invariant k <= last && a == Frontier(s, check, k)
      invariant forall m: nat | m < k :: current !in Frontier(s, check, m)
      decreases last - k
    {
      if current in a {
        ReachableIsFrontier(s, check, current);
        return true;
      }
      a := UpstreamsOf(s, a);
      k := k + 1;
    }
    forall m: nat ensures current !in Frontier(s, check, m) {
      if m >= k {
        EmptyStays(s, check, k, m);
      }
    }
    ReachableIsFrontier(s, check, current);
    return false;
  }

  method CollectLive(s: State, check: seq<nat>) returns (a: set<nat>)
    ensures a == Start(s, check)
  {
    a := {};
    for i := 0 to |check|
      invariant a == Start(s, check[..i])
    {
      assert check[..i + 1] == check[..i] + [check[i]];
      if check[i] in s.live {
        a := a + {check[i]};
      }
    }
    assert check[..|check|] == check;
  }

  /** The two inner loops of a round. */
  method UpstreamsOf(s: State, b: set<nat>) returns (a: set<nat>)
    requires forall n | n in b :: n in s.live && n < |s.ups|
    ensures a == Next(s, b)
  {
    a := {};
    var todo := b;
    while todo != {}
      invariant todo <= b && a == Next(s, b - todo)
    {
      var c :| c in todo;
      var before := a;
      for i := 0 to |s.ups[c]|
        invariant forall n :: n in a <==> n in before || (n in s.live && Some(n) in s.ups[c][..i])
      {
        assert s.ups[c][..i + 1] == s.ups[c][..i] + [s.ups[c][i]];
        var n := s.ups[c][i];
        if n.Some? && n.value in s.live {
          a := a + {n.value};
        }
      }
      assert s.ups[c][..|s.ups[c]|] == s.ups[c];
      NextAdds(s, b - todo, c);
      assert b - (todo - {c}) == b - todo + {c};
      todo := todo - {c};
    }
    assert b - todo == b;
  }

  lemma NextAdds(s: State, b: set<nat>, c: nat)
    requires c in s.live && c < |s.ups|
    ensures Next(s, b + {c}) == Next(s, b) + (set n | n in s.live && Some(n) in s.ups[c])
  {
    forall n | n in s.live && Some(n) in s.ups[c] ensures n in Next(s, b + {c}) {
      assert Waits(s, c, n);
    }
    forall n | n in Next(s, b) ensures n in Next(s, b + {c}) {
      var a :| a in b && Waits(s, a, n);
      assert a in b + {c};
    }
  }

  /** check_circle: the node itself always counts; the search is behind a flag. */
  method CheckCircle(s: State, enabled: bool, current: nat, check: seq<nat>) returns (found: bool)
    requires WellFormed(s) && (enabled && current !in check ==> Ends(s, check, current))
    ensures found <==> current in check || (enabled && Reachable(s, check, current))
  {
    for i := 0 to |check|
      invariant current !in check[..i]
    {
      if current == check[i] {
        return true;
      }
    }
    assert check[..|check|] == check;
    if !enabled {
      return false;
    }
    found := DoCheckCircle(s, current, check);
  }
}

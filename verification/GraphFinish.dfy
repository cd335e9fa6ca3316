/**
 * What Graph::finish does with the nodes a finished node has made ready: one of them, or a
 * node held back in the graph's own queue, is returned to the worker, and the rest is
 * passed on. The answers of the shared queues are parameters, so the claims hold whatever
 * other threads do in between.
 */
module GraphFinish {
  import opened Common

  datatype Task = Task(id: nat, graph: nat)

  datatype Event =
    | Ready(t: Task)                 // passed to ready() of its graph
    | Offered(t: Task, held: bool)   // try_enqueue on the queue of its limited graph
    | Asked(got: Option<Task>)       // try_dequeue on the graph's own queue

  /** The nodes handed on: given to ready(), or held in a queue. */
  function HandedOn(log: seq<Event>): multiset<Task> {
    if log == [] then multiset{}
    else HandedOn(log[..|log| - 1]) + match log[|log| - 1]
      case Ready(t) => multiset{t}
      case Offered(t, held) => if held then multiset{t} else multiset{}
      case Asked(_) => multiset{}
  }

  /** The nodes taken from the graph's own queue. */
  function Taken(log: seq<Event>): multiset<Task> {
    if log == [] then multiset{}
    else Taken(log[..|log| - 1]) + match log[|log| - 1]
      case Asked(got) => Returned(got)
      case _ => multiset{}
  }

  /** How often the slot of the finished node was given back through the counter. */
  function Asks(log: seq<Event>): nat {
    if log == [] then 0
    else Asks(log[..|log| - 1]) + if log[|log| - 1].Asked? then 1 else 0
  }

  function Returned(t: Option<Task>): multiset<Task> {
    if t.Some? then multiset{t.value} else multiset{}
  }

  ghost predicate BalancedAt(kept: multiset<Task>, log: seq<Event>, seen: seq<Task>, x: Task) {
    kept[x] + HandedOn(log)[x] == multiset(seen)[x] + Taken(log)[x]
  }

  /** Of the nodes seen so far and those taken, the ones not handed on are `kept`, each as often as it came. */
  ghost predicate Balanced(kept: multiset<Task>, log: seq<Event>, seen: seq<Task>) {
    forall x :: BalancedAt(kept, log, seen, x)
  }

  lemma Keep(kept: multiset<Task>, log: seq<Event>, seen: seq<Task>, t: Task)
    requires Balanced(kept, log, seen)
    ensures Balanced(kept + multiset{t}, log, seen + [t])
  {
    forall x ensures BalancedAt(kept + multiset{t}, log, seen + [t], x) {
      assert BalancedAt(kept, log, seen, x);
    }
  }

  lemma Append(log: seq<Event>, e: Event)
    ensures HandedOn(log + [e]) == HandedOn(log) + (if e.Ready? || (e.Offered? && e.held) then multiset{e.t} else multiset{})
    ensures Taken(log + [e]) == Taken(log) + (if e.Asked? then Returned(e.got) else multiset{})
    ensures Asks(log + [e]) == Asks(log) + (if e.Asked? then 1 else 0)
  {
    assert (log + [e])[..|log|] == log;
  }

  /** Logging that a kept node is handed on. */
  lemma HandOn(kept: multiset<Task>, log: seq<Event>, seen: seq<Task>, t: Task, e: Event)
    requires e == Ready(t) || e == Offered(t, true)
    requires Balanced(kept + multiset{t}, log, seen)
    ensures Balanced(kept, log + [e], seen)
    ensures Taken(log + [e]) == Taken(log) && Asks(log + [e]) == Asks(log)
  {
    Append(log, e);
    hide HandedOn, Taken, Asks;
    forall x ensures BalancedAt(kept, log + [e], seen, x) {
      assert BalancedAt(kept + multiset{t}, log, seen, x);
    }
  }

  lemma Refused(kept: multiset<Task>, log: seq<Event>, seen: seq<Task>, t: Task)
    requires Balanced(kept, log, seen)
    ensures Balanced(kept, log + [Offered(t, false)], seen)
    ensures Taken(log + [Offered(t, false)]) == Taken(log) && Asks(log + [Offered(t, false)]) == Asks(log)
  {
    Append(log, Offered(t, false));
    hide HandedOn, Taken, Asks;
    forall x ensures BalancedAt(kept, log + [Offered(t, false)], seen, x) {
      assert BalancedAt(kept, log, seen, x);
    }
  }

  lemma Ask(kept: multiset<Task>, log: seq<Event>, seen: seq<Task>, got: Option<Task>)
    requires Balanced(kept, log, seen)
    ensures Balanced(kept + Returned(got), log + [Asked(got)], seen)
    ensures Taken(log + [Asked(got)]) == Taken(log) + Returned(got) && Asks(log + [Asked(got)]) == Asks(log) + 1
  {
    Append(log, Asked(got));
    hide HandedOn, Taken, Asks;
    forall x ensures BalancedAt(kept + Returned(got), log + [Asked(got)], seen, x) {
      assert BalancedAt(kept, log, seen, x);
    }
  }

  /** The nodes finish prefers to return: of the graph itself, or of graphs without a limit. */
  predicate Preferred(self: nat, limited: set<nat>, t: Task) {
    if self in limited then t.graph == self else t.graph !in limited
  }

  /** The nodes passed to ready(), in this order. */
  function Readied(tasks: seq<Task>): (log: seq<Event>)
    ensures |log| == |tasks| && forall i | 0 <= i < |tasks| :: log[i] == Ready(tasks[i])
  {
    if tasks == [] then [] else Readied(tasks[..|tasks| - 1]) + [Ready(tasks[|tasks| - 1])]
  }

  lemma ReadiedNext(tasks: seq<Task>, t: Task)
    ensures Readied(tasks + [t]) == Readied(tasks) + [Ready(t)]
  {
    assert (tasks + [t])[..|tasks|] == tasks;
  }

  /** k is the first index after 0 of a node of graph self, or, without a limit, of a graph without one. */
  ghost predicate IsFirst(self: nat, limited: set<nat>, notified: seq<Task>, k: nat) {
    && 1 <= k < |notified|
    && (if self in limited then notified[k].graph == self else notified[k].graph !in limited)
    && forall j | 1 <= j < k :: if self in limited then notified[j].graph != self else notified[j].graph in limited
  }

  /** The node at k is returned, and the others after the first are passed on. */
  ghost predicate PassedFirst(self: nat, limited: set<nat>, notified: seq<Task>, k: nat, next: Option<Task>, log: seq<Event>) {
    && IsFirst(self, limited, notified, k) && next == Some(notified[k])
    && log == Readied(notified[1..k] + notified[k + 1..])
  }

  lemma FirstIs(self: nat, limited: set<nat>, notified: seq<Task>, k: nat)
    requires 1 <= k < |notified| && Preferred(self, limited, notified[k])
    requires forall j | 1 <= j < k :: !Preferred(self, limited, notified[j])
    ensures IsFirst(self, limited, notified, k)
  {
  }

  lemma Sliced(a: seq<Task>, i: nat)
    requires 1 <= i < |a|
    ensures a[..i + 1] == a[..i] + [a[i]] && a[1..i + 1] == a[1..i] + [a[i]]
  {
  }

  lemma Skipped(a: seq<Task>, k: nat, i: nat)
    requires 1 <= k < i < |a|
    ensures a[1..k] + a[k + 1..i + 1] == (a[1..k] + a[k + 1..i]) + [a[i]]
  {
  }

  /** The two loops: every node but the first is passed to ready(), but for the first preferred one. */
  method PassOn(self: nat, limited: set<nat>, notified: seq<Task>) returns (next: Option<Task>, log: seq<Event>)
    requires notified != []
    ensures Balanced(multiset{notified[0]} + Returned(next), log, notified)
    ensures Taken(log) == multiset{} && Asks(log) == 0
    ensures next.Some? ==> next.value in notified && Preferred(self, limited, next.value)
    ensures next.None? ==> forall k | 1 <= k < |notified| :: !Preferred(self, limited, notified[k])
    ensures if next.None? then log == Readied(notified[1..]) else
      exists k: nat :: PassedFirst(self, limited, notified, k, next, log)
  {
    hide Balanced, HandedOn, Taken, Asks, Readied, Preferred, IsFirst;
    next, log := None, [];
    NoLog(notified[0]);
    ghost var first := multiset{notified[0]};
    assert notified[..1] == [notified[0]];
    var i := 1;
    while i < |notified|
      invariant 1 <= i <= |notified| && next.None?
      invariant Balanced(first, log, notified[..i])
      invariant Taken(log) == multiset{} && Asks(log) == 0
      invariant forall k | 1 <= k < i :: !Preferred(self, limited, notified[k])
      invariant log == Readied(notified[1..i])
    {
      var node := notified[i];
      Sliced(notified, i);
      ReadiedNext(notified[1..i], node);
      Keep(first, log, notified[..i], node);
      i := i + 1;
      if Preferred(self, limited, node) {
        next := Some(node);
        break;
      }
      HandOn(first, log, notified[..i], node, Ready(node));
      log := log + [Ready(node)];
    }
    ghost var k := i - 1;
    ghost var passed := if next.Some? then notified[1..k] else notified[1..i];
    ghost var kept := first + Returned(next);
    assert Balanced(kept, log, notified[..i]) by {
      assert next.None? ==> kept == first;
    }
    assert next.Some? ==> notified[k + 1..i] == [] && passed + [] == passed;
    while i < |notified|
      invariant 1 <= i <= |notified| && k < i && (next.None? ==> i == |notified|)
      invariant Balanced(kept, log, notified[..i])
      invariant Taken(log) == multiset{} && Asks(log) == 0
      invariant log == Readied(passed) && passed == (if next.Some? then notified[1..k] + notified[k + 1..i] else notified[1..i])
    {
      var node := notified[i];
      Sliced(notified, i);
      Skipped(notified, k, i);
      ReadiedNext(passed, node);
      passed := passed + [node];
      Keep(kept, log, notified[..i], node);
      i := i + 1;
      HandOn(kept, log, notified[..i], node, Ready(node));
      log := log + [Ready(node)];
    }
    assert notified[..i] == notified && notified[1..i] == notified[1..];
    if next.Some? {
      FirstIs(self, limited, notified, k);
      assert notified[k + 1..i] == notified[k + 1..];
      assert PassedFirst(self, limited, notified, k, next, log);
    }
  }

  lemma NoLog(t: Task)
    ensures HandedOn([]) == Taken([]) == multiset{} && Asks([]) == 0
    ensures Balanced(multiset{}, [], []) && Balanced(multiset{t}, [], [t])
  {
  }

  /** The finished node of graph `self` passes its slot on within the graph, or gives it back. */
  ghost predicate SlotPassed(self: nat, notified: seq<Task>, own: Option<Task>, next: Option<Task>, log: seq<Event>) {
    if exists t :: t in notified && t.graph == self then
      next.Some? && next.value in notified && next.value.graph == self && Asks(log) == 0
    else
      && Asks(log) == 1 && Asked(own) in log
      && next == (if own.Some? then own else if notified == [] then None else Some(notified[0]))
  }

  /** Without a limit: a node of a graph without a limit if there is one, else the first if its graph has a slot. */
  ghost predicate PlainNext(limited: set<nat>, notified: seq<Task>, held: bool, next: Option<Task>, log: seq<Event>) {
    && Asks(log) == 0
    && if exists t :: t in notified && t.graph !in limited then
         next.Some? && next.value in notified && next.value.graph !in limited
       else if notified == [] then next == None
       else Offered(notified[0], held) in log && next == (if held then None else Some(notified[0]))
  }

  ghost predicate FirstOutcome(self: nat, limited: set<nat>, notified: seq<Task>, k: nat, next: Option<Task>, log: seq<Event>) {
    && IsFirst(self, limited, notified, k) && next == Some(notified[k])
    && log == Readied(notified[1..k] + notified[k + 1..]) + [Ready(notified[0])]
  }

  /**
   * All of finish: what it returns and what it passes on, in order. The first node after
   * notified[0] that it prefers is returned; with none, notified[0] if it is preferred itself;
   * else the graph's own queue, or that of the graph of notified[0], decides.
   */
  ghost predicate Outcome(self: nat, limited: set<nat>, notified: seq<Task>, held: bool, own: Option<Task>,
                          next: Option<Task>, log: seq<Event>) {
    if notified == [] then
      if self in limited then next == own && log == [Asked(own)] else next == None && log == []
    else if exists k: nat :: IsFirst(self, limited, notified, k) then
      exists k: nat :: FirstOutcome(self, limited, notified, k, next, log)
    else if self in limited then
      if notified[0].graph == self then next == Some(notified[0]) && log == Readied(notified[1..])
      else if own.Some? then next == own && log == Readied(notified[1..]) + [Asked(own)] + [Ready(notified[0])]
      else next == Some(notified[0]) && log == Readied(notified[1..]) + [Asked(own)]
    else if notified[0].graph !in limited then next == Some(notified[0]) && log == Readied(notified[1..])
    else next == (if held then None else Some(notified[0])) && log == Readied(notified[1..]) + [Offered(notified[0], held)]
  }

  lemma Swap(a: Task, b: Option<Task>)
    ensures multiset{a} + Returned(b) == Returned(b) + multiset{a}
    ensures b.None? ==> multiset{a} + Returned(b) == multiset{a} && Returned(b) == multiset{}
    ensures Returned(Some(a)) == multiset{a}
    ensures multiset{} + Returned(b) == Returned(b) && multiset{} + multiset{a} == multiset{a}
  {
  }

  lemma OutcomeFirst(self: nat, limited: set<nat>, notified: seq<Task>, held: bool, own: Option<Task>, k: nat,
                     next: Option<Task>, log: seq<Event>)
    requires PassedFirst(self, limited, notified, k, next, log)
    ensures Outcome(self, limited, notified, held, own, next, log + [Ready(notified[0])])
  {
    hide Readied;
    assert FirstOutcome(self, limited, notified, k, next, log + [Ready(notified[0])]);
  }

  lemma NoFirst(self: nat, limited: set<nat>, notified: seq<Task>)
    requires forall k | 1 <= k < |notified| :: !Preferred(self, limited, notified[k])
    ensures forall k: nat :: !IsFirst(self, limited, notified, k)
  {
  }

  /** Without a limit, the outcome returns a node of a graph without one if there is any. */
  lemma PlainFollows(self: nat, limited: set<nat>, notified: seq<Task>, held: bool, next: Option<Task>, log: seq<Event>)
    requires self !in limited && Asks(log) == 0 && Outcome(self, limited, notified, held, None, next, log)
    ensures PlainNext(limited, notified, held, next, log)
  {
    hide Readied, Asks;
    if notified != [] && !exists k: nat :: IsFirst(self, limited, notified, k) {
      NonePlain(self, limited, notified, |notified|);
      assert notified[0].graph in limited ==> Offered(notified[0], held) == log[|log| - 1];
    }
  }

  lemma {:induction false} NonePlain(self: nat, limited: set<nat>, notified: seq<Task>, n: nat)
    requires notified != [] && n <= |notified| && forall k: nat :: !IsFirst(self, limited, notified, k)
    ensures forall j | 1 <= j < n :: if self in limited then notified[j].graph != self else notified[j].graph in limited
  {
    if n > 1 {
      NonePlain(self, limited, notified, n - 1);
      assert !IsFirst(self, limited, notified, n - 1);
    }
  }

  method FinishPlain(self: nat, limited: set<nat>, notified: seq<Task>, held: bool)
    returns (next: Option<Task>, log: seq<Event>)
    requires self !in limited
    ensures Balanced(Returned(next), log, notified) && Taken(log) == multiset{} && Asks(log) == 0
    ensures Outcome(self, limited, notified, held, None, next, log)
  {
    if notified == [] {
      NoLog(Task(0, 0));
      return None, [];
    }
    hide Balanced, HandedOn, Taken, Asks, Readied, IsFirst;
    next, log := PassOn(self, limited, notified);
    var first := notified[0];
    Swap(first, next);
    hide Returned;
    if next.Some? {
      ghost var k: nat :| PassedFirst(self, limited, notified, k, next, log);
      OutcomeFirst(self, limited, notified, held, None, k, next, log);
      HandOn(Returned(next), log, notified, first, Ready(first));
      log := log + [Ready(first)];
      return;
    }
    NoFirst(self, limited, notified);
    if first.graph !in limited {
      next := Some(first);
      return;
    }
    if held {
      HandOn(multiset{}, log, notified, first, Offered(first, true));
      next := None;
    } else {
      Refused(multiset{first}, log, notified, first);
      next := Some(first);
    }
    log := log + [Offered(first, held)];
  }

  lemma OnlyAsk(own: Option<Task>)
    ensures Balanced(Returned(own), [Asked(own)], [])
    ensures Taken([Asked(own)]) == Returned(own) && Asks([Asked(own)]) == 1
  {
    NoLog(Task(0, 0));
    Ask(multiset{}, [], [], own);
    assert [] + [Asked(own)] == [Asked(own)] && multiset{} + Returned(own) == Returned(own);
  }

  lemma SlotFirst(self: nat, limited: set<nat>, notified: seq<Task>, own: Option<Task>, k: nat, next: Option<Task>, log: seq<Event>)
    requires self in limited && FirstOutcome(self, limited, notified, k, next, log)
    ensures SlotPassed(self, notified, own, next, log)
  {
    hide Readied, Asks;
    var passed := notified[1..k] + notified[k + 1..];
    NoAsk(passed);
    Append(Readied(passed), Ready(notified[0]));
    assert notified[k] in notified && notified[k].graph == self;
  }

  lemma SlotNone(self: nat, limited: set<nat>, notified: seq<Task>, own: Option<Task>, next: Option<Task>, log: seq<Event>)
    requires self in limited && notified != [] && (forall k: nat :: !IsFirst(self, limited, notified, k))
    requires Outcome(self, limited, notified, false, own, next, log)
    ensures SlotPassed(self, notified, own, next, log)
  {
    hide Readied, Asks, IsFirst;
    var l := Readied(notified[1..]);
    NoAsk(notified[1..]);
    if notified[0].graph == self {
      assert notified[0] in notified;
    } else {
      NoneOfGraph(self, limited, notified);
      AskedIn(l, own, notified[0]);
    }
  }

  lemma NoneOfGraph(self: nat, limited: set<nat>, notified: seq<Task>)
    requires self in limited && notified != [] && (forall k: nat :: !IsFirst(self, limited, notified, k)) && notified[0].graph != self
    ensures forall t | t in notified :: t.graph != self
  {
    hide IsFirst;
    NonePlain(self, limited, notified, |notified|);
  }

  lemma AskedIn(l: seq<Event>, own: Option<Task>, t: Task)
    ensures Asked(own) in l + [Asked(own)] && Asked(own) in l + [Asked(own)] + [Ready(t)]
    ensures Asks(l + [Asked(own)]) == Asks(l) + 1 && Asks(l + [Asked(own)] + [Ready(t)]) == Asks(l) + 1
  {
    Append(l, Asked(own));
    Append(l + [Asked(own)], Ready(t));
    assert (l + [Asked(own)])[|l|] == Asked(own) && (l + [Asked(own)] + [Ready(t)])[|l|] == Asked(own);
  }

  /** In a limited graph, the outcome passes the slot on within the graph, or gives it back. */
  lemma SlotFollows(self: nat, limited: set<nat>, notified: seq<Task>, own: Option<Task>, next: Option<Task>, log: seq<Event>)
    requires self in limited && Outcome(self, limited, notified, false, own, next, log)
    ensures SlotPassed(self, notified, own, next, log)
  {
    hide IsFirst, SlotPassed;
    if notified == [] {
      SlotEmpty(self, own);
    } else if exists k: nat :: IsFirst(self, limited, notified, k) {
      var k: nat :| FirstOutcome(self, limited, notified, k, next, log);
      SlotFirst(self, limited, notified, own, k, next, log);
    } else {
      SlotNone(self, limited, notified, own, next, log);
    }
  }

  lemma SlotEmpty(self: nat, own: Option<Task>)
    ensures SlotPassed(self, [], own, own, [Asked(own)])
  {
    OnlyAsk(own);
  }

  lemma {:induction false} NoAsk(tasks: seq<Task>)
    ensures Asks(Readied(tasks)) == 0
  {
    if tasks != [] {
      NoAsk(tasks[..|tasks| - 1]);
      Append(Readied(tasks[..|tasks| - 1]), Ready(tasks[|tasks| - 1]));
    }
  }

  method FinishLimited(self: nat, limited: set<nat>, notified: seq<Task>, own: Option<Task>)
    returns (next: Option<Task>, log: seq<Event>)
    requires self in limited
    ensures Balanced(Returned(next), log, notified)
    ensures Taken(log) == if Asks(log) == 1 then Returned(own) else multiset{}
    ensures Outcome(self, limited, notified, false, own, next, log)
  {
    hide HandedOn, Taken, Asks, Balanced, Returned, Readied, IsFirst;
    if notified == [] {
      OnlyAsk(own);
      return own, [Asked(own)];
    }
    next, log := PassOn(self, limited, notified);
    var first := notified[0];
    Swap(first, next);
    Swap(first, own);
    if next.Some? {
      ghost var k: nat :| PassedFirst(self, limited, notified, k, next, log);
      OutcomeFirst(self, limited, notified, false, own, k, next, log);
      HandOn(Returned(next), log, notified, first, Ready(first));
      log := log + [Ready(first)];
      return;
    }
    NoFirst(self, limited, notified);
    if first.graph == self {
      next := Some(first);
      return;
    }
    Ask(multiset{first}, log, notified, own);
    log := log + [Asked(own)];
    if own.Some? {
      HandOn(Returned(own), log, notified, first, Ready(first));
      log := log + [Ready(first)];
      next := own;
      return;
    }
    next := Some(first);
  }

  /**
   * `held` answers a try_enqueue on another graph's queue, `own` a try_dequeue on the own one.
   * Nothing is lost or doubled, whatever they say.
   */
  method Finish(self: nat, limited: set<nat>, notified: seq<Task>, held: bool, own: Option<Task>)
    returns (next: Option<Task>, log: seq<Event>)
    ensures Balanced(Returned(next), log, notified)
    ensures Taken(log) == if Asks(log) == 1 then Returned(own) else multiset{}
    ensures self in limited ==> SlotPassed(self, notified, own, next, log)
    ensures self !in limited ==> PlainNext(limited, notified, held, next, log)
    ensures Outcome(self, limited, notified, held, own, next, log)
  {
    if self in limited {
      next, log := FinishLimited(self, limited, notified, own);
      SlotFollows(self, limited, notified, own, next, log);
    } else {
      next, log := FinishPlain(self, limited, notified, held);
      PlainFollows(self, limited, notified, held, next, log);
    }
  }

  /** A node of a limited graph that finish returns runs in the finished node's slot, or in one of its own. */
  predicate HasSlot(self: nat, limited: set<nat>, own: Option<Task>, next: Task, log: seq<Event>) {
    if self in limited then next.graph == self && (Asks(log) == 0 || own == Some(next))
    else Offered(next, false) in log
  }

  /** The finished node's graph has a limit, nobody there can use the slot, and the first node is of another limited graph. */
  ghost predicate Bypass(self: nat, limited: set<nat>, notified: seq<Task>, own: Option<Task>) {
    && self in limited && own.None? && notified != [] && notified[0].graph in limited
    && forall t | t in notified :: t.graph != self
  }

  /** Exactly then a node runs without a slot: edges between two limited graphs break the limit. */
  lemma ReturnedHasSlotIff(self: nat, limited: set<nat>, notified: seq<Task>, held: bool, own: Option<Task>, next: Task, log: seq<Event>)
    requires self in limited ==> SlotPassed(self, notified, own, Some(next), log)
    requires self !in limited ==> PlainNext(limited, notified, held, Some(next), log)
    requires next.graph in limited && (own.Some? ==> own.value.graph == self)
    ensures HasSlot(self, limited, own, next, log) <==> !Bypass(self, limited, notified, own)
  {
    if self in limited && notified != [] {
      assert notified[0] in notified;
    }
  }

  /**
   * It does happen: a node of limited graph 1 finishes with a node of limited graph 2 made
   * ready and nothing held, and returns that node in a slot of neither graph.
   */
  method RunWithoutSlot() returns (next: Option<Task>, log: seq<Event>)
    ensures next == Some(Task(0, 2)) && !HasSlot(1, {1, 2}, None, Task(0, 2), log)
  {
    var notified := [Task(0, 2)];
    next, log := Finish(1, {1, 2}, notified, false, None);
    assert notified[0] in notified && Bypass(1, {1, 2}, notified, None);
  }
}

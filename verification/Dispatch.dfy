/**
 * From a node made ready to a node run: the calls of ready(), the queues of limited graphs,
 * what finish does with the nodes it has made ready, the shared queue, the workers, and tasks
 * that wait for others. The edges are those of module Edges, step for step; the slots of a
 * limited graph are those of module ParallelLimit.
 */
module Dispatch {
  import opened Common
  import Edges
  import EdgesTheorems
  import ParallelLimit

  type Slots = ParallelLimit.State

  /** A call of ready() for node v, at its next operation. */
  datatype Call =
    | Idle
    | Ready(v: nat)     // limited graph: the counter; else the shared queue
    | Push(v: nat)      // into the queue of its graph
    | Enqueue(v: nat)   // into the shared queue

  datatype Phase =
    | Collect           // the edges are being counted off
    | Loop              // Graph::finish deals with the nodes made ready
    | Pop               // the slot goes to a held node
    | Keep              // nobody wanted it; the first node, of another graph, is returned
    | Return            // set_status(Recoverable), then run `next`

  /** Graph::finish of one node: the nodes it has made ready and not dealt with, the one it will return. */
  datatype Hand = Hand(list: seq<nat>, next: Option<nat>, phase: Phase, call: Call, passed: bool)

  datatype Run =
    | NotRun
    | Taken             // a worker has it
    | Running
    | Asking(b: nat)    // runs create_edges of helper b, for which it will wait
    | Waiting(b: nat)   // gave its context up until helper b runs
    | Finishing
    | Over

  /** Where a node is (history). */
  datatype Place =
    | Nowhere           // not made ready yet
    | Maker(w: nat)     // in the hands of create_edges of w
    | Finisher(u: nat)  // in those of finish of u
    | Tasks             // in the shared queue
    | HeldIn(g: nat)    // in the queue of its graph
    | Exec              // taken, running, waiting or finishing
    | Gone              // over

  /** `helps` is the task a helper node brings back; `starts` counts how often the node was run. */
  datatype Item = Item(make: Call, fin: Hand, run: Run, helps: Option<nat>, starts: nat, at: Place)

  datatype State = State(
    e: Edges.State, lims: seq<Option<Slots>>, workers: nat, tasks: multiset<nat>, d: seq<Item>)

  const EMPTY: Hand := Hand([], None, Collect, Idle, false)

  function NewItem(): Item {
    Item(Idle, EMPTY, NotRun, None, 0, Nowhere)
  }

  datatype Action =
    | Alloc
    | Create(v: nat, g: nat, req: seq<Option<nat>>)
    | Await(u: nat, b: nat, g: nat, req: seq<Option<nat>>) // task u will wait: helper b with what it waits for
    | GiveUp(u: nat)            // and, create_edges of the helper being over, gives its context up
    | Make(v: nat)              // next operation of create_edges(v) on the edges
    | MakeCall(v: nat)          // next operation of its call of ready()
    | Take(v: nat)              // an idle worker takes v from the shared queue
    | Begin(v: nat)             // and runs it
    | Resume(b: nat)            // or, a helper, goes on with the task it helps
    | Fin(u: nat)               // next operation of finish(u) on the edges
    | FinBit(u: nat, id: nat)
    | Deal(u: nat)              // next operation of Graph::finish for u
    | PopHeld(u: nat, x: nat)   // out of the queue of u's graph
    | FinCall(u: nat)           // next operation of its call of ready()
    | Recover(u: nat)
    | RunNext(u: nat)           // the worker goes on with the returned node

  // ---------------------------------------------------------------- steps

  predicate Limited(s: State, v: nat) {
    && v < |s.e.nodes| && s.e.nodes[v].graph.Some? && s.e.nodes[v].graph.value < |s.lims|
    && s.lims[s.e.nodes[v].graph.value].Some?
  }

  function GraphOf(s: State, v: nat): nat
    requires Limited(s, v)
  {
    s.e.nodes[v].graph.value
  }

  function SlotsOf(s: State, v: nat): Slots
    requires Limited(s, v)
  {
    s.lims[GraphOf(s, v)].value
  }

  /** One operation on the counter or the queue of a limited graph. */
  function Moved(l: Slots, a: ParallelLimit.Action): Slots {
    if ParallelLimit.Enabled(l, a) then ParallelLimit.Apply(l, a) else l
  }

  function WithSlots(s: State, v: nat, a: ParallelLimit.Action): State
    requires Limited(s, v)
  {
    s.(lims := s.lims[GraphOf(s, v) := Some(Moved(SlotsOf(s, v), a))])
  }

  function SetItem(s: State, v: nat, i: Item): State
    requires v < |s.d|
  {
    s.(d := s.d[v := i])
  }

  function SetAt(s: State, v: nat, p: Place): State {
    if v < |s.d| then SetItem(s, v, s.d[v].(at := p)) else s
  }

  function SetFin(s: State, u: nat, f: Hand): State
    requires u < |s.d|
  {
    SetItem(s, u, s.d[u].(fin := f))
  }

  function About(c: Call): Option<nat> {
    match c
    case Idle => None
    case Ready(v) => Some(v)
    case Push(v) => Some(v)
    case Enqueue(v) => Some(v)
  }

  /** One operation of ready(). */
  function CallNext(s: State, c: Call): Call {
    match c
    case Ready(v) => if Limited(s, v) && SlotsOf(s, v).mCount >= 0 then Push(v) else Enqueue(v)
    case _ => Idle
  }

  function CallStep(s: State, c: Call): State {
    match c
    case Ready(v) => if Limited(s, v) then WithSlots(s, v, ParallelLimit.Offer(v)) else s
    case Push(v) => if Limited(s, v) then SetAt(WithSlots(s, v, ParallelLimit.Push(v)), v, HeldIn(GraphOf(s, v))) else s
    case Enqueue(v) => SetAt(s.(tasks := s.tasks + multiset{v}), v, Tasks)
    case Idle => s
  }

  /** Finish prefers to return a node of its own limited graph, or of a graph without a limit. */
  predicate Preferred(s: State, u: nat, x: nat)
    requires u < |s.e.nodes| && x < |s.e.nodes|
  {
    if Limited(s, u) then s.e.nodes[x].graph == s.e.nodes[u].graph else !Limited(s, x)
  }

  predicate Known(s: State, list: seq<nat>) {
    forall i | 0 <= i < |list| :: list[i] < |s.d|
  }

  /** What Graph::finish of u does next to the nodes in its hands, and to a limited graph: that of node `on`. */
  datatype Move = Move(fin: Hand, act: Option<ParallelLimit.Action>, on: nat)

  /** The loops: every node but the first is passed to ready(), but for the first preferred one. */
  function LoopDeal(s: State, u: nat): Move
    requires u < |s.d| && |s.d| == |s.e.nodes| && |s.d[u].fin.list| > 1 && s.d[u].fin.list[1] < |s.d|
  {
    var f := s.d[u].fin;
    var x, rest := f.list[1], [f.list[0]] + f.list[2..];
    if f.next.Some? || !Preferred(s, u, x) then Move(f.(list := rest, call := Ready(x)), None, u)
    else if !Limited(s, u) then Move(f.(list := rest, next := Some(x)), None, u)
    else Move(f.(list := rest, next := Some(x), passed := true), Some(ParallelLimit.HandOver(u, x)), u)
  }

  /** Giving the slot back: to a held node if there is one. */
  function GiveBack(s: State, u: nat, f: Hand): Move
    requires Limited(s, u)
  {
    Move(f.(passed := true, phase := if SlotsOf(s, u).mCount > 0 then Pop else if f.list == [] then Return else Keep),
      Some(ParallelLimit.Retire(u)), u)
  }

  /** Finish of a limited graph returns a node of another graph without asking the counter of that. */
  function KeepDeal(s: State, u: nat): Move
    requires u < |s.d| && s.d[u].fin.list != []
  {
    var f := s.d[u].fin;
    Move(f.(list := [], next := Some(f.list[0]), phase := Return),
      if Limited(s, f.list[0]) then Some(ParallelLimit.Bypass(f.list[0])) else None, f.list[0])
  }

  /** The end of Graph::finish, with at most the first node left. */
  function LastDeal(s: State, u: nat): Move
    requires u < |s.d| && |s.d| == |s.e.nodes| && |s.d[u].fin.list| <= 1
    requires s.d[u].fin.list != [] ==> s.d[u].fin.list[0] < |s.d|
  {
    var f := s.d[u].fin;
    var done := f.(list := [], phase := Return);
    if f.list == [] then
      if f.next.None? && Limited(s, u) then GiveBack(s, u, f) else Move(done, None, u)
    else
      var t := f.list[0];
      if f.next.Some? then Move(done.(call := Ready(t)), None, u)
      else if !Limited(s, u) then
        if !Limited(s, t) then Move(done.(next := Some(t)), None, u)
        else Move(if SlotsOf(s, t).mCount >= 0 then done.(call := Push(t)) else done.(next := Some(t)), Some(ParallelLimit.Offer(t)), t)
      else if s.e.nodes[t].graph == s.e.nodes[u].graph then
        Move(done.(next := Some(t), passed := true), Some(ParallelLimit.HandOver(u, t)), u)
      else GiveBack(s, u, f)
  }

  function NextDeal(s: State, u: nat): Move
    requires u < |s.d| && |s.d| == |s.e.nodes| && Known(s, s.d[u].fin.list)
  {
    var f := s.d[u].fin;
    if f.phase.Collect? then Move(f.(phase := Loop), None, u)
    else if f.phase.Keep? && f.list != [] then KeepDeal(s, u)
    else if |f.list| > 1 then LoopDeal(s, u)
    else LastDeal(s, u)
  }

  function DealStep(s: State, u: nat): State
    requires u < |s.d| && |s.d| == |s.e.nodes| && Known(s, s.d[u].fin.list)
  {
    var n := NextDeal(s, u);
    SetFin(if n.act.Some? && Limited(s, n.on) then WithSlots(s, n.on, n.act.value) else s, u, n.fin)
  }

  /** Workers with a task: taken, running or finishing, or about to go on with a returned node. */
  function Busy(s: State): set<nat> {
    set v: nat | v < |s.d| && IsBusy(s.d[v])
  }

  predicate IsBusy(i: Item) {
    i.run.Taken? || i.run.Running? || i.run.Asking? || i.run.Finishing? || (i.run.Over? && i.fin.next.Some?)
  }

  ghost predicate Enabled(s: State, a: Action) {
    && |s.d| == |s.e.nodes|
    && match a
       case Alloc => true
       case Create(v, g, req) =>
         Edges.Enabled(s.e, Edges.Create(v, g, req)) && s.d[v].helps.None?
       case Await(u, b, g, req) =>
         && u < |s.d| && s.d[u].run.Running? && u != b
         && Edges.Enabled(s.e, Edges.Create(b, g, req)) && s.d[b].helps.None? && g < |s.lims| && s.lims[g].None?
       case GiveUp(u) =>
         && u < |s.d| && s.d[u].run.Asking? && s.d[u].run.b < |s.d|
         && s.e.nodes[s.d[u].run.b].make.Made? && s.d[s.d[u].run.b].make.Idle?
       case Make(v) => Edges.Enabled(s.e, Edges.Make(v)) && s.d[v].make.Idle?
       case MakeCall(v) => v < |s.d| && !s.d[v].make.Idle?
       case Take(v) => v in s.tasks && v < |s.d| && |Busy(s)| < s.workers
       case Begin(v) => v < |s.d| && s.d[v].run.Taken? && s.d[v].helps.None? && Edges.Enabled(s.e, Edges.Start(v))
       case Resume(b) =>
         && b < |s.d| && s.d[b].run.Taken? && s.d[b].helps.Some? && Edges.Enabled(s.e, Edges.Start(b))
         && s.d[b].helps.value < |s.d| && s.d[s.d[b].helps.value].run == Waiting(b)
       case Fin(u) =>
         && Edges.Enabled(s.e, Edges.Fin(u))
         && (if s.e.nodes[u].fin.FNone? then s.d[u].run.Running? else s.d[u].run.Finishing?)
       case FinBit(u, id) => Edges.Enabled(s.e, Edges.FinBit(u, id)) && s.d[u].run.Finishing?
       case Deal(u) =>
         && u < |s.d| && s.d[u].run.Finishing? && s.d[u].fin.call.Idle? && Known(s, s.d[u].fin.list)
         && (s.d[u].fin.phase.Loop? || (s.d[u].fin.phase.Keep? && s.d[u].fin.list != [])
             || (s.d[u].fin.phase.Collect? && s.e.nodes[u].fin.FDone?))
       case PopHeld(u, x) =>
         && u < |s.d| && s.d[u].fin.phase.Pop? && s.d[u].fin.call.Idle? && Limited(s, u) && x in SlotsOf(s, u).queued
       case FinCall(u) => u < |s.d| && !s.d[u].fin.call.Idle?
       case Recover(u) =>
         && u < |s.d| && s.d[u].run.Finishing? && s.d[u].fin.phase.Return? && s.d[u].fin.call.Idle?
         && Edges.Enabled(s.e, Edges.Recover(u))
       case RunNext(u) =>
         u < |s.d| && s.d[u].run.Over? && s.d[u].fin.next.Some? && s.d[u].fin.next.value < |s.d|
  }

  /** The node an operation on the edges makes ready. */
  predicate MadeReady(e: Edges.State, e': Edges.State, v: nat) {
    v < |e.nodes| && v < |e'.nodes| && e'.nodes[v].released > e.nodes[v].released
  }

  /** finish(u) adds node t, if it has just made it ready, to its list. */
  function Notify(s: State, e': Edges.State, u: nat, t: nat): State
    requires u < |s.d|
  {
    if MadeReady(s.e, e', t) then
      SetAt(SetFin(s.(e := e'), u, s.d[u].fin.(list := s.d[u].fin.list + [t])), t, Finisher(u))
    else s.(e := e')
  }

  function AwaitStep(s: State, u: nat, b: nat, g: nat, req: seq<Option<nat>>): State
    requires u < |s.d| && b < |s.d| && Edges.Enabled(s.e, Edges.Create(b, g, req))
  {
    var s1 := SetItem(s.(e := Edges.Apply(s.e, Edges.Create(b, g, req))), b, s.d[b].(helps := Some(u)));
    SetItem(s1, u, s1.d[u].(run := Asking(b)))
  }

  function MakeStep(s: State, v: nat): State
    requires v < |s.d| && Edges.Enabled(s.e, Edges.Make(v))
  {
    var e' := Edges.Apply(s.e, Edges.Make(v));
    if MadeReady(s.e, e', v) then SetItem(s.(e := e'), v, s.d[v].(make := Ready(v), at := Maker(v))) else s.(e := e')
  }

  function MakeCallStep(s: State, v: nat): State
    requires v < |s.d|
  {
    var s1 := CallStep(s, s.d[v].make);
    SetItem(s1, v, s1.d[v].(make := CallNext(s, s.d[v].make)))
  }

  function ResumeStep(s: State, b: nat, u: nat): State
    requires b < |s.d| && u < |s.d| && Edges.Enabled(s.e, Edges.Start(b))
  {
    var s1 := SetItem(s.(e := Edges.Apply(s.e, Edges.Start(b))), b, s.d[b].(run := Over, at := Gone));
    SetItem(s1, u, s1.d[u].(run := Running))
  }

  function FinStep(s: State, u: nat): State
    requires u < |s.d| && Edges.Enabled(s.e, Edges.Fin(u))
  {
    var e', n := Edges.Apply(s.e, Edges.Fin(u)), s.e.nodes[u];
    if n.fin.FNone? then SetItem(s.(e := e'), u, s.d[u].(run := Finishing))
    else if n.fin.FList? && n.fin.i < |n.downs| then Notify(s, e', u, n.downs[n.fin.i].0)
    else s.(e := e')
  }

  function PopStep(s: State, u: nat, x: nat): State
    requires u < |s.d| && Limited(s, u)
  {
    var f := s.d[u].fin;
    var s1 := SetAt(WithSlots(s, u, ParallelLimit.Pop(x)), x, Finisher(u));
    SetFin(s1, u, Hand([], Some(x), Return, if f.list == [] then Idle else Ready(f.list[0]), f.passed))
  }

  function FinCallStep(s: State, u: nat): State
    requires u < |s.d|
  {
    var s1 := CallStep(s, s.d[u].fin.call);
    SetFin(s1, u, s1.d[u].fin.(call := CallNext(s, s.d[u].fin.call)))
  }

  function NextStep(s: State, u: nat, x: nat): State
    requires u < |s.d| && x < |s.d|
  {
    var s1 := SetFin(s, u, s.d[u].fin.(next := None));
    SetItem(s1, x, s1.d[x].(run := Taken, at := Exec))
  }

  ghost function Apply(s: State, a: Action): State
    requires Enabled(s, a)
  {
    match a
    case Alloc => s.(e := Edges.Apply(s.e, Edges.Alloc), d := s.d + [NewItem()])
    case Create(v, g, req) => s.(e := Edges.Apply(s.e, Edges.Create(v, g, req)))
    case Await(u, b, g, req) => AwaitStep(s, u, b, g, req)
    case GiveUp(u) => SetItem(s, u, s.d[u].(run := Waiting(s.d[u].run.b)))
    case Make(v) => MakeStep(s, v)
    case MakeCall(v) => MakeCallStep(s, v)
    case Take(v) => SetItem(s.(tasks := s.tasks - multiset{v}), v, s.d[v].(run := Taken, at := Exec))
    case Begin(v) =>
      SetItem(s.(e := Edges.Apply(s.e, Edges.Start(v))), v, s.d[v].(run := Running, starts := s.d[v].starts + 1))
    case Resume(b) => ResumeStep(s, b, s.d[b].helps.value)
    case Fin(u) => FinStep(s, u)
    case FinBit(u, id) => Notify(s, Edges.Apply(s.e, Edges.FinBit(u, id)), u, Edges.BitTarget(s.e, u, id))
    case Deal(u) => DealStep(s, u)
    case PopHeld(u, x) => PopStep(s, u, x)
    case FinCall(u) => FinCallStep(s, u)
    case Recover(u) => SetItem(s.(e := Edges.Apply(s.e, Edges.Recover(u))), u, s.d[u].(run := Over, at := Gone))
    case RunNext(u) => NextStep(s, u, s.d[u].fin.next.value)
  }
}

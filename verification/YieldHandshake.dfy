/**
 * How a running task waits: it hands its coroutine context to a helper node (BackNode),
 * leaves the context for a fresh one, and whichever worker later runs the helper jumps back
 * into it and deletes the context it came from. A context is an owned token with a status;
 * saving and restoring registers is the single step of leaving or entering it.
 */
module YieldHandshake {
  import opened Common

  datatype Status = Initing | Ready | Running | Yield

  /** Who is responsible for a context (history). */
  datatype Role =
    | Exec(w: nat)       // worker w executes it
    | Suspended(b: nat)  // left; helper b will bring it back
    | Parked(w: nat)     // the thread's own context, left at start-up
    | Dropped(w: nat)    // abandoned by worker w, to be deleted
    | Dead

  /**
   * History: role, `saved` (its registers are saved), `marked` (who left it has said so),
   * `leaver`, and how often it was left, entered again and deleted.
   */
  datatype Context = Context(status: Status, role: Role, saved: bool, marked: bool, leaver: nat,
                             timesLeft: nat, timesResumed: nat, timesDeleted: nat)

  datatype Pc =
    | Working              // runs tasks
    | ToSwap(h: Option<nat>) // helper b is published (None at start-up); about to leave the context
    | Entered              // in the fresh context: mark it running
    | MarkLeft             // mark the context just left as yielded
    | Spin(b: nat)         // runs helper b: wait for its context to be yielded
    | Mark(b: nat)         // mark it running
    | Jump(b: nat)
    | Resumed              // in the context jumped into: delete the one left
    | Exited               // back in the thread's own context
    | Gone                 // joined

  /** context_ptr, context_pre_ptr and thread_context of a worker. */
  datatype Worker = Worker(pc: Pc, ctx: nat, pre: Option<nat>, home: nat)

  datatype BackStatus = Published | Taken(w: nat) | Over

  datatype Back = Back(target: nat, st: BackStatus)

  datatype State = State(ctxs: seq<Context>, workers: seq<Worker>, backs: seq<Back>)

  datatype Action =
    | NewWorker
    | Require(w: nat)          // require_node, wait_graph: publish a helper
    | TakeBack(w: nat, b: nat) // a worker takes the ready helper from TaskQueue
    | Step(w: nat)             // next operation of the worker
    | Exit(w: nat)             // the scheduler loop ends
    | Join(w: nat)

  function FreshContext(w: nat): Context {
    Context(Initing, Exec(w), false, false, 0, 0, 0, 0)
  }

  predicate StepEnabled(s: State, w: nat)
    requires w < |s.workers|
  {
    var k := s.workers[w];
    match k.pc
    case Working => false
    case Exited => false
    case Gone => false
    case ToSwap(_) => k.ctx < |s.ctxs|
    case Entered => k.ctx < |s.ctxs|
    case MarkLeft => k.pre.Some? ==> k.pre.value < |s.ctxs|
    case Spin(b) => BackOf(s, b) && s.ctxs[s.backs[b].target].status.Yield?
    case Mark(b) => BackOf(s, b)
    case Jump(b) => BackOf(s, b) && k.ctx < |s.ctxs| && k.ctx != s.backs[b].target
    case Resumed => k.pre.Some? && k.pre.value < |s.ctxs|
  }

  predicate BackOf(s: State, b: nat) {
    b < |s.backs| && s.backs[b].target < |s.ctxs|
  }

  predicate Enabled(s: State, a: Action) {
    match a
    case NewWorker => true
    case Require(w) => w < |s.workers| && s.workers[w].pc.Working?
    case TakeBack(w, b) => w < |s.workers| && s.workers[w].pc.Working? && b < |s.backs| && s.backs[b].st.Published?
    case Step(w) => w < |s.workers| && StepEnabled(s, w)
    case Exit(w) =>
      && w < |s.workers| && s.workers[w].pc.Working? && s.workers[w].ctx < |s.ctxs| && s.workers[w].home < |s.ctxs|
      && s.workers[w].ctx != s.workers[w].home
    case Join(w) =>
      && w < |s.workers| && s.workers[w].pc.Exited? && s.workers[w].ctx < |s.ctxs|
      && s.workers[w].pre.Some? && s.workers[w].pre.value < |s.ctxs| && s.workers[w].pre.value != s.workers[w].ctx
  }

  function SetW(s: State, w: nat, k: Worker): State
    requires w < |s.workers|
  {
    s.(workers := s.workers[w := k])
  }

  function SetC(s: State, c: nat, x: Context): State
    requires c < |s.ctxs|
  {
    s.(ctxs := s.ctxs[c := x])
  }

  function Leave(x: Context, w: nat, b: Option<nat>): Context {
    x.(role := if b.Some? then Suspended(b.value) else Parked(w), saved := true, marked := false, leaver := w, timesLeft := x.timesLeft + 1)
  }

  function Enter(x: Context, w: nat): Context {
    x.(role := Exec(w), saved := false, timesResumed := x.timesResumed + 1)
  }

  function Delete(x: Context): Context {
    x.(role := Dead, timesDeleted := x.timesDeleted + 1)
  }

  function WorkerStep(s: State, w: nat): State
    requires w < |s.workers| && StepEnabled(s, w)
  {
    var k := s.workers[w];
    match k.pc
    case ToSwap(b) =>
      var s1 := SetC(s, k.ctx, Leave(s.ctxs[k.ctx], w, b));
      SetW(s1.(ctxs := s1.ctxs + [FreshContext(w)]), w, k.(pc := Entered, pre := Some(k.ctx), ctx := |s.ctxs|))
    case Entered => SetW(SetC(s, k.ctx, s.ctxs[k.ctx].(status := Running)), w, k.(pc := MarkLeft))
    case MarkLeft =>
      if k.pre.None? then SetW(s, w, k.(pc := Working))
      else SetW(SetC(s, k.pre.value, s.ctxs[k.pre.value].(status := Yield, marked := true)), w, k.(pc := Working, pre := None))
    case Spin(b) => SetW(s, w, k.(pc := Mark(b)))
    case Mark(b) => SetW(SetC(s, s.backs[b].target, s.ctxs[s.backs[b].target].(status := Running)), w, k.(pc := Jump(b)))
    case Jump(b) =>
      var t := s.backs[b].target;
      var s1 := SetC(SetC(s, k.ctx, s.ctxs[k.ctx].(role := Dropped(w))), t, Enter(s.ctxs[t], w));
      SetW(s1.(backs := s1.backs[b := s1.backs[b].(st := Over)]), w, k.(pc := Resumed, pre := Some(k.ctx), ctx := t))
    case Resumed => SetW(SetC(s, k.pre.value, Delete(s.ctxs[k.pre.value])), w, k.(pc := Working, pre := None))
    case _ => s
  }

  function Apply(s: State, a: Action): State
    requires Enabled(s, a)
  {
    match a
    case NewWorker =>
      s.(ctxs := s.ctxs + [FreshContext(|s.workers|).(status := Ready)],
         workers := s.workers + [Worker(ToSwap(None), |s.ctxs|, None, |s.ctxs|)])
    case Require(w) =>
      SetW(s.(backs := s.backs + [Back(s.workers[w].ctx, Published)]), w, s.workers[w].(pc := ToSwap(Some(|s.backs|))))
    case TakeBack(w, b) =>
      SetW(s.(backs := s.backs[b := s.backs[b].(st := Taken(w))]), w, s.workers[w].(pc := Spin(b)))
    case Step(w) => WorkerStep(s, w)
    case Exit(w) =>
      var k := s.workers[w];
      var s1 := SetC(SetC(s, k.ctx, s.ctxs[k.ctx].(role := Dropped(w))), k.home, Enter(s.ctxs[k.home], w));
      SetW(s1, w, k.(pc := Exited, pre := Some(k.ctx), ctx := k.home))
    case Join(w) =>
      var k := s.workers[w];
      var s1 := SetC(SetC(s, k.ctx, Delete(s.ctxs[k.ctx])), k.pre.value, Delete(s.ctxs[k.pre.value]));
      SetW(s1, w, k.(pc := Gone, pre := None))
  }

  // ---------------------------------------------------------------- the invariant

  predicate HasBack(pc: Pc, b: nat) {
    pc == Spin(b) || pc == Mark(b) || pc == Jump(b)
  }

  /** A live worker executes its context, which is its alone. */
  ghost predicate WorkerOk(s: State, w: nat)
    requires w < |s.workers|
  {
    var k := s.workers[w];
    && (!k.pc.Gone? ==> k.ctx < |s.ctxs| && s.ctxs[k.ctx].role == Exec(w))
    && (k.pc.Exited? ==> k.ctx == k.home)
    && (!k.pc.Gone? && !k.pc.Exited? ==> HomeOk(s, w, k))
    && PreOk(s, w, k)
    && PcOk(s, w, k)
  }

  ghost predicate HomeOk(s: State, w: nat, k: Worker) {
    k.home < |s.ctxs| && if k.pc == ToSwap(None) then k.ctx == k.home else s.ctxs[k.home].role == Parked(w) && k.home != k.ctx
  }

  ghost predicate PreOk(s: State, w: nat, k: Worker) {
    match k.pre
    case None => !k.pc.Entered? && !k.pc.MarkLeft? && !k.pc.Resumed? && !k.pc.Exited?
    case Some(p) =>
      && p < |s.ctxs|
      && (k.pc.Entered? || k.pc.MarkLeft? || k.pc.Resumed? || k.pc.Exited?)
      && (if k.pc.Entered? || k.pc.MarkLeft? then
            !s.ctxs[p].marked && s.ctxs[p].leaver == w && (s.ctxs[p].role.Suspended? || s.ctxs[p].role == Parked(w))
          else s.ctxs[p].role == Dropped(w))
  }

  ghost predicate PcOk(s: State, w: nat, k: Worker) {
    match k.pc
    case ToSwap(b) => b.Some? ==> BackOf(s, b.value) && s.backs[b.value].target == k.ctx && !s.backs[b.value].st.Over?
    case Spin(b) => b < |s.backs| && s.backs[b].st == Taken(w)
    case Mark(b) =>
      && BackOf(s, b) && s.backs[b].st == Taken(w)
      && s.ctxs[s.backs[b].target].role == Suspended(b) && s.ctxs[s.backs[b].target].marked
    case Jump(b) =>
      && BackOf(s, b) && s.backs[b].st == Taken(w)
      && s.ctxs[s.backs[b].target].role == Suspended(b) && s.ctxs[s.backs[b].target].marked
      && !s.ctxs[s.backs[b].target].status.Yield?
    case _ => true
  }

  ghost predicate ContextOk(s: State, c: nat)
    requires c < |s.ctxs|
  {
    var x := s.ctxs[c];
    && x.timesLeft == x.timesResumed + (if x.saved then 1 else 0)
    && x.timesDeleted == (if x.role.Dead? then 1 else 0)
    && (x.saved <==> x.role.Suspended? || x.role.Parked?)
    && (x.status.Yield? ==> x.marked && (x.role.Exec? ==> x.role.w < |s.workers| && s.workers[x.role.w].pc.Exited?))
    && RoleOk(s, c, x)
  }

  ghost predicate RoleOk(s: State, c: nat, x: Context) {
    match x.role
    case Exec(w) => w < |s.workers| && !s.workers[w].pc.Gone? && s.workers[w].ctx == c
    case Suspended(b) =>
      && b < |s.backs| && s.backs[b].target == c && !s.backs[b].st.Over?
      && (!x.marked ==> Leaving(s, c, x.leaver))
      && (x.marked && !x.status.Yield? ==>
            s.backs[b].st.Taken? && s.backs[b].st.w < |s.workers| && s.workers[s.backs[b].st.w].pc == Jump(b))
    case Parked(w) => w < |s.workers| && s.workers[w].home == c
    case Dropped(w) => w < |s.workers| && s.workers[w].pre == Some(c) && (s.workers[w].pc.Resumed? || s.workers[w].pc.Exited?)
    case Dead => true
  }

  /** Worker w has left context c and has yet to say so. */
  predicate Leaving(s: State, c: nat, w: nat) {
    w < |s.workers| && s.workers[w].pre == Some(c) && (s.workers[w].pc.Entered? || s.workers[w].pc.MarkLeft?)
  }

  /** An unfinished helper belongs to one context, already left or about to be. */
  ghost predicate BackOk(s: State, b: nat)
    requires b < |s.backs|
  {
    var h := s.backs[b];
    && h.target < |s.ctxs|
    && (!h.st.Over? ==> s.ctxs[h.target].role == Suspended(b) || AboutToLeave(s, b, s.ctxs[h.target].role))
    && (h.st.Taken? ==> h.st.w < |s.workers| && HasBack(s.workers[h.st.w].pc, b))
  }

  predicate AboutToLeave(s: State, b: nat, r: Role) {
    r.Exec? && r.w < |s.workers| && s.workers[r.w].pc == ToSwap(Some(b))
  }

  ghost predicate WorkersOk(s: State) {
    forall w | 0 <= w < |s.workers| :: WorkerOk(s, w)
  }

  ghost predicate ContextsOk(s: State) {
    forall c | 0 <= c < |s.ctxs| :: ContextOk(s, c)
  }

  ghost predicate BacksOk(s: State) {
    forall b | 0 <= b < |s.backs| :: BackOk(s, b)
  }

  ghost predicate Inv(s: State) {
    WorkersOk(s) && ContextsOk(s) && BacksOk(s)
  }
}

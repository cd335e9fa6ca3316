/** The status word of every context, in every state of every run. */
module YieldStatus {
  import opened Common
  import opened YieldHandshake
  import opened YieldProof

  /** The status of a context that a worker executes: ready, then marked once it was entered. */
  function Executing(pc: Pc): Status {
    match pc
    case ToSwap(None) => Ready
    case Entered => Initing
    case Exited => Yield
    case _ => Running
  }

  /**
   * A context that was left keeps its status until who left it says so; then it is yielded,
   * and marked running again by the helper that is about to jump into it.
   */
  ghost predicate StatusOk(s: State, c: nat)
    requires c < |s.ctxs|
  {
    var x := s.ctxs[c];
    match x.role
    case Exec(w) => w < |s.workers| && x.status == Executing(s.workers[w].pc)
    case Suspended(b) => b < |s.backs| && x.status == (if x.marked && !Jumping(s, b) then Yield else Running)
    case Parked(w) => x.status == if Leaving(s, c, w) then Ready else Yield
    case Dropped(w) => x.status.Running?
    case Dead => true
  }

  /** The worker that took helper b has marked its context and is about to jump. */
  predicate Jumping(s: State, b: nat)
    requires b < |s.backs|
  {
    s.backs[b].st.Taken? && s.backs[b].st.w < |s.workers| && s.workers[s.backs[b].st.w].pc == Jump(b)
  }

  ghost predicate HelperFine(s: State, b: nat) {
    BackFine(s, b) && (b < |s.backs| && s.backs[b].st.Taken? && s.backs[b].st.w < |s.workers| ==> WorkerOk(s, s.backs[b].st.w))
  }

  ghost predicate Fine(s: State, c: nat) {
    && CtxFine(s, c)
    && (c < |s.ctxs| ==> StatusOk(s, c) && (s.ctxs[c].role.Suspended? ==> HelperFine(s, s.ctxs[c].role.b)))
  }

  lemma SwapStatus(s: State, m: nat, c: nat)
    requires Near(s, m) && Fine(s, c) && Enabled(s, Step(m)) && c < |Apply(s, Step(m)).ctxs|
    requires s.workers[m].pc.ToSwap? || s.workers[m].pc.Entered?
    ensures StatusOk(Apply(s, Step(m)), c)
  {
  }

  lemma MarkStatus(s: State, m: nat, c: nat)
    requires Near(s, m) && Fine(s, c) && Enabled(s, Step(m)) && c < |Apply(s, Step(m)).ctxs|
    requires s.workers[m].pc.MarkLeft? || s.workers[m].pc.Spin? || s.workers[m].pc.Mark?
    ensures StatusOk(Apply(s, Step(m)), c)
  {
  }

  lemma JumpStatus(s: State, m: nat, c: nat)
    requires Near(s, m) && Fine(s, c) && Enabled(s, Step(m)) && c < |Apply(s, Step(m)).ctxs|
    requires s.workers[m].pc.Jump? || s.workers[m].pc.Resumed?
    ensures StatusOk(Apply(s, Step(m)), c)
  {
  }

  lemma BeginStatus(s: State, a: Action, c: nat)
    requires Enabled(s, a) && (a.NewWorker? || a.Require? || a.TakeBack?) && c < |Apply(s, a).ctxs| && Fine(s, c)
    requires (Actor(a).Some? ==> Near(s, Actor(a).value)) && (a.TakeBack? ==> BackFine(s, a.b))
    ensures StatusOk(Apply(s, a), c)
  {
  }

  lemma EndStatus(s: State, a: Action, c: nat)
    requires Enabled(s, a) && (a.Exit? || a.Join?) && c < |Apply(s, a).ctxs| && Fine(s, c) && Near(s, Actor(a).value)
    ensures StatusOk(Apply(s, a), c)
  {
  }

  lemma StatusKept(s: State, a: Action, c: nat)
    requires Inv(s) && Enabled(s, a) && c < |Apply(s, a).ctxs| && (c < |s.ctxs| ==> StatusOk(s, c))
    ensures StatusOk(Apply(s, a), c)
  {
    FineOk(s, c);
    ActorNear(s, a);
    hide Inv, Near, BackFine, Fine, Apply, StatusOk;
    match a
    case Step(m) =>
      var pc := s.workers[m].pc;
      if pc.ToSwap? || pc.Entered? {
        SwapStatus(s, m, c);
      } else if pc.MarkLeft? || pc.Spin? || pc.Mark? {
        MarkStatus(s, m, c);
      } else {
        JumpStatus(s, m, c);
      }
    case Exit(_) => EndStatus(s, a, c);
    case Join(_) => EndStatus(s, a, c);
    case _ => BeginStatus(s, a, c);
  }

  lemma FineOk(s: State, c: nat)
    requires Inv(s) && (c < |s.ctxs| ==> StatusOk(s, c))
    ensures Fine(s, c)
  {
    assert c < |s.ctxs| ==> ContextOk(s, c);
  }

  lemma {:induction false} RunStatus(states: seq<State>, acts: seq<Action>, n: nat, c: nat)
    requires IsRun(states, acts) && n <= |acts| && c < |states[n].ctxs|
    ensures StatusOk(states[n], c)
  {
    if n > 0 {
      var s := states[n - 1];
      if c < |s.ctxs| {
        RunStatus(states, acts, n - 1, c);
      }
      RunKeeps(states, acts, n - 1);
      hide Inv, Enabled, Apply, StatusOk;
      StatusKept(s, acts[n - 1], c);
    }
  }

  /** The status of every context that is not deleted follows from who is responsible for it, and where that worker is. */
  lemma StatusIs(s: State, c: nat)
    requires Reachable(s) && c < |s.ctxs|
    ensures StatusOk(s, c)
  {
    var states, acts :| IsRun(states, acts) && states[|acts|] == s;
    RunStatus(states, acts, |acts|, c);
  }

  /** A context that says it is yielded is saved, was marked by who left it, and waits for its helper: nobody else marks it. */
  lemma YieldedIsFree(s: State, c: nat)
    requires Reachable(s) && c < |s.ctxs| && s.ctxs[c].status.Yield? && s.ctxs[c].role.Suspended?
    ensures s.ctxs[c].saved && s.ctxs[c].marked
    ensures forall w | 0 <= w < |s.workers| && !s.workers[w].pc.Gone? :: s.workers[w].ctx != c && s.workers[w].pc != Jump(s.ctxs[c].role.b)
  {
    StatusIs(s, c);
    ReachableInv(s);
    assert ContextOk(s, c);
    forall w | 0 <= w < |s.workers| && !s.workers[w].pc.Gone?
      ensures s.workers[w].ctx != c && s.workers[w].pc != Jump(s.ctxs[c].role.b)
    {
      assert WorkerOk(s, w);
    }
  }

  /** Tasks run, and helpers are published, in contexts that are marked running. */
  lemma TasksRunInRunning(s: State, w: nat)
    requires Reachable(s) && w < |s.workers| && (s.workers[w].pc.Working? || s.workers[w].pc.Resumed?)
    ensures s.workers[w].ctx < |s.ctxs| && s.ctxs[s.workers[w].ctx].status.Running?
  {
    ReachableInv(s);
    assert WorkerOk(s, w);
    StatusIs(s, s.workers[w].ctx);
  }
}

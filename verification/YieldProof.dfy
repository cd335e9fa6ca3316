/** Every step of a worker keeps the handshake's invariant. */
module YieldProof {
  import opened Common
  import opened YieldHandshake

  function Actor(a: Action): Option<nat> {
    match a
    case NewWorker => None
    case Require(w) => Some(w)
    case TakeBack(w, _) => Some(w)
    case Step(w) => Some(w)
    case Exit(w) => Some(w)
    case Join(w) => Some(w)
  }

  ghost predicate CtxFine(s: State, c: nat) {
    c < |s.ctxs| ==> ContextOk(s, c)
  }

  ghost predicate BackFine(s: State, b: nat) {
    b < |s.backs| ==> BackOk(s, b) && CtxFine(s, s.backs[b].target)
  }

  /** All that concerns one worker. */
  ghost predicate Near(s: State, w: nat) {
    w < |s.workers| ==>
      var k := s.workers[w];
      && WorkerOk(s, w) && CtxFine(s, k.ctx) && CtxFine(s, k.home) && (k.pre.Some? ==> CtxFine(s, k.pre.value))
      && (k.pc.Spin? || k.pc.Mark? || k.pc.Jump? ==> BackFine(s, k.pc.b))
      && (k.pc.ToSwap? && k.pc.h.Some? ==> BackFine(s, k.pc.h.value))
  }

  lemma NearOk(s: State, w: nat)
    requires Inv(s)
    ensures Near(s, w)
  {
  }

  lemma WorkerAfterSwap(s: State, m: nat, w: nat)
    requires Near(s, m) && Near(s, w) && Enabled(s, Step(m)) && w < |Apply(s, Step(m)).workers|
    requires s.workers[m].pc.ToSwap?
    ensures WorkerOk(Apply(s, Step(m)), w)
  {
  }

  lemma WorkerAfterMark(s: State, m: nat, w: nat)
    requires Near(s, m) && Near(s, w) && Enabled(s, Step(m)) && w < |Apply(s, Step(m)).workers|
    requires (s.workers[m].pc.Entered? || s.workers[m].pc.MarkLeft?)
    ensures WorkerOk(Apply(s, Step(m)), w)
  {
  }

  lemma WorkerAfterSpin(s: State, m: nat, w: nat)
    requires Near(s, m) && Near(s, w) && Enabled(s, Step(m)) && w < |Apply(s, Step(m)).workers|
    requires (s.workers[m].pc.Spin? || s.workers[m].pc.Mark?)
    ensures WorkerOk(Apply(s, Step(m)), w)
  {
  }

  lemma WorkerAfterJump(s: State, m: nat, w: nat)
    requires Near(s, m) && Near(s, w) && Enabled(s, Step(m)) && w < |Apply(s, Step(m)).workers|
    requires s.workers[m].pc.Jump?
    ensures WorkerOk(Apply(s, Step(m)), w)
  {
  }

  lemma WorkerAfterDelete(s: State, m: nat, w: nat)
    requires Near(s, m) && Near(s, w) && Enabled(s, Step(m)) && w < |Apply(s, Step(m)).workers|
    requires s.workers[m].pc.Resumed?
    ensures WorkerOk(Apply(s, Step(m)), w)
  {
  }

  lemma WorkerStep(s: State, m: nat, w: nat)
    requires Near(s, m) && Near(s, w) && Enabled(s, Step(m)) && w < |Apply(s, Step(m)).workers|
    ensures WorkerOk(Apply(s, Step(m)), w)
  {
    hide Near, WorkerOk, Apply, CtxFine;
    match s.workers[m].pc
    case ToSwap(_) => WorkerAfterSwap(s, m, w);
    case Entered => WorkerAfterMark(s, m, w);
    case MarkLeft => WorkerAfterMark(s, m, w);
    case Spin(_) => WorkerAfterSpin(s, m, w);
    case Mark(_) => WorkerAfterSpin(s, m, w);
    case Jump(_) => WorkerAfterJump(s, m, w);
    case Resumed => WorkerAfterDelete(s, m, w);
    case _ =>
  }

  lemma ContextAfterSwap(s: State, m: nat, c: nat)
    requires Near(s, m) && CtxFine(s, c) && Enabled(s, Step(m)) && c < |Apply(s, Step(m)).ctxs|
    requires s.workers[m].pc.ToSwap?
    ensures ContextOk(Apply(s, Step(m)), c)
  {
  }

  lemma ContextAfterMark(s: State, m: nat, c: nat)
    requires Near(s, m) && CtxFine(s, c) && Enabled(s, Step(m)) && c < |Apply(s, Step(m)).ctxs|
    requires (s.workers[m].pc.Entered? || s.workers[m].pc.MarkLeft?)
    ensures ContextOk(Apply(s, Step(m)), c)
  {
  }

  lemma ContextAfterSpin(s: State, m: nat, c: nat)
    requires Near(s, m) && CtxFine(s, c) && Enabled(s, Step(m)) && c < |Apply(s, Step(m)).ctxs|
    requires (s.workers[m].pc.Spin? || s.workers[m].pc.Mark?)
    ensures ContextOk(Apply(s, Step(m)), c)
  {
  }

  lemma ContextAfterJump(s: State, m: nat, c: nat)
    requires Near(s, m) && CtxFine(s, c) && Enabled(s, Step(m)) && c < |Apply(s, Step(m)).ctxs|
    requires s.workers[m].pc.Jump?
    ensures ContextOk(Apply(s, Step(m)), c)
  {
  }

  lemma ContextAfterDelete(s: State, m: nat, c: nat)
    requires Near(s, m) && CtxFine(s, c) && Enabled(s, Step(m)) && c < |Apply(s, Step(m)).ctxs|
    requires s.workers[m].pc.Resumed?
    ensures ContextOk(Apply(s, Step(m)), c)
  {
  }

  lemma ContextStep(s: State, m: nat, c: nat)
    requires Near(s, m) && CtxFine(s, c) && Enabled(s, Step(m)) && c < |Apply(s, Step(m)).ctxs|
    ensures ContextOk(Apply(s, Step(m)), c)
  {
    hide Near, ContextOk, Apply, CtxFine;
    match s.workers[m].pc
    case ToSwap(_) => ContextAfterSwap(s, m, c);
    case Entered => ContextAfterMark(s, m, c);
    case MarkLeft => ContextAfterMark(s, m, c);
    case Spin(_) => ContextAfterSpin(s, m, c);
    case Mark(_) => ContextAfterSpin(s, m, c);
    case Jump(_) => ContextAfterJump(s, m, c);
    case Resumed => ContextAfterDelete(s, m, c);
    case _ =>
  }

  lemma BackAfterJump(s: State, m: nat, b: nat)
    requires Near(s, m) && BackFine(s, b) && Enabled(s, Step(m)) && b < |Apply(s, Step(m)).backs|
    requires s.workers[m].pc.Jump?
    ensures BackOk(Apply(s, Step(m)), b)
  {
  }

  lemma BackAfterOther(s: State, m: nat, b: nat)
    requires Near(s, m) && BackFine(s, b) && Enabled(s, Step(m)) && b < |Apply(s, Step(m)).backs|
    requires !s.workers[m].pc.Jump?
    ensures BackOk(Apply(s, Step(m)), b)
  {
  }

  lemma BackStep(s: State, m: nat, b: nat)
    requires Near(s, m) && BackFine(s, b) && Enabled(s, Step(m)) && b < |Apply(s, Step(m)).backs|
    ensures BackOk(Apply(s, Step(m)), b)
  {
    hide Near, BackOk, Apply, BackFine;
    if s.workers[m].pc.Jump? {
      BackAfterJump(s, m, b);
    } else {
      BackAfterOther(s, m, b);
    }
  }

  lemma WorkerBegins(s: State, a: Action, w: nat)
    requires Enabled(s, a) && (a.NewWorker? || a.Require? || a.TakeBack?) && w < |Apply(s, a).workers| && Near(s, w)
    requires (Actor(a).Some? ==> Near(s, Actor(a).value)) && (a.TakeBack? ==> BackFine(s, a.b))
    ensures WorkerOk(Apply(s, a), w)
  {
  }

  lemma WorkerExits(s: State, a: Action, w: nat)
    requires Enabled(s, a) && (a.Exit?) && w < |Apply(s, a).workers| && Near(s, w)
    requires (Actor(a).Some? ==> Near(s, Actor(a).value)) && (a.TakeBack? ==> BackFine(s, a.b))
    ensures WorkerOk(Apply(s, a), w)
  {
  }

  lemma WorkerJoins(s: State, a: Action, w: nat)
    requires Enabled(s, a) && (a.Join?) && w < |Apply(s, a).workers| && Near(s, w)
    requires (Actor(a).Some? ==> Near(s, Actor(a).value)) && (a.TakeBack? ==> BackFine(s, a.b))
    ensures WorkerOk(Apply(s, a), w)
  {
  }

  lemma ContextBegins(s: State, a: Action, c: nat)
    requires Enabled(s, a) && (a.NewWorker? || a.Require? || a.TakeBack?) && c < |Apply(s, a).ctxs| && CtxFine(s, c)
    requires (Actor(a).Some? ==> Near(s, Actor(a).value)) && (a.TakeBack? ==> BackFine(s, a.b))
    ensures ContextOk(Apply(s, a), c)
  {
  }

  lemma ContextEnds(s: State, a: Action, c: nat)
    requires Enabled(s, a) && (a.Exit? || a.Join?) && c < |Apply(s, a).ctxs| && CtxFine(s, c)
    requires (Actor(a).Some? ==> Near(s, Actor(a).value)) && (a.TakeBack? ==> BackFine(s, a.b))
    ensures ContextOk(Apply(s, a), c)
  {
  }

  lemma BackBegins(s: State, a: Action, b: nat)
    requires Enabled(s, a) && (a.NewWorker? || a.Require? || a.TakeBack?) && b < |Apply(s, a).backs| && BackFine(s, b)
    requires (Actor(a).Some? ==> Near(s, Actor(a).value)) && (a.TakeBack? ==> BackFine(s, a.b))
    ensures BackOk(Apply(s, a), b)
  {
  }

  lemma BackEnds(s: State, a: Action, b: nat)
    requires Enabled(s, a) && (a.Exit? || a.Join?) && b < |Apply(s, a).backs| && BackFine(s, b)
    requires (Actor(a).Some? ==> Near(s, Actor(a).value)) && (a.TakeBack? ==> BackFine(s, a.b))
    ensures BackOk(Apply(s, a), b)
  {
  }

  lemma WorkerKept(s: State, a: Action, w: nat)
    requires Inv(s) && Enabled(s, a) && w < |Apply(s, a).workers|
    ensures WorkerOk(Apply(s, a), w)
  {
    NearOk(s, w);
    ActorNear(s, a);
    hide Inv, Near, BackFine, WorkerOk, Apply;
    match a
    case Step(m) => WorkerStep(s, m, w);
    case Exit(_) => WorkerExits(s, a, w);
    case Join(_) => WorkerJoins(s, a, w);
    case _ => WorkerBegins(s, a, w);
  }

  lemma ContextKept(s: State, a: Action, c: nat)
    requires Inv(s) && Enabled(s, a) && c < |Apply(s, a).ctxs|
    ensures ContextOk(Apply(s, a), c)
  {
    assert CtxFine(s, c);
    ActorNear(s, a);
    hide Inv, Near, BackFine, CtxFine, ContextOk, Apply;
    match a
    case Step(m) => ContextStep(s, m, c);
    case Exit(_) => ContextEnds(s, a, c);
    case Join(_) => ContextEnds(s, a, c);
    case _ => ContextBegins(s, a, c);
  }

  lemma BackKept(s: State, a: Action, b: nat)
    requires Inv(s) && Enabled(s, a) && b < |Apply(s, a).backs|
    ensures BackOk(Apply(s, a), b)
  {
    assert BackFine(s, b);
    ActorNear(s, a);
    hide Inv, Near, BackFine, CtxFine, BackOk, Apply;
    match a
    case Step(m) => BackStep(s, m, b);
    case Exit(_) => BackEnds(s, a, b);
    case Join(_) => BackEnds(s, a, b);
    case _ => BackBegins(s, a, b);
  }

  lemma ActorNear(s: State, a: Action)
    requires Inv(s) && Enabled(s, a)
    ensures (Actor(a).Some? ==> Near(s, Actor(a).value)) && (a.TakeBack? ==> BackFine(s, a.b))
  {
    if Actor(a).Some? {
      NearOk(s, Actor(a).value);
    }
  }

  lemma StepKeeps(s: State, a: Action)
    requires Inv(s) && Enabled(s, a)
    ensures Inv(Apply(s, a))
  {
    var s' := Apply(s, a);
    hide WorkerOk, ContextOk, BackOk, Apply, Enabled;
    forall w | 0 <= w < |s'.workers| ensures WorkerOk(s', w) {
      WorkerKept(s, a, w);
    }
    forall c | 0 <= c < |s'.ctxs| ensures ContextOk(s', c) {
      ContextKept(s, a, c);
    }
    forall b | 0 <= b < |s'.backs| ensures BackOk(s', b) {
      BackKept(s, a, b);
    }
  }

  predicate IsInit(s: State) {
    s.ctxs == [] && s.workers == [] && s.backs == []
  }

  ghost predicate IsRun(states: seq<State>, acts: seq<Action>) {
    && |states| == |acts| + 1 && IsInit(states[0])
    && (forall i | 0 <= i < |acts| :: Enabled(states[i], acts[i]) && states[i + 1] == Apply(states[i], acts[i]))
  }

  ghost predicate Reachable(s: State) {
    exists states, acts :: IsRun(states, acts) && states[|acts|] == s
  }

  lemma {:induction false} RunKeeps(states: seq<State>, acts: seq<Action>, n: nat)
    requires IsRun(states, acts) && n <= |acts|
    ensures Inv(states[n])
  {
    if n > 0 {
      RunKeeps(states, acts, n - 1);
      hide Inv, Enabled, Apply;
      StepKeeps(states[n - 1], acts[n - 1]);
    }
  }

  lemma ReachableInv(s: State)
    requires Reachable(s)
    ensures Inv(s)
  {
    var states, acts :| IsRun(states, acts) && states[|acts|] == s;
    RunKeeps(states, acts, |acts|);
  }

  lemma ReachableStart(s: State)
    requires IsInit(s)
    ensures Reachable(s)
  {
    var none: seq<Action> := [];
    assert IsRun([s], none) && [s][|none|] == s;
  }

  lemma ReachableStep(s: State, a: Action)
    requires Reachable(s) && Enabled(s, a)
    ensures Reachable(Apply(s, a))
  {
    hide Enabled, Apply, IsInit;
    var states, acts :| IsRun(states, acts) && states[|acts|] == s;
    var states', acts' := states + [Apply(s, a)], acts + [a];
    forall i | 0 <= i < |acts'| ensures Enabled(states'[i], acts'[i]) && states'[i + 1] == Apply(states'[i], acts'[i]) {
      assert i < |acts| ==> Enabled(states[i], acts[i]) && states'[i + 1] == states[i + 1];
    }
    assert IsRun(states', acts') && states'[0] == states[0];
  }

  // ---------------------------------------------------------------- what the handshake guarantees

  /** A context is executed by at most one worker, and never after it was deleted. */
  lemma ExecutedByOne(s: State, v: nat, w: nat)
    requires Reachable(s) && v < w < |s.workers| && !s.workers[v].pc.Gone? && !s.workers[w].pc.Gone?
    ensures s.workers[v].ctx != s.workers[w].ctx
    ensures s.workers[v].ctx < |s.ctxs| && s.ctxs[s.workers[v].ctx].timesDeleted == 0
  {
    ReachableInv(s);
    assert WorkerOk(s, v) && WorkerOk(s, w) && ContextOk(s, s.workers[v].ctx);
  }

  /** A helper jumps into a context only after the swap that saved it, and while nobody executes it. */
  lemma JumpsIntoSaved(s: State, w: nat, b: nat)
    requires Reachable(s) && w < |s.workers| && s.workers[w].pc == Jump(b)
    ensures Enabled(s, Step(w)) && s.ctxs[s.backs[b].target].saved
    ensures forall v | 0 <= v < |s.workers| && !s.workers[v].pc.Gone? :: s.workers[v].ctx != s.backs[b].target
    ensures Apply(s, Step(w)).workers[w].ctx == s.backs[b].target
  {
    ReachableInv(s);
    assert WorkerOk(s, w) && ContextOk(s, s.backs[b].target);
    forall v | 0 <= v < |s.workers| && !s.workers[v].pc.Gone? ensures s.workers[v].ctx != s.backs[b].target {
      assert WorkerOk(s, v);
    }
  }

  /** Each time a context is left it is entered again at most once, by the one helper that is out for it. */
  lemma ResumedOncePerYield(s: State, c: nat)
    requires Reachable(s) && c < |s.ctxs|
    ensures s.ctxs[c].timesLeft == s.ctxs[c].timesResumed + (if s.ctxs[c].saved then 1 else 0)
  {
    ReachableInv(s);
    assert ContextOk(s, c);
  }

  lemma OneHelperPerContext(s: State, a: nat, b: nat)
    requires Reachable(s) && a < b < |s.backs| && !s.backs[a].st.Over? && !s.backs[b].st.Over?
    ensures s.backs[a].target != s.backs[b].target
  {
    ReachableInv(s);
    assert BackOk(s, a) && BackOk(s, b);
  }

  /** A deleted context was deleted once, and nothing refers to it any more. */
  lemma DeletedOnce(s: State, c: nat)
    requires Reachable(s) && c < |s.ctxs|
    ensures s.ctxs[c].timesDeleted <= 1
    ensures s.ctxs[c].timesDeleted == 1 ==>
      && (forall w | 0 <= w < |s.workers| && !s.workers[w].pc.Gone? :: s.workers[w].ctx != c && s.workers[w].pre != Some(c))
      && (forall b | 0 <= b < |s.backs| && !s.backs[b].st.Over? :: s.backs[b].target != c)
  {
    ReachableInv(s);
    assert ContextOk(s, c);
    forall w | 0 <= w < |s.workers| && !s.workers[w].pc.Gone?
      ensures s.workers[w].ctx == c || s.workers[w].pre == Some(c) ==> !s.ctxs[c].role.Dead?
    {
      assert WorkerOk(s, w);
    }
    forall b | 0 <= b < |s.backs| && !s.backs[b].st.Over?
      ensures s.backs[b].target == c ==> !s.ctxs[c].role.Dead?
    {
      assert BackOk(s, b);
    }
  }

  /** None leaks: what is neither executed nor deleted has a helper, a thread, or a worker about to delete it. */
  lemma NoneLeaks(s: State, c: nat)
    requires Reachable(s) && c < |s.ctxs| && s.ctxs[c].timesDeleted == 0
    ensures (exists w | 0 <= w < |s.workers| :: s.workers[w].ctx == c && !s.workers[w].pc.Gone?)
         || (exists w | 0 <= w < |s.workers| :: s.workers[w].home == c)
         || (exists w | 0 <= w < |s.workers| :: s.workers[w].pre == Some(c) && (s.workers[w].pc.Resumed? || s.workers[w].pc.Exited?))
         || (exists b | 0 <= b < |s.backs| :: s.backs[b].target == c && !s.backs[b].st.Over?)
  {
    ReachableInv(s);
    assert ContextOk(s, c);
  }

  /** A worker that waits for a context to be yielded waits for one other worker, which can go on. */
  lemma SpinIsShort(s: State, w: nat, b: nat) returns (v: nat)
    requires Reachable(s) && w < |s.workers| && s.workers[w].pc == Spin(b) && !Enabled(s, Step(w))
    ensures v < |s.workers| && v != w && Enabled(s, Step(v)) && !s.workers[v].pc.Spin?
  {
    ReachableInv(s);
    assert WorkerOk(s, w) && BackOk(s, b) && ContextOk(s, s.backs[b].target);
    var x := s.ctxs[s.backs[b].target];
    v := if x.role.Exec? then x.role.w else x.leaver;
    assert WorkerOk(s, v);
  }

  /** Only the wait for the yielded status ever blocks a worker. */
  lemma OnlySpinBlocks(s: State, w: nat)
    requires Reachable(s) && w < |s.workers| && !s.workers[w].pc.Gone? && !s.workers[w].pc.Spin?
    ensures match s.workers[w].pc
      case Working => Enabled(s, Require(w)) && Enabled(s, Exit(w))
      case Exited => Enabled(s, Join(w))
      case _ => Enabled(s, Step(w))
  {
    ReachableInv(s);
    NearOk(s, w);
    hide Inv;
  }
}

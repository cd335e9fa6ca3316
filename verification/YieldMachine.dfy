/**
 * The handshake on the fields of the threads and contexts: context_ptr and context_pre_ptr
 * of each worker, the status word of each context, the context each helper will jump into.
 * One method per operation; the ghost state is the interleaving state machine.
 */
module YieldMachine {
  import opened Common
  import opened YieldHandshake
  import opened YieldProof

  class Threads {
    var contextPtr: seq<nat>
    var contextPrePtr: seq<Option<nat>>
    var threadContext: seq<nat>
    var status: seq<Status>
    var freed: seq<bool>
    var backRunContext: seq<nat>
    ghost var s: State

    ghost predicate Valid()
      reads this
    {
      && Reachable(s)
      && |contextPtr| == |contextPrePtr| == |threadContext| == |s.workers|
      && (forall w | 0 <= w < |s.workers| :: contextPtr[w] == s.workers[w].ctx)
      && (forall w | 0 <= w < |s.workers| :: contextPrePtr[w] == s.workers[w].pre)
      && (forall w | 0 <= w < |s.workers| :: threadContext[w] == s.workers[w].home)
      && |status| == |freed| == |s.ctxs|
      && (forall c | 0 <= c < |s.ctxs| :: status[c] == s.ctxs[c].status)
      && (forall c | 0 <= c < |s.ctxs| :: freed[c] <==> s.ctxs[c].timesDeleted > 0)
      && |backRunContext| == |s.backs|
      && (forall b | 0 <= b < |s.backs| :: backRunContext[b] == s.backs[b].target)
    }

    constructor ()
      ensures Valid() && IsInit(s)
    {
      contextPtr, contextPrePtr, threadContext, status, freed, backRunContext := [], [], [], [], [], [];
      s := State([], [], []);
      new;
      ReachableStart(s);
    }

    /** Schedule::routine, up to the first swap. */
    method AddWorker() returns (w: nat)
      requires Valid()
      modifies this
      ensures Valid() && s == Apply(old(s), NewWorker) && w == |old(s).workers|
    {
      hide Reachable;
      w := |contextPtr|;
      ReachableStep(s, NewWorker);
      s := Apply(s, NewWorker);
      var c := |status|;
      status, freed := status + [Ready], freed + [false];
      contextPtr, contextPrePtr, threadContext := contextPtr + [c], contextPrePtr + [None], threadContext + [c];
    }

    /** require_node and wait_graph: a helper that will bring the current context back. */
    method PublishHelper(w: nat) returns (b: nat)
      requires Valid() && Enabled(s, Require(w))
      modifies this`s, this`backRunContext
      ensures Valid() && s == Apply(old(s), Require(w)) && s.workers[w].pc == ToSwap(Some(b))
    {
      hide Reachable;
      b := |backRunContext|;
      ReachableStep(s, Require(w));
      s := Apply(s, Require(w));
      backRunContext := backRunContext + [contextPtr[w]];
    }

    method SwapNewContext(w: nat)
      requires Valid() && Enabled(s, Step(w)) && s.workers[w].pc.ToSwap?
      modifies this`s, this`contextPtr, this`contextPrePtr, this`status, this`freed
      ensures Valid() && s == Apply(old(s), Step(w))
    {
      hide Reachable;
      ReachableStep(s, Step(w));
      s := Apply(s, Step(w));
      var out, next := contextPtr[w], |status|;
      status, freed := status + [Initing], freed + [false];
      contextPrePtr := contextPrePtr[w := Some(out)];
      contextPtr := contextPtr[w := next];
    }

    /** change_context_status, first half. */
    method MarkEntered(w: nat)
      requires Valid() && Enabled(s, Step(w)) && s.workers[w].pc.Entered?
      modifies this`s, this`status
      ensures Valid() && s == Apply(old(s), Step(w))
    {
      hide Reachable;
      ReachableStep(s, Step(w));
      s := Apply(s, Step(w));
      status := status[contextPtr[w] := Running];
    }

    /** change_context_status, second half. */
    method MarkLeftContext(w: nat)
      requires Valid() && Enabled(s, Step(w)) && s.workers[w].pc.MarkLeft?
      modifies this`s, this`status, this`contextPrePtr
      ensures Valid() && s == Apply(old(s), Step(w))
    {
      hide Reachable;
      ReachableStep(s, Step(w));
      s := Apply(s, Step(w));
      if contextPrePtr[w].Some? {
        status := status[contextPrePtr[w].value := Yield];
        contextPrePtr := contextPrePtr[w := None];
      }
    }

    ghost method TakeHelper(w: nat, b: nat)
      requires Valid() && Enabled(s, TakeBack(w, b))
      modifies this`s
      ensures Valid() && s == Apply(old(s), TakeBack(w, b))
    {
      ReachableStep(s, TakeBack(w, b));
      s := Apply(s, TakeBack(w, b));
    }

    /** BackNode::run: one round of the wait for the context to be yielded. */
    method PollYield(w: nat, b: nat) returns (go: bool)
      requires Valid() && w < |s.workers| && s.workers[w].pc == Spin(b)
      modifies this`s
      ensures Valid() && (go <==> Enabled(old(s), Step(w)))
      ensures s == if go then Apply(old(s), Step(w)) else old(s)
    {
      HelperTarget(s, w, b);
      hide Reachable;
      go := status[backRunContext[b]].Yield?;
      if go {
        ReachableStep(s, Step(w));
        s := Apply(s, Step(w));
      }
    }

    method MarkResuming(w: nat, b: nat)
      requires Valid() && Enabled(s, Step(w)) && s.workers[w].pc == Mark(b)
      modifies this`s, this`status
      ensures Valid() && s == Apply(old(s), Step(w))
    {
      hide Reachable;
      ReachableStep(s, Step(w));
      s := Apply(s, Step(w));
      status := status[backRunContext[b] := Running];
    }

    /** set_context: jump into the saved context; the current one is remembered to be deleted. */
    method SetContext(w: nat, b: nat)
      requires Valid() && Enabled(s, Step(w)) && s.workers[w].pc == Jump(b)
      modifies this`s, this`contextPtr, this`contextPrePtr
      ensures Valid() && s == Apply(old(s), Step(w)) && old(s).ctxs[contextPtr[w]].saved
    {
      JumpsIntoSaved(s, w, b);
      hide Reachable;
      ReachableStep(s, Step(w));
      s := Apply(s, Step(w));
      contextPrePtr := contextPrePtr[w := Some(contextPtr[w])];
      contextPtr := contextPtr[w := backRunContext[b]];
    }

    /** require_node and wait_graph, after the wait: delete the context the helper ran in. */
    method DeletePre(w: nat)
      requires Valid() && Enabled(s, Step(w)) && s.workers[w].pc.Resumed?
      modifies this`s, this`freed, this`contextPrePtr
      ensures Valid() && s == Apply(old(s), Step(w))
      ensures old(contextPrePtr)[w].Some? && !old(freed)[old(contextPrePtr)[w].value]
      ensures freed == old(freed)[old(contextPrePtr)[w].value := true]
    {
      PreNotFreed(s, w);
      hide Reachable;
      ReachableStep(s, Step(w));
      s := Apply(s, Step(w));
      freed := freed[contextPrePtr[w].value := true];
      contextPrePtr := contextPrePtr[w := None];
    }

    /** The scheduler loop ends: back to the thread's own context. */
    method LeaveScheduler(w: nat)
      requires Valid() && Enabled(s, Exit(w))
      modifies this`s, this`contextPtr, this`contextPrePtr
      ensures Valid() && s == Apply(old(s), Exit(w))
    {
      hide Reachable;
      ReachableStep(s, Exit(w));
      s := Apply(s, Exit(w));
      contextPrePtr := contextPrePtr[w := Some(contextPtr[w])];
      contextPtr := contextPtr[w := threadContext[w]];
    }

    /** ~Thread, after the thread has ended: both contexts are deleted. */
    method JoinThread(w: nat)
      requires Valid() && Enabled(s, Join(w))
      modifies this`s, this`freed, this`contextPrePtr
      ensures Valid() && s == Apply(old(s), Join(w))
    {
      hide Reachable;
      ReachableStep(s, Join(w));
      s := Apply(s, Join(w));
      freed := freed[contextPtr[w] := true][contextPrePtr[w].value := true];
      contextPrePtr := contextPrePtr[w := None];
    }
  }

  lemma HelperTarget(s: State, w: nat, b: nat)
    requires Reachable(s) && w < |s.workers| && s.workers[w].pc == Spin(b)
    ensures BackOf(s, b)
  {
    ReachableInv(s);
    assert WorkerOk(s, w) && BackOk(s, b);
  }

  lemma PreNotFreed(s: State, w: nat)
    requires Reachable(s) && w < |s.workers| && s.workers[w].pc.Resumed?
    ensures s.workers[w].pre.Some? && s.workers[w].pre.value < |s.ctxs| && s.ctxs[s.workers[w].pre.value].timesDeleted == 0
  {
    ReachableInv(s);
    assert WorkerOk(s, w) && ContextOk(s, s.workers[w].pre.value);
  }
}

/** Exactly when accepted feedback runs: over runs in which every party interleaves, a feedback message
    that a worker has taken is run if and only if the task is not RUNNING when its handler looks. */
module FeedbackRuns {
  import opened Basics
  import opened TaskStatus
  import opened TaskStore
  import opened TaskProtocol
  import opened ProtocolInvariant
  import opened ProtocolSafety

  /** What a feedback handler has done so far agrees with where it stands. */
  predicate Traced(h: Handler) {
    h.job.Round? ==>
      match h.pc
      case Begin => h.check.Unread? && !h.launched && !h.cut
      case Start => h.check.SawOther? && !h.launched && !h.cut
      case Launch => h.check.SawOther? && !h.launched && !h.cut
      case Await => h.check.SawOther? && h.launched && !h.cut
      case Succeed => h.check.SawOther? && h.launched && !h.cut
      case TimeoutMark => h.check.SawOther? && h.launched && !h.cut
      case Exhaust => h.check.SawOther? && h.launched && !h.cut
      case Done =>
        (match h.check
         case Unread => h.cut && !h.launched
         case SawRunning => !h.cut && !h.launched
         case SawOther => h.cut || h.launched)
      case _ => false
  }

  /** The same handler some steps later: what it saw stays what it was. */
  predicate Later(h: Handler, h': Handler) {
    && h'.id == h.id && h'.job == h.job
    && (Traced(h) ==> Traced(h') && (h.job.Round? && !h.check.Unread? ==> h'.check == h.check))
  }

  lemma NextIsLater(s: System, h: Handler, next: (Handler, Op))
    requires Next(s, h, next)
    ensures Later(h, next.0)
  {
    hide NextHandler, NextThread, Later;
    HandlerIsLater(h, h.id in s.cancelled, IsRunning(s, h.id));
    GiveUpIsLater(h);
    forall act { ThreadIsLater(h, h.id in s.cancelled, act); }
  }

  lemma HandlerIsLater(h: Handler, flag: bool, running: bool)
    ensures Later(h, NextHandler(h, flag, running).0)
  {
    if h.job.Round? {
      RoundIsLater(h, running);
    } else {
      hide Traced;
      assert Traced(h) == Traced(NextAttempt(h, flag).0) == true by { AttemptsAreTraced(h, NextAttempt(h, flag).0); }
    }
    hide NextRound;
  }

  lemma AttemptsAreTraced(h: Handler, h': Handler)
    requires h.job.Attempt? && h'.job.Attempt?
    ensures Traced(h) && Traced(h')
  {
  }

  lemma RoundIsLater(h: Handler, running: bool)
    requires h.job.Round?
    ensures Later(h, NextRound(h, running).0)
  {
  }

  lemma GiveUpIsLater(h: Handler)
    ensures Later(h, NextGiveUp(h))
  {
  }

  lemma ThreadIsLater(h: Handler, flag: bool, act: Act)
    ensures Later(h, NextThread(h, flag, act).0)
  {
  }

  lemma CutIsLater(h: Handler)
    ensures Later(h, Cut(h)) && Later(h, Cut(h).(thread := Idle))
  {
  }

  ghost predicate HandlersGoOn(s: System, s': System) {
    && |s.handlers| <= |s'.handlers|
    && (forall i :: 0 <= i < |s.handlers| ==> Later(s.handlers[i], s'.handlers[i]))
    && (forall i :: |s.handlers| <= i < |s'.handlers| ==> Traced(s'.handlers[i]))
  }

  lemma WorkerGoesOn(s: System, step: Step)
    ensures HandlersGoOn(s, WorkerStep(s, step))
  {
    SameGoesOn(s);
    hide Later, Traced, Perform, NextHandler, NextThread, NextGiveUp;
    match step
    case Handle(i) =>
      if i < |s.handlers| {
        var h := s.handlers[i];
        MoveGoesOn(s, i, NextHandler(h, h.id in s.cancelled, IsRunning(s, h.id)));
      }
    case GiveUp(i) => if i < |s.handlers| { MoveGoesOn(s, i, (NextGiveUp(s.handlers[i]), Skip)); }
    case Run(i, act) =>
      if i < |s.handlers| { MoveGoesOn(s, i, NextThread(s.handlers[i], s.handlers[i].id in s.cancelled, act)); }
    case _ =>
  }

  lemma SameGoesOn(s: System)
    ensures HandlersGoOn(s, s)
  {
  }

  lemma MoveGoesOn(s: System, i: nat, next: (Handler, Op))
    requires i < |s.handlers| && Next(s, s.handlers[i], next)
    ensures HandlersGoOn(s, Move(s, i, next))
  {
    NextIsLater(s, s.handlers[i], next);
    MoveIsPerform(s, i, next);
    hide Perform, Next, Traced;
  }

  lemma EscapeGoesOn(s: System, w: nat)
    requires w < |s.consumers| && Busy(s, s.consumers[w])
    ensures HandlersGoOn(s, EscapedFrom(s, w))
  {
    SameGoesOn(s);
    EscapeFrame(s, w);
    CutIsLater(s.handlers[s.consumers[w].hand.value]);
    hide EscapedFrom, Cut, Later, Traced, InHand, IdOf, Covered;
  }

  lemma StopGoesOn(s: System, w: nat)
    requires w < |s.consumers|
    ensures HandlersGoOn(s, Stopped(s, w))
  {
    SameGoesOn(s);
    StopFrame(s, w);
    if Busy(s, s.consumers[w]) { CutIsLater(s.handlers[s.consumers[w].hand.value]); }
    hide Stopped, Cut, Later, Traced, InHand, IdOf, Covered, Busy;
  }

  lemma TakeGoesOn(s: System, w: nat)
    requires BrokerStep(s, Take(w)) != s
    ensures HandlersGoOn(s, BrokerStep(s, Take(w)))
  {
    SameGoesOn(s);
    FreshIsTraced(s.consumers[w].batch[|s.consumers[w].ends|]);
    TakeFrame(s, w);
    hide BrokerStep, Later, Traced, HandlerOf;
  }

  lemma BrokerGoesOn(s: System, step: Step)
    ensures HandlersGoOn(s, BrokerStep(s, step))
  {
    hide HandlersGoOn, EscapedFrom, Stopped, HandlerOf, Overdue, IdOf;
    SameGoesOn(s);
    if BrokerStep(s, step) != s {
      match step
      case Escape(w) => EscapeGoesOn(s, w);
      case Stop(w) => StopGoesOn(s, w);
      case Take(w) => TakeGoesOn(s, w);
      case _ => SameHandlersGoOn(s, BrokerStep(s, step));
    }
  }

  lemma SameHandlersGoOn(s: System, s': System)
    requires s'.handlers == s.handlers
    ensures HandlersGoOn(s, s')
  {
    SameGoesOn(s);
  }

  lemma FreshIsTraced(m: Message)
    ensures Traced(HandlerOf(m))
  {
  }

  lemma StepGoesOn(s: System, step: Step)
    ensures HandlersGoOn(s, Apply(s, step))
  {
    SameGoesOn(s);
    match PartyOf(step)
    case Worker => WorkerGoesOn(s, step);
    case Broker => BrokerGoesOn(s, step);
    case Submission => SubmitFrame(s, step);
    case FeedbackPost => PostFrame(s, step);
    case Scanner => ScanFrame(s, step);
  }

  /** Handler i from one state of a run to a later one. */
  lemma {:induction false} HandlerGoesOn(steps: seq<Step>, k: nat, n: nat, i: nat)
    requires k <= n <= |steps| && i < |StateAt(steps, k).handlers|
    ensures i < |StateAt(steps, n).handlers|
    ensures var h, h' := StateAt(steps, k).handlers[i], StateAt(steps, n).handlers[i];
      h'.id == h.id && h'.job == h.job && (h.job.Round? && !h.check.Unread? ==> h'.check == h.check)
  {
    hide Apply, StateAt, Traced;
    if k < n {
      HandlerGoesOn(steps, k, n - 1, i);
      AllTraced(steps, n - 1);
      AtNext(steps, n - 1);
      StepGoesOn(StateAt(steps, n - 1), steps[n - 1]);
    }
  }

  lemma {:induction false} AllTraced(steps: seq<Step>, n: nat)
    requires n <= |steps|
    ensures forall i :: 0 <= i < |StateAt(steps, n).handlers| ==> Traced(StateAt(steps, n).handlers[i])
  {
    hide Apply, StateAt, Traced;
    if n == 0 {
      StartsEmpty(steps);
    } else {
      AllTraced(steps, n - 1);
      AtNext(steps, n - 1);
      StepGoesOn(StateAt(steps, n - 1), steps[n - 1]);
    }
  }

  lemma LooksAt(s: System, i: nat)
    requires i < |s.handlers| && s.handlers[i].pc.Begin? && s.handlers[i].job.Round?
    ensures var h := Apply(s, Handle(i)).handlers;
      i < |h| && h[i].check == if IsRunning(s, s.handlers[i].id) then SawRunning else SawOther
  {
  }

  /** A feedback message taken by a worker, handled to the end without a stop or an escaping error, has
      been run if and only if its task was not RUNNING at the one step in which the handler looked. */
  lemma FeedbackRunsIff(steps: seq<Step>, k: nat, i: nat)
    requires k < |steps| && steps[k] == Handle(i) && i < |StateAt(steps, k).handlers|
    requires StateAt(steps, k).handlers[i].pc.Begin? && StateAt(steps, k).handlers[i].job.Round?
    ensures i < |StateAt(steps, |steps|).handlers|
    ensures var h := StateAt(steps, |steps|).handlers[i];
      h.pc.Done? && !h.cut ==> (h.launched <==> !IsRunning(StateAt(steps, k), h.id))
  {
    LooksAt(StateAt(steps, k), i);
    AtNext(steps, k);
    HandlerGoesOn(steps, k, k + 1, i);
    HandlerGoesOn(steps, k + 1, |steps|, i);
    AllTraced(steps, |steps|);
    hide Apply, StateAt;
  }

  // ---- one feedback call against one handler ----

  /** From one step to the next either this call's save lands, or the task's status stays what it is. */
  ghost predicate OnlySave(s: System, step: Step, s': System, p: Post) {
    if step == PostSave(p) then p in s.posts && p.sent else IsRunning(s', p.id) == IsRunning(s, p.id)
  }

  lemma SaveRuns(s: System, p: Post)
    requires p in s.posts && p.sent
    ensures IsRunning(Apply(s, PostSave(p)), p.id)
  {
  }

  lemma {:induction false} RunningIffSaved(steps: seq<Step>, a: nat, k: nat, p: Post)
    requires a <= k <= |steps| && !IsRunning(StateAt(steps, a), p.id)
    requires forall j {:trigger StateAt(steps, j)} :: a <= j < k ==> OnlySave(StateAt(steps, j), steps[j], StateAt(steps, j + 1), p)
    ensures IsRunning(StateAt(steps, k), p.id) <==> PostSave(p) in steps[a..k]
  {
    hide Apply, StateAt, IsRunning, OnlySave;
    if a < k {
      RunningIffSaved(steps, a, k - 1, p);
      assert OnlySave(StateAt(steps, k - 1), steps[k - 1], StateAt(steps, k - 1 + 1), p);
      SaveStep(steps, k - 1, p);
      SliceGrows(steps, a, k, PostSave(p));
    }
  }

  lemma SliceGrows(steps: seq<Step>, a: nat, k: nat, step: Step)
    requires a < k <= |steps|
    ensures step in steps[a..k] <==> step in steps[a..k - 1] || steps[k - 1] == step
  {
    assert steps[a..k] == steps[a..k - 1] + [steps[k - 1]];
  }

  lemma SaveStep(steps: seq<Step>, k: nat, p: Post)
    requires k < |steps| && OnlySave(StateAt(steps, k), steps[k], StateAt(steps, k + 1), p)
    ensures IsRunning(StateAt(steps, k + 1), p.id) <==> steps[k] == PostSave(p) || IsRunning(StateAt(steps, k), p.id)
  {
    hide Apply, StateAt, IsRunning;
    AtNext(steps, k);
    if steps[k] == PostSave(p) {
      SaveRuns(StateAt(steps, k), p);
    }
  }

  /** One feedback call on a finished task, and nothing else that changes its status until the handler
      looks: the round runs if and only if the call's save has not landed by then.  Save before
      look: the feedback is dropped.  Look before save: it runs. */
  lemma SinglePostRunsIff(steps: seq<Step>, a: nat, k: nat, i: nat, p: Post)
    requires a <= k < |steps| && steps[k] == Handle(i) && i < |StateAt(steps, k).handlers|
    requires var h := StateAt(steps, k).handlers[i]; h.pc.Begin? && h.job.Round? && h.id == p.id
    requires !IsRunning(StateAt(steps, a), p.id)
    requires forall j {:trigger StateAt(steps, j)} :: a <= j < k ==> OnlySave(StateAt(steps, j), steps[j], StateAt(steps, j + 1), p)
    ensures i < |StateAt(steps, |steps|).handlers|
    ensures var h := StateAt(steps, |steps|).handlers[i];
      h.pc.Done? && !h.cut ==> (h.launched <==> PostSave(p) !in steps[a..k])
  {
    FeedbackRunsIff(steps, k, i);
    RunningIffSaved(steps, a, k, p);
    HandlerGoesOn(steps, k, |steps|, i);
    hide Apply, StateAt, IsRunning;
  }
}

/** What every run of the task protocol guarantees. */
module ProtocolSafety {
  import opened Basics
  import opened TaskStatus
  import opened TaskStore
  import opened TaskProtocol
  import opened ProtocolInvariant

  // ---- nothing is lost but what a commit covers too early ----

  lemma {:induction false} SumPositive(hs: seq<Handler>, id: Id, weight: Handler -> nat) returns (i: nat)
    requires SumOf(hs, id, weight) > 0
    ensures i < |hs| && hs[i].id == id && weight(hs[i]) > 0
  {
    var n := |hs| - 1;
    if hs[n].id == id && weight(hs[n]) > 0 {
      i := n;
    } else {
      i := SumPositive(hs[..n], id, weight);
    }
  }

  lemma {:induction false} HolderOf(cs: seq<Consumer>, m: Message) returns (w: nat)
    requires m in HeldBy(cs)
    ensures w < |cs| && m in Held(cs[w])
  {
    hide Held;
    var n := |cs| - 1;
    if m in Held(cs[n]) {
      w := n;
    } else {
      w := HolderOf(cs[..n], m);
    }
  }

  /** A request for this task is on the topic, or some worker has polled it and will handle it or
      give it back. */
  ghost predicate Requested(s: System, id: Id) {
    exists retry: nat :: Request(id, retry) in s.topic
      || exists w :: 0 <= w < |s.consumers| && Request(id, retry) in Held(s.consumers[w])
  }

  /** Somewhere in the system something will still decide the outcome of this task. */
  ghost predicate InProgress(s: System, id: Id) {
    || id in s.submitting
    || Requested(s, id)
    || (exists i :: 0 <= i < |s.handlers| && s.handlers[i].id == id && Holding(s.handlers[i]) == 1)
  }

  ghost predicate RequestDropped(s: System, id: Id) { exists retry: nat :: Request(id, retry) in s.dropped }

  lemma CountedRequest(ms: multiset<Message>, id: Id) returns (retry: nat)
    requires RequestCount(ms, id) > 0
    ensures Request(id, retry) in ms
  {
    retry := if Request(id, 0) in ms then 0 else if Request(id, 1) in ms then 1 else if Request(id, 2) in ms then 2 else 3;
  }

  lemma UndoneIsRequested(s: System, id: Id, retry: nat)
    requires Request(id, retry) in Undone(s)
    ensures Requested(s, id)
  {
    if Request(id, retry) !in s.topic {
      var w := HolderOf(s.consumers, Request(id, retry));
    }
  }

  /** No task is silently lost except by dropping a request: in every reachable state each issued task is
      gone, has ended, was taken up by accepted feedback, is in progress, or had a request dropped;
      and without repeated deliveries it is in progress in one place at most. */
  lemma {:induction false} NothingIsLost(steps: seq<Step>, id: Id)
    requires id in After(EMPTY, steps).issued
    ensures var s := After(EMPTY, steps);
      && (Ended(s, id) || InProgress(s, id) || RequestDropped(s, id))
      && Tokens(s, id) <= 1 + s.again[id]
  {
    hide After;
    Reachable(steps);
    StateNotLost(After(EMPTY, steps), id);
  }

  lemma StateNotLost(s: System, id: Id)
    requires Inv(s) && id in s.issued
    ensures Ended(s, id) || InProgress(s, id) || RequestDropped(s, id)
    ensures Tokens(s, id) <= 1 + s.again[id]
  {
    assert Bounded(s, id) && NotLost(s, id);
    hide Inv, Undone, RequestCount, Requested;
    if !Ended(s, id) && id !in s.submitting {
      if SumOf(s.handlers, id, Holding) > 0 {
        var i := SumPositive(s.handlers, id, Holding);
      } else if RequestCount(Undone(s), id) > 0 {
        var retry := CountedRequest(Undone(s), id);
        UndoneIsRequested(s, id, retry);
      } else {
        var retry := CountedRequest(s.dropped, id);
      }
    }
  }

  /** The steps that drop message m, told by what a maintainer can see before them: a worker stops in a
      batch of which a record is committed and m not finished; an error escapes from the handler of m
      in such a batch; or a first commit passes over m, which was given up before. */
  predicate DropsOf(s: System, step: Step, m: Message) {
    match step
    case Stop(w) => w < |s.consumers| && Committed in s.consumers[w].ends && m in Unfinished(s, s.consumers[w])
    case Escape(w) =>
      w < |s.consumers| && Busy(s, s.consumers[w]) && Escapes(s.handlers[s.consumers[w].hand.value])
      && Committed in s.consumers[w].ends && m in InHand(s.consumers[w])
    case Commit(w) =>
      w < |s.consumers| && Busy(s, s.consumers[w]) && s.handlers[s.consumers[w].hand.value].pc == Done
      && Committed !in s.consumers[w].ends && m in s.consumers[w].overdue + UpTo(s.consumers[w].batch, |s.consumers[w].ends|)
    case _ => false
  }

  /** A step drops a message if and only if it is one of these; nothing dropped comes off the record. */
  lemma DropsIff(s: System, step: Step, m: Message)
    ensures Apply(s, step).dropped[m] > s.dropped[m] <==> DropsOf(s, step, m)
    ensures Apply(s, step).dropped[m] >= s.dropped[m]
  {
    hide WorkerStep, BrokerStep, SubmitStep, PostStep, ScanStep, Unfinished, InHand, UpTo, Busy, Escapes;
    match PartyOf(step)
    case Worker => WorkerDropsNothing(s, step);
    case Broker => BrokerDropsIff(s, step, m);
    case Submission => SubmitFrame(s, step);
    case FeedbackPost => PostFrame(s, step);
    case Scanner => ScanFrame(s, step);
  }

  lemma WorkerDropsNothing(s: System, step: Step)
    ensures WorkerStep(s, step).dropped == s.dropped
  {
  }

  lemma BrokerDropsIff(s: System, step: Step, m: Message)
    requires PartyOf(step).Broker?
    ensures BrokerStep(s, step).dropped[m] > s.dropped[m] <==> DropsOf(s, step, m)
    ensures BrokerStep(s, step).dropped[m] >= s.dropped[m]
  {
    hide Unfinished, InHand, UpTo, Held, Waiting, IdOf, HandlerOf;
  }

  /** A message is on the record of dropped ones if and only if some step of the run dropped it. */
  lemma {:induction false} DroppedIff(steps: seq<Step>, n: nat, m: Message)
    requires n <= |steps|
    ensures m in StateAt(steps, n).dropped
       <==> exists k {:trigger StateAt(steps, k)} :: 0 <= k < n && DropsOf(StateAt(steps, k), steps[k], m)
  {
    hide Apply, DropsOf, After, StateAt;
    if n == 0 {
      StartsEmpty(steps);
    } else {
      DroppedIff(steps, n - 1, m);
      DropsIff(StateAt(steps, n - 1), steps[n - 1], m);
      AtNext(steps, n - 1);
    }
  }

  /** The step drops a request of this task. */
  ghost predicate DropsRequest(s: System, step: Step, id: Id) {
    exists retry: nat :: DropsOf(s, step, Request(id, retry))
  }

  /** A task of which no request is dropped is not lost, whatever becomes of other messages. */
  lemma {:induction false} NothingIsLostUnless(steps: seq<Step>, id: Id)
    requires forall k {:trigger StateAt(steps, k)} :: 0 <= k < |steps| ==> !DropsRequest(StateAt(steps, k), steps[k], id)
    requires id in StateAt(steps, |steps|).issued
    ensures Ended(StateAt(steps, |steps|), id) || InProgress(StateAt(steps, |steps|), id)
  {
    hide Apply, Ended, InProgress, DropsOf, After;
    assert steps[..|steps|] == steps;
    NothingIsLost(steps, id);
    if RequestDropped(StateAt(steps, |steps|), id) {
      var retry: nat :| Request(id, retry) in StateAt(steps, |steps|).dropped;
      DroppedIff(steps, |steps|, Request(id, retry));
    }
  }

  lemma StartsEmpty(steps: seq<Step>)
    ensures StateAt(steps, 0) == EMPTY
  {
  }

  lemma ReachableAt(steps: seq<Step>, n: nat)
    requires n <= |steps|
    ensures Inv(StateAt(steps, n))
  {
    hide Inv, After;
    Reachable(steps[..n]);
  }

  /** When a worker stops, an unfinished record of its batch is delivered again if and only if no earlier
      record of that batch has been committed. */
  lemma StopReturnsIff(s: System, w: nat, j: nat)
    requires Inv(s) && w < |s.consumers| && |s.consumers[w].ends| <= j < |s.consumers[w].batch|
    ensures var c := s.consumers[w];
      c.batch[j] in Apply(s, Stop(w)).topic - s.topic
      <==> forall k :: 0 <= k < |c.ends| ==> c.ends[k] != Committed
  {
    var c := s.consumers[w];
    StopIsStopped(s, w);
    hide Inv, Apply, Stopped, Held, InHand;
    UnfinishedIsHeld(c, j);
    StopTopic(s, w);
    if !Covered(c) {
      Regained(s.topic, Held(c), multiset(InHand(c)), c.batch[j]);
    }
  }

  lemma StopIsStopped(s: System, w: nat)
    requires w < |s.consumers|
    ensures Apply(s, Stop(w)) == Stopped(s, w)
  {
    hide Stopped;
  }

  lemma Regained(t: multiset<Message>, a: multiset<Message>, b: multiset<Message>, m: Message)
    requires m in a + b
    ensures m in t + a + b - t
  {
  }

  lemma UnfinishedIsHeld(c: Consumer, j: nat)
    requires |c.ends| <= j < |c.batch|
    ensures c.batch[j] in Held(c) + multiset(InHand(c))
  {
    if c.hand.Some? && j == |c.ends| {
      assert c.batch[j] in InHand(c);
    } else {
      assert Waiting(c)[j - |c.ends| - if c.hand.Some? then 1 else 0] == c.batch[j];
      assert c.batch[j] in multiset(Waiting(c));
    }
    hide Waiting, InHand, Overdue;
  }

  /** Once all messages are consumed, all workers idle with nothing to give back and all handlers are
      done, every task has ended, unless a request of it was dropped. */
  lemma {:induction false} QuietMeansEnded(steps: seq<Step>, id: Id)
    requires var s := After(EMPTY, steps);
      && id in s.issued && s.submitting == {} && s.topic == multiset{}
      && (forall w :: 0 <= w < |s.consumers| ==> Held(s.consumers[w]) == multiset{})
      && (forall i :: 0 <= i < |s.handlers| ==> s.handlers[i].pc == Done)
    ensures Ended(After(EMPTY, steps), id) || RequestDropped(After(EMPTY, steps), id)
  {
    NothingIsLost(steps, id);
    hide After, Ended, RequestDropped, Held;
  }

  /** A submission runs the pipeline at most four times and is dead-lettered at most once, plus as
      much again for every repeated delivery. */
  lemma {:induction false} AttemptsAreBounded(steps: seq<Step>, id: Id)
    ensures var s := After(EMPTY, steps);
      && s.started[id] <= (MAX_RETRIES + 1) * (1 + s.again[id])
      && s.dead[id] <= 1 + s.again[id]
  {
    Reachable(steps);
    assert Bounded(After(EMPTY, steps), id);
    hide After, Inv, Budget, Tokens;
  }

  /** A dead letter comes only from the fourth attempt, after all four requests were sent. */
  lemma {:induction false} DeadLetterIsLast(s: System, step: Step)
    requires Inv(s) && Apply(s, step).dead != s.dead
    ensures step.Handle? && step.i < |s.handlers| && Ended(s, s.handlers[step.i].id)
    ensures s.handlers[step.i].job == Attempt(MAX_RETRIES)
    ensures forall retry: nat :: retry <= MAX_RETRIES ==> Request(s.handlers[step.i].id, retry) in s.sent
  {
    OnlyHandlersBury(s, step);
    assert HandlerOk(s, s.handlers[step.i]);
    RetriesAreContiguous(s, s.handlers[step.i].id);
  }

  lemma RetriesAreContiguous(s: System, id: Id)
    requires MessagesOk(s) && Request(id, MAX_RETRIES) in s.sent
    ensures forall retry: nat :: retry <= MAX_RETRIES ==> Request(id, retry) in s.sent
  {
    assert MessageOk(s, Request(id, 3)) && MessageOk(s, Request(id, 2)) && MessageOk(s, Request(id, 1));
  }

  lemma OnlyHandlersBury(s: System, step: Step)
    requires Apply(s, step).dead != s.dead
    ensures step.Handle? && step.i < |s.handlers| && s.handlers[step.i].job.Attempt? && s.handlers[step.i].pc.DeadLetter?
  {
    match PartyOf(step)
    case Worker =>
    case Broker => BrokerFrame(s, step); assert false;
    case Submission => SubmitFrame(s, step); assert false;
    case FeedbackPost => PostFrame(s, step); assert false;
    case Scanner => ScanFrame(s, step); assert false;
  }

  /** Feedback turns are well numbered in every interleaving: stored turns are 1..k with k <= 10,
      and a message still to be handled asks for turn j + 1 and carries turns 1..j with j <= 9. */
  lemma {:induction false} FeedbackIsNumbered(steps: seq<Step>)
    ensures var s := After(EMPTY, steps);
      && (forall id :: id in s.tasks ==> Numbered(s.tasks[id].turns) && |s.tasks[id].turns| <= MAX_TURNS)
      && (forall m :: m in s.sent && m.Feedback? ==> m.turn == |m.turns| + 1 <= MAX_TURNS && Numbered(m.turns))
      && (forall m :: m in Undone(s) ==> m in s.sent)
  {
    hide After;
    Reachable(steps);
    var s := After(EMPTY, steps);
    forall m | m in s.sent && m.Feedback? ensures m.turn == |m.turns| + 1 <= MAX_TURNS && Numbered(m.turns) {
      assert MessageOk(s, m);
    }
    forall m | m in Undone(s) ensures m in s.sent {
      UndoneWasSent(s, m);
    }
  }

  lemma UndoneWasSent(s: System, m: Message)
    requires Inv(s) && m in Undone(s)
    ensures m in s.sent
  {
    if m !in s.topic {
      var w := HolderOf(s.consumers, m);
      assert ConsumerOk(s, s.consumers[w]);
      HeldIsSent(s, s.consumers[w]);
    }
  }

  // ---- status safety ----

  /** The allowed graph, as far as anybody uses it, and reopening by feedback. */
  predicate Edge(from: Status, to: Status) {
    from == to
    || (match from
        case Pending => to.Running? || to.Cancelled?
        case Running => Terminal(to)
        case Success => to.Running?
        case Failed => to.Running?
        case _ => false)
  }

  /** Every task moves along an edge, and only a fresh id gets a new state. */
  ghost predicate Obeys(s: System, s': System) {
    forall id :: id in s'.tasks ==>
      if id in s.tasks then Edge(s.tasks[id].status, s'.tasks[id].status)
      else id !in s.issued && (s'.tasks[id].status.Pending? || s'.tasks[id].status.Success?)
  }

  /** A gateway save whose task has meanwhile expired or moved on. */
  predicate StaleSave(s: System, step: Step) {
    match step
    case PostSave(p) =>
      p in s.posts && p.sent && (p.id !in s.tasks || s.tasks[p.id].status.Timeout? || s.tasks[p.id].status.Cancelled?)
    case ScanSave(c) =>
      c in s.scans && (c.id !in s.tasks || (!s.tasks[c.id].status.Running? && !s.tasks[c.id].status.Timeout?))
    case _ => false
  }

  lemma WorkerObeys(s: System, step: Step)
    requires HandlersOk(s) && MessagesOk(s)
    ensures Obeys(s, WorkerStep(s, step))
  {
    match step
    case Handle(i) =>
      if i < |s.handlers| {
        var h := s.handlers[i];
        MoveObeys(s, i, NextHandler(h, h.id in s.cancelled, IsRunning(s, h.id)));
      }
    case GiveUp(i) =>
    case Run(i, act) =>
      if i < |s.handlers| { MoveObeys(s, i, NextThread(s.handlers[i], s.handlers[i].id in s.cancelled, act)); }
    case _ =>
  }

  lemma MoveObeys(s: System, i: nat, next: (Handler, Op))
    requires HandlersOk(s) && MessagesOk(s) && i < |s.handlers| && Next(s, s.handlers[i], next)
    ensures Obeys(s, Move(s, i, next))
  {
    EmittedByNext(s, s.handlers[i], next);
    MoveIsPerform(s, i, next);
    PerformObeys(s, s.handlers[i], next.1);
  }

  lemma PerformObeys(s: System, h: Handler, op: Op)
    requires Emitted(s, h, op)
    ensures Obeys(s, Perform(s, h.id, op))
  {
  }

  lemma PostObeysIff(s: System, step: Step)
    requires GatewayOk(s)
    ensures Obeys(s, PostStep(s, step)) <==> !(PartyOf(step).FeedbackPost? && StaleSave(s, step))
  {
    if step.PostSave? && step.post in s.posts && step.post.sent {
      PostSaveObeysIff(s, step.post);
    } else {
      assert PostStep(s, step).tasks == s.tasks;
      hide PostStep, GatewayOk;
    }
  }

  lemma PostSaveObeysIff(s: System, p: Post)
    requires GatewayOk(s) && p in s.posts && p.sent
    ensures Obeys(s, PostStep(s, PostSave(p))) <==> !StaleSave(s, PostSave(p))
  {
    assert PostOk(s, p) && p.id in PostStep(s, PostSave(p)).tasks;
    hide Numbered;
  }

  lemma ScanSaveObeysIff(s: System, c: Scan)
    requires GatewayOk(s) && c in s.scans
    ensures Obeys(s, ScanStep(s, ScanSave(c))) <==> !StaleSave(s, ScanSave(c))
  {
    assert ScanOk(s, c) && c.id in ScanStep(s, ScanSave(c)).tasks;
  }

  lemma ScanObeysIff(s: System, step: Step)
    requires GatewayOk(s)
    ensures Obeys(s, ScanStep(s, step)) <==> !(PartyOf(step).Scanner? && StaleSave(s, step))
  {
    if step.ScanSave? && step.scan in s.scans {
      ScanSaveObeysIff(s, step.scan);
    }
  }

  lemma SubmitObeys(s: System, step: Step)
    requires TasksOk(s)
    ensures Obeys(s, SubmitStep(s, step))
  {
    SubmitFrame(s, step);
    match step
    case Create(id) =>
    case CreateFromCache(id, _) =>
    case Expire(id) =>
    case _ => assert SubmitStep(s, step).tasks == s.tasks;
  }

  lemma {:induction false} ApplyObeysIff(s: System, step: Step)
    requires Inv(s)
    ensures Obeys(s, Apply(s, step)) <==> !StaleSave(s, step)
  {
    match PartyOf(step)
    case Worker => WorkerObeys(s, step);
    case Broker => BrokerFrame(s, step);
    case Submission => SubmitObeys(s, step);
    case FeedbackPost => PostObeysIff(s, step);
    case Scanner => ScanObeysIff(s, step);
  }

  function StateAt(steps: seq<Step>, k: nat): System
    requires k <= |steps|
  {
    After(EMPTY, steps[..k])
  }

  /** Each step of each run keeps to the status graph if and only if it is no stale gateway save. */
  lemma StatusGraph(steps: seq<Step>, k: nat)
    requires k < |steps|
    ensures Obeys(StateAt(steps, k), StateAt(steps, k + 1)) <==> !StaleSave(StateAt(steps, k), steps[k])
  {
    Reachable(steps[..k]);
    AtNext(steps, k);
    ApplyObeysIff(StateAt(steps, k), steps[k]);
  }

  /** The status of a task, if it exists. */
  function StatusOf(s: System, id: Id): Option<Status> {
    if id in s.tasks then Some(s.tasks[id].status) else None
  }

  /** Cancelled, timed out or expired. */
  predicate Final(s: System, id: Id) {
    id in s.issued && match StatusOf(s, id) case None => true case Some(status) => status.Timeout? || status.Cancelled?
  }

  /** A stale save of this very task. */
  predicate StaleSaveOf(s: System, step: Step, id: Id) {
    match step
    case PostSave(p) => p.id == id && StaleSave(s, step)
    case ScanSave(c) => c.id == id && StaleSave(s, step)
    case _ => false
  }

  /** A step moves a final task if and only if it is a stale save of that task or its expiry. */
  lemma FinalMovesIff(s: System, step: Step, id: Id)
    requires Inv(s) && Final(s, id)
    ensures StatusOf(Apply(s, step), id) != StatusOf(s, id)
       <==> StaleSaveOf(s, step, id) || (step == Expire(id) && id in s.tasks)
  {
    hide WorkerStep, BrokerStep, SubmitStep, PostStep, ScanStep, Inv, Final, StaleSave, StatusOf;
    match PartyOf(step)
    case Worker => WorkerMovesFinal(s, step, id);
    case Broker => BrokerMovesNothing(s, step, id);
    case Submission => SubmitMovesFinal(s, step, id);
    case FeedbackPost => PostMovesFinal(s, step, id);
    case Scanner => ScanMovesFinal(s, step, id);
  }

  lemma BrokerMovesNothing(s: System, step: Step, id: Id)
    ensures StatusOf(BrokerStep(s, step), id) == StatusOf(s, id)
  {
    BrokerFrame(s, step);
    hide BrokerStep, Grows, Ended;
  }

  lemma WorkerMovesFinal(s: System, step: Step, id: Id)
    requires Inv(s) && Final(s, id)
    ensures StatusOf(WorkerStep(s, step), id) == StatusOf(s, id)
  {
    WorkerObeys(s, step);
    WorkerKeepsTasks(s, step);
    hide WorkerStep, Inv;
  }

  lemma WorkerKeepsTasks(s: System, step: Step)
    ensures WorkerStep(s, step).tasks.Keys == s.tasks.Keys
  {
    hide NextHandler, NextThread, NextGiveUp;
  }

  lemma SubmitMovesFinal(s: System, step: Step, id: Id)
    requires Final(s, id)
    ensures StatusOf(SubmitStep(s, step), id) != StatusOf(s, id) <==> step == Expire(id) && id in s.tasks
  {
  }

  lemma PostMovesFinal(s: System, step: Step, id: Id)
    requires Final(s, id) && PartyOf(step).FeedbackPost?
    ensures StatusOf(PostStep(s, step), id) != StatusOf(s, id) <==> StaleSaveOf(s, step, id)
  {
  }

  lemma ScanMovesFinal(s: System, step: Step, id: Id)
    requires Final(s, id) && PartyOf(step).Scanner?
    ensures StatusOf(ScanStep(s, step), id) != StatusOf(s, id) <==> StaleSaveOf(s, step, id)
  {
  }

  /** While no stale save of it lands, a cancelled or timed-out task keeps its status until it expires, and
      an expired task never comes back; what happens to other tasks, or at other times, plays no part. */
  lemma {:induction false} CancelledAndTimeoutAreFinal(steps: seq<Step>, k: nat, n: nat, id: Id)
    requires k <= n <= |steps| && Final(StateAt(steps, k), id)
    requires forall j {:trigger StateAt(steps, j)} :: k <= j < n ==> !StaleSaveOf(StateAt(steps, j), steps[j], id)
    ensures Final(StateAt(steps, n), id)
    ensures StatusOf(StateAt(steps, n), id) == if Expire(id) in steps[k..n] then None else StatusOf(StateAt(steps, k), id)
    decreases n
  {
    hide Apply, After, StateAt, StaleSaveOf;
    if k < n {
      CancelledAndTimeoutAreFinal(steps, k, n - 1, id);
      FinalGoesOn(steps, n - 1, id);
      assert steps[k..n] == steps[k..n - 1] + [steps[n - 1]];
    }
  }

  lemma FinalGoesOn(steps: seq<Step>, n: nat, id: Id)
    requires n < |steps| && Final(StateAt(steps, n), id) && !StaleSaveOf(StateAt(steps, n), steps[n], id)
    ensures Final(StateAt(steps, n + 1), id)
    ensures StatusOf(StateAt(steps, n + 1), id) == if steps[n] == Expire(id) then None else StatusOf(StateAt(steps, n), id)
  {
    ReachableAt(steps, n);
    FinalMovesIff(StateAt(steps, n), steps[n], id);
    AtNext(steps, n);
    IssuedLasts(steps, n);
    if steps[n] == Expire(id) {
      ExpiryRemoves(StateAt(steps, n), id);
    }
    hide Apply, StateAt, Inv, StaleSaveOf;
  }

  lemma ExpiryRemoves(s: System, id: Id)
    ensures StatusOf(Apply(s, Expire(id)), id) == None
  {
  }

  lemma IssuedLasts(steps: seq<Step>, k: nat)
    requires k < |steps|
    ensures StateAt(steps, k).issued <= StateAt(steps, k + 1).issued
  {
    AtNext(steps, k);
    ApplyKeepsIssued(StateAt(steps, k), steps[k]);
  }

  lemma AtNext(steps: seq<Step>, k: nat)
    requires k < |steps|
    ensures StateAt(steps, k + 1) == Apply(StateAt(steps, k), steps[k])
  {
    assert steps[..k + 1][..k] == steps[..k];
  }

  lemma ApplyKeepsIssued(s: System, step: Step)
    ensures s.issued <= Apply(s, step).issued
  {
    match PartyOf(step)
    case Worker => WorkerKeepsIssued(s, step);
    case Broker => BrokerFrame(s, step);
    case Submission => SubmitKeepsIssued(s, step);
    case FeedbackPost => PostFrame(s, step);
    case Scanner => ScanFrame(s, step);
  }

  lemma WorkerKeepsIssued(s: System, step: Step)
    ensures WorkerStep(s, step).issued == s.issued
  {
  }

  lemma SubmitKeepsIssued(s: System, step: Step)
    ensures s.issued <= SubmitStep(s, step).issued
  {
  }
}

/** What the gateway's calls act on: over runs in which every party interleaves, each feedback message and
    each save goes back to a state of the task that the call read. */
module GatewayReads {
  import opened Basics
  import opened TaskStatus
  import opened TaskStore
  import opened TaskProtocol
  import opened ProtocolInvariant
  import opened ProtocolSafety

  /** Step k read this state of the task. */
  predicate ReadAt(steps: seq<Step>, k: nat, step: Step, id: Id, snap: Task) {
    k < |steps| && steps[k] == step && id in StateAt(steps, k).tasks && StateAt(steps, k).tasks[id] == snap
  }

  /** A call comes from reading the task, or from the same call before it published. */
  lemma PostsCome(s: System, step: Step, p: Post)
    requires p in Apply(s, step).posts && p !in s.posts
    ensures (step == PostRead(p.id) && p.id in s.tasks && p.snap == s.tasks[p.id] && !p.sent)
         || (step.PostPublish? && step.post in s.posts && p == step.post.(sent := true))
  {
    match PartyOf(step)
    case Worker => WorkerKeepsPosts(s, step);
    case Broker => BrokerFrame(s, step);
    case Submission => SubmitFrame(s, step);
    case FeedbackPost =>
    case Scanner => ScanFrame(s, step);
  }

  lemma WorkerKeepsPosts(s: System, step: Step)
    ensures WorkerStep(s, step).posts == s.posts && WorkerStep(s, step).scans == s.scans
    ensures forall m :: m in WorkerStep(s, step).sent && m.Feedback? ==> m in s.sent
  {
    hide NextHandler, NextThread, NextGiveUp, TasksAfter;
  }

  /** A feedback message comes from a call about to publish, and carries what that call read. */
  lemma FeedbackComes(s: System, step: Step, m: Message)
    requires m in Apply(s, step).sent && m !in s.sent && m.Feedback?
    ensures step.PostPublish? && step.post in s.posts
    ensures m == Feedback(step.post.id, |step.post.snap.turns| + 1, step.post.snap.turns)
  {
    match PartyOf(step)
    case Worker => WorkerKeepsPosts(s, step);
    case Broker => BrokerFrame(s, step);
    case Submission =>
    case FeedbackPost =>
    case Scanner => ScanFrame(s, step);
  }

  lemma ScansCome(s: System, step: Step, c: Scan)
    requires c in Apply(s, step).scans && c !in s.scans
    ensures step == ScanRead(c.id) && c.id in s.tasks && c.snap == s.tasks[c.id]
  {
    match PartyOf(step)
    case Worker => WorkerKeepsPosts(s, step);
    case Broker => BrokerFrame(s, step);
    case Submission => SubmitFrame(s, step);
    case FeedbackPost => PostFrame(s, step);
    case Scanner =>
  }

  lemma StartsWithout(steps: seq<Step>)
    ensures StateAt(steps, 0).posts == multiset{} && StateAt(steps, 0).sent == {} && StateAt(steps, 0).scans == multiset{}
  {
  }

  lemma {:induction false} PostWasReadAt(steps: seq<Step>, n: nat, p: Post) returns (k: nat)
    requires n <= |steps| && p in StateAt(steps, n).posts
    ensures k < n && ReadAt(steps, k, PostRead(p.id), p.id, p.snap)
  {
    hide Apply, StateAt;
    StartsWithout(steps);
    if p in StateAt(steps, n - 1).posts {
      k := PostWasReadAt(steps, n - 1, p);
    } else {
      AtNext(steps, n - 1);
      PostsCome(StateAt(steps, n - 1), steps[n - 1], p);
      if steps[n - 1].PostPublish? {
        k := PostWasReadAt(steps, n - 1, steps[n - 1].post);
      } else {
        k := n - 1;
      }
    }
  }

  /** In every run a feedback message carries the turns its task had when the call read it, asks for the next
      one, and the task had then succeeded or failed. */
  lemma {:induction false} FeedbackCarriesHistory(steps: seq<Step>, n: nat, m: Message) returns (k: nat)
    requires n <= |steps| && m in StateAt(steps, n).sent && m.Feedback?
    ensures k < n && steps[k] == PostRead(m.id) && m.id in StateAt(steps, k).tasks
    ensures var t := StateAt(steps, k).tasks[m.id];
      (t.status.Success? || t.status.Failed?) && m.turns == t.turns && m.turn == |t.turns| + 1 <= MAX_TURNS
  {
    hide Apply, StateAt;
    StartsWithout(steps);
    if m in StateAt(steps, n - 1).sent {
      k := FeedbackCarriesHistory(steps, n - 1, m);
    } else {
      AtNext(steps, n - 1);
      var s := StateAt(steps, n - 1);
      FeedbackComes(s, steps[n - 1], m);
      k := PostWasReadAt(steps, n - 1, steps[n - 1].post);
      ReachableAt(steps, n - 1);
      assert PostOk(s, steps[n - 1].post);
    }
  }

  /** In every run a scan's save times out a task that was RUNNING when the scan read it, and a call that has
      published has its message sent. */
  lemma {:induction false} ScanWasReadAt(steps: seq<Step>, n: nat, c: Scan) returns (k: nat)
    requires n <= |steps| && c in StateAt(steps, n).scans
    ensures k < n && ReadAt(steps, k, ScanRead(c.id), c.id, c.snap) && c.snap.status.Running?
  {
    ReachableAt(steps, n);
    assert ScanOk(StateAt(steps, n), c);
    hide Apply, StateAt, Inv;
    StartsWithout(steps);
    if c in StateAt(steps, n - 1).scans {
      k := ScanWasReadAt(steps, n - 1, c);
    } else {
      AtNext(steps, n - 1);
      ScansCome(StateAt(steps, n - 1), steps[n - 1], c);
      k := n - 1;
    }
  }

  /** What the gateway's saves write: the state read, reopened or timed out. */
  lemma SavesWriteBack(s: System, step: Step)
    ensures step.PostSave? && step.post in s.posts && step.post.sent ==>
      Apply(s, step).tasks == s.tasks[step.post.id := step.post.snap.(status := Running)]
    ensures step.ScanSave? && step.scan in s.scans ==>
      Apply(s, step).tasks == s.tasks[step.scan.id := step.scan.snap.(status := Timeout)]
  {
  }

  // ---- where a task's SQL comes from ----

  /** A step that brings SQL for this task: a cache answer, or a pipeline of this task that finishes a node or
      returns. */
  predicate Brings(s: System, step: Step, id: Id, sql: string) {
    match step
    case CreateFromCache(other, text) => other == id && text == sql
    case Run(i, act) =>
      && i < |s.handlers| && s.handlers[i].id == id && s.handlers[i].thread.Working?
      && (act == FinishNode(sql) || act == Return(sql))
    case _ => false
  }

  /** Whatever brings SQL for a task that exists, or that it creates, stores it. */
  lemma BroughtIsStored(s: System, step: Step, id: Id, sql: string)
    requires Brings(s, step, id, sql) && (if step.Run? then id in s.tasks else id !in s.issued)
    ensures id in Apply(s, step).tasks && Apply(s, step).tasks[id].sql == sql
  {
  }

  /** A task's SQL is changed by nothing else but a gateway save, which puts back what the call had read. */
  lemma SqlChangesOnlyBy(s: System, step: Step, id: Id)
    requires id in s.tasks && id in s.issued && id in Apply(s, step).tasks && Apply(s, step).tasks[id].sql != s.tasks[id].sql
    ensures || Brings(s, step, id, Apply(s, step).tasks[id].sql)
            || (step.PostSave? && step.post.id == id && Apply(s, step).tasks[id].sql == step.post.snap.sql)
            || (step.ScanSave? && step.scan.id == id && Apply(s, step).tasks[id].sql == step.scan.snap.sql)
  {
    hide WorkerStep, BrokerStep, SubmitStep, PostStep, ScanStep, Brings;
    match PartyOf(step)
    case Worker => WorkerSql(s, step, id);
    case Broker => BrokerKeepsTasks(s, step);
    case Submission => SubmitSql(s, step, id);
    case FeedbackPost => PostSql(s, step, id);
    case Scanner => ScanSql(s, step, id);
  }

  lemma BrokerKeepsTasks(s: System, step: Step)
    ensures BrokerStep(s, step).tasks == s.tasks
  {
    BrokerFrame(s, step);
    hide BrokerStep, Grows, Ended;
  }

  lemma SubmitSql(s: System, step: Step, id: Id)
    requires id in s.tasks && id in s.issued && id in SubmitStep(s, step).tasks
    ensures SubmitStep(s, step).tasks[id] == s.tasks[id]
  {
  }

  lemma PostSql(s: System, step: Step, id: Id)
    requires id in s.tasks && id in PostStep(s, step).tasks && PostStep(s, step).tasks[id].sql != s.tasks[id].sql
    ensures step.PostSave? && step.post.id == id && PostStep(s, step).tasks[id].sql == step.post.snap.sql
  {
  }

  lemma ScanSql(s: System, step: Step, id: Id)
    requires id in s.tasks && id in ScanStep(s, step).tasks && ScanStep(s, step).tasks[id].sql != s.tasks[id].sql
    ensures step.ScanSave? && step.scan.id == id && ScanStep(s, step).tasks[id].sql == step.scan.snap.sql
  {
  }

  lemma WorkerSql(s: System, step: Step, id: Id)
    requires id in s.tasks && id in WorkerStep(s, step).tasks && WorkerStep(s, step).tasks[id].sql != s.tasks[id].sql
    ensures Brings(s, step, id, WorkerStep(s, step).tasks[id].sql)
  {
    match step
    case Handle(i) =>
      var h := s.handlers[i];
      HandlersBringNone(h, h.id in s.cancelled, IsRunning(s, h.id));
      hide NextHandler;
    case GiveUp(i) =>
    case Run(i, act) =>
    case _ =>
  }

  lemma HandlersBringNone(h: Handler, flag: bool, running: bool)
    ensures !NextHandler(h, flag, running).1.SetSql? && !NextHandler(h, flag, running).1.StoreRound?
  {
  }
}

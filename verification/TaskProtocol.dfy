/** The task protocol: gateway, workers, stale scanners and orphaned pipeline threads over the
    shared store and the request and feedback topics.  Every call on the store, every publish and
    every branch of a handler is one atomic step, and steps of all parties interleave freely.
    Messages may be delivered again, workers may be stopped anywhere, and keys may expire. */
module TaskProtocol {
  import opened Basics
  import opened TaskStatus
  import opened TaskStore

  const MAX_RETRIES: nat := 3
  const MAX_TURNS: nat := 10
  const MAX_POLL: nat := 10

  datatype Message =
    | Request(id: Id, retry: nat)
    | Feedback(id: Id, turn: nat, turns: seq<nat>)

  /** What a handler works on: an attempt at the task, or a feedback round. */
  datatype Job = Attempt(retry: nat) | Round(turns: seq<nat>)

  datatype Pc =
    | Begin | EarlyCancel | Start | Launch | Await | Succeed
    | TimeoutCheck | CancelMark | TimeoutMark | ErrorCheck | ClearFlag
    | Republish | NoteRetry | Exhaust | DeadLetter | Done

  /** The pipeline thread of a handler; it may outlive the handler.  Since Python 3.11 a pipeline's own
      TimeoutError is indistinguishable from running over time. */
  datatype Thread = Idle | Working | Cancelling | Clearing | Returned | ReturnedCancelled | Raised(timeout: bool)

  /** What a feedback handler's check for a running task has seen. */
  datatype Check = Unread | SawRunning | SawOther

  /** `check`, `launched` and `cut` are history: that check, whether the pipeline was started, and
      whether the handler was ended from outside, by a stop or by an error escaping from it. */
  datatype Handler = Handler(id: Id, job: Job, pc: Pc, thread: Thread, check: Check, launched: bool, cut: bool)

  function Fresh(id: Id, job: Job): Handler { Handler(id, job, Begin, Idle, Unread, false, false) }

  /** How a worker was through with one record of its batch. */
  datatype End = Committed | Escaped

  /** The consumer of one worker: the batch of its last poll, how it was through with the first of
      the records, the handler of the record in hand, and the records of earlier batches that no
      commit has covered. */
  datatype Consumer = Consumer(batch: seq<Message>, ends: seq<End>, hand: Option<nat>, overdue: seq<Message>)

  const NEW_CONSUMER: Consumer := Consumer([], [], None, [])

  /** The effect of one handler or thread step outside the handler. */
  datatype Op =
    | Skip | Transit(next: Status) | StartAttempt(retry: nat) | StartRound
    | SetRetry(retry: nat) | SetSql(sql: string) | StoreRound(sql: string, turns: seq<nat>)
    | ClearCancel | Launched | Resend(retry: nat) | Bury

  datatype Act = CheckFlag | FinishNode(sql: string) | Return(sql: string) | Raise(timeout: bool)

  /** A gateway call between its read and its write: `snap` is what it read. */
  datatype Post = Post(id: Id, snap: Task, sent: bool)
  datatype Scan = Scan(id: Id, snap: Task)

  /** The last seven fields are history: ids ever issued, messages ever sent, feedback ever accepted,
      pipeline runs, dead letters and repeated deliveries per task, and messages that no worker
      will handle any more although no handler has gone through with them. */
  datatype System = System(
    tasks: map<Id, Task>, cancelled: set<Id>, submitting: set<Id>, cancelling: set<Id>,
    posts: multiset<Post>, scans: multiset<Scan>,
    topic: multiset<Message>, consumers: seq<Consumer>, handlers: seq<Handler>,
    issued: set<Id>, sent: set<Message>, reopened: set<Id>,
    started: multiset<Id>, dead: multiset<Id>, again: multiset<Id>, dropped: multiset<Message>)

  const EMPTY: System := System(
    map[], {}, {}, {}, multiset{}, multiset{}, multiset{}, [], [], {}, {}, {}, multiset{}, multiset{}, multiset{}, multiset{})

  datatype Step =
    | Create(id: Id) | CreateFromCache(id: Id, sql: string) | Publish(id: Id)
    | CancelRead(id: Id) | CancelWrite(id: Id)
    | PostRead(id: Id) | PostPublish(post: Post) | PostSave(post: Post)
    | ScanRead(id: Id) | ScanSave(scan: Scan) | WorkerScan(id: Id)
    | Handle(i: nat) | GiveUp(i: nat) | Run(i: nat, act: Act)
    | Join | Poll(w: nat, batch: seq<Message>) | Take(w: nat) | Commit(w: nat) | Escape(w: nat) | Stop(w: nat)
    | Again(message: Message)
    | Expire(id: Id) | ExpireFlag(id: Id)

  // ---- the worker's code ----

  /** One step of `handle_task`. */
  function NextAttempt(h: Handler, flag: bool): (Handler, Op)
    requires h.job.Attempt?
  {
    var retry := h.job.retry;
    match h.pc
    case Begin => (h.(pc := if flag then EarlyCancel else Start), Skip)
    case EarlyCancel => (h.(pc := Done), Transit(Cancelled))
    case Start => (h.(pc := Launch), StartAttempt(retry))
    case Launch => (h.(pc := Await, thread := Working, launched := true), Launched)
    case Await =>
      if h.thread.Returned? then (h.(pc := Succeed), Skip)
      else if h.thread.ReturnedCancelled? then (h.(pc := Done), Skip)
      else if h.thread.Raised? then (h.(pc := if h.thread.timeout then TimeoutCheck else ErrorCheck), Skip)
      else (h, Skip)
    case Succeed => (h.(pc := Done), Transit(Success))
    case TimeoutCheck => (h.(pc := if flag then CancelMark else TimeoutMark), Skip)
    case CancelMark => (h.(pc := ClearFlag), Transit(Cancelled))
    case TimeoutMark => (h.(pc := Done), Transit(Timeout))
    case ErrorCheck =>
      (h.(pc := if flag then CancelMark else if retry < MAX_RETRIES then Republish else Exhaust), Skip)
    case ClearFlag => (h.(pc := Done), ClearCancel)
    case Republish => (h.(pc := NoteRetry), Resend(retry + 1))
    case NoteRetry => (h.(pc := Done), SetRetry(retry + 1))
    case Exhaust => (h.(pc := DeadLetter), Transit(Failed))
    case DeadLetter => (h.(pc := Done), Bury)
    case Done => (h, Skip)
  }

  /** One step of `handle_feedback`. */
  function NextRound(h: Handler, running: bool): (Handler, Op)
    requires h.job.Round?
  {
    match h.pc
    case Begin => (h.(pc := if running then Done else Start, check := if running then SawRunning else SawOther), Skip)
    case Start => (h.(pc := Launch), StartRound)
    case Launch => (h.(pc := Await, thread := Working, launched := true), Skip)
    case Await =>
      if h.thread.Returned? then (h.(pc := Succeed), Skip)
      else if h.thread.ReturnedCancelled? then (h.(pc := Done), Skip)
      else if h.thread.Raised? then (h.(pc := if h.thread.timeout then TimeoutMark else Exhaust), Skip)
      else (h, Skip)
    case Succeed => (h.(pc := Done), Transit(Success))
    case TimeoutMark => (h.(pc := Done), Transit(Timeout))
    case Exhaust => (h.(pc := Done), Transit(Failed))
    case _ => (h, Skip)
  }

  function NextHandler(h: Handler, flag: bool, running: bool): (Handler, Op) {
    if h.job.Attempt? then NextAttempt(h, flag) else NextRound(h, running)
  }

  /** One step of `run_graph` or `run_feedback_graph` on its own thread. */
  function NextThread(h: Handler, flag: bool, act: Act): (Handler, Op) {
    match h.thread
    case Working =>
      (match act
       case CheckFlag => (h.(thread := if flag then Cancelling else Working), Skip)
       case FinishNode(sql) => (h, SetSql(sql))
       case Return(sql) =>
         (h.(thread := Returned),
          if h.job.Attempt? then SetSql(sql) else StoreRound(sql, h.job.turns + [|h.job.turns| + 1]))
       case Raise(timeout) => (h.(thread := Raised(timeout)), Skip))
    case Cancelling => (h.(thread := Clearing), Transit(Cancelled))
    case Clearing => (h.(thread := ReturnedCancelled), ClearCancel)
    case _ => (h, Skip)
  }

  /** `fut.result` runs over time while the thread is still at work; the thread goes on. */
  function NextGiveUp(h: Handler): Handler {
    if h.pc == Await && (h.thread.Working? || h.thread.Cancelling? || h.thread.Clearing?)
    then h.(pc := if h.job.Attempt? then TimeoutCheck else TimeoutMark)
    else h
  }

  function TasksAfter(tasks: map<Id, Task>, id: Id, op: Op): map<Id, Task> {
    match op
    case Transit(next) => Transitioned(tasks, id, next, None)
    case StartAttempt(retry) => Transitioned(tasks, id, Running, Some(retry))
    case StartRound => Reopened(tasks, id)
    case SetRetry(retry) => if id in tasks then tasks[id := tasks[id].(retryCount := retry)] else tasks
    case SetSql(sql) => if id in tasks then tasks[id := tasks[id].(sql := sql)] else tasks
    case StoreRound(sql, turns) => if id in tasks then tasks[id := tasks[id].(sql := sql, turns := turns)] else tasks
    case _ => tasks
  }

  function Perform(s: System, id: Id, op: Op): System {
    match op
    case Skip => s
    case ClearCancel => s.(cancelled := s.cancelled - {id})
    case Launched => s.(started := s.started + multiset{id})
    case Resend(retry) =>
      s.(topic := s.topic + multiset{Request(id, retry)}, sent := s.sent + {Request(id, retry)})
    case Bury => s.(dead := s.dead + multiset{id})
    case _ => s.(tasks := TasksAfter(s.tasks, id, op))
  }

  predicate IsRunning(s: System, id: Id) { id in s.tasks && s.tasks[id].status.Running? }

  function Move(s: System, i: nat, next: (Handler, Op)): System
    requires i < |s.handlers|
  {
    Perform(s.(handlers := s.handlers[i := next.0]), s.handlers[i].id, next.1)
  }

  // ---- all parties ----

  /** A handler, or its thread, takes a step. */
  function WorkerStep(s: System, step: Step): System {
    match step
    case Handle(i) =>
      if i >= |s.handlers| then s
      else var h := s.handlers[i]; Move(s, i, NextHandler(h, h.id in s.cancelled, IsRunning(s, h.id)))
    case GiveUp(i) =>
      if i >= |s.handlers| then s else Move(s, i, (NextGiveUp(s.handlers[i]), Skip))
    case Run(i, act) =>
      if i >= |s.handlers| then s
      else var h := s.handlers[i]; Move(s, i, NextThread(h, h.id in s.cancelled, act))
    case _ => s
  }

  // ---- the consumer loop ----

  function MessageOf(h: Handler): Message {
    match h.job
    case Attempt(retry) => Request(h.id, retry)
    case Round(turns) => Feedback(h.id, |turns| + 1, turns)
  }

  function HandlerOf(m: Message): Handler {
    match m
    case Request(id, retry) => Fresh(id, Attempt(retry))
    case Feedback(id, _, turns) => Fresh(id, Round(turns))
  }

  function From(batch: seq<Message>, n: nat): seq<Message> { if n <= |batch| then batch[n..] else [] }

  function UpTo(batch: seq<Message>, n: nat): seq<Message> { if n <= |batch| then batch[..n] else batch }

  /** A commit has covered this batch, all of it: it carries the position after the poll. */
  predicate Covered(c: Consumer) { Committed in c.ends }

  /** The records of the batch not yet in a handler's hand. */
  function Waiting(c: Consumer): seq<Message> {
    From(c.batch, |c.ends| + if c.hand.Some? then 1 else 0)
  }

  /** Records that were given up but would still be delivered again if the worker stopped. */
  function Overdue(c: Consumer): seq<Message> {
    if Covered(c) then [] else c.overdue + UpTo(c.batch, |c.ends|)
  }

  /** What this worker keeps from being lost without having it in hand. */
  function Held(c: Consumer): multiset<Message> { multiset(Waiting(c)) + multiset(Overdue(c)) }

  function HeldBy(cs: seq<Consumer>): multiset<Message> {
    if cs == [] then multiset{} else HeldBy(cs[..|cs| - 1]) + Held(cs[|cs| - 1])
  }

  /** Every message still to be handled: on the topic or held by a worker. */
  function Undone(s: System): multiset<Message> { s.topic + HeldBy(s.consumers) }

  predicate Idling(c: Consumer) { c.hand.None? && |c.ends| >= |c.batch| }

  /** The record in hand. */
  function InHand(c: Consumer): seq<Message> {
    if c.hand.Some? && |c.ends| < |c.batch| then [c.batch[|c.ends|]] else []
  }

  predicate Busy(s: System, c: Consumer) { c.hand.Some? && c.hand.value < |s.handlers| && |c.ends| < |c.batch| }

  /** May an error leave this handler?  Within its inner try it is caught. */
  predicate Escapes(h: Handler) {
    match h.pc
    case Begin => true
    case Start => true
    case Exhaust => true
    case EarlyCancel => h.job.Attempt?
    case ErrorCheck => h.job.Attempt?
    case CancelMark => h.job.Attempt?
    case ClearFlag => h.job.Attempt?
    case Republish => h.job.Attempt?
    case NoteRetry => h.job.Attempt?
    case DeadLetter => h.job.Attempt?
    case _ => false
  }

  function IdOf(ms: seq<Message>): multiset<Id> {
    if |ms| == 1 && ms[0].Request? then multiset{ms[0].id} else multiset{}
  }

  function Cut(h: Handler): Handler { h.(pc := Done, cut := h.cut || h.pc != Done) }

  /** The consumer loop of the workers.  A commit carries the position after the whole polled batch, so
      it covers every record of the batch, handled or not, and all batches before. */
  function BrokerStep(s: System, step: Step): System {
    match step
    case Join => s.(consumers := s.consumers + [NEW_CONSUMER])
    case Poll(w, batch) =>
      if w >= |s.consumers| || !Idling(s.consumers[w]) || |batch| > MAX_POLL || !(multiset(batch) <= s.topic) then s
      else s.(topic := s.topic - multiset(batch),
              consumers := s.consumers[w := Consumer(batch, [], None, Overdue(s.consumers[w]))])
    case Take(w) =>
      if w >= |s.consumers| || s.consumers[w].hand.Some? || |s.consumers[w].ends| >= |s.consumers[w].batch| then s
      else
        var c := s.consumers[w];
        s.(consumers := s.consumers[w := c.(hand := Some(|s.handlers|))], handlers := s.handlers + [HandlerOf(c.batch[|c.ends|])])
    case Commit(w) =>
      if w >= |s.consumers| || !Busy(s, s.consumers[w]) || s.handlers[s.consumers[w].hand.value].pc != Done then s
      else
        var c := s.consumers[w];
        s.(consumers := s.consumers[w := c.(ends := c.ends + [Committed], hand := None)],
           dropped := s.dropped + multiset(Overdue(c)))
    case Escape(w) =>
      if w >= |s.consumers| || !Busy(s, s.consumers[w]) || !Escapes(s.handlers[s.consumers[w].hand.value]) then s
      else EscapedFrom(s, w)
    case Stop(w) =>
      if w >= |s.consumers| then s else Stopped(s, w)
    case Again(m) =>
      if m !in s.sent then s
      else s.(topic := s.topic + multiset{m}, again := s.again + IdOf([m]))
    case _ => s
  }

  /** The handler in hand ends with an error: the record is not committed, and the loop goes on. */
  function EscapedFrom(s: System, w: nat): System
    requires w < |s.consumers| && Busy(s, s.consumers[w])
  {
    var c := s.consumers[w];
    var i := c.hand.value;
    var s' := s.(consumers := s.consumers[w := c.(ends := c.ends + [Escaped], hand := None)],
                 handlers := s.handlers[i := Cut(s.handlers[i])]);
    if Covered(c) then s'.(dropped := s.dropped + multiset(InHand(c))) else s'.(again := s.again + IdOf(InHand(c)))
  }

  /** What a stopping worker has not gone through with. */
  function Unfinished(s: System, c: Consumer): seq<Message> {
    (if Busy(s, c) && s.handlers[c.hand.value].pc != Done then InHand(c) else []) + Waiting(c)
  }

  /** The worker crashes or shuts down: what no commit has covered will be delivered again, what one has
      covered is gone.  A shutdown lets the record in hand finish first. */
  function Stopped(s: System, w: nat): System
    requires w < |s.consumers|
  {
    var c := s.consumers[w];
    var s' := s.(consumers := s.consumers[w := NEW_CONSUMER],
                 handlers := if Busy(s, c) then s.handlers[c.hand.value := Cut(s.handlers[c.hand.value]).(thread := Idle)] else s.handlers);
    if Covered(c) then s'.(dropped := s.dropped + multiset(Unfinished(s, c)))
    else s'.(topic := s.topic + Held(c) + multiset(InHand(c)), again := s.again + IdOf(InHand(c)))
  }

  /** `submit` and `cancel` of the gateway; keys expire. */
  function SubmitStep(s: System, step: Step): System {
    match step
    case Create(id) =>
      if id in s.issued then s
      else s.(tasks := s.tasks[id := Task(Pending, "", 0, [])], issued := s.issued + {id}, submitting := s.submitting + {id})
    case CreateFromCache(id, sql) =>
      if id in s.issued then s
      else s.(tasks := s.tasks[id := Task(Success, sql, 0, [])], issued := s.issued + {id})
    case Publish(id) =>
      if id !in s.submitting then s
      else s.(submitting := s.submitting - {id}, topic := s.topic + multiset{Request(id, 0)}, sent := s.sent + {Request(id, 0)})
    case CancelRead(id) =>
      if id in s.tasks && !Terminal(s.tasks[id].status) then s.(cancelling := s.cancelling + {id}) else s
    case CancelWrite(id) =>
      if id !in s.cancelling then s
      else s.(cancelling := s.cancelling - {id}, cancelled := s.cancelled + {id})
    case Expire(id) => s.(tasks := s.tasks - {id})
    case ExpireFlag(id) => s.(cancelled := s.cancelled - {id})
    case _ => s
  }

  /** `feedback` of the gateway. */
  function PostStep(s: System, step: Step): System {
    match step
    case PostRead(id) =>
      if id in s.tasks && (s.tasks[id].status.Success? || s.tasks[id].status.Failed?) && |s.tasks[id].turns| + 1 <= MAX_TURNS
      then s.(posts := s.posts + multiset{Post(id, s.tasks[id], false)})
      else s
    case PostPublish(p) =>
      if p !in s.posts || p.sent then s
      else
        var f := Feedback(p.id, |p.snap.turns| + 1, p.snap.turns);
        s.(posts := s.posts - multiset{p} + multiset{p.(sent := true)}, topic := s.topic + multiset{f},
           sent := s.sent + {f}, reopened := s.reopened + {p.id})
    case PostSave(p) =>
      if p !in s.posts || !p.sent then s
      else s.(posts := s.posts - multiset{p}, tasks := s.tasks[p.id := p.snap.(status := Running)])
    case _ => s
  }

  /** The scans for lost workers: of the gateway, which reads and saves, and of the Python side. */
  function ScanStep(s: System, step: Step): System {
    match step
    case ScanRead(id) =>
      if IsRunning(s, id) then s.(scans := s.scans + multiset{Scan(id, s.tasks[id])}) else s
    case ScanSave(c) =>
      if c !in s.scans then s
      else s.(scans := s.scans - multiset{c}, tasks := s.tasks[c.id := c.snap.(status := Timeout)])
    case WorkerScan(id) =>
      if IsRunning(s, id) then s.(tasks := Transitioned(s.tasks, id, Timeout, None)) else s
    case _ => s
  }

  datatype Party = Worker | Broker | Submission | FeedbackPost | Scanner

  function PartyOf(step: Step): Party {
    match step
    case Handle(_) => Worker
    case GiveUp(_) => Worker
    case Run(_, _) => Worker
    case Join => Broker
    case Poll(_, _) => Broker
    case Take(_) => Broker
    case Commit(_) => Broker
    case Escape(_) => Broker
    case Stop(_) => Broker
    case Again(_) => Broker
    case PostRead(_) => FeedbackPost
    case PostPublish(_) => FeedbackPost
    case PostSave(_) => FeedbackPost
    case ScanRead(_) => Scanner
    case ScanSave(_) => Scanner
    case WorkerScan(_) => Scanner
    case _ => Submission
  }

  function Apply(s: System, step: Step): System {
    match PartyOf(step)
    case Worker => WorkerStep(s, step)
    case Broker => BrokerStep(s, step)
    case Submission => SubmitStep(s, step)
    case FeedbackPost => PostStep(s, step)
    case Scanner => ScanStep(s, step)
  }

  function After(s: System, steps: seq<Step>): System {
    if steps == [] then s else Apply(After(s, steps[..|steps| - 1]), steps[|steps| - 1])
  }

  // ---- attempts and dead letters ----

  function Capped(retry: nat): nat { if retry <= MAX_RETRIES then retry else MAX_RETRIES }

  /** Pipeline runs a handler may still cause, itself or through its successors. */
  function Remaining(h: Handler): nat {
    if h.job.Round? then 0
    else match h.pc
      case Begin => MAX_RETRIES + 1 - Capped(h.job.retry)
      case EarlyCancel => MAX_RETRIES + 1 - Capped(h.job.retry)
      case Start => MAX_RETRIES + 1 - Capped(h.job.retry)
      case Launch => MAX_RETRIES + 1 - Capped(h.job.retry)
      case NoteRetry => 0
      case Done => 0
      case _ => MAX_RETRIES - Capped(h.job.retry)
  }

  /** Does this handler still answer for the task's outcome? */
  function Holding(h: Handler): nat {
    if h.job.Attempt? && h.pc != NoteRetry && h.pc != Done then 1 else 0
  }

  function SumOf(hs: seq<Handler>, id: Id, weight: Handler -> nat): nat {
    if hs == [] then 0
    else SumOf(hs[..|hs| - 1], id, weight) + (if hs[|hs| - 1].id == id then weight(hs[|hs| - 1]) else 0)
  }

  function RequestRuns(ms: multiset<Message>, id: Id): nat {
    4 * ms[Request(id, 0)] + 3 * ms[Request(id, 1)] + 2 * ms[Request(id, 2)] + ms[Request(id, 3)]
  }

  function RequestCount(ms: multiset<Message>, id: Id): nat {
    ms[Request(id, 0)] + ms[Request(id, 1)] + ms[Request(id, 2)] + ms[Request(id, 3)]
  }

  /** Pipeline runs of this task still to come, and the number of places its outcome depends on. */
  function Budget(s: System, id: Id): nat {
    (if id in s.submitting then MAX_RETRIES + 1 else 0) + RequestRuns(Undone(s), id) + SumOf(s.handlers, id, Remaining)
  }

  function Tokens(s: System, id: Id): nat {
    (if id in s.submitting then 1 else 0) + RequestCount(Undone(s), id) + SumOf(s.handlers, id, Holding)
  }

  lemma {:induction false} SumUpdate(hs: seq<Handler>, i: nat, h: Handler, id: Id, weight: Handler -> nat)
    requires i < |hs| && h.id == hs[i].id
    ensures SumOf(hs[i := h], id, weight) + (if hs[i].id == id then weight(hs[i]) else 0)
         == SumOf(hs, id, weight) + (if hs[i].id == id then weight(h) else 0)
  {
    var n := |hs| - 1;
    if i < n {
      SumUpdate(hs[..n], i, h, id, weight);
      assert hs[i := h][..n] == hs[..n][i := h];
    } else {
      assert hs[i := h][..n] == hs[..n];
    }
  }

  lemma SumAppend(hs: seq<Handler>, h: Handler, id: Id, weight: Handler -> nat)
    ensures SumOf(hs + [h], id, weight) == SumOf(hs, id, weight) + (if h.id == id then weight(h) else 0)
  {
    assert (hs + [h])[..|hs|] == hs;
  }

  lemma {:induction false} HeldUpdate(cs: seq<Consumer>, w: nat, c: Consumer)
    requires w < |cs|
    ensures HeldBy(cs[w := c]) + Held(cs[w]) == HeldBy(cs) + Held(c)
  {
    hide Held;
    var n := |cs| - 1;
    if w < n {
      HeldUpdate(cs[..n], w, c);
      assert cs[w := c][..n] == cs[..n][w := c];
      Swapped(HeldBy(cs[..n][w := c]), Held(cs[w]), HeldBy(cs[..n]), Held(c), Held(cs[n]));
    } else {
      assert cs[w := c][..n] == cs[..n];
    }
  }

  lemma Swapped(a: multiset<Message>, x: multiset<Message>, b: multiset<Message>, y: multiset<Message>, z: multiset<Message>)
    requires a + x == b + y
    ensures (a + z) + x == (b + z) + y
  {
    assert (a + z) + x == (a + x) + z && (b + z) + y == (b + y) + z;
  }

  lemma HeldAppend(cs: seq<Consumer>, c: Consumer)
    ensures HeldBy(cs + [c]) == HeldBy(cs) + Held(c)
  {
    hide Held;
    assert (cs + [c])[..|cs|] == cs;
  }
}

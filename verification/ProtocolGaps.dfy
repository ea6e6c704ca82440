/** Runs in which the task protocol does less than it seems to promise: racing saves, abandoned tasks,
    feedback taken for a duplicate, and requests lost with a stopping worker. */
module ProtocolGaps {
  import opened Basics
  import opened TaskStatus
  import opened TaskStore
  import opened TaskProtocol
  import opened ProtocolInvariant
  import opened ProtocolSafety

  // ---- racing saves ----

  const ANSWER: Task := Task(Success, "", 0, [])

  /** A task answered from the cache, now with this status: `unsent` and `sent` feedback calls stand
      before their publish and before their save, after `messages` publishes. */
  function Race(id: Id, status: Status, unsent: nat, sent: nat, messages: nat): System {
    EMPTY.(tasks := map[id := ANSWER.(status := status)], issued := {id},
           posts := multiset{}[Post(id, ANSWER, false) := unsent][Post(id, ANSWER, true) := sent],
           topic := multiset{}[Feedback(id, 1, []) := messages],
           sent := if messages > 0 then {Feedback(id, 1, [])} else {}, reopened := if messages > 0 then {id} else {})
  }

  lemma RaceBegins(id: Id)
    ensures Apply(EMPTY, CreateFromCache(id, "")) == Race(id, Success, 0, 0, 0)
  {
  }

  lemma RaceRead(id: Id, unsent: nat, sent: nat, messages: nat)
    ensures Apply(Race(id, Success, unsent, sent, messages), PostRead(id)) == Race(id, Success, unsent + 1, sent, messages)
  {
  }

  lemma MovedPost(unsent: Post, sent: Post, u: nat, v: nat)
    requires unsent != sent
    ensures multiset{}[unsent := u + 1][sent := v] - multiset{unsent} + multiset{sent} == multiset{}[unsent := u][sent := v + 1]
  {
  }

  lemma PublishStep(s: System, p: Post)
    requires p in s.posts && !p.sent
    ensures var f := Feedback(p.id, |p.snap.turns| + 1, p.snap.turns);
      Apply(s, PostPublish(p)) == s.(
        posts := s.posts - multiset{p} + multiset{p.(sent := true)}, topic := s.topic + multiset{f},
        sent := s.sent + {f}, reopened := s.reopened + {p.id})
  {
  }

  lemma RacePublish(id: Id, status: Status, unsent: nat, sent: nat, messages: nat)
    ensures Apply(Race(id, status, unsent + 1, sent, messages), PostPublish(Post(id, ANSWER, false)))
         == Race(id, status, unsent, sent + 1, messages + 1)
  {
    hide Apply;
    PublishStep(Race(id, status, unsent + 1, sent, messages), Post(id, ANSWER, false));
    MovedPost(Post(id, ANSWER, false), Post(id, ANSWER, true), unsent, sent);
    OneMore(Feedback(id, 1, []), messages);
  }

  lemma OneMore(m: Message, n: nat)
    ensures multiset{}[m := n] + multiset{m} == multiset{}[m := n + 1]
  {
  }

  lemma RaceSave(id: Id, status: Status, unsent: nat, sent: nat, messages: nat)
    ensures Apply(Race(id, status, unsent, sent + 1, messages), PostSave(Post(id, ANSWER, true)))
         == Race(id, Running, unsent, sent, messages)
  {
    hide Apply;
    SaveStep(Race(id, status, unsent, sent + 1, messages), Post(id, ANSWER, true));
    SavedPost(Post(id, ANSWER, false), Post(id, ANSWER, true), unsent, sent);
  }

  lemma SaveStep(s: System, p: Post)
    requires p in s.posts && p.sent
    ensures Apply(s, PostSave(p)) == s.(posts := s.posts - multiset{p}, tasks := s.tasks[p.id := p.snap.(status := Running)])
  {
  }

  lemma SavedPost(unsent: Post, sent: Post, u: nat, v: nat)
    requires unsent != sent
    ensures multiset{}[unsent := u][sent := v + 1] - multiset{sent} == multiset{}[unsent := u][sent := v]
  {
  }

  lemma RaceScan(id: Id, unsent: nat, sent: nat, messages: nat)
    ensures Apply(Race(id, Running, unsent, sent, messages), WorkerScan(id)) == Race(id, Timeout, unsent, sent, messages)
  {
  }

  lemma RaceStatus(id: Id, status: Status, unsent: nat, sent: nat, messages: nat)
    ensures var s := Race(id, status, unsent, sent, messages); id in s.tasks && s.tasks[id].status == status
  {
  }

  /** Two feedback calls that both read SUCCESS; one goes through, a scan times the task out, and the
      other goes through. */
  function RacingCalls(id: Id): seq<Step> {
    var publish, save := PostPublish(Post(id, ANSWER, false)), PostSave(Post(id, ANSWER, true));
    [CreateFromCache(id, ""), PostRead(id), PostRead(id), publish, save, WorkerScan(id), publish, save]
  }

  lemma TwoCalls(id: Id)
    ensures StateAt(RacingCalls(id), 3) == Race(id, Success, 2, 0, 0)
  {
    hide Apply, Race, StateAt;
    RaceBegins(id); RaceRead(id, 0, 0, 0); RaceRead(id, 1, 0, 0);
    Begins(RacingCalls(id));
    Goes(RacingCalls(id), 0, EMPTY, Race(id, Success, 0, 0, 0));
    Goes(RacingCalls(id), 1, Race(id, Success, 0, 0, 0), Race(id, Success, 1, 0, 0));
    Goes(RacingCalls(id), 2, Race(id, Success, 1, 0, 0), Race(id, Success, 2, 0, 0));
  }

  lemma OneTimesOut(id: Id)
    ensures StateAt(RacingCalls(id), 6) == Race(id, Timeout, 1, 0, 1)
  {
    hide Apply, Race, StateAt;
    TwoCalls(id);
    RacePublish(id, Success, 1, 0, 0); RaceSave(id, Success, 1, 0, 1); RaceScan(id, 1, 0, 1);
    Goes(RacingCalls(id), 3, Race(id, Success, 2, 0, 0), Race(id, Success, 1, 1, 1));
    Goes(RacingCalls(id), 4, Race(id, Success, 1, 1, 1), Race(id, Running, 1, 0, 1));
    Goes(RacingCalls(id), 5, Race(id, Running, 1, 0, 1), Race(id, Timeout, 1, 0, 1));
  }

  /** The second save brings back to RUNNING the task that has been timed out in between, so TIMEOUT
      is not final once saves race. */
  lemma RacingFeedbackRevivesTimeout(id: Id)
    ensures |RacingCalls(id)| == 8
    ensures var s := StateAt(RacingCalls(id), 6); id in s.tasks && s.tasks[id].status.Timeout?
    ensures var s := StateAt(RacingCalls(id), 8); id in s.tasks && s.tasks[id].status.Running?
  {
    hide Apply, Race, StateAt;
    OneTimesOut(id);
    RacePublish(id, Timeout, 0, 0, 1); RaceSave(id, Timeout, 0, 0, 2);
    Goes(RacingCalls(id), 6, Race(id, Timeout, 1, 0, 1), Race(id, Timeout, 0, 1, 2));
    Goes(RacingCalls(id), 7, Race(id, Timeout, 0, 1, 2), Race(id, Running, 0, 0, 2));
    RaceStatus(id, Timeout, 1, 0, 1);
    RaceStatus(id, Running, 0, 0, 2);
  }

  lemma Begins(steps: seq<Step>)
    ensures StateAt(steps, 0) == EMPTY
  {
  }

  lemma Goes(steps: seq<Step>, n: nat, s: System, s': System)
    requires n < |steps| && StateAt(steps, n) == s && Apply(s, steps[n]) == s'
    ensures StateAt(steps, n + 1) == s'
  {
    hide Apply;
    AtNext(steps, n);
  }

  // ---- abandoned tasks ----

  predicate AtRest(h: Handler) {
    h.pc.Done? && !h.thread.Working? && !h.thread.Cancelling? && !h.thread.Clearing?
  }

  predicate HasStatus(s: System, id: Id, status: Status) { id in s.tasks && s.tasks[id].status == status }

  /** The records a worker has not been through with, or might give back. */
  function Open(c: Consumer): seq<Message> { From(c.batch, |c.ends|) + Overdue(c) }

  ghost predicate Unmentioned(ms: multiset<Message>, id: Id) { forall m :: m in ms ==> m.id != id }

  /** A pending or running task that no message, worker, handler, thread or gateway call is concerned
      with. */
  ghost predicate Abandoned(s: System, id: Id, status: Status) {
    && HasStatus(s, id, status) && (status.Pending? || status.Running?) && id in s.issued && id !in s.submitting
    && Unmentioned(s.topic, id)
    && (forall w :: 0 <= w < |s.consumers| ==> Unmentioned(multiset(Open(s.consumers[w])), id))
    && (forall p :: p in s.posts ==> p.id != id) && (forall c :: c in s.scans ==> c.id != id)
    && (forall i :: 0 <= i < |s.handlers| && s.handlers[i].id == id ==> AtRest(s.handlers[i]))
  }

  /** Expiry, a repeated delivery of the task's messages and, if it is running, a scan for lost workers. */
  predicate Rescues(step: Step, id: Id, status: Status) {
    match step
    case ScanRead(other) => other == id && status.Running?
    case WorkerScan(other) => other == id && status.Running?
    case Expire(other) => other == id
    case Again(m) => m.id == id
    case _ => false
  }

  lemma RestingMoves(s: System, h: Handler, next: (Handler, Op))
    requires AtRest(h) && Next(s, h, next)
    ensures next == (h, Skip)
  {
  }

  lemma AbandonedMove(s: System, i: nat, next: (Handler, Op), id: Id, status: Status)
    requires Abandoned(s, id, status) && i < |s.handlers| && Next(s, s.handlers[i], next) && next.0.id == s.handlers[i].id
    ensures Abandoned(Move(s, i, next), id, status)
  {
    var h, s' := s.handlers[i], Move(s, i, next);
    MoveIsPerform(s, i, next);
    PerformFrame(s, h.id, next.1);
    if h.id == id {
      RestingMoves(s, h, next);
      assert s' == s;
    } else {
      OthersUntouched(s, h.id, next.1, id, status);
      hide Perform, Next;
      forall j | 0 <= j < |s'.handlers| && s'.handlers[j].id == id ensures AtRest(s'.handlers[j]) {
        assert s'.handlers[j] == s.handlers[j];
      }
    }
  }

  lemma OthersUntouched(s: System, other: Id, op: Op, id: Id, status: Status)
    requires other != id && HasStatus(s, id, status) && Unmentioned(s.topic, id)
    ensures HasStatus(Perform(s, other, op), id, status) && Unmentioned(Perform(s, other, op).topic, id)
  {
  }

  lemma AbandonedWorker(s: System, step: Step, id: Id, status: Status)
    requires Abandoned(s, id, status)
    ensures Abandoned(WorkerStep(s, step), id, status)
  {
    hide Abandoned, Move;
    match step
    case Handle(i) =>
      if i < |s.handlers| {
        var h := s.handlers[i];
        AbandonedMove(s, i, NextHandler(h, h.id in s.cancelled, IsRunning(s, h.id)), id, status);
      }
    case GiveUp(i) => if i < |s.handlers| { AbandonedMove(s, i, (NextGiveUp(s.handlers[i]), Skip), id, status); }
    case Run(i, act) =>
      if i < |s.handlers| { AbandonedMove(s, i, NextThread(s.handlers[i], s.handlers[i].id in s.cancelled, act), id, status); }
    case _ =>
  }

  lemma Mentions(c: Consumer, id: Id)
    requires Unmentioned(multiset(Open(c)), id)
    ensures forall m :: m in Open(c) ==> m.id != id
  {
    forall m | m in Open(c) ensures m.id != id {
      assert m in multiset(Open(c));
    }
  }

  lemma AllUnmentioned(ms: seq<Message>, id: Id)
    requires forall m :: m in ms ==> m.id != id
    ensures Unmentioned(multiset(ms), id)
  {
  }

  /** Whatever a worker does next with its batch, it does not come to mention the task. */
  lemma OpenShrinks(c: Consumer, c': Consumer, id: Id)
    requires Unmentioned(multiset(Open(c)), id)
    requires c'.batch == c.batch && c'.overdue == c.overdue
    requires c'.ends == c.ends || (|c.ends| < |c.batch| && (c'.ends == c.ends + [Committed] || c'.ends == c.ends + [Escaped]))
    ensures Unmentioned(multiset(Open(c')), id)
  {
    Mentions(c, id);
    if c'.ends != c.ends {
      assert c.batch[|c.ends|] == From(c.batch, |c.ends|)[0];
      assert c.batch[|c.ends|] in Open(c);
      assert From(c'.batch, |c'.ends|) == From(c.batch, |c.ends|)[1..];
      assert UpTo(c'.batch, |c'.ends|) == UpTo(c.batch, |c.ends|) + [c.batch[|c.ends|]];
      assert Covered(c) ==> Covered(c') by {
        if Covered(c) {
          var k :| 0 <= k < |c.ends| && c.ends[k] == Committed;
          assert c'.ends[k] == Committed;
        }
      }
    }
    forall m | m in Open(c') ensures m.id != id {
      assert m in Open(c);
    }
    AllUnmentioned(Open(c'), id);
  }

  /** What is on the topic, with the workers and in their hands after a step of the consumer loop. */
  ghost predicate AllQuiet(s: System, id: Id) {
    && Unmentioned(s.topic, id)
    && (forall w :: 0 <= w < |s.consumers| ==> Unmentioned(multiset(Open(s.consumers[w])), id))
    && (forall i :: 0 <= i < |s.handlers| && s.handlers[i].id == id ==> AtRest(s.handlers[i]))
  }

  /** Replacing worker w, and at most one handler, is all that needs a look. */
  lemma OneWorker(s: System, s': System, w: nat, c: Consumer, id: Id)
    requires AllQuiet(s, id) && w <= |s.consumers| && Unmentioned(s'.topic, id) && Unmentioned(multiset(Open(c)), id)
    requires s'.consumers == if w < |s.consumers| then s.consumers[w := c] else s.consumers + [c]
    requires forall i :: 0 <= i < |s'.handlers| && s'.handlers[i].id == id ==> AtRest(s'.handlers[i])
    ensures AllQuiet(s', id)
  {
    hide Open, Unmentioned, AtRest;
  }

  lemma QuietPoll(s: System, w: nat, batch: seq<Message>, id: Id)
    requires AllQuiet(s, id)
    ensures AllQuiet(BrokerStep(s, Poll(w, batch)), id)
  {
    var s' := BrokerStep(s, Poll(w, batch));
    if s' != s {
      var c, c' := s.consumers[w], s'.consumers[w];
      Mentions(c, id);
      forall m | m in Open(c') ensures m.id != id {
        assert m in batch || m in Overdue(c);
        assert m in multiset(batch) || m in Open(c);
      }
      AllUnmentioned(Open(c'), id);
      OneWorker(s, s', w, c', id);
    }
  }

  lemma QuietTake(s: System, w: nat, id: Id)
    requires AllQuiet(s, id)
    ensures AllQuiet(BrokerStep(s, Take(w)), id)
  {
    var s' := BrokerStep(s, Take(w));
    if s' != s {
      var c := s.consumers[w];
      Mentions(c, id);
      assert From(c.batch, |c.ends|)[0] == c.batch[|c.ends|];
      assert c.batch[|c.ends|] in Open(c);
      assert Open(c.(hand := Some(|s.handlers|))) == Open(c);
      OneWorker(s, s', w, c.(hand := Some(|s.handlers|)), id);
    }
  }

  lemma QuietCommit(s: System, w: nat, id: Id)
    requires AllQuiet(s, id) && BrokerStep(s, Commit(w)) != s
    ensures AllQuiet(BrokerStep(s, Commit(w)), id)
  {
    var s', c := BrokerStep(s, Commit(w)), s.consumers[w];
    OpenShrinks(c, s'.consumers[w], id);
    hide Open, Unmentioned, AtRest, Overdue;
    OneWorker(s, s', w, s'.consumers[w], id);
  }

  lemma QuietEscape(s: System, w: nat, id: Id)
    requires AllQuiet(s, id) && BrokerStep(s, Escape(w)) != s
    ensures AllQuiet(BrokerStep(s, Escape(w)), id)
  {
    var s', c := BrokerStep(s, Escape(w)), s.consumers[w];
    EscapeFrame(s, w);
    EscapedConsumers(s, w);
    OpenShrinks(c, s'.consumers[w], id);
    hide EscapedFrom, Escapes, Open, Unmentioned, InHand, IdOf, Covered;
    OneWorker(s, s', w, s'.consumers[w], id);
  }

  lemma EscapedConsumers(s: System, w: nat)
    requires w < |s.consumers| && Busy(s, s.consumers[w])
    ensures var c := s.consumers[w];
      EscapedFrom(s, w).consumers == s.consumers[w := c.(ends := c.ends + [Escaped], hand := None)]
  {
  }

  lemma QuietStop(s: System, w: nat, id: Id)
    requires AllQuiet(s, id) && w < |s.consumers|
    ensures AllQuiet(Stopped(s, w), id)
  {
    QuietStopTopic(s, w, id);
    QuietStopHandlers(s, w, id);
    StoppedConsumers(s, w);
    assert Open(NEW_CONSUMER) == [];
    hide Stopped, Open, AtRest, Unmentioned;
    AllUnmentioned([], id);
    OneWorker(s, Stopped(s, w), w, NEW_CONSUMER, id);
  }

  lemma QuietStopTopic(s: System, w: nat, id: Id)
    requires AllQuiet(s, id) && w < |s.consumers|
    ensures Unmentioned(Stopped(s, w).topic, id)
  {
    var c := s.consumers[w];
    Mentions(c, id);
    QuietRecords(c, id);
    StopTopic(s, w);
    hide Stopped, Held, InHand, Open, Covered, AtRest;
  }

  lemma QuietStopHandlers(s: System, w: nat, id: Id)
    requires AllQuiet(s, id) && w < |s.consumers|
    ensures forall i :: 0 <= i < |Stopped(s, w).handlers| && Stopped(s, w).handlers[i].id == id ==> AtRest(Stopped(s, w).handlers[i])
  {
    StopFrame(s, w);
    hide Stopped, InHand, Open, Covered, IdOf, Unmentioned;
  }

  lemma QuietRecords(c: Consumer, id: Id)
    requires forall m :: m in Open(c) ==> m.id != id
    ensures forall m :: m in Held(c) || m in InHand(c) ==> m.id != id
  {
    forall m | m in Waiting(c) || m in InHand(c) || m in Overdue(c) ensures m.id != id {
      OpenCovers(c, m);
    }
    hide Waiting, InHand, Overdue, Open;
  }

  lemma StoppedConsumers(s: System, w: nat)
    requires w < |s.consumers|
    ensures Stopped(s, w).consumers == s.consumers[w := NEW_CONSUMER]
  {
  }

  lemma OpenCovers(c: Consumer, m: Message)
    requires m in Waiting(c) || m in InHand(c) || m in Overdue(c)
    ensures m in Open(c)
  {
    var rest := From(c.batch, |c.ends|);
    if m in Waiting(c) && c.hand.Some? && |c.ends| < |c.batch| {
      assert Waiting(c) == rest[1..];
    } else if m in InHand(c) {
      assert rest[0] == m;
    }
  }

  lemma QuietBroker(s: System, step: Step, id: Id)
    requires AllQuiet(s, id) && !(step.Again? && step.message.id == id)
    ensures AllQuiet(BrokerStep(s, step), id)
  {
    match step
    case Join =>
      assert Open(NEW_CONSUMER) == [];
      OneWorker(s, BrokerStep(s, step), |s.consumers|, NEW_CONSUMER, id);
    case Poll(w, batch) => QuietPoll(s, w, batch, id);
    case Take(w) => QuietTake(s, w, id);
    case Commit(w) => if BrokerStep(s, step) != s { QuietCommit(s, w, id); }
    case Escape(w) => if BrokerStep(s, step) != s { QuietEscape(s, w, id); }
    case Stop(w) => if w < |s.consumers| { QuietStop(s, w, id); }
    case Again(m) =>
    case _ =>
  }

  lemma AbandonedBroker(s: System, step: Step, id: Id, status: Status)
    requires Abandoned(s, id, status) && !Rescues(step, id, status)
    ensures Abandoned(BrokerStep(s, step), id, status)
  {
    QuietBroker(s, step, id);
    BrokerFrame(s, step);
    hide BrokerStep, Grows, Open;
  }

  lemma AbandonedSubmit(s: System, step: Step, id: Id, status: Status)
    requires Abandoned(s, id, status) && !Rescues(step, id, status)
    ensures Abandoned(SubmitStep(s, step), id, status)
  {
    SubmitFrame(s, step);
    hide Open;
  }

  lemma AbandonedPost(s: System, step: Step, id: Id, status: Status)
    requires Abandoned(s, id, status)
    ensures Abandoned(PostStep(s, step), id, status)
  {
    PostFrame(s, step);
    hide Open;
  }

  lemma AbandonedScan(s: System, step: Step, id: Id, status: Status)
    requires Abandoned(s, id, status) && !Rescues(step, id, status)
    ensures Abandoned(ScanStep(s, step), id, status)
  {
    ScanFrame(s, step);
    hide Open;
  }

  lemma AbandonedStep(s: System, step: Step, id: Id, status: Status)
    requires Abandoned(s, id, status) && !Rescues(step, id, status)
    ensures Abandoned(Apply(s, step), id, status)
  {
    hide Abandoned, WorkerStep, BrokerStep, SubmitStep, PostStep, ScanStep;
    match PartyOf(step)
    case Worker => AbandonedWorker(s, step, id, status);
    case Broker => AbandonedBroker(s, step, id, status);
    case Submission => AbandonedSubmit(s, step, id, status);
    case FeedbackPost => AbandonedPost(s, step, id, status);
    case Scanner => AbandonedScan(s, step, id, status);
  }

  /** Neither cancelling, nor new feedback, nor anything else but expiry, a repeated delivery and, for
      a running task, a scan for lost workers ever moves an abandoned task: a pending one stays PENDING
      and a running one RUNNING. */
  lemma {:induction false} AbandonedStays(s: System, steps: seq<Step>, id: Id, status: Status)
    requires Abandoned(s, id, status) && forall k :: 0 <= k < |steps| ==> !Rescues(steps[k], id, status)
    ensures Abandoned(After(s, steps), id, status)
  {
    hide Abandoned, Apply;
    if steps != [] {
      var n := |steps| - 1;
      AbandonedStays(s, steps[..n], id, status);
      AbandonedStep(After(s, steps[..n]), steps[n], id, status);
    }
  }

  // ---- feedback taken for a duplicate ----

  /** A state of `Race` with the message polled by one worker. */
  function RaceWith(id: Id, ends: seq<End>, hand: Option<nat>, handlers: seq<Handler>): System {
    Race(id, Running, 0, 0, 1).(
      topic := multiset{}, consumers := [Consumer([Feedback(id, 1, [])], ends, hand, [])], handlers := handlers)
  }

  /** The handler that found the task running: done, and its pipeline never started. */
  function Skipped(id: Id): Handler { Fresh(id, Round([])).(pc := Done, check := SawRunning) }

  function VanishingSteps(id: Id): seq<Step> {
    [CreateFromCache(id, ""), PostRead(id), PostPublish(Post(id, ANSWER, false)), PostSave(Post(id, ANSWER, true)),
     Join, Poll(0, [Feedback(id, 1, [])]), Take(0), Handle(0), Commit(0)]
  }

  lemma SavedFirst(id: Id)
    ensures StateAt(VanishingSteps(id), 4) == Race(id, Running, 0, 0, 1)
  {
    hide Apply, Race, StateAt;
    RaceBegins(id); RaceRead(id, 0, 0, 0); RacePublish(id, Success, 0, 0, 0); RaceSave(id, Success, 0, 0, 1);
    Begins(VanishingSteps(id));
    Goes(VanishingSteps(id), 0, EMPTY, Race(id, Success, 0, 0, 0));
    Goes(VanishingSteps(id), 1, Race(id, Success, 0, 0, 0), Race(id, Success, 1, 0, 0));
    Goes(VanishingSteps(id), 2, Race(id, Success, 1, 0, 0), Race(id, Success, 0, 1, 1));
    Goes(VanishingSteps(id), 3, Race(id, Success, 0, 1, 1), Race(id, Running, 0, 0, 1));
  }

  /** It can happen to accepted feedback: the gateway saves RUNNING right after publishing, the
      worker takes the message for a duplicate, and the round never runs. */
  lemma AcceptedFeedbackCanVanish(id: Id)
    ensures |VanishingSteps(id)| == 9
    ensures var s := StateAt(VanishingSteps(id), 9);
      && Abandoned(s, id, Running) && id in s.reopened && s.tasks[id].turns == [] && s.handlers == [Skipped(id)]
  {
    var steps := VanishingSteps(id);
    SavedFirst(id);
    DuplicateJoined(id); DuplicatePolled(id); DuplicateTaken(id); DuplicateSkipped(id); DuplicateCommitted(id);
    CommittedIsAbandoned(id);
    hide Apply, Race, RaceWith, StateAt, Abandoned;
    Goes(steps, 4, Race(id, Running, 0, 0, 1), Race(id, Running, 0, 0, 1).(consumers := [NEW_CONSUMER]));
    Goes(steps, 5, Race(id, Running, 0, 0, 1).(consumers := [NEW_CONSUMER]), RaceWith(id, [], None, []));
    Goes(steps, 6, RaceWith(id, [], None, []), RaceWith(id, [], Some(0), [Fresh(id, Round([]))]));
    Goes(steps, 7, RaceWith(id, [], Some(0), [Fresh(id, Round([]))]), RaceWith(id, [], Some(0), [Skipped(id)]));
    Goes(steps, 8, RaceWith(id, [], Some(0), [Skipped(id)]), RaceWith(id, [Committed], None, [Skipped(id)]));
  }

  lemma DuplicateJoined(id: Id)
    ensures Apply(Race(id, Running, 0, 0, 1), Join) == Race(id, Running, 0, 0, 1).(consumers := [NEW_CONSUMER])
  {
  }

  lemma DuplicatePolled(id: Id)
    ensures Apply(Race(id, Running, 0, 0, 1).(consumers := [NEW_CONSUMER]), Poll(0, [Feedback(id, 1, [])]))
         == RaceWith(id, [], None, [])
  {
    var s := Race(id, Running, 0, 0, 1).(consumers := [NEW_CONSUMER]);
    PollStep(s, 0, [Feedback(id, 1, [])]);
    assert multiset([Feedback(id, 1, [])]) == multiset{Feedback(id, 1, [])} == s.topic;
    hide Apply;
  }

  lemma PollStep(s: System, w: nat, batch: seq<Message>)
    requires w < |s.consumers| && s.consumers[w] == NEW_CONSUMER && |batch| <= MAX_POLL && multiset(batch) <= s.topic
    ensures Apply(s, Poll(w, batch))
         == s.(topic := s.topic - multiset(batch), consumers := s.consumers[w := Consumer(batch, [], None, [])])
  {
    assert Overdue(NEW_CONSUMER) == [];
  }

  lemma TakeStep(s: System, w: nat)
    requires w < |s.consumers| && s.consumers[w].hand.None? && |s.consumers[w].ends| < |s.consumers[w].batch|
    ensures var c := s.consumers[w];
      Apply(s, Take(w)) == s.(consumers := s.consumers[w := c.(hand := Some(|s.handlers|))],
                              handlers := s.handlers + [HandlerOf(c.batch[|c.ends|])])
  {
  }

  /** The commit after the first record of a worker's first batch. */
  lemma CommitStep(s: System, w: nat)
    requires w < |s.consumers| && Busy(s, s.consumers[w]) && s.handlers[s.consumers[w].hand.value].pc == Done
    requires s.consumers[w].ends == [] && s.consumers[w].overdue == []
    ensures Apply(s, Commit(w)) == s.(consumers := s.consumers[w := s.consumers[w].(ends := [Committed], hand := None)])
  {
    assert s.consumers[w].ends + [Committed] == [Committed];
    assert Overdue(s.consumers[w]) == [] && s.dropped + multiset(Overdue(s.consumers[w])) == s.dropped;
    hide Overdue;
  }

  lemma DuplicateTaken(id: Id)
    ensures Apply(RaceWith(id, [], None, []), Take(0)) == RaceWith(id, [], Some(0), [Fresh(id, Round([]))])
  {
    TakeStep(RaceWith(id, [], None, []), 0);
    hide Apply;
  }

  lemma DuplicateSkipped(id: Id)
    ensures Apply(RaceWith(id, [], Some(0), [Fresh(id, Round([]))]), Handle(0)) == RaceWith(id, [], Some(0), [Skipped(id)])
  {
  }

  lemma DuplicateCommitted(id: Id)
    ensures Apply(RaceWith(id, [], Some(0), [Skipped(id)]), Commit(0)) == RaceWith(id, [Committed], None, [Skipped(id)])
  {
    CommitStep(RaceWith(id, [], Some(0), [Skipped(id)]), 0);
    hide Apply;
  }

  lemma CommittedIsAbandoned(id: Id)
    ensures var s := RaceWith(id, [Committed], None, [Skipped(id)]);
      Abandoned(s, id, Running) && id in s.reopened && s.tasks[id].turns == [] && s.handlers == [Skipped(id)]
  {
    var s := RaceWith(id, [Committed], None, [Skipped(id)]);
    OpenAfterCommit(Feedback(id, 1, []));
    assert AllQuiet(s, id) by {
      hide Open;
    }
    hide AllQuiet, Open;
  }

  lemma OpenAfterCommit(m: Message)
    ensures Open(Consumer([m], [Committed], None, [])) == []
  {
    assert Consumer([m], [Committed], None, []).ends[0] == Committed;
  }

  // ---- a request lost with a stopping worker ----

  /** Two submitted tasks, the first with its cancel flag set. */
  function TwoTasks(a: Id, b: Id): System {
    EMPTY.(tasks := map[a := Task(Pending, "", 0, []), b := Task(Pending, "", 0, [])], cancelled := {a}, issued := {a, b})
  }

  /** Both requests are in the batch of one worker; the first is in hand, or done with. */
  function Polled(a: Id, b: Id, status: Status, ends: seq<End>, hand: Option<nat>, handlers: seq<Handler>): System {
    TwoTasks(a, b).(
      tasks := map[a := Task(status, "", 0, []), b := Task(Pending, "", 0, [])], sent := {Request(a, 0), Request(b, 0)},
      consumers := [Consumer([Request(a, 0), Request(b, 0)], ends, hand, [])], handlers := handlers)
  }

  function LosingSteps(a: Id, b: Id): seq<Step> {
    [Create(a), Create(b), CancelRead(a), CancelWrite(a), Publish(a), Publish(b), Join,
     Poll(0, [Request(a, 0), Request(b, 0)]), Take(0), Handle(0), Handle(0), Commit(0), Stop(0)]
  }

  lemma LosingStep(a: Id, b: Id)
    ensures var steps := LosingSteps(a, b);
      && |steps| == 13 && steps[0] == Create(a) && steps[1] == Create(b) && steps[2] == CancelRead(a) && steps[3] == CancelWrite(a)
      && steps[4] == Publish(a) && steps[5] == Publish(b) && steps[6] == Join && steps[7] == Poll(0, [Request(a, 0), Request(b, 0)])
      && steps[8] == Take(0) && steps[9] == Handle(0) && steps[10] == Handle(0) && steps[11] == Commit(0) && steps[12] == Stop(0)
  {
    hide LosingSteps;
    FirstSteps(a, b);
    LastSteps(a, b);
  }

  lemma FirstSteps(a: Id, b: Id)
    ensures var steps := LosingSteps(a, b);
      && |steps| == 13 && steps[0] == Create(a) && steps[1] == Create(b) && steps[2] == CancelRead(a) && steps[3] == CancelWrite(a)
      && steps[4] == Publish(a) && steps[5] == Publish(b) && steps[6] == Join
  {
    assert LosingSteps(a, b)[..2] == [Create(a), Create(b)];
  }

  lemma LastSteps(a: Id, b: Id)
    ensures var steps := LosingSteps(a, b);
      && |steps| == 13 && steps[7] == Poll(0, [Request(a, 0), Request(b, 0)])
      && steps[8] == Take(0) && steps[9] == Handle(0) && steps[10] == Handle(0) && steps[11] == Commit(0) && steps[12] == Stop(0)
  {
  }

  function Attempting(a: Id, pc: Pc): Handler { Fresh(a, Attempt(0)).(pc := pc) }

  function Submitted(a: Id, b: Id, waiting: set<Id>, topic: multiset<Message>, sent: set<Message>): System {
    TwoTasks(a, b).(submitting := waiting, topic := topic, sent := sent)
  }

  function Unpublished(a: Id, b: Id): System { Submitted(a, b, {a, b}, multiset{}, {}) }

  function OnePublished(a: Id, b: Id): System { Submitted(a, b, {b}, multiset{Request(a, 0)}, {Request(a, 0)}) }

  function FirstCreated(a: Id): System {
    EMPTY.(tasks := map[a := Task(Pending, "", 0, [])], issued := {a}, submitting := {a})
  }

  function BothCreated(a: Id, b: Id, cancelling: set<Id>): System {
    Submitted(a, b, {a, b}, multiset{}, {}).(cancelled := {}, cancelling := cancelling)
  }

  function AllPublished(a: Id, b: Id, consumers: seq<Consumer>): System {
    Submitted(a, b, {}, multiset{Request(a, 0), Request(b, 0)}, {Request(a, 0), Request(b, 0)}).(consumers := consumers)
  }

  lemma CreatesBoth(a: Id, b: Id)
    requires a != b
    ensures Apply(EMPTY, Create(a)) == FirstCreated(a) && Apply(FirstCreated(a), Create(b)) == BothCreated(a, b, {})
  {
  }

  lemma CancelsFirst(a: Id, b: Id)
    requires a != b
    ensures Apply(BothCreated(a, b, {}), CancelRead(a)) == BothCreated(a, b, {a})
    ensures Apply(BothCreated(a, b, {a}), CancelWrite(a)) == Unpublished(a, b)
  {
    FlagsFirst(a, b);
    hide Unpublished;
  }

  lemma FlagsFirst(a: Id, b: Id)
    requires a != b
    ensures Apply(BothCreated(a, b, {a}), CancelWrite(a)) == Unpublished(a, b)
  {
  }

  lemma PublishesBoth(a: Id, b: Id)
    requires a != b
    ensures Apply(Unpublished(a, b), Publish(a)) == OnePublished(a, b)
    ensures Apply(OnePublished(a, b), Publish(b)) == AllPublished(a, b, [])
  {
    PublishesSecond(a, b);
    hide AllPublished;
  }

  lemma PublishesSecond(a: Id, b: Id)
    requires a != b
    ensures Apply(OnePublished(a, b), Publish(b)) == AllPublished(a, b, [])
  {
  }

  lemma PollsBoth(a: Id, b: Id)
    requires a != b
    ensures Apply(AllPublished(a, b, []), Join) == AllPublished(a, b, [NEW_CONSUMER])
    ensures Apply(AllPublished(a, b, [NEW_CONSUMER]), Poll(0, [Request(a, 0), Request(b, 0)])) == Polled(a, b, Pending, [], None, [])
  {
    var s := AllPublished(a, b, [NEW_CONSUMER]);
    assert multiset([Request(a, 0), Request(b, 0)]) == s.topic;
    PollStep(s, 0, [Request(a, 0), Request(b, 0)]);
  }

  lemma HandlesFirst(a: Id, b: Id)
    requires a != b
    ensures Apply(Polled(a, b, Pending, [], None, []), Take(0)) == Polled(a, b, Pending, [], Some(0), [Attempting(a, Begin)])
    ensures Apply(Polled(a, b, Pending, [], Some(0), [Attempting(a, Begin)]), Handle(0))
         == Polled(a, b, Pending, [], Some(0), [Attempting(a, EarlyCancel)])
    ensures Apply(Polled(a, b, Pending, [], Some(0), [Attempting(a, EarlyCancel)]), Handle(0))
         == Polled(a, b, Cancelled, [], Some(0), [Attempting(a, Done)])
  {
    TakeStep(Polled(a, b, Pending, [], None, []), 0);
    SeesFlag(a, b);
    hide Apply;
  }

  lemma SeesFlag(a: Id, b: Id)
    requires a != b
    ensures Apply(Polled(a, b, Pending, [], Some(0), [Attempting(a, Begin)]), Handle(0))
         == Polled(a, b, Pending, [], Some(0), [Attempting(a, EarlyCancel)])
    ensures Apply(Polled(a, b, Pending, [], Some(0), [Attempting(a, EarlyCancel)]), Handle(0))
         == Polled(a, b, Cancelled, [], Some(0), [Attempting(a, Done)])
  {
    CancelsEarly(a, b);
    hide BrokerStep;
  }

  lemma CancelsEarly(a: Id, b: Id)
    requires a != b
    ensures Apply(Polled(a, b, Pending, [], Some(0), [Attempting(a, EarlyCancel)]), Handle(0))
         == Polled(a, b, Cancelled, [], Some(0), [Attempting(a, Done)])
  {
    hide BrokerStep;
  }

  /** The end: the worker is gone, and the second request with it. */
  function Lost(a: Id, b: Id): System {
    Polled(a, b, Cancelled, [Committed], None, [Attempting(a, Done)]).(
      consumers := [NEW_CONSUMER], dropped := multiset{Request(b, 0)})
  }

  lemma CommitsFirst(a: Id, b: Id)
    requires a != b
    ensures Apply(Polled(a, b, Cancelled, [], Some(0), [Attempting(a, Done)]), Commit(0))
         == Polled(a, b, Cancelled, [Committed], None, [Attempting(a, Done)])
  {
    CommitStep(Polled(a, b, Cancelled, [], Some(0), [Attempting(a, Done)]), 0);
    hide Apply;
  }

  lemma LosesSecond(a: Id, b: Id)
    requires a != b
    ensures Apply(Polled(a, b, Cancelled, [Committed], None, [Attempting(a, Done)]), Stop(0)) == Lost(a, b)
  {
    var s := Polled(a, b, Cancelled, [Committed], None, [Attempting(a, Done)]);
    var c := s.consumers[0];
    assert c.ends[0] == Committed;
    assert Unfinished(s, c) == [Request(b, 0)];
    StopsCovered(s, 0);
    hide Apply, Unfinished;
  }

  lemma StopsCovered(s: System, w: nat)
    requires w < |s.consumers| && Covered(s.consumers[w]) && s.consumers[w].hand.None?
    ensures Apply(s, Stop(w)) == s.(consumers := s.consumers[w := NEW_CONSUMER],
                                    dropped := s.dropped + multiset(Unfinished(s, s.consumers[w])))
  {
    hide Unfinished, Held, InHand, IdOf, Cut;
  }

  lemma LostIsAbandoned(a: Id, b: Id)
    requires a != b
    ensures var s := Lost(a, b);
      Abandoned(s, b, Pending) && RequestDropped(s, b) && !Ended(s, b) && s.dropped == multiset{Request(b, 0)}
  {
    assert Open(NEW_CONSUMER) == [];
    hide Open;
  }

  /** Two requests in one poll: the first is handled and its commit covers both, then the worker stops.
      The second task stays PENDING, with nothing on the topic, with a worker or in a handler. */
  lemma StopLosesPolledRequest(a: Id, b: Id)
    requires a != b
    ensures |LosingSteps(a, b)| == 13
    ensures var s := StateAt(LosingSteps(a, b), 13);
      Abandoned(s, b, Pending) && RequestDropped(s, b) && !Ended(s, b) && s.dropped == multiset{Request(b, 0)}
  {
    var steps := LosingSteps(a, b);
    HandledFirst(a, b);
    CommitsFirst(a, b);
    LosesSecond(a, b);
    LostIsAbandoned(a, b);
    LosingStep(a, b);
    hide Apply, StateAt, LosingSteps, Polled, Lost, Abandoned, RequestDropped, Ended, Attempting;
    Goes(steps, 11, Polled(a, b, Cancelled, [], Some(0), [Attempting(a, Done)]), Polled(a, b, Cancelled, [Committed], None, [Attempting(a, Done)]));
    Goes(steps, 12, Polled(a, b, Cancelled, [Committed], None, [Attempting(a, Done)]), Lost(a, b));
  }

  lemma HandledFirst(a: Id, b: Id)
    requires a != b
    ensures StateAt(LosingSteps(a, b), 11) == Polled(a, b, Cancelled, [], Some(0), [Attempting(a, Done)])
  {
    var steps := LosingSteps(a, b);
    PolledTogether(a, b);
    HandlesFirst(a, b);
    LosingStep(a, b);
    hide Apply, StateAt, LosingSteps, Polled, Attempting;
    Goes(steps, 8, Polled(a, b, Pending, [], None, []), Polled(a, b, Pending, [], Some(0), [Attempting(a, Begin)]));
    Goes(steps, 9, Polled(a, b, Pending, [], Some(0), [Attempting(a, Begin)]), Polled(a, b, Pending, [], Some(0), [Attempting(a, EarlyCancel)]));
    Goes(steps, 10, Polled(a, b, Pending, [], Some(0), [Attempting(a, EarlyCancel)]), Polled(a, b, Cancelled, [], Some(0), [Attempting(a, Done)]));
  }

  lemma CreatedTogether(a: Id, b: Id)
    requires a != b
    ensures StateAt(LosingSteps(a, b), 4) == Unpublished(a, b)
  {
    var steps := LosingSteps(a, b);
    CreatesBoth(a, b); CancelsFirst(a, b);
    Begins(steps);
    LosingStep(a, b);
    hide Apply, StateAt, LosingSteps, Unpublished, FirstCreated, BothCreated;
    Goes(steps, 0, EMPTY, FirstCreated(a));
    Goes(steps, 1, FirstCreated(a), BothCreated(a, b, {}));
    Goes(steps, 2, BothCreated(a, b, {}), BothCreated(a, b, {a}));
    Goes(steps, 3, BothCreated(a, b, {a}), Unpublished(a, b));
  }

  lemma PolledTogether(a: Id, b: Id)
    requires a != b
    ensures StateAt(LosingSteps(a, b), 8) == Polled(a, b, Pending, [], None, [])
  {
    var steps := LosingSteps(a, b);
    CreatedTogether(a, b); PublishesBoth(a, b); PollsBoth(a, b);
    LosingStep(a, b);
    hide Apply, StateAt, LosingSteps, Polled, Unpublished, OnePublished, AllPublished;
    Goes(steps, 4, Unpublished(a, b), OnePublished(a, b));
    Goes(steps, 5, OnePublished(a, b), AllPublished(a, b, []));
    Goes(steps, 6, AllPublished(a, b, []), AllPublished(a, b, [NEW_CONSUMER]));
    Goes(steps, 7, AllPublished(a, b, [NEW_CONSUMER]), Polled(a, b, Pending, [], None, []));
  }
}

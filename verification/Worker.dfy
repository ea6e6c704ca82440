/** `handle_task` and `handle_feedback` of worker/main.py as the worker runs them, over the store and
    the topics, with what the pipeline does given from outside.  Each is shown to do exactly what the
    protocol's handler does when no other party steps in between. */
module Worker {
  import opened Basics
  import opened TaskStatus
  import opened TaskStore
  import opened TaskProtocol

  /** How the pipeline ends: it notices the cancel flag, returns, raises, or is still at work when the
      time is up. */
  datatype Ending = SawFlag | Finished(sql: string) | Failed(timeout: bool) | OverTime

  function Distance(pc: Pc): nat {
    match pc
    case Begin => 9
    case Start => 8
    case Launch => 7
    case Await => 6
    case ErrorCheck => 5
    case TimeoutCheck => 5
    case CancelMark => 4
    case Republish => 4
    case Exhaust => 4
    case Done => 0
    case _ => 1
  }

  lemma NextIsNearer(h: Handler, flag: bool, running: bool)
    ensures var next := NextHandler(h, flag, running).0; next != h ==> Distance(next.pc) < Distance(h.pc)
  {
    if h.job.Attempt? {
      AttemptIsNearer(h, flag);
    }
    hide NextAttempt;
  }

  lemma AttemptIsNearer(h: Handler, flag: bool)
    requires h.job.Attempt?
    ensures var next := NextAttempt(h, flag).0; next != h ==> Distance(next.pc) < Distance(h.pc)
  {
  }

  /** The handler alone, until it is done or waits for the pipeline. */
  function Drive(s: System, h: Handler): (System, Handler)
    decreases Distance(h.pc)
  {
    var (h', op) := NextHandler(h, h.id in s.cancelled, IsRunning(s, h.id));
    NextIsNearer(h, h.id in s.cancelled, IsRunning(s, h.id));
    if h' == h then (s, h) else Drive(Perform(s, h.id, op), h')
  }

  /** A handler whose pipeline has just been started. */
  function AtWork(id: Id, job: Job): Handler {
    Handler(id, job, Await, Working, if job.Round? then SawOther else Unread, true, false)
  }

  function RunThread(s: System, h: Handler, acts: seq<Act>): (System, Handler)
    decreases |acts|
  {
    if acts == [] then (s, h)
    else
      var (h', op) := NextThread(h, h.id in s.cancelled, acts[0]);
      RunThread(Perform(s, h.id, op), h', acts[1..])
  }

  function Acts(ending: Ending): seq<Act> {
    match ending
    case SawFlag => [CheckFlag, CheckFlag, CheckFlag]
    case Finished(sql) => [Return(sql)]
    case Failed(timeout) => [Raise(timeout)]
    case OverTime => []
  }

  function FlagRaised(s: System, id: Id, raised: bool): System {
    if raised then s.(cancelled := s.cancelled + {id}) else s
  }

  /** The pipeline ends, and the handler goes on to its end. */
  function Awaited(s: System, h: Handler, ending: Ending): System {
    var (s', h') := RunThread(s, h, Acts(ending));
    Drive(s', if ending.OverTime? then NextGiveUp(h') else h').0
  }

  /** One message, from delivery to commit; `raised`: the cancel flag is set while the pipeline runs. */
  function Handled(s: System, id: Id, job: Job, ending: Ending, raised: bool): System {
    var (s', h) := Drive(s, Fresh(id, job));
    if h.pc.Await? then Awaited(FlagRaised(s', id, raised), h, ending) else s'
  }

  // ---- the handlers are runs of the protocol ----

  lemma {:induction false} AfterFront(s: System, step: Step, steps: seq<Step>)
    ensures After(s, [step] + steps) == After(Apply(s, step), steps)
  {
    hide Apply;
    var all, n := [step] + steps, |steps|;
    if n == 0 {
      assert all == [step] && all[..0] == [];
      assert After(s, all) == Apply(After(s, []), step);
    } else {
      AfterFront(s, step, steps[..n - 1]);
      assert all[..n] == [step] + steps[..n - 1];
    }
  }

  lemma {:induction false} AfterConcat(s: System, a: seq<Step>, b: seq<Step>)
    ensures After(s, a + b) == After(After(s, a), b)
    decreases |a|
  {
    hide Apply;
    if a == [] {
      assert a + b == b;
    } else {
      AfterFront(s, a[0], a[1..] + b);
      AfterFront(s, a[0], a[1..]);
      AfterConcat(Apply(s, a[0]), a[1..], b);
      assert a + b == [a[0]] + (a[1..] + b) && a == [a[0]] + a[1..];
    }
  }

  /** The same state behind other handlers and other pending cancel calls. */
  function Behind(s: System, hs: seq<Handler>, calls: set<Id>): System { s.(handlers := hs, cancelling := calls) }

  lemma PerformBehind(s: System, hs: seq<Handler>, calls: set<Id>, id: Id, op: Op)
    ensures Perform(Behind(s, hs, calls), id, op) == Behind(Perform(s, id, op), hs, calls)
  {
  }

  lemma {:induction false} DriveBehind(s: System, hs: seq<Handler>, calls: set<Id>, h: Handler)
    ensures Drive(Behind(s, hs, calls), h) == (Behind(Drive(s, h).0, hs, calls), Drive(s, h).1)
    decreases Distance(h.pc)
  {
    hide Perform, NextHandler;
    var next := NextHandler(h, h.id in s.cancelled, IsRunning(s, h.id));
    NextIsNearer(h, h.id in s.cancelled, IsRunning(s, h.id));
    if next.0 != h {
      PerformBehind(s, hs, calls, h.id, next.1);
      DriveBehind(Perform(s, h.id, next.1), hs, calls, next.0);
    }
  }

  lemma HandleIsPerform(s: System, i: nat, next: (Handler, Op))
    requires i < |s.handlers|
    requires var h := s.handlers[i]; next == NextHandler(h, h.id in s.cancelled, IsRunning(s, h.id))
    ensures Apply(s, Handle(i)) == Behind(Perform(s, s.handlers[i].id, next.1), s.handlers[i := next.0], s.cancelling)
  {
    hide NextHandler;
  }

  /** Driving handler i alone is a run of `Handle(i)` steps. */
  lemma {:induction false} DriveIsRun(s: System, i: nat) returns (steps: seq<Step>)
    requires i < |s.handlers|
    ensures var d := Drive(s, s.handlers[i]); After(s, steps) == Behind(d.0, s.handlers[i := d.1], s.cancelling)
    decreases Distance(s.handlers[i].pc)
  {
    hide Apply, Perform, NextHandler;
    var h := s.handlers[i];
    var next := NextHandler(h, h.id in s.cancelled, IsRunning(s, h.id));
    NextIsNearer(h, h.id in s.cancelled, IsRunning(s, h.id));
    DriveBehind(s, s.handlers, s.cancelling, h);
    if next.0 == h {
      steps := [];
      assert s.handlers[i := h] == s.handlers;
    } else {
      var s1 := Perform(s, h.id, next.1);
      var hs := s.handlers[i := next.0];
      HandleIsPerform(s, i, next);
      var more := DriveIsRun(Behind(s1, hs, s.cancelling), i);
      DriveBehind(s1, hs, s.cancelling, next.0);
      AfterFront(s, Handle(i), more);
      steps := [Handle(i)] + more;
      assert hs[i := Drive(s1, next.0).1] == s.handlers[i := Drive(s1, next.0).1];
    }
  }

  lemma {:induction false} ThreadBehind(s: System, hs: seq<Handler>, calls: set<Id>, h: Handler, acts: seq<Act>)
    ensures RunThread(Behind(s, hs, calls), h, acts) == (Behind(RunThread(s, h, acts).0, hs, calls), RunThread(s, h, acts).1)
    decreases |acts|
  {
    hide Perform, NextThread;
    if acts != [] {
      var next := NextThread(h, h.id in s.cancelled, acts[0]);
      PerformBehind(s, hs, calls, h.id, next.1);
      ThreadBehind(Perform(s, h.id, next.1), hs, calls, next.0, acts[1..]);
    }
  }

  lemma RunIsPerform(s: System, i: nat, act: Act, next: (Handler, Op))
    requires i < |s.handlers| && next == NextThread(s.handlers[i], s.handlers[i].id in s.cancelled, act)
    ensures Apply(s, Run(i, act)) == Behind(Perform(s, s.handlers[i].id, next.1), s.handlers[i := next.0], s.cancelling)
  {
    hide NextThread, TasksAfter, BrokerStep, SubmitStep, PostStep, ScanStep;
  }

  lemma {:induction false} ThreadIsRun(s: System, i: nat, acts: seq<Act>) returns (steps: seq<Step>)
    requires i < |s.handlers|
    ensures var d := RunThread(s, s.handlers[i], acts); After(s, steps) == Behind(d.0, s.handlers[i := d.1], s.cancelling)
    decreases |acts|
  {
    hide Apply, Perform, NextThread;
    var h := s.handlers[i];
    ThreadBehind(s, s.handlers, s.cancelling, h, acts);
    if acts == [] {
      steps := [];
      assert s.handlers[i := h] == s.handlers;
    } else {
      var next := NextThread(h, h.id in s.cancelled, acts[0]);
      var s1 := Perform(s, h.id, next.1);
      var hs := s.handlers[i := next.0];
      RunIsPerform(s, i, acts[0], next);
      var more := ThreadIsRun(Behind(s1, hs, s.cancelling), i, acts[1..]);
      ThreadBehind(s1, hs, s.cancelling, next.0, acts[1..]);
      AfterFront(s, Run(i, acts[0]), more);
      steps := [Run(i, acts[0])] + more;
      assert hs[i := RunThread(s1, next.0, acts[1..]).1] == s.handlers[i := RunThread(s1, next.0, acts[1..]).1];
    }
  }

  lemma GiveUpStep(s: System, i: nat)
    requires i < |s.handlers|
    ensures Apply(s, GiveUp(i)) == s.(handlers := s.handlers[i := NextGiveUp(s.handlers[i])])
  {
  }

  lemma FlagStep(s: System, id: Id)
    requires id in s.cancelling
    ensures Apply(s, CancelWrite(id)) == FlagRaised(s, id, true).(cancelling := s.cancelling - {id})
  {
  }

  lemma AwaitedIsRun(s: System, i: nat, ending: Ending) returns (steps: seq<Step>, hs: seq<Handler>)
    requires i < |s.handlers|
    ensures After(s, steps) == Behind(Awaited(s, s.handlers[i], ending), hs, s.cancelling)
  {
    hide Apply, Drive, RunThread, NextGiveUp;
    var thread := ThreadIsRun(s, i, Acts(ending));
    var (s1, h1) := RunThread(s, s.handlers[i], Acts(ending));
    var hs1 := s.handlers[i := h1];
    var t := Behind(s1, hs1, s.cancelling);
    var give := if ending.OverTime? then [GiveUp(i)] else [];
    var h2 := if ending.OverTime? then NextGiveUp(h1) else h1;
    var hs2 := hs1[i := h2];
    GiveUpStep(t, i);
    AfterFront(t, GiveUp(i), []);
    assert [GiveUp(i)] + [] == [GiveUp(i)];
    assert After(t, give) == Behind(s1, hs2, s.cancelling) by { assert hs1[i := h1] == hs1; }
    var rest := DriveIsRun(Behind(s1, hs2, s.cancelling), i);
    DriveBehind(s1, hs2, s.cancelling, h2);
    AfterConcat(s, thread, give);
    AfterConcat(s, thread + give, rest);
    steps := thread + give + rest;
    hs := hs2[i := Drive(s1, h2).1];
  }

  /** Handling one message without interference is a run of the protocol. */
  lemma HandledIsRun(s: System, i: nat, ending: Ending, raised: bool)
    returns (steps: seq<Step>, hs: seq<Handler>, calls: set<Id>)
    requires i < |s.handlers| && s.handlers[i] == Fresh(s.handlers[i].id, s.handlers[i].job)
    requires raised ==> s.handlers[i].id in s.cancelling
    ensures After(s, steps) == Behind(Handled(s, s.handlers[i].id, s.handlers[i].job, ending, raised), hs, calls)
  {
    hide Apply, Drive, Awaited;
    var h := s.handlers[i];
    var begin := DriveIsRun(s, i);
    var (s1, h1) := Drive(s, h);
    var hs1 := s.handlers[i := h1];
    steps, hs, calls := begin, hs1, s.cancelling;
    if h1.pc.Await? {
      var t := Behind(s1, hs1, s.cancelling);
      var flag := if raised then [CancelWrite(h.id)] else [];
      calls := if raised then s.cancelling - {h.id} else s.cancelling;
      if raised {
        FlagStep(t, h.id);
        AfterFront(t, CancelWrite(h.id), []);
        assert [CancelWrite(h.id)] + [] == [CancelWrite(h.id)];
      }
      var u := FlagRaised(s1, h.id, raised);
      assert After(t, flag) == Behind(u, hs1, calls);
      var rest, last := AwaitedIsRun(Behind(u, hs1, calls), i, ending);
      AwaitedBehind(u, hs1, calls, h1, ending);
      AfterConcat(s, begin, flag);
      AfterConcat(s, begin + flag, rest);
      steps, hs := begin + flag + rest, last;
    }
  }

  lemma AwaitedBehind(s: System, hs: seq<Handler>, calls: set<Id>, h: Handler, ending: Ending)
    ensures Awaited(Behind(s, hs, calls), h, ending) == Behind(Awaited(s, h, ending), hs, calls)
  {
    hide Drive, RunThread, NextGiveUp;
    ThreadBehind(s, hs, calls, h, Acts(ending));
    var (s1, h1) := RunThread(s, h, Acts(ending));
    DriveBehind(s1, hs, calls, if ending.OverTime? then NextGiveUp(h1) else h1);
  }

  // ---- what driving a handler comes to ----

  lemma DriveOnce(s: System, h: Handler)
    ensures var next := NextHandler(h, h.id in s.cancelled, IsRunning(s, h.id));
      Drive(s, h) == if next.0 == h then (s, h) else Drive(if next.1.Skip? then s else Perform(s, h.id, next.1), next.0)
  {
    hide NextHandler;
  }

  lemma AttemptBegins(s: System, id: Id, retry: nat)
    ensures var h := Fresh(id, Attempt(retry));
      Drive(s, h) == if id in s.cancelled then (Perform(s, id, Transit(Cancelled)), h.(pc := Done))
                     else (Perform(Perform(s, id, StartAttempt(retry)), id, Launched), AtWork(id, Attempt(retry)))
  {
    hide Perform, Drive;
    var h := Fresh(id, Attempt(retry));
    if id in s.cancelled {
      DriveOnce(s, h); DriveOnce(s, h.(pc := EarlyCancel)); DriveOnce(Perform(s, id, Transit(Cancelled)), h.(pc := Done));
    } else {
      var s1 := Perform(s, id, StartAttempt(retry));
      DriveOnce(s, h); DriveOnce(s, h.(pc := Start)); DriveOnce(s1, h.(pc := Launch));
      DriveOnce(Perform(s1, id, Launched), AtWork(id, Attempt(retry)));
    }
  }

  lemma AttemptReturned(s: System, h: Handler)
    requires h.job.Attempt? && h.pc.Await? && (h.thread.Returned? || h.thread.ReturnedCancelled?)
    ensures Drive(s, h).0 == if h.thread.Returned? then Perform(s, h.id, Transit(Success)) else s
  {
    hide Perform, Drive;
    DriveOnce(s, h);
    if h.thread.Returned? {
      DriveOnce(s, h.(pc := Succeed));
      DriveOnce(Perform(s, h.id, Transit(Success)), h.(pc := Done));
    } else {
      DriveOnce(s, h.(pc := Done));
    }
  }

  function CancelledBy(s: System, id: Id): System { Perform(Perform(s, id, Transit(Cancelled)), id, ClearCancel) }

  lemma AttemptCancelled(s: System, h: Handler)
    requires h.job.Attempt? && h.pc.CancelMark?
    ensures Drive(s, h).0 == CancelledBy(s, h.id)
  {
    hide Perform, Drive;
    var s1 := Perform(s, h.id, Transit(Cancelled));
    DriveOnce(s, h); DriveOnce(s1, h.(pc := ClearFlag)); DriveOnce(Perform(s1, h.id, ClearCancel), h.(pc := Done));
  }

  lemma AttemptTimedOut(s: System, h: Handler)
    requires h.job.Attempt? && (h.pc.TimeoutCheck? || (h.pc.Await? && h.thread == Raised(true)))
    ensures Drive(s, h).0 == if h.id in s.cancelled then CancelledBy(s, h.id) else Perform(s, h.id, Transit(Timeout))
  {
    hide Perform, Drive;
    if h.pc.Await? { DriveOnce(s, h); }
    DriveOnce(s, h.(pc := TimeoutCheck));
    if h.id in s.cancelled {
      AttemptCancelled(s, h.(pc := CancelMark));
    } else {
      DriveOnce(s, h.(pc := TimeoutMark)); DriveOnce(Perform(s, h.id, Transit(Timeout)), h.(pc := Done));
    }
  }

  lemma AttemptRepublishes(s: System, h: Handler)
    requires h.job.Attempt? && h.pc.Republish?
    ensures Drive(s, h).0 == Perform(Perform(s, h.id, Resend(h.job.retry + 1)), h.id, SetRetry(h.job.retry + 1))
  {
    hide Perform, Drive;
    var s1 := Perform(s, h.id, Resend(h.job.retry + 1));
    DriveOnce(s, h); DriveOnce(s1, h.(pc := NoteRetry));
    DriveOnce(Perform(s1, h.id, SetRetry(h.job.retry + 1)), h.(pc := Done));
  }

  lemma AttemptExhausted(s: System, h: Handler)
    requires h.job.Attempt? && h.pc.Exhaust?
    ensures Drive(s, h).0 == Perform(Perform(s, h.id, Transit(Status.Failed)), h.id, Bury)
  {
    hide Perform, Drive;
    var s1 := Perform(s, h.id, Transit(Status.Failed));
    DriveOnce(s, h); DriveOnce(s1, h.(pc := DeadLetter)); DriveOnce(Perform(s1, h.id, Bury), h.(pc := Done));
  }

  lemma AttemptRaised(s: System, h: Handler)
    requires h.job.Attempt? && h.pc.Await? && h.thread == Raised(false)
    ensures Drive(s, h).0 ==
      if h.id in s.cancelled then CancelledBy(s, h.id)
      else if h.job.retry < MAX_RETRIES then Perform(Perform(s, h.id, Resend(h.job.retry + 1)), h.id, SetRetry(h.job.retry + 1))
      else Perform(Perform(s, h.id, Transit(Status.Failed)), h.id, Bury)
  {
    hide Perform, Drive, CancelledBy;
    DriveOnce(s, h); DriveOnce(s, h.(pc := ErrorCheck));
    if h.id in s.cancelled {
      AttemptCancelled(s, h.(pc := CancelMark));
    } else if h.job.retry < MAX_RETRIES {
      AttemptRepublishes(s, h.(pc := Republish));
    } else {
      AttemptExhausted(s, h.(pc := Exhaust));
    }
  }

  /** What the pipeline leaves behind in each case. */
  lemma ThreadEnds(s: System, h: Handler, ending: Ending)
    requires h.thread.Working? && (ending.SawFlag? ==> h.id in s.cancelled)
    ensures RunThread(s, h, Acts(ending)) ==
      match ending
      case SawFlag => (CancelledBy(s, h.id), h.(thread := ReturnedCancelled))
      case Finished(sql) =>
        (Perform(s, h.id, if h.job.Attempt? then SetSql(sql) else StoreRound(sql, h.job.turns + [|h.job.turns| + 1])), h.(thread := Returned))
      case Failed(timeout) => (s, h.(thread := Raised(timeout)))
      case OverTime => (s, h)
  {
    hide TasksAfter;
    if ending.SawFlag? {
      var s1 := Perform(s, h.id, Transit(Cancelled));
      assert Acts(ending)[1..] == [CheckFlag, CheckFlag] && Acts(ending)[1..][1..] == [CheckFlag];
      assert RunThread(s1, h.(thread := Clearing), [CheckFlag]) == (Perform(s1, h.id, ClearCancel), h.(thread := ReturnedCancelled));
    } else if !ending.OverTime? {
      assert Acts(ending)[1..] == [];
    }
  }

  lemma RoundBegins(s: System, id: Id, turns: seq<nat>)
    ensures var h := Fresh(id, Round(turns));
      Drive(s, h) == if IsRunning(s, id) then (s, h.(pc := Done, check := SawRunning))
                     else (Perform(s, id, StartRound), AtWork(id, Round(turns)))
  {
    hide Perform, Drive;
    var h := Fresh(id, Round(turns));
    DriveOnce(s, h);
    if IsRunning(s, id) {
      DriveOnce(s, h.(pc := Done, check := SawRunning));
    } else {
      var s1 := Perform(s, id, StartRound);
      DriveOnce(s, h.(pc := Start, check := SawOther));
      DriveOnce(s1, h.(pc := Launch, check := SawOther));
      DriveOnce(s1, AtWork(id, Round(turns)));
    }
  }

  lemma RoundEnds(s: System, h: Handler, next: Status)
    requires h.job.Round?
    requires next.Success? ==> h.pc.Await? && h.thread.Returned?
    requires next.Timeout? ==> h.pc.TimeoutMark? || (h.pc.Await? && h.thread == Raised(true))
    requires next.Failed? ==> h.pc.Await? && h.thread == Raised(false)
    requires next.Success? || next.Timeout? || next.Failed?
    ensures Drive(s, h).0 == Perform(s, h.id, Transit(next))
  {
    hide Perform, Drive;
    DriveOnce(s, h);
    DriveOnce(s, h.(pc := if next.Success? then Succeed else if next.Timeout? then TimeoutMark else Exhaust));
    DriveOnce(Perform(s, h.id, Transit(next)), h.(pc := Done));
  }

  lemma RoundCancelled(s: System, h: Handler)
    requires h.job.Round? && h.pc.Await? && h.thread.ReturnedCancelled?
    ensures Drive(s, h).0 == s
  {
    hide Perform, Drive;
    DriveOnce(s, h); DriveOnce(s, h.(pc := Done));
  }

  // ---- the outcome of one message ----

  /** The status one attempt leaves a task in: RUNNING means that a successor request is out. */
  function Verdict(flagged: bool, retry: nat, ending: Ending, raised: bool): Status {
    if flagged || (raised && !ending.Finished?) then Cancelled
    else match ending
      case Finished(_) => Success
      case Failed(timeout) => if timeout then Timeout else if retry < MAX_RETRIES then Running else Status.Failed
      case _ => Timeout
  }

  /** What one message has brought about so far: the status it leads to, the SQL stored if any, pipeline
      runs, dead letters and successor requests, and the cancel flags that stand. */
  datatype Effect = Effect(
    status: Status, sql: Option<string>, runs: nat, buried: nat, again: nat, flags: set<Id>)

  /** From s0 to s the task went to this status, unless it had already ended, and holds the SQL stored,
      or else its old one; its retry count is the successor's if there is one, that of the attempt if it
      started the task, and else the old one.  All else is untouched. */
  ghost predicate WentTo(s0: System, s: System, id: Id, retry: nat, e: Effect) {
    && s.tasks.Keys == s0.tasks.Keys
    && (id in s0.tasks ==>
          var t, ended := s0.tasks[id], Terminal(s0.tasks[id].status);
          && s.tasks[id].status == (if ended then t.status else e.status)
          && s.tasks[id].sql == (if e.sql.Some? then e.sql.value else t.sql)
          && s.tasks[id].retryCount == (if e.again > 0 then retry + 1 else if e.runs > 0 && t.status.Pending? then retry else t.retryCount)
          && s.tasks[id].turns == t.turns)
    && (forall x :: x in s0.tasks && x != id ==> s.tasks[x] == s0.tasks[x])
    && s.started == s0.started + multiset{}[id := e.runs]
    && s.dead == s0.dead + multiset{}[id := e.buried]
    && s.topic == s0.topic + multiset{}[Request(id, retry + 1) := e.again]
    && s.sent == s0.sent + (if e.again > 0 then {Request(id, retry + 1)} else {})
    && s.cancelled == e.flags
    && s == s0.(tasks := s.tasks, started := s.started, dead := s.dead, topic := s.topic, sent := s.sent, cancelled := s.cancelled)
  }

  lemma Transits(s0: System, s: System, id: Id, retry: nat, e: Effect, next: Status)
    requires WentTo(s0, s, id, retry, e) && Terminal(next) && (e.status.Running? || e.status == next)
    ensures WentTo(s0, Perform(s, id, Transit(next)), id, retry, e.(status := next))
  {
  }

  lemma CancelledWent(s0: System, s: System, id: Id, retry: nat, e: Effect)
    requires WentTo(s0, s, id, retry, e) && e.status.Running?
    ensures WentTo(s0, CancelledBy(s, id), id, retry, e.(status := Cancelled, flags := e.flags - {id}))
  {
    Transits(s0, s, id, retry, e, Cancelled);
    hide TasksAfter;
  }

  /** An attempt that has just begun. */
  function Begun(s: System, id: Id, raised: bool): Effect {
    Effect(Running, None, 1, 0, 0, if raised then s.cancelled + {id} else s.cancelled)
  }

  lemma StartsAs(s: System, id: Id, retry: nat, raised: bool)
    ensures var s' := FlagRaised(Perform(Perform(s, id, StartAttempt(retry)), id, Launched), id, raised);
      WentTo(s, s', id, retry, Begun(s, id, raised))
  {
  }

  lemma Resends(s0: System, s: System, id: Id, retry: nat, e: Effect)
    requires WentTo(s0, s, id, retry, e) && e.again == 0
    ensures WentTo(s0, Perform(Perform(s, id, Resend(retry + 1)), id, SetRetry(retry + 1)), id, retry, e.(again := 1))
  {
  }

  lemma Buries(s0: System, s: System, id: Id, retry: nat, e: Effect)
    requires WentTo(s0, s, id, retry, e) && e.status.Running? && e.buried == 0
    ensures WentTo(s0, Perform(Perform(s, id, Transit(Status.Failed)), id, Bury), id, retry, e.(status := Status.Failed, buried := 1))
  {
    Transits(s0, s, id, retry, e, Status.Failed);
    hide TasksAfter;
  }

  lemma SqlStored(s0: System, s: System, id: Id, retry: nat, e: Effect, sql: string)
    requires WentTo(s0, s, id, retry, e)
    ensures WentTo(s0, Perform(s, id, SetSql(sql)), id, retry, e.(sql := Some(sql)))
  {
  }

  lemma CancelledEarly(s: System, id: Id, retry: nat)
    ensures WentTo(s, Perform(s, id, Transit(Cancelled)), id, retry, Effect(Cancelled, None, 0, 0, 0, s.cancelled))
  {
  }

  /** The flags after one attempt: whoever marks the task CANCELLED once it ran takes its flag down. */
  function FlagsLeft(s: System, id: Id, ending: Ending, raised: bool): set<Id> {
    if id in s.cancelled || !raised then s.cancelled
    else if ending.Finished? then s.cancelled + {id} else s.cancelled - {id}
  }

  /** `handle_task` in one table: the status it leaves behind; the SQL the pipeline returned, and the old
      one if it returned none; one successor request with the next retry number if and only if the task is
      to go on; a dead letter if and only if it failed for good.  A task that had already ended keeps its
      status. */
  lemma AttemptOutcome(s: System, id: Id, retry: nat, ending: Ending, raised: bool)
    requires ending.SawFlag? ==> raised
    ensures var flagged := id in s.cancelled; var verdict := Verdict(flagged, retry, ending, raised);
      WentTo(s, Handled(s, id, Attempt(retry), ending, raised), id, retry,
        Effect(verdict, if !flagged && ending.Finished? then Some(ending.sql) else None, if flagged then 0 else 1,
               if verdict.Failed? then 1 else 0, if verdict.Running? then 1 else 0, FlagsLeft(s, id, ending, raised)))
  {
    hide Perform, Drive, RunThread, CancelledBy, FlagRaised, WentTo;
    AttemptBegins(s, id, retry);
    CancelledEarly(s, id, retry);
    if id !in s.cancelled {
      var s1 := FlagRaised(Perform(Perform(s, id, StartAttempt(retry)), id, Launched), id, raised);
      StartsAs(s, id, retry, raised);
      AwaitedOutcome(s, s1, id, retry, ending, raised);
      assert s.cancelled - {id} == s.cancelled && s.cancelled + {id} - {id} == s.cancelled;
    }
  }

  function Ended(e: Effect, retry: nat, id: Id, ending: Ending, raised: bool): Effect {
    var verdict := Verdict(false, retry, ending, raised);
    Effect(verdict, if ending.Finished? then Some(ending.sql) else None, 1,
           if verdict.Failed? then 1 else 0, if verdict.Running? then 1 else 0,
           if verdict.Cancelled? then e.flags - {id} else e.flags)
  }

  /** The pipeline's end, and what the handler makes of it. */
  lemma AwaitedOutcome(s: System, s1: System, id: Id, retry: nat, ending: Ending, raised: bool)
    requires (ending.SawFlag? ==> raised) && id !in s.cancelled
    requires WentTo(s, s1, id, retry, Begun(s, id, raised))
    ensures WentTo(s, Awaited(s1, AtWork(id, Attempt(retry)), ending), id, retry, Ended(Begun(s, id, raised), retry, id, ending, raised))
  {
    assert id in s1.cancelled <==> raised;
    hide WentTo, Awaited, AtWork, Ended, Begun;
    match ending
    case SawFlag => AwaitedFlag(s, s1, id, retry, raised);
    case Finished(sql) => AwaitedReturn(s, s1, id, retry, sql, raised);
    case OverTime => AwaitedTime(s, s1, id, retry, ending, raised);
    case Failed(timeout) => if timeout { AwaitedTime(s, s1, id, retry, ending, raised); } else { AwaitedError(s, s1, id, retry, raised); }
  }

  lemma AwaitedFlag(s: System, s1: System, id: Id, retry: nat, raised: bool)
    requires raised && id in s1.cancelled && WentTo(s, s1, id, retry, Begun(s, id, raised))
    ensures WentTo(s, Awaited(s1, AtWork(id, Attempt(retry)), SawFlag), id, retry, Ended(Begun(s, id, raised), retry, id, SawFlag, raised))
  {
    hide Perform, Drive, RunThread, CancelledBy, WentTo;
    var h := AtWork(id, Attempt(retry));
    ThreadEnds(s1, h, SawFlag);
    AttemptReturned(CancelledBy(s1, id), h.(thread := ReturnedCancelled));
    CancelledWent(s, s1, id, retry, Begun(s, id, raised));
  }

  lemma AwaitedReturn(s: System, s1: System, id: Id, retry: nat, sql: string, raised: bool)
    requires WentTo(s, s1, id, retry, Begun(s, id, raised))
    ensures WentTo(s, Awaited(s1, AtWork(id, Attempt(retry)), Finished(sql)), id, retry,
                   Ended(Begun(s, id, raised), retry, id, Finished(sql), raised))
  {
    hide Perform, Drive, RunThread, CancelledBy, WentTo;
    var h := AtWork(id, Attempt(retry));
    ThreadEnds(s1, h, Finished(sql));
    AttemptReturned(Perform(s1, id, SetSql(sql)), h.(thread := Returned));
    FinishedWent(s, s1, id, retry, Begun(s, id, raised), sql);
  }

  lemma AwaitedTime(s: System, s1: System, id: Id, retry: nat, ending: Ending, raised: bool)
    requires (ending == OverTime || ending == Ending.Failed(true)) && (id in s1.cancelled <==> raised)
    requires WentTo(s, s1, id, retry, Begun(s, id, raised))
    ensures WentTo(s, Awaited(s1, AtWork(id, Attempt(retry)), ending), id, retry, Ended(Begun(s, id, raised), retry, id, ending, raised))
  {
    hide Perform, Drive, RunThread, CancelledBy, WentTo;
    var h := AtWork(id, Attempt(retry));
    ThreadEnds(s1, h, ending);
    AttemptTimedOut(s1, if ending.OverTime? then NextGiveUp(h) else h.(thread := Raised(true)));
    TimedOutWent(s, s1, id, retry, Begun(s, id, raised));
  }

  lemma AwaitedError(s: System, s1: System, id: Id, retry: nat, raised: bool)
    requires (id in s1.cancelled <==> raised) && WentTo(s, s1, id, retry, Begun(s, id, raised))
    ensures WentTo(s, Awaited(s1, AtWork(id, Attempt(retry)), Ending.Failed(false)), id, retry,
                   Ended(Begun(s, id, raised), retry, id, Ending.Failed(false), raised))
  {
    hide Perform, Drive, RunThread, CancelledBy, WentTo;
    var h := AtWork(id, Attempt(retry));
    ThreadEnds(s1, h, Ending.Failed(false));
    AttemptRaised(s1, h.(thread := Raised(false)));
    RaisedWent(s, s1, id, retry, Begun(s, id, raised));
  }

  lemma FinishedWent(s: System, s1: System, id: Id, retry: nat, e: Effect, sql: string)
    requires WentTo(s, s1, id, retry, e) && e.status.Running?
    ensures WentTo(s, Perform(Perform(s1, id, SetSql(sql)), id, Transit(Success)), id, retry, e.(status := Success, sql := Some(sql)))
  {
    hide Perform, WentTo;
    SqlStored(s, s1, id, retry, e, sql);
    Transits(s, Perform(s1, id, SetSql(sql)), id, retry, e.(sql := Some(sql)), Success);
  }

  lemma TimedOutWent(s: System, s1: System, id: Id, retry: nat, e: Effect)
    requires WentTo(s, s1, id, retry, e) && e.status.Running?
    ensures id in s1.cancelled ==> WentTo(s, CancelledBy(s1, id), id, retry, e.(status := Cancelled, flags := e.flags - {id}))
    ensures id !in s1.cancelled ==> WentTo(s, Perform(s1, id, Transit(Timeout)), id, retry, e.(status := Timeout))
  {
    hide Perform, CancelledBy, WentTo;
    CancelledWent(s, s1, id, retry, e);
    Transits(s, s1, id, retry, e, Timeout);
  }

  lemma RaisedWent(s: System, s1: System, id: Id, retry: nat, e: Effect)
    requires WentTo(s, s1, id, retry, e) && e.status.Running? && e.again == e.buried == 0
    ensures id in s1.cancelled ==> WentTo(s, CancelledBy(s1, id), id, retry, e.(status := Cancelled, flags := e.flags - {id}))
    ensures WentTo(s, Perform(Perform(s1, id, Resend(retry + 1)), id, SetRetry(retry + 1)), id, retry, e.(again := 1))
    ensures WentTo(s, Perform(Perform(s1, id, Transit(Status.Failed)), id, Bury), id, retry, e.(status := Status.Failed, buried := 1))
  {
    hide Perform, CancelledBy, WentTo;
    CancelledWent(s, s1, id, retry, e);
    Resends(s, s1, id, retry, e);
    Buries(s, s1, id, retry, e);
  }

  predicate LeftAs(s': System, id: Id, status: Status, sql: string) {
    id in s'.tasks && s'.tasks[id].status == status && s'.tasks[id].sql == sql
  }

  predicate Open(s: System, id: Id) { id in s.tasks && (s.tasks[id].status.Pending? || s.tasks[id].status.Running?) }

  /** The table row by row, for a request of an open task whose cancel flag is down.  A pipeline that returns
      leaves the task SUCCESS with its SQL. */
  lemma ReturnedAttempt(s: System, id: Id, retry: nat, sql: string)
    requires Open(s, id) && id !in s.cancelled
    ensures var s' := Handled(s, id, Attempt(retry), Finished(sql), false);
      LeftAs(s', id, Success, sql) && s'.topic == s.topic && s'.dead == s.dead
  {
    hide Handled;
    AttemptOutcome(s, id, retry, Finished(sql), false);
  }

  /** One that raises leaves it RUNNING with a request for the next attempt, the fourth time FAILED with a
      dead letter. */
  lemma RaisedAttempt(s: System, id: Id, retry: nat)
    requires Open(s, id) && id !in s.cancelled
    ensures var s' := Handled(s, id, Attempt(retry), Ending.Failed(false), false);
      if retry < 3 then
        && LeftAs(s', id, Running, s.tasks[id].sql) && s'.tasks[id].retryCount == retry + 1
        && s'.topic == s.topic + multiset{Request(id, retry + 1)} && s'.dead == s.dead
      else LeftAs(s', id, Status.Failed, s.tasks[id].sql) && s'.topic == s.topic && s'.dead == s.dead + multiset{id}
  {
    hide Handled;
    AttemptOutcome(s, id, retry, Ending.Failed(false), false);
  }

  /** One over time, or raising a timeout of its own, leaves it TIMEOUT. */
  lemma LateAttempt(s: System, id: Id, retry: nat, ending: Ending)
    requires Open(s, id) && id !in s.cancelled && (ending == OverTime || ending == Ending.Failed(true))
    ensures var s' := Handled(s, id, Attempt(retry), ending, false);
      LeftAs(s', id, Timeout, s.tasks[id].sql) && s'.topic == s.topic && s'.dead == s.dead
  {
    hide Handled;
    AttemptOutcome(s, id, retry, ending, false);
  }

  /** And one cancelled meanwhile, unless it returns, leaves it CANCELLED with the flag down. */
  lemma CancelledAttempt(s: System, id: Id, retry: nat, ending: Ending)
    requires Open(s, id) && id !in s.cancelled && !ending.Finished?
    ensures var s' := Handled(s, id, Attempt(retry), ending, true);
      LeftAs(s', id, Cancelled, s.tasks[id].sql) && id !in s'.cancelled && s'.topic == s.topic && s'.dead == s.dead
  {
    hide Handled;
    AttemptOutcome(s, id, retry, ending, true);
  }

  function RoundVerdict(ending: Ending): Status {
    match ending
    case SawFlag => Cancelled
    case Finished(_) => Success
    case Failed(timeout) => if timeout then Timeout else Status.Failed
    case OverTime => Timeout
  }

  /** The state a round leaves its task in, and the cancel flags that stand.  All else is untouched. */
  ghost predicate RoundWent(s: System, s': System, id: Id, task: Task, flags: set<Id>) {
    && s'.tasks.Keys == s.tasks.Keys && id in s'.tasks && s'.tasks[id] == task
    && (forall x :: x in s.tasks && x != id ==> s'.tasks[x] == s.tasks[x])
    && s' == s.(tasks := s'.tasks, cancelled := flags)
  }

  predicate Reopens(status: Status) { status.Success? || status.Failed? }

  lemma RoundStarts(s: System, id: Id, raised: bool)
    requires id in s.tasks && Terminal(s.tasks[id].status)
    ensures var t := s.tasks[id];
      RoundWent(s, FlagRaised(Perform(s, id, StartRound), id, raised), id,
                if Reopens(t.status) then t.(status := Running) else t, if raised then s.cancelled + {id} else s.cancelled)
  {
  }

  lemma RoundTransits(s: System, s1: System, id: Id, task: Task, flags: set<Id>, next: Status)
    requires RoundWent(s, s1, id, task, flags) && Terminal(next)
    requires task.status.Running? || task.status.Timeout? || task.status.Cancelled?
    ensures RoundWent(s, Perform(s1, id, Transit(next)), id, if task.status.Running? then task.(status := next) else task, flags)
    ensures RoundWent(s, CancelledBy(s1, id), id,
                      if task.status.Running? then task.(status := Cancelled) else task, flags - {id})
  {
  }

  lemma RoundStores(s: System, s1: System, id: Id, task: Task, flags: set<Id>, sql: string, turns: seq<nat>)
    requires RoundWent(s, s1, id, task, flags)
    ensures RoundWent(s, Perform(s1, id, StoreRound(sql, turns)), id, task.(sql := sql, turns := turns), flags)
  {
  }

  /** What a round makes of a task that is not running: the status unless it cannot be reopened, and, if it
      finishes, the SQL returned and one more turn. */
  ghost predicate RoundLeaves(t: Task, t': Task, turns: seq<nat>, ending: Ending) {
    && t'.status == (if Reopens(t.status) then RoundVerdict(ending) else t.status)
    && t'.sql == (if ending.Finished? then ending.sql else t.sql)
    && t'.turns == (if ending.Finished? then turns + [|turns| + 1] else t.turns)
    && t'.retryCount == t.retryCount
  }

  /** `handle_feedback`: a running task's message is dropped; otherwise the round runs and, if it
      finishes, its SQL and its turn with the next number are stored, even for a task that timed out or was
      cancelled in between, whose status stays. */
  lemma RoundOutcome(s: System, id: Id, turns: seq<nat>, ending: Ending, raised: bool)
    requires id in s.tasks && !s.tasks[id].status.Pending? && (ending.SawFlag? ==> raised)
    ensures var s', t := Handled(s, id, Round(turns), ending, raised), s.tasks[id];
      if t.status.Running? then s' == s
      else
        && id in s'.tasks && RoundLeaves(t, s'.tasks[id], turns, ending)
        && RoundWent(s, s', id, s'.tasks[id],
             if ending.SawFlag? then s.cancelled - {id} else if raised then s.cancelled + {id} else s.cancelled)
  {
    hide Perform, Drive, RunThread, CancelledBy, FlagRaised, RoundWent;
    RoundBegins(s, id, turns);
    if !s.tasks[id].status.Running? {
      var s1, t := FlagRaised(Perform(s, id, StartRound), id, raised), s.tasks[id];
      var task := if Reopens(t.status) then t.(status := Running) else t;
      var flags := if raised then s.cancelled + {id} else s.cancelled;
      RoundStarts(s, id, raised);
      RaisedFlag(Perform(s, id, StartRound), id, raised);
      RoundAwaited(s, s1, id, task, flags, turns, ending);
      assert s.cancelled + {id} - {id} == s.cancelled - {id};
      RoundTask(s, Awaited(s1, AtWork(id, Round(turns)), ending), id, RoundEndsAs(task, turns, ending),
                if ending.SawFlag? then flags - {id} else flags);
      hide Awaited, AtWork;
    }
  }

  /** The task a round ends with, from the one it began with. */
  function RoundEndsAs(task: Task, turns: seq<nat>, ending: Ending): Task {
    var stored := if ending.Finished? then task.(sql := ending.sql, turns := turns + [|turns| + 1]) else task;
    if task.status.Running? then stored.(status := RoundVerdict(ending)) else stored
  }

  lemma RoundAwaited(s: System, s1: System, id: Id, task: Task, flags: set<Id>, turns: seq<nat>, ending: Ending)
    requires RoundWent(s, s1, id, task, flags) && (task.status.Running? || task.status.Timeout? || task.status.Cancelled?)
    requires ending.SawFlag? ==> id in s1.cancelled
    ensures RoundWent(s, Awaited(s1, AtWork(id, Round(turns)), ending), id, RoundEndsAs(task, turns, ending),
                      if ending.SawFlag? then flags - {id} else flags)
  {
    hide Perform, Drive, RunThread, CancelledBy, RoundWent;
    var h := AtWork(id, Round(turns));
    ThreadEnds(s1, h, ending);
    match ending
    case SawFlag =>
      RoundCancelled(CancelledBy(s1, id), h.(thread := ReturnedCancelled));
      RoundTransits(s, s1, id, task, flags, Cancelled);
    case Finished(sql) =>
      var s2, more := Perform(s1, id, StoreRound(sql, turns + [|turns| + 1])), turns + [|turns| + 1];
      RoundEnds(s2, h.(thread := Returned), Success);
      RoundStores(s, s1, id, task, flags, sql, more);
      RoundTransits(s, s2, id, task.(sql := sql, turns := more), flags, Success);
    case OverTime =>
      RoundEnds(s1, NextGiveUp(h), Timeout);
      RoundTransits(s, s1, id, task, flags, Timeout);
    case Failed(timeout) =>
      RoundEnds(s1, h.(thread := Raised(timeout)), RoundVerdict(ending));
      RoundTransits(s, s1, id, task, flags, RoundVerdict(ending));
  }

  lemma RoundTask(s: System, s': System, id: Id, task: Task, flags: set<Id>)
    requires RoundWent(s, s', id, task, flags)
    ensures id in s'.tasks && s'.tasks[id] == task
  {
  }

  /** And of a round on a task that had succeeded or failed: with the SQL and one turn more if it returns,
      with a new status only if it does not. */
  lemma RoundCases(s: System, id: Id, turns: seq<nat>, ending: Ending)
    requires id in s.tasks && (s.tasks[id].status.Success? || s.tasks[id].status.Failed?)
    ensures var s', t := Handled(s, id, Round(turns), ending, ending.SawFlag?), s.tasks[id];
      && id in s'.tasks
      && match ending
         case Finished(sql) =>
           s'.tasks[id].status.Success? && s'.tasks[id].sql == sql && s'.tasks[id].turns == turns + [|turns| + 1]
         case SawFlag => s'.tasks[id] == t.(status := Cancelled)
         case OverTime => s'.tasks[id] == t.(status := Timeout)
         case Failed(timeout) => s'.tasks[id] == t.(status := if timeout then Timeout else Status.Failed)
  {
    hide Handled;
    RoundOutcome(s, id, turns, ending, ending.SawFlag?);
  }

  lemma RaisedFlag(s: System, id: Id, raised: bool)
    ensures raised ==> id in FlagRaised(s, id, raised).cancelled
  {
  }

  /** A save that lands after the round is over takes the stored turn away again and leaves the finished
      task RUNNING: the gateway writes back what it read before. */
  lemma LateSaveErasesTurn(s: System, p: Post, sql: string)
    requires p in s.posts && p.sent && p.id in s.tasks && s.tasks[p.id] == p.snap && Reopens(p.snap.status)
    ensures var s1 := Handled(s, p.id, Round(p.snap.turns), Finished(sql), false);
      var s2 := Apply(s1, PostSave(p));
      && p.id in s1.tasks && s1.tasks[p.id].status.Success? && s1.tasks[p.id].sql == sql
      && s1.tasks[p.id].turns == p.snap.turns + [|p.snap.turns| + 1]
      && p.id in s2.tasks && s2.tasks[p.id].status.Running? && s2.tasks[p.id].sql == p.snap.sql
      && s2.tasks[p.id].turns == p.snap.turns
  {
    RoundOutcome(s, p.id, p.snap.turns, Finished(sql), false);
    hide Handled;
  }

  // ---- the worker ----

  class Worker {
    const store: Store
    var requests: seq<Message>
    var runs: seq<Id>
    var deadLetters: seq<Id>
    ghost var sent: set<Message>

    constructor (store: Store)
      ensures this.store == store && requests == [] && runs == [] && deadLetters == [] && sent == {}
    {
      this.store := store;
      requests, runs, deadLetters, sent := [], [], [], {};
    }

    /** The protocol's view of this worker's store and topics. */
    ghost function View(): System
      reads this, store
    {
      EMPTY.(tasks := store.tasks, cancelled := store.cancelled, topic := multiset(requests), sent := sent,
             started := multiset(runs), dead := multiset(deadLetters))
    }

    method Transition(id: Id, next: Status)
      modifies store`tasks
      ensures View() == Perform(old(View()), id, Transit(next))
    {
      store.TaskTransition(id, next, None);
    }

    method ClearCancel(id: Id)
      modifies store`cancelled
      ensures View() == Perform(old(View()), id, Op.ClearCancel)
    {
      store.ClearCancel(id);
    }

    /** What the pipeline thread does to the store before it ends. */
    method RunGraph(h: Handler, ending: Ending)
      requires h.thread.Working? && (ending.SawFlag? ==> h.id in store.cancelled)
      modifies store`tasks, store`cancelled
      ensures View() == RunThread(old(View()), h, Acts(ending)).0
    {
      ThreadEnds(View(), h, ending);
      match ending
      case SawFlag =>
        Transition(h.id, Cancelled);
        ClearCancel(h.id);
      case Finished(sql) =>
        store.TaskUpdate(h.id, Some(sql), None, if h.job.Attempt? then None else Some(h.job.turns + [|h.job.turns| + 1]));
      case Failed(_) =>
      case OverTime =>
    }

    method HandleTask(r: Message, ending: Ending, raised: bool)
      requires r.Request?
      requires ending.SawFlag? ==> raised
      modifies this, store`tasks, store`cancelled
      ensures View() == Handled(old(View()), r.id, Attempt(r.retry), ending, raised)
    {
      hide Perform, Drive, RunThread, Awaited;
      AttemptBegins(View(), r.id, r.retry);
      if r.id in store.cancelled {
        Transition(r.id, Cancelled);
        return;
      }
      StartAttempt(r);
      RaiseFlag(r.id, raised);
      AwaitPipeline(r, ending);
    }

    method StartAttempt(r: Message)
      requires r.Request?
      modifies this`runs, store`tasks
      ensures View() == Perform(Perform(old(View()), r.id, Op.StartAttempt(r.retry)), r.id, Launched)
    {
      store.TaskTransition(r.id, Running, Some(r.retry));
      runs := runs + [r.id];
    }

    method RaiseFlag(id: Id, raised: bool)
      modifies store`cancelled
      ensures View() == FlagRaised(old(View()), id, raised)
    {
      if raised {
        store.RequestCancel(id);
      }
    }

    method AwaitPipeline(r: Message, ending: Ending)
      requires r.Request?
      requires ending.SawFlag? ==> r.id in store.cancelled
      modifies this, store`tasks, store`cancelled
      ensures View() == Awaited(old(View()), AtWork(r.id, Attempt(r.retry)), ending)
    {
      hide Perform, Drive, RunThread;
      ghost var h := AtWork(r.id, Attempt(r.retry));
      ThreadEnds(View(), h, ending);
      RunGraph(AtWork(r.id, Attempt(r.retry)), ending);
      ghost var s := View();
      match ending
      case SawFlag =>
        AttemptReturned(s, h.(thread := ReturnedCancelled));
      case Finished(sql) =>
        AttemptReturned(s, h.(thread := Returned));
        Transition(r.id, Success);
      case OverTime =>
        AttemptTimedOut(s, NextGiveUp(h));
        OnTimeout(r.id);
      case Failed(timeout) =>
        if timeout {
          AttemptTimedOut(s, h.(thread := Raised(true)));
          OnTimeout(r.id);
        } else {
          AttemptRaised(s, h.(thread := Raised(false)));
          OnError(r);
        }
    }

    method HandleFeedback(f: Message, ending: Ending, raised: bool)
      requires f.Feedback?
      requires ending.SawFlag? ==> raised
      modifies this, store`tasks, store`cancelled
      ensures View() == Handled(old(View()), f.id, Round(f.turns), ending, raised)
    {
      hide Perform, Drive, RunThread, Awaited;
      RoundBegins(View(), f.id, f.turns);
      if f.id in store.tasks && store.tasks[f.id].status.Running? {
        return;
      }
      StartRound(f.id);
      RaiseFlag(f.id, raised);
      AwaitRound(f, ending);
    }

    method StartRound(id: Id)
      modifies store`tasks
      ensures View() == Perform(old(View()), id, Op.StartRound)
    {
      store.FeedbackTransition(id);
    }

    method AwaitRound(f: Message, ending: Ending)
      requires f.Feedback?
      requires ending.SawFlag? ==> f.id in store.cancelled
      modifies this, store`tasks, store`cancelled
      ensures View() == Awaited(old(View()), AtWork(f.id, Round(f.turns)), ending)
    {
      hide Perform, Drive, RunThread;
      ghost var h := AtWork(f.id, Round(f.turns));
      ThreadEnds(View(), h, ending);
      RunGraph(AtWork(f.id, Round(f.turns)), ending);
      ghost var s := View();
      match ending
      case SawFlag =>
        RoundCancelled(s, h.(thread := ReturnedCancelled));
      case Finished(sql) =>
        RoundEnds(s, h.(thread := Returned), Success);
        Transition(f.id, Success);
      case OverTime =>
        RoundEnds(s, NextGiveUp(h), Timeout);
        Transition(f.id, Timeout);
      case Failed(timeout) =>
        RoundEnds(s, h.(thread := Raised(timeout)), if timeout then Timeout else Status.Failed);
        Transition(f.id, if timeout then Timeout else Status.Failed);
    }

    method OnTimeout(id: Id)
      modifies store`tasks, store`cancelled
      ensures View() == if id in old(store.cancelled) then CancelledBy(old(View()), id) else Perform(old(View()), id, Transit(Timeout))
    {
      if id in store.cancelled {
        Transition(id, Cancelled);
        ClearCancel(id);
      } else {
        Transition(id, Timeout);
      }
    }

    method OnError(r: Message)
      requires r.Request?
      modifies this, store`tasks, store`cancelled
      ensures View() ==
        if r.id in old(store.cancelled) then CancelledBy(old(View()), r.id)
        else if r.retry < MAX_RETRIES then Perform(Perform(old(View()), r.id, Resend(r.retry + 1)), r.id, SetRetry(r.retry + 1))
        else Perform(Perform(old(View()), r.id, Transit(Status.Failed)), r.id, Bury)
    {
      hide Perform;
      if r.id in store.cancelled {
        Transition(r.id, Cancelled);
        ClearCancel(r.id);
      } else if r.retry < MAX_RETRIES {
        Publish(Request(r.id, r.retry + 1));
        NoteRetry(r.id, r.retry + 1);
      } else {
        Transition(r.id, Status.Failed);
        PublishDeadLetter(r.id);
      }
    }

    method Publish(r: Message)
      requires r.Request?
      modifies this`requests, this`sent
      ensures View() == Perform(old(View()), r.id, Resend(r.retry))
    {
      requests := requests + [r];
      sent := sent + {r};
    }

    method NoteRetry(id: Id, retry: nat)
      modifies store`tasks
      ensures View() == Perform(old(View()), id, SetRetry(retry))
    {
      store.TaskUpdate(id, None, Some(retry), None);
    }

    method PublishDeadLetter(id: Id)
      modifies this`deadLetters
      ensures View() == Perform(old(View()), id, Bury)
    {
      deadLetters := deadLetters + [id];
    }
  }
}

/** The invariant of the task protocol, kept by every step of every party. */
module ProtocolInvariant {
  import opened Basics
  import opened TaskStatus
  import opened TaskStore
  import opened TaskProtocol

  // ---- the invariant ----

  /** Nothing more is owed to this task: gone, terminal, or taken up by accepted feedback. */
  predicate Ended(s: System, id: Id) {
    id in s.tasks ==> Terminal(s.tasks[id].status) || id in s.reopened
  }

  predicate NotPending(s: System, id: Id) { id in s.tasks ==> !s.tasks[id].status.Pending? }

  /** Feedback turns numbered 1, 2, 3, ... */
  predicate Numbered(turns: seq<nat>) { forall i :: 0 <= i < |turns| ==> turns[i] == i + 1 }

  predicate PastStart(pc: Pc) { !pc.Begin? && !pc.EarlyCancel? && !pc.Start? && !pc.Done? }

  predicate HandlerOk(s: System, h: Handler) {
    && h.id in s.issued
    && (h.thread.Clearing? || h.thread.ReturnedCancelled? ==> Ended(s, h.id))
    && match h.job
       case Attempt(retry) =>
         && retry <= MAX_RETRIES && Request(h.id, retry) in s.sent
         && (PastStart(h.pc) ==> NotPending(s, h.id))
         && (h.pc.Republish? ==> retry < MAX_RETRIES)
         && (h.pc.Exhaust? || h.pc.DeadLetter? ==> retry == MAX_RETRIES)
         && (h.pc.ClearFlag? || h.pc.DeadLetter? ==> Ended(s, h.id))
       case Round(turns) =>
         h.id in s.reopened && Feedback(h.id, |turns| + 1, turns) in s.sent
  }

  ghost predicate HandlersOk(s: System) {
    forall i :: 0 <= i < |s.handlers| ==> HandlerOk(s, s.handlers[i])
  }

  /** Retries are contiguous, and feedback messages carry turns 1..j with j <= 9. */
  predicate MessageOk(s: System, m: Message) {
    && m.id in s.issued
    && match m
       case Request(id, retry) => retry <= MAX_RETRIES && (retry > 0 ==> Request(id, retry - 1) in s.sent)
       case Feedback(id, turn, turns) => id in s.reopened && Numbered(turns) && |turns| < MAX_TURNS && turn == |turns| + 1
  }

  ghost predicate MessagesOk(s: System) {
    && (forall m :: m in s.topic ==> m in s.sent)
    && (forall m :: m in s.sent ==> MessageOk(s, m))
  }

  /** A worker's records were all sent, and the handler in hand handles the record in hand. */
  ghost predicate ConsumerOk(s: System, c: Consumer) {
    && (forall m :: m in c.batch + c.overdue ==> m in s.sent)
    && |c.ends| <= |c.batch|
    && (c.hand.Some? ==> Busy(s, c) && MessageOf(s.handlers[c.hand.value]) == c.batch[|c.ends|])
  }

  ghost predicate ConsumersOk(s: System) {
    forall w :: 0 <= w < |s.consumers| ==> ConsumerOk(s, s.consumers[w])
  }

  predicate PostOk(s: System, p: Post) {
    && p.id in s.issued && Numbered(p.snap.turns) && |p.snap.turns| < MAX_TURNS
    && (p.snap.status.Success? || p.snap.status.Failed?)
    && (p.sent ==> p.id in s.reopened && Feedback(p.id, |p.snap.turns| + 1, p.snap.turns) in s.sent)
  }

  predicate ScanOk(s: System, c: Scan) {
    c.id in s.issued && Numbered(c.snap.turns) && |c.snap.turns| <= MAX_TURNS && c.snap.status.Running?
  }

  ghost predicate GatewayOk(s: System) {
    && (forall p :: p in s.posts ==> PostOk(s, p))
    && (forall c :: c in s.scans ==> ScanOk(s, c))
  }

  ghost predicate TasksOk(s: System) {
    && s.submitting <= s.issued && s.reopened <= s.issued
    && forall id :: id in s.tasks ==> id in s.issued && Numbered(s.tasks[id].turns) && |s.tasks[id].turns| <= MAX_TURNS
  }

  function Deliveries(s: System, id: Id): nat { (if id in s.issued then 1 else 0) + s.again[id] }

  predicate Bounded(s: System, id: Id) {
    && s.started[id] + Budget(s, id) <= 4 * Deliveries(s, id)
    && s.dead[id] + Tokens(s, id) <= Deliveries(s, id)
  }

  predicate NotLost(s: System, id: Id) {
    id in s.issued ==> Ended(s, id) || Tokens(s, id) > 0 || RequestCount(s.dropped, id) > 0
  }

  ghost predicate Inv(s: System) {
    && HandlersOk(s) && MessagesOk(s) && ConsumersOk(s) && GatewayOk(s) && TasksOk(s)
    && forall id :: Bounded(s, id) && NotLost(s, id)
  }

  // ---- what only grows ----

  /** History grows, and for known tasks "no longer pending" and "ended" last. */
  ghost predicate Grows(s: System, s': System) {
    && s.issued <= s'.issued && s.sent <= s'.sent && s.reopened <= s'.reopened
    && forall id :: id in s.issued ==> (NotPending(s, id) ==> NotPending(s', id)) && (Ended(s, id) ==> Ended(s', id))
  }

  lemma ConsumerLasts(s: System, s': System, c: Consumer)
    requires Grows(s, s') && ConsumerOk(s, c)
    requires c.hand.Some? ==> c.hand.value < |s'.handlers| && MessageOf(s'.handlers[c.hand.value]) == MessageOf(s.handlers[c.hand.value])
    ensures ConsumerOk(s', c)
  {
  }

  lemma HandlerLasts(s: System, s': System, h: Handler)
    requires Grows(s, s') && HandlerOk(s, h)
    ensures HandlerOk(s', h)
  {
  }

  /** What handlers and threads do to the store, seen from outside. */
  predicate Emitted(s: System, h: Handler, op: Op) {
    match op
    case Transit(next) => Terminal(next)
    case StartRound => h.id in s.reopened
    case StoreRound(_, turns) => Numbered(turns) && |turns| <= MAX_TURNS
    case Resend(retry) => 0 < retry <= MAX_RETRIES && Request(h.id, retry - 1) in s.sent
    case _ => true
  }

  lemma NumberedNext(turns: seq<nat>)
    requires Numbered(turns)
    ensures Numbered(turns + [|turns| + 1])
  {
  }

  ghost predicate Next(s: System, h: Handler, next: (Handler, Op)) {
    || next == NextHandler(h, h.id in s.cancelled, IsRunning(s, h.id))
    || next == (NextGiveUp(h), Skip)
    || exists act :: next == NextThread(h, h.id in s.cancelled, act)
  }

  lemma EmittedByNext(s: System, h: Handler, next: (Handler, Op))
    requires HandlerOk(s, h) && MessagesOk(s) && Next(s, h, next)
    ensures next.0.id == h.id && next.0.job == h.job && Emitted(s, h, next.1)
  {
    HandlerEmits(s, h);
    if next != NextHandler(h, h.id in s.cancelled, IsRunning(s, h.id)) && next != (NextGiveUp(h), Skip) {
      var act :| next == NextThread(h, h.id in s.cancelled, act);
      ThreadEmits(s, h, h.id in s.cancelled, act);
    }
    hide NextHandler, NextThread, HandlerOk, MessagesOk, IsRunning;
  }

  lemma HandlerEmits(s: System, h: Handler)
    requires HandlerOk(s, h)
    ensures var next := NextHandler(h, h.id in s.cancelled, IsRunning(s, h.id));
      next.0.id == h.id && next.0.job == h.job && Emitted(s, h, next.1)
  {
    hide IsRunning, Ended, NotPending;
  }

  lemma ThreadEmits(s: System, h: Handler, flag: bool, act: Act)
    requires HandlerOk(s, h) && MessagesOk(s)
    ensures var next := NextThread(h, flag, act); next.0.id == h.id && next.0.job == h.job && Emitted(s, h, next.1)
  {
    if h.job.Round? {
      NumberedNext(h.job.turns);
      assert MessageOk(s, Feedback(h.id, |h.job.turns| + 1, h.job.turns));
    }
    hide MessagesOk, Numbered;
  }

  lemma PerformGrows(s: System, h: Handler, op: Op)
    requires Emitted(s, h, op)
    ensures Grows(s, Perform(s, h.id, op))
  {
  }

  lemma TransitEnds(s: System, id: Id, next: Status)
    requires Terminal(next) && (next.Cancelled? || NotPending(s, id))
    ensures Ended(Perform(s, id, Transit(next)), id)
  {
  }

  lemma StartsRunning(s: System, id: Id, retry: nat)
    ensures NotPending(Perform(s, id, StartAttempt(retry)), id)
  {
  }

  lemma AttemptedOk(s: System, h: Handler, flag: bool)
    requires h.job.Attempt? && HandlerOk(s, h) && Grows(s, Perform(s, h.id, NextAttempt(h, flag).1))
    ensures HandlerOk(Perform(s, h.id, NextAttempt(h, flag).1), NextAttempt(h, flag).0)
  {
    var s' := Perform(s, h.id, NextAttempt(h, flag).1);
    HandlerLasts(s, s', h);
    match h.pc
    case Start => StartsRunning(s, h.id, h.job.retry);
    case CancelMark => TransitEnds(s, h.id, Cancelled);
    case Exhaust => TransitEnds(s, h.id, Failed);
    case _ =>
    hide Perform, Ended, NotPending, Grows, HandlerOk;
    AttemptStaysOk(s', h, flag);
  }

  /** What a handler must find afterwards to be as it should. */
  lemma AttemptStaysOk(s: System, h: Handler, flag: bool)
    requires h.job.Attempt? && HandlerOk(s, h)
    requires (h.pc.Start? ==> NotPending(s, h.id)) && (h.pc.CancelMark? || h.pc.Exhaust? ==> Ended(s, h.id))
    ensures HandlerOk(s, NextAttempt(h, flag).0)
  {
    hide Ended, NotPending;
  }

  lemma RoundOk(s: System, h: Handler, running: bool)
    requires h.job.Round? && HandlerOk(s, h) && Grows(s, Perform(s, h.id, NextRound(h, running).1))
    ensures HandlerOk(Perform(s, h.id, NextRound(h, running).1), NextRound(h, running).0)
  {
    HandlerLasts(s, Perform(s, h.id, NextRound(h, running).1), h);
    hide Perform, Grows, HandlerOk;
    RoundStaysOk(Perform(s, h.id, NextRound(h, running).1), h, running);
  }

  lemma RoundStaysOk(s: System, h: Handler, running: bool)
    requires h.job.Round? && HandlerOk(s, h)
    ensures HandlerOk(s, NextRound(h, running).0)
  {
    hide Ended, NotPending;
  }

  lemma RanOk(s: System, h: Handler, flag: bool, act: Act)
    requires HandlerOk(s, h) && Grows(s, Perform(s, h.id, NextThread(h, flag, act).1))
    ensures HandlerOk(Perform(s, h.id, NextThread(h, flag, act).1), NextThread(h, flag, act).0)
  {
    HandlerLasts(s, Perform(s, h.id, NextThread(h, flag, act).1), h);
    if h.thread.Cancelling? { TransitEnds(s, h.id, Cancelled); }
    hide Perform, Ended, NotPending, Grows;
  }

  lemma MovedHandlerOk(s: System, h: Handler, next: (Handler, Op))
    requires HandlerOk(s, h) && MessagesOk(s) && Next(s, h, next)
    ensures HandlerOk(Perform(s, h.id, next.1), next.0)
  {
    EmittedByNext(s, h, next);
    PerformGrows(s, h, next.1);
    if next == NextHandler(h, h.id in s.cancelled, IsRunning(s, h.id)) {
      if h.job.Attempt? { AttemptedOk(s, h, h.id in s.cancelled); } else { RoundOk(s, h, IsRunning(s, h.id)); }
    } else if next != (NextGiveUp(h), Skip) {
      var act :| next == NextThread(h, h.id in s.cancelled, act);
      RanOk(s, h, h.id in s.cancelled, act);
    }
  }

  // ---- counting ----

  function OpRuns(op: Op): nat {
    match op
    case Launched => 1
    case Resend(retry) => MAX_RETRIES + 1 - Capped(retry)
    case _ => 0
  }

  function OpTokens(op: Op): nat { if op.Resend? || op.Bury? then 1 else 0 }

  lemma AttemptPays(h: Handler, flag: bool)
    requires h.job.Attempt? && h.job.retry <= MAX_RETRIES
    requires (h.pc.Republish? ==> h.job.retry < MAX_RETRIES) && (h.pc.DeadLetter? ==> h.job.retry == MAX_RETRIES)
    ensures Remaining(NextAttempt(h, flag).0) + OpRuns(NextAttempt(h, flag).1) <= Remaining(h)
    ensures Holding(NextAttempt(h, flag).0) + OpTokens(NextAttempt(h, flag).1) <= Holding(h)
  {
    AttemptPaysRuns(h, flag);
    hide Remaining, OpRuns;
  }

  lemma AttemptPaysRuns(h: Handler, flag: bool)
    requires h.job.Attempt? && h.job.retry <= MAX_RETRIES
    requires (h.pc.Republish? ==> h.job.retry < MAX_RETRIES) && (h.pc.DeadLetter? ==> h.job.retry == MAX_RETRIES)
    ensures Remaining(NextAttempt(h, flag).0) + OpRuns(NextAttempt(h, flag).1) <= Remaining(h)
  {
  }

  lemma ThreadPays(h: Handler, flag: bool, act: Act)
    ensures var next := NextThread(h, flag, act);
      next.0.pc == h.pc && next.0.job == h.job && OpRuns(next.1) == OpTokens(next.1) == 0
  {
  }

  /** A handler pays for what it causes out of what it may still cause. */
  lemma NextPays(s: System, h: Handler, next: (Handler, Op))
    requires HandlerOk(s, h) && Next(s, h, next)
    ensures Remaining(next.0) + OpRuns(next.1) <= Remaining(h)
    ensures Holding(next.0) + OpTokens(next.1) <= Holding(h)
  {
    if h.job.Attempt? {
      AttemptPays(h, h.id in s.cancelled);
    }
    forall act { ThreadPays(h, h.id in s.cancelled, act); }
  }

  /** An attempt gives up the outcome only by sending a successor request or ending the task. */
  lemma AttemptHandsOver(s: System, h: Handler, flag: bool)
    requires HandlerOk(s, h) && h.job.Attempt? && Holding(NextAttempt(h, flag).0) < Holding(h)
    ensures NextAttempt(h, flag).1.Resend? || Ended(Perform(s, h.id, NextAttempt(h, flag).1), h.id)
  {
    var op := NextAttempt(h, flag).1;
    if op.Transit? {
      TransitEnds(s, h.id, op.next);
      hide Perform, Ended, NotPending;
    } else {
      assert op.Skip? || op.ClearCancel? || op.Bury? || op.Resend?;
      TasksUntouched(s, h.id, op);
      hide Perform, NotPending;
    }
  }

  lemma TasksUntouched(s: System, id: Id, op: Op)
    requires op.Skip? || op.ClearCancel? || op.Bury? || op.Resend?
    ensures Perform(s, id, op).tasks == s.tasks && Perform(s, id, op).reopened == s.reopened
  {
  }

  lemma NextHandsOver(s: System, h: Handler, next: (Handler, Op))
    requires HandlerOk(s, h) && Next(s, h, next)
    ensures Holding(next.0) < Holding(h) ==> next.1.Resend? || Ended(Perform(s, h.id, next.1), h.id)
  {
    hide NextThread, Perform, HandlerOk, Ended;
    if Holding(next.0) < Holding(h) {
      forall act { ThreadPays(h, h.id in s.cancelled, act); }
      if next == NextHandler(h, h.id in s.cancelled, IsRunning(s, h.id)) {
        AttemptHandsOver(s, h, h.id in s.cancelled);
      }
    }
  }

  lemma Added(a: multiset<Message>, b: multiset<Message>, x: Id)
    ensures RequestRuns(a + b, x) == RequestRuns(a, x) + RequestRuns(b, x)
    ensures RequestCount(a + b, x) == RequestCount(a, x) + RequestCount(b, x)
  {
  }

  function RunsOf(m: Message, x: Id): nat {
    if m.Request? && m.id == x then MAX_RETRIES + 1 - Capped(m.retry) else 0
  }

  function CountOf(m: Message, x: Id): nat { if m.Request? && m.id == x then 1 else 0 }

  lemma One(m: Message, x: Id)
    requires m.Request? ==> m.retry <= MAX_RETRIES
    ensures RequestRuns(multiset{m}, x) == RunsOf(m, x) && RequestCount(multiset{m}, x) == CountOf(m, x)
  {
  }

  lemma PerformFrame(s: System, id: Id, op: Op)
    ensures var s' := Perform(s, id, op);
      && s' == s.(tasks := s'.tasks, cancelled := s'.cancelled, started := s'.started, topic := s'.topic, sent := s'.sent, dead := s'.dead)
      && s'.started == (if op.Launched? then s.started + multiset{id} else s.started)
      && s'.dead == (if op.Bury? then s.dead + multiset{id} else s.dead)
      && s'.topic == (if op.Resend? then s.topic + multiset{Request(id, op.retry)} else s.topic)
  {
  }

  lemma PerformUndone(s: System, id: Id, op: Op)
    ensures Undone(Perform(s, id, op)) == if op.Resend? then Undone(s) + multiset{Request(id, op.retry)} else Undone(s)
  {
    PerformFrame(s, id, op);
    hide Perform, HeldBy;
  }

  lemma PerformCounts(s: System, id: Id, op: Op, x: Id)
    requires op.Resend? ==> op.retry <= MAX_RETRIES
    ensures var s' := Perform(s, id, op);
      && s'.started[x] + RequestRuns(Undone(s'), x) == s.started[x] + RequestRuns(Undone(s), x) + (if x == id then OpRuns(op) else 0)
      && s'.dead[x] + RequestCount(Undone(s'), x) == s.dead[x] + RequestCount(Undone(s), x) + (if x == id then OpTokens(op) else 0)
      && s'.handlers == s.handlers && s'.submitting == s.submitting && s'.issued == s.issued && s'.again == s.again
      && s'.dropped == s.dropped && (op.Resend? ==> RequestCount(Undone(s'), id) > 0)
  {
    PerformFrame(s, id, op);
    PerformUndone(s, id, op);
    hide Undone, Perform, RequestRuns, RequestCount;
    if op.Resend? {
      Added(Undone(s), multiset{Request(id, op.retry)}, x);
      Added(Undone(s), multiset{Request(id, op.retry)}, id);
      One(Request(id, op.retry), x);
      One(Request(id, op.retry), id);
    }
  }

  lemma MoveSums(s: System, i: nat, next: (Handler, Op), x: Id)
    requires HandlersOk(s) && MessagesOk(s) && i < |s.handlers| && Next(s, s.handlers[i], next)
    ensures var hs, own := s.handlers[i := next.0], s.handlers[i].id == x;
      && SumOf(hs, x, Remaining) + (if own then OpRuns(next.1) else 0) <= SumOf(s.handlers, x, Remaining)
      && SumOf(hs, x, Holding) + (if own then OpTokens(next.1) else 0) <= SumOf(s.handlers, x, Holding)
  {
    var h := s.handlers[i];
    EmittedByNext(s, h, next);
    NextPays(s, h, next);
    SumUpdate(s.handlers, i, next.0, x, Remaining);
    SumUpdate(s.handlers, i, next.0, x, Holding);
    hide SumOf, Next, HandlersOk, MessagesOk, OpRuns, OpTokens, Emitted;
  }

  lemma MoveCounts(s: System, i: nat, next: (Handler, Op), x: Id)
    requires i < |s.handlers| && (next.1.Resend? ==> next.1.retry <= MAX_RETRIES)
    ensures var s', own := Move(s, i, next), s.handlers[i].id == x;
      && s'.started[x] + RequestRuns(Undone(s'), x) == s.started[x] + RequestRuns(Undone(s), x) + (if own then OpRuns(next.1) else 0)
      && s'.dead[x] + RequestCount(Undone(s'), x) == s.dead[x] + RequestCount(Undone(s), x) + (if own then OpTokens(next.1) else 0)
      && s'.submitting == s.submitting && s'.issued == s.issued && s'.again == s.again
      && s'.handlers == s.handlers[i := next.0]
  {
    var moved := s.(handlers := s.handlers[i := next.0]);
    PerformCounts(moved, s.handlers[i].id, next.1, x);
    SameUndone(s, moved);
    assert Move(s, i, next) == Perform(moved, s.handlers[i].id, next.1);
    hide Move, Perform, Undone, RequestRuns, RequestCount, OpRuns, OpTokens;
  }

  lemma MoveBounded(s: System, i: nat, next: (Handler, Op), x: Id)
    requires HandlersOk(s) && MessagesOk(s) && i < |s.handlers| && Next(s, s.handlers[i], next) && Bounded(s, x)
    ensures Bounded(Move(s, i, next), x)
  {
    assert HandlerOk(s, s.handlers[i]);
    EmittedByNext(s, s.handlers[i], next);
    MoveSums(s, i, next, x);
    MoveCounts(s, i, next, x);
    hide Move, Next, HandlersOk, MessagesOk, HandlerOk, Undone, RequestRuns, RequestCount, SumOf, OpRuns, OpTokens, Emitted;
  }

  lemma MoveNotLost(s: System, i: nat, next: (Handler, Op), x: Id)
    requires Inv(s) && i < |s.handlers| && Next(s, s.handlers[i], next)
    ensures NotLost(Move(s, i, next), x)
  {
    var h, s' := s.handlers[i], Move(s, i, next);
    assert NotLost(s, x) && HandlerOk(s, h);
    EmittedByNext(s, h, next);
    NextHandsOver(s, h, next);
    MoveTokens(s, i, next, x);
    MoveEnds(s, i, next);
    hide Move, Perform, Next, Inv, HandlerOk, Ended, Tokens, RequestCount, Holding;
  }

  /** Ended tasks stay so, and the moved handler's task ends if it ends in the store. */
  lemma MoveEnds(s: System, i: nat, next: (Handler, Op))
    requires MessagesOk(s) && i < |s.handlers| && HandlerOk(s, s.handlers[i]) && Next(s, s.handlers[i], next)
    ensures var s' := Move(s, i, next);
      && s'.issued == s.issued && s'.dropped == s.dropped
      && (forall x :: x in s.issued && Ended(s, x) ==> Ended(s', x))
      && (Ended(Perform(s, s.handlers[i].id, next.1), s.handlers[i].id) ==> Ended(s', s.handlers[i].id))
  {
    EmittedByNext(s, s.handlers[i], next);
    PerformGrows(s, s.handlers[i], next.1);
    PerformFrame(s, s.handlers[i].id, next.1);
    MoveIsPerform(s, i, next);
    hide Move, Perform, Next, MessagesOk, HandlerOk, NotPending, Emitted;
  }

  /** A task in progress is so still, unless the handler that moved held it and gives it up unsent. */
  lemma MoveTokens(s: System, i: nat, next: (Handler, Op), x: Id)
    requires MessagesOk(s) && i < |s.handlers| && HandlerOk(s, s.handlers[i]) && Next(s, s.handlers[i], next)
    ensures Tokens(s, x) > 0 ==>
      || Tokens(Move(s, i, next), x) > 0
      || (s.handlers[i].id == x && Holding(next.0) < Holding(s.handlers[i]) && !next.1.Resend?)
  {
    var h := s.handlers[i];
    EmittedByNext(s, h, next);
    SumUpdate(s.handlers, i, next.0, x, Holding);
    PerformFrame(s, h.id, next.1);
    MoveIsPerform(s, i, next);
    MoveMessages(s, i, next, x);
    hide Move, Perform, Next, MessagesOk, HandlerOk, Undone, RequestCount, SumOf, Holding, Emitted;
  }

  lemma MoveMessages(s: System, i: nat, next: (Handler, Op), x: Id)
    requires i < |s.handlers| && (next.1.Resend? ==> next.1.retry <= MAX_RETRIES)
    ensures RequestCount(Undone(Move(s, i, next)), x)
         == RequestCount(Undone(s), x) + if next.1.Resend? && s.handlers[i].id == x then 1 else 0
  {
    var h := s.handlers[i];
    PerformUndone(s, h.id, next.1);
    MoveIsPerform(s, i, next);
    SameUndone(Perform(s, h.id, next.1), Move(s, i, next));
    hide Move, Perform, Undone, RequestRuns, RequestCount;
    if next.1.Resend? {
      Added(Undone(s), multiset{Request(h.id, next.1.retry)}, x);
      One(Request(h.id, next.1.retry), x);
    }
  }

  lemma SameUndone(s: System, s': System)
    requires s'.topic == s.topic && s'.consumers == s.consumers
    ensures Undone(s') == Undone(s)
  {
    hide HeldBy;
  }

  lemma MoveIsPerform(s: System, i: nat, next: (Handler, Op))
    requires i < |s.handlers|
    ensures Move(s, i, next) == Perform(s, s.handlers[i].id, next.1).(handlers := s.handlers[i := next.0])
  {
  }

  // ---- every step keeps the invariant ----

  lemma KeptHandlers(s: System, s': System)
    requires HandlersOk(s) && Grows(s, s') && s'.handlers == s.handlers
    ensures HandlersOk(s')
  {
    forall j | 0 <= j < |s'.handlers| ensures HandlerOk(s', s'.handlers[j]) {
      HandlerLasts(s, s', s.handlers[j]);
    }
  }

  /** Replacing handler i, or adding one, is all that needs a look. */
  lemma ChangedHandler(s: System, s': System, i: nat, h: Handler)
    requires HandlersOk(s) && Grows(s, s') && HandlerOk(s', h) && i <= |s.handlers|
    requires s'.handlers == if i < |s.handlers| then s.handlers[i := h] else s.handlers + [h]
    ensures HandlersOk(s')
  {
    hide HandlerOk, Grows;
    forall j | 0 <= j < |s'.handlers| ensures HandlerOk(s', s'.handlers[j]) {
      if j != i { HandlerLasts(s, s', s.handlers[j]); }
    }
  }

  /** Handlers come and move on, but each goes on handling the same message. */
  ghost predicate SameMessages(s: System, s': System) {
    |s.handlers| <= |s'.handlers|
    && forall i :: 0 <= i < |s.handlers| ==> MessageOf(s'.handlers[i]) == MessageOf(s.handlers[i])
  }

  lemma KeptConsumers(s: System, s': System)
    requires ConsumersOk(s) && Grows(s, s') && SameMessages(s, s') && s'.consumers == s.consumers
    ensures ConsumersOk(s')
  {
    hide Grows, MessageOf;
    forall w | 0 <= w < |s'.consumers| ensures ConsumerOk(s', s'.consumers[w]) {
      ConsumerLasts(s, s', s.consumers[w]);
    }
  }

  lemma ChangedConsumer(s: System, s': System, w: nat, c: Consumer)
    requires ConsumersOk(s) && Grows(s, s') && SameMessages(s, s') && ConsumerOk(s', c) && w <= |s.consumers|
    requires s'.consumers == if w < |s.consumers| then s.consumers[w := c] else s.consumers + [c]
    ensures ConsumersOk(s')
  {
    hide Grows, MessageOf;
    forall v | 0 <= v < |s'.consumers| ensures ConsumerOk(s', s'.consumers[v]) {
      if v != w { ConsumerLasts(s, s', s.consumers[v]); }
    }
  }

  lemma PerformKeepsMessages(s: System, h: Handler, op: Op)
    requires MessagesOk(s) && HandlerOk(s, h) && Emitted(s, h, op)
    ensures MessagesOk(Perform(s, h.id, op))
  {
    var s' := Perform(s, h.id, op);
    PerformFrame(s, h.id, op);
    PerformSends(s, h.id, op);
    hide Perform, Numbered;
  }

  lemma PerformSends(s: System, id: Id, op: Op)
    ensures Perform(s, id, op).sent == if op.Resend? then s.sent + {Request(id, op.retry)} else s.sent
  {
  }

  lemma PerformKeepsTasks(s: System, h: Handler, op: Op)
    requires GatewayOk(s) && TasksOk(s) && Emitted(s, h, op)
    ensures GatewayOk(Perform(s, h.id, op)) && TasksOk(Perform(s, h.id, op))
  {
    PerformFrame(s, h.id, op);
    PerformStores(s, h.id, op);
    TurnsStayOk(s.tasks, h.id, op);
    hide Perform, TasksAfter, Emitted, Numbered;
  }

  lemma PerformStores(s: System, id: Id, op: Op)
    ensures Perform(s, id, op).tasks == s.tasks || Perform(s, id, op).tasks == TasksAfter(s.tasks, id, op)
  {
    hide TasksAfter;
  }

  lemma TurnsStayOk(tasks: map<Id, Task>, id: Id, op: Op)
    requires forall x :: x in tasks ==> Numbered(tasks[x].turns) && |tasks[x].turns| <= MAX_TURNS
    requires op.StoreRound? ==> Numbered(op.turns) && |op.turns| <= MAX_TURNS
    ensures var tasks' := TasksAfter(tasks, id, op);
      tasks'.Keys == tasks.Keys && forall x :: x in tasks' ==> Numbered(tasks'[x].turns) && |tasks'[x].turns| <= MAX_TURNS
  {
    hide Numbered;
  }

  /** All of the invariant but the counting. */
  lemma MoveRecords(s: System, i: nat, next: (Handler, Op))
    requires HandlersOk(s) && MessagesOk(s) && ConsumersOk(s) && GatewayOk(s) && TasksOk(s)
    requires i < |s.handlers| && Next(s, s.handlers[i], next)
    ensures var s' := Move(s, i, next); HandlersOk(s') && MessagesOk(s') && ConsumersOk(s') && GatewayOk(s') && TasksOk(s')
  {
    var s', h := Move(s, i, next), s.handlers[i];
    EmittedByNext(s, h, next);
    PerformGrows(s, h, next.1);
    PerformKeepsMessages(s, h, next.1);
    PerformKeepsTasks(s, h, next.1);
    MovedHandlerOk(s, h, next);
    MoveIsPerform(s, i, next);
    PerformFrame(s, h.id, next.1);
    SameRecords(s, Perform(s, h.id, next.1), s');
    HandlerLasts(Perform(s, h.id, next.1), s', next.0);
    hide Move, Perform, Next, HandlerOk, HandlersOk, ConsumersOk, Emitted, MessagesOk, GatewayOk, TasksOk, Grows;
    ChangedHandler(s, s', i, next.0);
    KeptConsumers(s, s');
  }

  /** Handlers aside, these states are the same. */
  lemma SameRecords(before: System, s: System, s': System)
    requires s' == s.(handlers := s'.handlers)
    ensures MessagesOk(s) ==> MessagesOk(s')
    ensures GatewayOk(s) && TasksOk(s) ==> GatewayOk(s') && TasksOk(s')
    ensures Grows(s, s') && (Grows(before, s) ==> Grows(before, s'))
  {
    forall m | m in s.sent && MessageOk(s, m) ensures MessageOk(s', m) {}
    hide Numbered;
  }

  lemma MoveKeeps(s: System, i: nat, next: (Handler, Op))
    requires Inv(s) && i < |s.handlers| && Next(s, s.handlers[i], next)
    ensures Inv(Move(s, i, next))
  {
    var s', h := Move(s, i, next), s.handlers[i];
    MoveRecords(s, i, next);
    hide Move, Perform, Next, HandlersOk, ConsumersOk, MessagesOk, GatewayOk, TasksOk, Bounded, NotLost;
    forall x ensures Bounded(s', x) && NotLost(s', x) {
      assert Bounded(s, x);
      MoveBounded(s, i, next, x);
      MoveNotLost(s, i, next, x);
    }
  }

  /** The consumer loop leaves the tasks and the history of messages alone. */
  lemma BrokerFrame(s: System, step: Step)
    ensures var s' := BrokerStep(s, step);
      && s' == s.(topic := s'.topic, consumers := s'.consumers, handlers := s'.handlers, again := s'.again, dropped := s'.dropped)
      && (forall id :: Ended(s, id) ==> Ended(s', id)) && Grows(s, s')
  {
  }

  lemma FromIn(batch: seq<Message>, n: nat)
    ensures forall m :: m in From(batch, n) ==> m in batch
    ensures forall m :: m in UpTo(batch, n) ==> m in batch
  {
  }

  lemma HeldIsSent(s: System, c: Consumer)
    requires ConsumerOk(s, c)
    ensures forall m :: m in Held(c) || m in InHand(c) ==> m in s.sent
    ensures forall m :: m in Overdue(c) || m in Waiting(c) ==> m in s.sent
  {
    FromIn(c.batch, |c.ends| + if c.hand.Some? then 1 else 0);
    FromIn(c.batch, |c.ends|);
  }

  lemma StopMessages(s: System, w: nat)
    requires ConsumersOk(s) && MessagesOk(s) && w < |s.consumers|
    ensures forall m :: m in Stopped(s, w).topic ==> m in s.sent
  {
    HeldIsSent(s, s.consumers[w]);
    hide Held, InHand, MessageOk, ConsumerOk;
  }

  lemma BrokerMessages(s: System, step: Step)
    requires ConsumersOk(s) && MessagesOk(s)
    ensures MessagesOk(BrokerStep(s, step))
  {
    var s' := BrokerStep(s, step);
    BrokerFrame(s, step);
    forall m | m in s.sent ensures MessageOk(s', m) {
      MessageLasts(s, s', m);
    }
    BrokerKeepsTopic(s, step);
    hide MessageOk, ConsumerOk, BrokerStep, Grows;
  }

  lemma BrokerKeepsTopic(s: System, step: Step)
    requires ConsumersOk(s) && MessagesOk(s)
    ensures forall m :: m in BrokerStep(s, step).topic ==> m in s.sent
  {
    hide MessageOk, ConsumerOk, Stopped, EscapedFrom;
    match step
    case Stop(w) => if w < |s.consumers| { StopMessages(s, w); }
    case Escape(w) => EscapeKeepsTopic(s, w);
    case Poll(_, _) =>
    case Again(_) =>
    case _ => assert BrokerStep(s, step).topic == s.topic;
  }

  lemma EscapeKeepsTopic(s: System, w: nat)
    ensures BrokerStep(s, Escape(w)).topic == s.topic
  {
  }

  lemma MessageLasts(s: System, s': System, m: Message)
    requires Grows(s, s') && MessageOk(s, m)
    ensures MessageOk(s', m)
  {
  }

  lemma CutOk(s: System, s': System, h: Handler)
    requires HandlerOk(s, h) && Grows(s, s')
    ensures HandlerOk(s', Cut(h)) && HandlerOk(s', Cut(h).(thread := Idle))
  {
    HandlerLasts(s, s', h);
  }

  lemma TakenOk(s: System, w: nat)
    requires ConsumersOk(s) && MessagesOk(s) && w < |s.consumers| && |s.consumers[w].ends| < |s.consumers[w].batch|
    ensures HandlerOk(s, HandlerOf(s.consumers[w].batch[|s.consumers[w].ends|]))
    ensures MessageOf(HandlerOf(s.consumers[w].batch[|s.consumers[w].ends|])) == s.consumers[w].batch[|s.consumers[w].ends|]
  {
    var c := s.consumers[w];
    assert ConsumerOk(s, c);
    assert c.batch[|c.ends|] in c.batch + c.overdue;
    assert MessageOk(s, c.batch[|c.ends|]);
  }

  lemma TakeKeepsHandlers(s: System, w: nat)
    requires HandlersOk(s) && ConsumersOk(s) && MessagesOk(s) && BrokerStep(s, Take(w)) != s
    ensures var s' := BrokerStep(s, Take(w)); HandlersOk(s') && ConsumersOk(s')
  {
    var s', c := BrokerStep(s, Take(w)), s.consumers[w];
    var h := HandlerOf(c.batch[|c.ends|]);
    BrokerFrame(s, Take(w));
    TakenOk(s, w);
    HandlerLasts(s, s', h);
    ChangedHandler(s, s', |s.handlers|, h);
    assert ConsumerOk(s, c);
    hide Grows, HandlerOk;
    ChangedConsumer(s, s', w, c.(hand := Some(|s.handlers|)));
  }

  lemma PollKeepsConsumers(s: System, w: nat, batch: seq<Message>)
    requires ConsumersOk(s) && MessagesOk(s) && BrokerStep(s, Poll(w, batch)) != s
    ensures ConsumersOk(BrokerStep(s, Poll(w, batch)))
  {
    var s', c := BrokerStep(s, Poll(w, batch)), s.consumers[w];
    BrokerFrame(s, Poll(w, batch));
    assert ConsumerOk(s, c);
    HeldIsSent(s, c);
    forall m | m in batch ensures m in s.sent {
      assert m in multiset(batch);
    }
    hide Grows, Overdue;
    ChangedConsumer(s, s', w, Consumer(batch, [], None, Overdue(c)));
  }

  lemma CommitKeepsConsumers(s: System, w: nat)
    requires ConsumersOk(s) && BrokerStep(s, Commit(w)) != s
    ensures ConsumersOk(BrokerStep(s, Commit(w)))
  {
    var s', c := BrokerStep(s, Commit(w)), s.consumers[w];
    BrokerFrame(s, Commit(w));
    assert ConsumerOk(s, c);
    hide Grows;
    ChangedConsumer(s, s', w, c.(ends := c.ends + [Committed], hand := None));
  }

  lemma EscapeKeepsHandlers(s: System, w: nat)
    requires HandlersOk(s) && ConsumersOk(s) && w < |s.consumers| && Busy(s, s.consumers[w])
    requires Grows(s, EscapedFrom(s, w))
    ensures var s' := EscapedFrom(s, w); HandlersOk(s') && ConsumersOk(s')
  {
    var s', c := EscapedFrom(s, w), s.consumers[w];
    var i := c.hand.value;
    assert ConsumerOk(s, c) && HandlerOk(s, s.handlers[i]);
    CutOk(s, s', s.handlers[i]);
    ChangedHandler(s, s', i, Cut(s.handlers[i]));
    hide Grows, HandlerOk;
    ChangedConsumer(s, s', w, c.(ends := c.ends + [Escaped], hand := None));
  }

  lemma StopKeepsHandlers(s: System, w: nat)
    requires HandlersOk(s) && ConsumersOk(s) && w < |s.consumers| && Grows(s, Stopped(s, w))
    ensures var s' := Stopped(s, w); HandlersOk(s') && ConsumersOk(s')
  {
    var s', c := Stopped(s, w), s.consumers[w];
    if Busy(s, c) {
      var i := c.hand.value;
      assert HandlerOk(s, s.handlers[i]);
      CutOk(s, s', s.handlers[i]);
      ChangedHandler(s, s', i, Cut(s.handlers[i]).(thread := Idle));
    } else {
      KeptHandlers(s, s');
    }
    hide Grows, HandlerOk;
    ChangedConsumer(s, s', w, NEW_CONSUMER);
  }

  lemma BrokerKeepsHandlers(s: System, step: Step)
    requires HandlersOk(s) && ConsumersOk(s) && MessagesOk(s)
    ensures HandlersOk(BrokerStep(s, step)) && ConsumersOk(BrokerStep(s, step))
  {
    var s' := BrokerStep(s, step);
    BrokerFrame(s, step);
    hide Grows, HandlerOk, ConsumerOk, MessageOk, Stopped, EscapedFrom, HandlerOf, Overdue;
    if s' != s {
      match step
      case Join => KeptHandlers(s, s'); JoinKeeps(s);
      case Poll(w, batch) => KeptHandlers(s, s'); PollKeepsConsumers(s, w, batch);
      case Take(w) => TakeKeepsHandlers(s, w);
      case Commit(w) => KeptHandlers(s, s'); CommitKeepsConsumers(s, w);
      case Escape(w) => EscapeKeepsHandlers(s, w);
      case Stop(w) => StopKeepsHandlers(s, w);
      case Again(_) => KeptHandlers(s, s'); KeptConsumers(s, s');
      case _ =>
    }
  }

  lemma JoinKeeps(s: System)
    requires ConsumersOk(s)
    ensures ConsumersOk(BrokerStep(s, Join))
  {
    BrokerFrame(s, Join);
    hide Grows;
    ChangedConsumer(s, BrokerStep(s, Join), |s.consumers|, NEW_CONSUMER);
  }

  // ---- what the consumer loop does to the messages still to be handled ----

  /** From x to y with z more, or z less. */
  lemma More(a: multiset<Message>, x: multiset<Message>, b: multiset<Message>, y: multiset<Message>, z: multiset<Message>)
    requires a + x == b + y && y == x + z
    ensures a == b + z
  {
    assert forall m :: a[m] + x[m] == (a + x)[m] == (b + y)[m] == b[m] + x[m] + z[m];
  }

  lemma Less(a: multiset<Message>, x: multiset<Message>, b: multiset<Message>, y: multiset<Message>, z: multiset<Message>)
    requires a + x == b + y && x == y + z
    ensures a + z == b
  {
    assert forall m :: a[m] + y[m] + z[m] == (a + x)[m] == (b + y)[m] == b[m] + y[m];
  }

  lemma PollHeld(c: Consumer, batch: seq<Message>)
    requires Idling(c)
    ensures Held(Consumer(batch, [], None, Overdue(c))) == Held(c) + multiset(batch)
  {
    var c' := Consumer(batch, [], None, Overdue(c));
    assert batch[0..] == batch && batch[..0] == [];
    assert Waiting(c') == batch && Waiting(c) == [] && Overdue(c') == Overdue(c) + [];
  }

  lemma PollUndone(s: System, w: nat, batch: seq<Message>)
    ensures Undone(BrokerStep(s, Poll(w, batch))) == Undone(s)
  {
    var s' := BrokerStep(s, Poll(w, batch));
    if s' != s {
      var c := s.consumers[w];
      PollHeld(c, batch);
      HeldUpdate(s.consumers, w, s'.consumers[w]);
      More(HeldBy(s'.consumers), Held(c), HeldBy(s.consumers), Held(s'.consumers[w]), multiset(batch));
      hide Held, Overdue, HeldBy;
    }
  }

  lemma TakeHeld(c: Consumer, i: nat)
    requires c.hand.None? && |c.ends| < |c.batch|
    ensures Held(c) == Held(c.(hand := Some(i))) + multiset{c.batch[|c.ends|]}
  {
    var c' := c.(hand := Some(i));
    assert Waiting(c) == [c.batch[|c.ends|]] + Waiting(c');
    assert Overdue(c) == Overdue(c');
    hide Waiting, Overdue;
  }

  lemma TakeUndone(s: System, w: nat)
    requires BrokerStep(s, Take(w)) != s
    ensures var m := s.consumers[w].batch[|s.consumers[w].ends|]; Undone(BrokerStep(s, Take(w))) + multiset{m} == Undone(s)
  {
    var s', c := BrokerStep(s, Take(w)), s.consumers[w];
    TakeHeld(c, |s.handlers|);
    HeldUpdate(s.consumers, w, s'.consumers[w]);
    Less(HeldBy(s'.consumers), Held(c), HeldBy(s.consumers), Held(s'.consumers[w]), multiset{c.batch[|c.ends|]});
    hide Held, HeldBy, HandlerOf;
  }

  lemma CommitHeld(c: Consumer)
    requires c.hand.Some?
    ensures Held(c) == Held(c.(ends := c.ends + [Committed], hand := None)) + multiset(Overdue(c))
  {
    var c' := c.(ends := c.ends + [Committed], hand := None);
    assert c'.ends[|c.ends|] == Committed;
    assert Overdue(c') == [] && Waiting(c') == Waiting(c);
    hide Waiting, Overdue;
  }

  lemma CommitUndone(s: System, w: nat)
    requires BrokerStep(s, Commit(w)) != s
    ensures Undone(BrokerStep(s, Commit(w))) + multiset(Overdue(s.consumers[w])) == Undone(s)
  {
    var s', c := BrokerStep(s, Commit(w)), s.consumers[w];
    CommitHeld(c);
    HeldUpdate(s.consumers, w, s'.consumers[w]);
    Less(HeldBy(s'.consumers), Held(c), HeldBy(s.consumers), Held(s'.consumers[w]), multiset(Overdue(c)));
    hide Held, Overdue, HeldBy;
  }

  lemma EscapeHeld(c: Consumer)
    requires c.hand.Some? && |c.ends| < |c.batch|
    ensures Held(c.(ends := c.ends + [Escaped], hand := None)) == Held(c) + if Covered(c) then multiset{} else multiset(InHand(c))
  {
    var c' := c.(ends := c.ends + [Escaped], hand := None);
    assert Waiting(c') == Waiting(c);
    assert Covered(c') <==> Covered(c);
    assert c.batch[..|c.ends| + 1] == c.batch[..|c.ends|] + InHand(c);
    assert Overdue(c') == if Covered(c) then [] else Overdue(c) + InHand(c);
    hide Waiting, InHand, Covered;
  }

  lemma EscapeUndone(s: System, w: nat)
    requires w < |s.consumers| && Busy(s, s.consumers[w])
    ensures var c := s.consumers[w];
      Undone(EscapedFrom(s, w)) == if Covered(c) then Undone(s) else Undone(s) + multiset(InHand(c))
  {
    var s', c := EscapedFrom(s, w), s.consumers[w];
    EscapeHeld(c);
    HeldUpdate(s.consumers, w, s'.consumers[w]);
    More(HeldBy(s'.consumers), Held(c), HeldBy(s.consumers), Held(s'.consumers[w]),
         if Covered(c) then multiset{} else multiset(InHand(c)));
    hide Held, InHand, HeldBy, Covered;
  }

  lemma NothingHeld()
    ensures Held(NEW_CONSUMER) == multiset{}
  {
  }

  lemma CoveredHeld(c: Consumer)
    requires Covered(c)
    ensures Held(c) == multiset(Waiting(c))
  {
  }

  lemma StopHeldBy(s: System, w: nat)
    requires w < |s.consumers|
    ensures HeldBy(Stopped(s, w).consumers) + Held(s.consumers[w]) == HeldBy(s.consumers)
  {
    NothingHeld();
    HeldUpdate(s.consumers, w, NEW_CONSUMER);
    hide Held, HeldBy, InHand, Unfinished, IdOf, Cut, Covered, Busy;
  }

  lemma StopTopic(s: System, w: nat)
    requires w < |s.consumers|
    ensures var c := s.consumers[w];
      Stopped(s, w).topic == if Covered(c) then s.topic else s.topic + Held(c) + multiset(InHand(c))
  {
    hide Held, InHand, Unfinished, IdOf, Cut, Covered, Busy;
  }

  lemma StopUndone(s: System, w: nat)
    requires w < |s.consumers|
    ensures var c, s' := s.consumers[w], Stopped(s, w);
      if Covered(c) then Undone(s') + multiset(Waiting(c)) == Undone(s) else Undone(s') == Undone(s) + multiset(InHand(c))
  {
    var c, s' := s.consumers[w], Stopped(s, w);
    StopHeldBy(s, w);
    StopTopic(s, w);
    if Covered(c) { CoveredHeld(c); }
    Rearranged(s.topic, HeldBy(s'.consumers), Held(c), multiset(InHand(c)));
    hide Stopped, Held, InHand, Waiting, HeldBy, Covered;
  }

  lemma Rearranged(t: multiset<Message>, a: multiset<Message>, h: multiset<Message>, m: multiset<Message>)
    ensures t + a + h == t + (a + h)
    ensures (t + h + m) + a == (t + (a + h)) + m
  {
  }

  lemma JoinUndone(s: System)
    ensures Undone(BrokerStep(s, Join)) == Undone(s)
  {
    NothingHeld();
    HeldAppend(s.consumers, NEW_CONSUMER);
    hide Held, HeldBy;
  }

  // ---- counting through the consumer loop ----

  /** Runs and places of a message all taken together by one handler. */
  lemma FreshCounts(m: Message, x: Id)
    requires m.Request? ==> m.retry <= MAX_RETRIES
    ensures (if m.id == x then Remaining(HandlerOf(m)) else 0) == RunsOf(m, x)
    ensures (if m.id == x then Holding(HandlerOf(m)) else 0) == CountOf(m, x) && HandlerOf(m).id == m.id
  {
  }

  lemma TakeMessages(s: System, w: nat, x: Id)
    requires ConsumersOk(s) && MessagesOk(s) && BrokerStep(s, Take(w)) != s
    ensures var s', m := BrokerStep(s, Take(w)), s.consumers[w].batch[|s.consumers[w].ends|];
      && RequestRuns(Undone(s'), x) + RunsOf(m, x) == RequestRuns(Undone(s), x)
      && RequestCount(Undone(s'), x) + CountOf(m, x) == RequestCount(Undone(s), x)
      && (m.Request? ==> m.retry <= MAX_RETRIES)
  {
    var s', c := BrokerStep(s, Take(w)), s.consumers[w];
    var m := c.batch[|c.ends|];
    assert ConsumerOk(s, c) && m in c.batch + c.overdue && MessageOk(s, m);
    TakeUndone(s, w);
    Added(Undone(s'), multiset{m}, x);
    One(m, x);
    hide BrokerStep, Undone, RequestRuns, RequestCount, RunsOf, CountOf, ConsumersOk, MessagesOk;
  }

  lemma TakeSums(s: System, m: Message, x: Id)
    requires m.Request? ==> m.retry <= MAX_RETRIES
    ensures SumOf(s.handlers + [HandlerOf(m)], x, Remaining) == SumOf(s.handlers, x, Remaining) + RunsOf(m, x)
    ensures SumOf(s.handlers + [HandlerOf(m)], x, Holding) == SumOf(s.handlers, x, Holding) + CountOf(m, x)
  {
    FreshCounts(m, x);
    SumAppend(s.handlers, HandlerOf(m), x, Remaining);
    SumAppend(s.handlers, HandlerOf(m), x, Holding);
    hide SumOf, HandlerOf, RunsOf, CountOf, Remaining, Holding;
  }

  lemma TakeCounts(s: System, w: nat, x: Id)
    requires ConsumersOk(s) && MessagesOk(s) && BrokerStep(s, Take(w)) != s
    ensures var s' := BrokerStep(s, Take(w)); Budget(s', x) == Budget(s, x) && Tokens(s', x) == Tokens(s, x)
  {
    TakeMessages(s, w, x);
    TakeFrame(s, w);
    TakeSums(s, s.consumers[w].batch[|s.consumers[w].ends|], x);
    hide BrokerStep, Undone, RequestRuns, RequestCount, RunsOf, CountOf, HandlerOf, SumOf, ConsumersOk, MessagesOk;
  }

  lemma TakeFrame(s: System, w: nat)
    requires BrokerStep(s, Take(w)) != s
    ensures var s' := BrokerStep(s, Take(w));
      && s' == s.(consumers := s'.consumers, handlers := s.handlers + [HandlerOf(s.consumers[w].batch[|s.consumers[w].ends|])])
  {
    hide HandlerOf;
  }

  /** A handler that is cut short leaves at most what its message is worth. */
  lemma CutCounts(s: System, i: nat, h: Handler, x: Id)
    requires i < |s.handlers| && h.id == s.handlers[i].id && h.pc.Done?
    ensures var hs := s.handlers[i := h];
      && SumOf(hs, x, Remaining) <= SumOf(s.handlers, x, Remaining)
      && SumOf(hs, x, Holding) + (if s.handlers[i].id == x then Holding(s.handlers[i]) else 0) == SumOf(s.handlers, x, Holding)
  {
    SumUpdate(s.handlers, i, h, x, Remaining);
    SumUpdate(s.handlers, i, h, x, Holding);
  }

  lemma HandCounts(s: System, c: Consumer, x: Id)
    requires HandlersOk(s) && ConsumerOk(s, c) && Busy(s, c)
    ensures var h := s.handlers[c.hand.value];
      && RequestRuns(multiset(InHand(c)), x) <= 4 * IdOf(InHand(c))[x]
      && RequestCount(multiset(InHand(c)), x) == IdOf(InHand(c))[x]
      && (if h.id == x then Holding(h) else 0) <= RequestCount(multiset(InHand(c)), x)
  {
    var h, m := s.handlers[c.hand.value], c.batch[|c.ends|];
    assert HandlerOk(s, h) && MessageOf(h) == m;
    assert InHand(c) == [m];
    One(m, x);
  }

  lemma EscapeFrame(s: System, w: nat)
    requires w < |s.consumers| && Busy(s, s.consumers[w])
    ensures var s', c := EscapedFrom(s, w), s.consumers[w];
      && s' == s.(consumers := s'.consumers, handlers := s.handlers[c.hand.value := Cut(s.handlers[c.hand.value])],
                  dropped := s'.dropped, again := s'.again)
      && s'.dropped == (if Covered(c) then s.dropped + multiset(InHand(c)) else s.dropped)
      && s'.again == (if Covered(c) then s.again else s.again + IdOf(InHand(c)))
  {
    hide InHand, IdOf, Cut, Covered;
  }

  /** A step that raises budget and tokens by no more than a delivery each allows, and drops a request
      wherever it loses a token. */
  ghost predicate Pays(s: System, s': System, x: Id) {
    && s'.started == s.started && s'.dead == s.dead && s'.issued == s.issued && s'.again[x] >= s.again[x]
    && Budget(s', x) <= Budget(s, x) + 4 * (s'.again[x] - s.again[x])
    && Tokens(s', x) <= Tokens(s, x) + (s'.again[x] - s.again[x])
    && Tokens(s', x) + RequestCount(s'.dropped, x) >= Tokens(s, x) + RequestCount(s.dropped, x)
  }

  lemma PaysKeeps(s: System, s': System, x: Id)
    requires Pays(s, s', x) && Bounded(s, x) && NotLost(s, x) && Grows(s, s')
    ensures Bounded(s', x) && NotLost(s', x)
  {
    hide Budget, Tokens, RequestCount;
  }

  lemma EscapeBudget(s: System, w: nat, x: Id)
    requires HandlersOk(s) && ConsumersOk(s) && w < |s.consumers| && Busy(s, s.consumers[w])
    ensures var s' := EscapedFrom(s, w);
      s'.again[x] >= s.again[x] && Budget(s', x) <= Budget(s, x) + 4 * (s'.again[x] - s.again[x])
  {
    var c := s.consumers[w];
    EscapeRuns(s, w, x);
    EscapeFrame(s, w);
    CutCounts(s, c.hand.value, Cut(s.handlers[c.hand.value]), x);
    hide EscapedFrom, Undone, RequestRuns, InHand, IdOf, SumOf, ConsumersOk, HandlersOk, Covered;
  }

  lemma EscapeRuns(s: System, w: nat, x: Id)
    requires HandlersOk(s) && ConsumersOk(s) && w < |s.consumers| && Busy(s, s.consumers[w])
    ensures var s' := EscapedFrom(s, w);
      s'.again[x] >= s.again[x] && RequestRuns(Undone(s'), x) <= RequestRuns(Undone(s), x) + 4 * (s'.again[x] - s.again[x])
  {
    var c := s.consumers[w];
    assert ConsumerOk(s, c);
    HandCounts(s, c, x);
    EscapeUndone(s, w);
    EscapeFrame(s, w);
    Added(Undone(s), multiset(InHand(c)), x);
    hide EscapedFrom, Undone, RequestRuns, RequestCount, InHand, IdOf, ConsumersOk, HandlersOk, ConsumerOk, Covered, Cut,
      Busy, HandlerOk, MessageOf;
  }

  function CutTokens(s: System, c: Consumer, x: Id): nat {
    if Busy(s, c) && s.handlers[c.hand.value].id == x then Holding(s.handlers[c.hand.value]) else 0
  }

  lemma HandCountsIfAny(s: System, c: Consumer, x: Id)
    requires HandlersOk(s) && ConsumerOk(s, c)
    ensures RequestRuns(multiset(InHand(c)), x) <= 4 * IdOf(InHand(c))[x]
    ensures RequestCount(multiset(InHand(c)), x) == IdOf(InHand(c))[x] && CutTokens(s, c, x) <= IdOf(InHand(c))[x]
  {
    if c.hand.Some? {
      HandCounts(s, c, x);
    } else {
      NobodyInHand(c);
    }
  }

  lemma EscapeSums(s: System, w: nat, x: Id)
    requires HandlersOk(s) && ConsumersOk(s) && w < |s.consumers| && Busy(s, s.consumers[w])
    ensures SumOf(EscapedFrom(s, w).handlers, x, Holding) + CutTokens(s, s.consumers[w], x) == SumOf(s.handlers, x, Holding)
  {
    var c := s.consumers[w];
    EscapeFrame(s, w);
    CutCounts(s, c.hand.value, Cut(s.handlers[c.hand.value]), x);
    hide EscapedFrom, SumOf, ConsumersOk, HandlersOk;
  }

  lemma EscapeMessages(s: System, w: nat, x: Id)
    requires HandlersOk(s) && ConsumersOk(s) && w < |s.consumers| && Busy(s, s.consumers[w])
    ensures var s', c := EscapedFrom(s, w), s.consumers[w];
      && RequestCount(Undone(s'), x) == RequestCount(Undone(s), x) + (if Covered(c) then 0 else IdOf(InHand(c))[x])
      && RequestCount(s'.dropped, x) == RequestCount(s.dropped, x) + (if Covered(c) then IdOf(InHand(c))[x] else 0)
      && CutTokens(s, c, x) <= IdOf(InHand(c))[x]
  {
    var c := s.consumers[w];
    assert ConsumerOk(s, c);
    HandCountsIfAny(s, c, x);
    EscapeUndone(s, w);
    EscapeFrame(s, w);
    Added(Undone(s), multiset(InHand(c)), x);
    Added(s.dropped, multiset(InHand(c)), x);
    hide EscapedFrom, Undone, RequestRuns, RequestCount, InHand, IdOf, ConsumersOk, HandlersOk, ConsumerOk, Covered, Cut, CutTokens;
  }

  /** What becomes of the tokens: the handler's is gone, the message's comes back or is dropped. */
  lemma EscapeTokens(s: System, w: nat, x: Id)
    requires HandlersOk(s) && ConsumersOk(s) && w < |s.consumers| && Busy(s, s.consumers[w])
    ensures var s', c := EscapedFrom(s, w), s.consumers[w];
      && Tokens(s', x) + CutTokens(s, c, x) == Tokens(s, x) + (if Covered(c) then 0 else IdOf(InHand(c))[x])
      && RequestCount(s'.dropped, x) == RequestCount(s.dropped, x) + (if Covered(c) then IdOf(InHand(c))[x] else 0)
      && CutTokens(s, c, x) <= IdOf(InHand(c))[x]
  {
    EscapeSums(s, w, x);
    EscapeMessages(s, w, x);
    EscapeFrame(s, w);
    hide EscapedFrom, Undone, RequestCount, InHand, IdOf, SumOf, ConsumersOk, HandlersOk, Covered, Cut, Busy, CutTokens;
  }

  lemma EscapePays(s: System, w: nat, x: Id)
    requires HandlersOk(s) && ConsumersOk(s) && w < |s.consumers| && Busy(s, s.consumers[w])
    ensures Pays(s, EscapedFrom(s, w), x)
  {
    EscapeBudget(s, w, x);
    EscapeTokens(s, w, x);
    EscapeFrame(s, w);
    hide EscapedFrom, Budget, Tokens, RequestCount, InHand, IdOf, ConsumersOk, HandlersOk, Covered, Cut;
  }

  lemma StopFrame(s: System, w: nat)
    requires w < |s.consumers|
    ensures var s', c := Stopped(s, w), s.consumers[w];
      && s' == s.(topic := s'.topic, consumers := s'.consumers, handlers := s'.handlers, dropped := s'.dropped, again := s'.again)
      && s'.handlers == (if Busy(s, c) then s.handlers[c.hand.value := Cut(s.handlers[c.hand.value]).(thread := Idle)] else s.handlers)
      && s'.again == (if Covered(c) then s.again else s.again + IdOf(InHand(c)))
      && (!Covered(c) ==> s'.dropped == s.dropped)
  {
    hide InHand, IdOf, Cut, Covered, Unfinished, Held;
  }

  lemma NobodyInHand(c: Consumer)
    requires c.hand.None?
    ensures InHand(c) == []
  {
  }

  lemma StopBudget(s: System, w: nat, x: Id)
    requires HandlersOk(s) && ConsumersOk(s) && w < |s.consumers|
    ensures var s' := Stopped(s, w);
      s'.again[x] >= s.again[x] && Budget(s', x) <= Budget(s, x) + 4 * (s'.again[x] - s.again[x])
  {
    StopSums(s, w, x);
    StopFrame(s, w);
    StopRuns(s, w, x);
    hide Stopped, Undone, RequestRuns, InHand, IdOf, SumOf, Waiting, ConsumersOk, HandlersOk, Covered, Cut, Busy;
  }

  /** The handler in hand gives up all it had left. */
  lemma StopSums(s: System, w: nat, x: Id)
    requires HandlersOk(s) && ConsumersOk(s) && w < |s.consumers|
    ensures var hs, c := Stopped(s, w).handlers, s.consumers[w];
      && SumOf(hs, x, Remaining) <= SumOf(s.handlers, x, Remaining)
      && SumOf(hs, x, Holding) + CutTokens(s, c, x) == SumOf(s.handlers, x, Holding)
  {
    var c := s.consumers[w];
    StopFrame(s, w);
    if Busy(s, c) {
      CutCounts(s, c.hand.value, Cut(s.handlers[c.hand.value]).(thread := Idle), x);
    }
    hide Stopped, SumOf, ConsumersOk, HandlersOk;
  }

  lemma StopRuns(s: System, w: nat, x: Id)
    requires HandlersOk(s) && ConsumersOk(s) && w < |s.consumers|
    ensures var s' := Stopped(s, w);
      s'.again[x] >= s.again[x] && RequestRuns(Undone(s'), x) <= RequestRuns(Undone(s), x) + 4 * (s'.again[x] - s.again[x])
  {
    var s', c := Stopped(s, w), s.consumers[w];
    assert ConsumerOk(s, c);
    StopUndone(s, w);
    StopFrame(s, w);
    HandCountsIfAny(s, c, x);
    Added(Undone(s), multiset(InHand(c)), x);
    Added(Undone(s'), multiset(Waiting(c)), x);
    hide Stopped, Undone, RequestRuns, InHand, IdOf, Waiting, ConsumersOk, HandlersOk, ConsumerOk, Covered, Cut, Busy;
  }

  lemma StopCount(s: System, w: nat, x: Id)
    requires HandlersOk(s) && ConsumersOk(s) && w < |s.consumers|
    ensures var s', c := Stopped(s, w), s.consumers[w];
      && RequestCount(Undone(s'), x) + (if Covered(c) then RequestCount(multiset(Waiting(c)), x) else 0)
         == RequestCount(Undone(s), x) + (if Covered(c) then 0 else IdOf(InHand(c))[x])
  {
    var s', c := Stopped(s, w), s.consumers[w];
    assert ConsumerOk(s, c);
    StopUndone(s, w);
    HandCountsIfAny(s, c, x);
    Added(Undone(s), multiset(InHand(c)), x);
    Added(Undone(s'), multiset(Waiting(c)), x);
    hide Stopped, Undone, RequestRuns, RequestCount, InHand, IdOf, Waiting, ConsumersOk, HandlersOk, ConsumerOk, Covered, CutTokens;
  }

  lemma StopTokens(s: System, w: nat, x: Id)
    requires HandlersOk(s) && ConsumersOk(s) && w < |s.consumers|
    ensures var s', c := Stopped(s, w), s.consumers[w];
      && Tokens(s', x) + CutTokens(s, c, x) + (if Covered(c) then RequestCount(multiset(Waiting(c)), x) else 0)
         == Tokens(s, x) + (if Covered(c) then 0 else IdOf(InHand(c))[x])
  {
    StopSums(s, w, x);
    StopCount(s, w, x);
    StopFrame(s, w);
    hide Stopped, Undone, RequestCount, InHand, IdOf, SumOf, Waiting, ConsumersOk, HandlersOk, Covered, Cut, Busy, CutTokens;
  }

  lemma StopPays(s: System, w: nat, x: Id)
    requires HandlersOk(s) && ConsumersOk(s) && w < |s.consumers|
    ensures Pays(s, Stopped(s, w), x)
  {
    assert ConsumerOk(s, s.consumers[w]);
    StopBudget(s, w, x);
    StopTokens(s, w, x);
    StopFrame(s, w);
    HandCountsIfAny(s, s.consumers[w], x);
    DroppedByStop(s, w, x);
    hide Stopped, Budget, Tokens, RequestCount, RequestRuns, InHand, IdOf, ConsumersOk, ConsumerOk, HandlersOk, Covered, Cut, Busy,
      CutTokens, Waiting;
  }

  lemma DroppedByStop(s: System, w: nat, x: Id)
    requires HandlersOk(s) && ConsumersOk(s) && w < |s.consumers|
    ensures var c := s.consumers[w];
      Covered(c) ==>
        RequestCount(Stopped(s, w).dropped, x)
        >= RequestCount(s.dropped, x) + RequestCount(multiset(Waiting(c)), x) + CutTokens(s, c, x)
  {
    var c := s.consumers[w];
    assert ConsumerOk(s, c);
    var first := if Busy(s, c) && s.handlers[c.hand.value].pc != Done then InHand(c) else [];
    assert multiset(Unfinished(s, c)) == multiset(first) + multiset(Waiting(c));
    HandCountsIfAny(s, c, x);
    Added(s.dropped, multiset(Unfinished(s, c)), x);
    Added(multiset(first), multiset(Waiting(c)), x);
    hide RequestRuns, RequestCount, InHand, IdOf, Waiting, ConsumersOk, HandlersOk, ConsumerOk;
  }

  lemma CommitPays(s: System, w: nat, x: Id)
    requires BrokerStep(s, Commit(w)) != s
    ensures Pays(s, BrokerStep(s, Commit(w)), x)
  {
    var s', c := BrokerStep(s, Commit(w)), s.consumers[w];
    CommitUndone(s, w);
    CommitFrame(s, w);
    Added(Undone(s'), multiset(Overdue(c)), x);
    Added(s.dropped, multiset(Overdue(c)), x);
    SameHandlers(s, s', x);
    hide BrokerStep, Undone, RequestRuns, RequestCount, Overdue, Budget, Tokens;
  }

  lemma SameHandlers(s: System, s': System, x: Id)
    requires s'.submitting == s.submitting && s'.handlers == s.handlers
    ensures Budget(s', x) - RequestRuns(Undone(s'), x) == Budget(s, x) - RequestRuns(Undone(s), x)
    ensures Tokens(s', x) - RequestCount(Undone(s'), x) == Tokens(s, x) - RequestCount(Undone(s), x)
  {
    hide Undone, RequestRuns, RequestCount, SumOf;
  }

  lemma CommitFrame(s: System, w: nat)
    requires BrokerStep(s, Commit(w)) != s
    ensures var s' := BrokerStep(s, Commit(w));
      s' == s.(consumers := s'.consumers, dropped := s.dropped + multiset(Overdue(s.consumers[w])))
  {
    hide Overdue;
  }

  lemma AgainTotals(s: System, m: Message, x: Id)
    requires MessagesOk(s) && m in s.sent
    ensures var s' := BrokerStep(s, Again(m));
      Budget(s', x) == Budget(s, x) + RunsOf(m, x) && Tokens(s', x) == Tokens(s, x) + CountOf(m, x)
  {
    assert MessageOk(s, m);
    AgainUndone(s, m);
    Added(Undone(s), multiset{m}, x);
    One(m, x);
    AgainFrame(s, m);
    hide BrokerStep, Undone, RequestRuns, RequestCount, MessagesOk, MessageOk, SumOf, RunsOf, CountOf;
  }

  lemma AgainCounts(s: System, m: Message, x: Id)
    requires MessagesOk(s) && m in s.sent
    ensures Pays(s, BrokerStep(s, Again(m)), x)
  {
    AgainTotals(s, m, x);
    AgainFrame(s, m);
    hide BrokerStep, Budget, Tokens, RequestCount, MessagesOk;
  }

  lemma AgainFrame(s: System, m: Message)
    requires m in s.sent
    ensures var s' := BrokerStep(s, Again(m)); s' == s.(topic := s'.topic, again := s.again + IdOf([m]))
  {
  }

  lemma AgainUndone(s: System, m: Message)
    requires m in s.sent
    ensures Undone(BrokerStep(s, Again(m))) == Undone(s) + multiset{m}
  {
    hide HeldBy, IdOf;
  }

  lemma SameCounts(s: System, s': System, x: Id)
    requires Bounded(s, x) && s'.handlers == s.handlers && Undone(s') == Undone(s) && s'.submitting == s.submitting
    requires s'.started == s.started && s'.dead == s.dead && s'.issued == s.issued && s'.again == s.again && s'.dropped == s.dropped
    ensures Bounded(s', x) && Tokens(s', x) == Tokens(s, x) && (x !in s.issued ==> NotLost(s', x))
  {
    hide Undone;
  }

  lemma BrokerCounts(s: System, step: Step, x: Id)
    requires HandlersOk(s) && ConsumersOk(s) && MessagesOk(s) && Bounded(s, x) && NotLost(s, x)
    ensures Bounded(BrokerStep(s, step), x) && NotLost(BrokerStep(s, step), x)
  {
    var s' := BrokerStep(s, step);
    BrokerFrame(s, step);
    hide HandlersOk, ConsumersOk, MessagesOk, Stopped, EscapedFrom, Undone, RequestRuns, RequestCount, HandlerOf, Overdue;
    if s' != s {
      match step
      case Join => JoinUndone(s); SameCounts(s, s', x);
      case Poll(w, batch) => PollUndone(s, w, batch); SameCounts(s, s', x);
      case Take(w) => TakeCounts(s, w, x); assert s'.dropped == s.dropped && s'.started == s.started && s'.again == s.again;
      case Commit(w) => CommitPays(s, w, x); PaysKeeps(s, s', x);
      case Escape(w) => EscapePays(s, w, x); PaysKeeps(s, s', x);
      case Stop(w) => StopPays(s, w, x); PaysKeeps(s, s', x);
      case Again(m) => AgainCounts(s, m, x); PaysKeeps(s, s', x);
      case _ =>
    }
  }

  lemma BrokerRecords(s: System, step: Step)
    requires GatewayOk(s) && TasksOk(s)
    ensures GatewayOk(BrokerStep(s, step)) && TasksOk(BrokerStep(s, step))
  {
    BrokerFrame(s, step);
    hide BrokerStep, Grows, Ended, Numbered;
  }

  lemma BrokerKeeps(s: System, step: Step)
    requires Inv(s)
    ensures Inv(BrokerStep(s, step))
  {
    var s' := BrokerStep(s, step);
    BrokerRecords(s, step);
    BrokerMessages(s, step);
    BrokerKeepsHandlers(s, step);
    hide BrokerStep, HandlersOk, ConsumersOk, MessagesOk, GatewayOk, TasksOk, Bounded, NotLost;
    forall x ensures Bounded(s', x) && NotLost(s', x) {
      assert Bounded(s, x) && NotLost(s, x);
      BrokerCounts(s, step, x);
    }
  }

  /** The gateway leaves handlers and workers alone, so only its own records need a look. */
  lemma GatewayKeeps(s: System, s': System)
    requires Inv(s) && Grows(s, s') && s'.handlers == s.handlers && s'.consumers == s.consumers && s'.dropped == s.dropped
    requires MessagesOk(s') && GatewayOk(s') && TasksOk(s')
    requires forall x :: Bounded(s', x) && (x !in s.issued || Tokens(s', x) != Tokens(s, x) ==> NotLost(s', x))
    ensures Inv(s')
  {
    KeptHandlers(s, s');
    KeptConsumers(s, s');
    hide HandlersOk, ConsumersOk, MessagesOk, GatewayOk, TasksOk, Tokens;
    forall x ensures NotLost(s', x) {
      assert NotLost(s, x) && Bounded(s', x);
    }
  }

  lemma SubmitFrame(s: System, step: Step)
    ensures var s' := SubmitStep(s, step);
      s' == s.(tasks := s'.tasks, issued := s'.issued, submitting := s'.submitting, topic := s'.topic, sent := s'.sent,
               cancelling := s'.cancelling, cancelled := s'.cancelled)
  {
  }

  lemma SubmitTasks(s: System, step: Step)
    requires GatewayOk(s) && TasksOk(s)
    ensures var s' := SubmitStep(s, step); Grows(s, s') && GatewayOk(s') && TasksOk(s')
  {
    SubmitFrame(s, step);
    SubmitGrows(s, step);
    SubmitRecords(s, step);
    hide SubmitStep, Grows, TasksOk;
  }

  lemma SubmitGrows(s: System, step: Step)
    requires TasksOk(s)
    ensures Grows(s, SubmitStep(s, step))
  {
    SubmitFrame(s, step);
    hide Numbered;
    match step
    case Create(id) =>
    case CreateFromCache(id, _) =>
    case Expire(id) =>
    case _ => assert SubmitStep(s, step).tasks == s.tasks; hide SubmitStep, TasksOk;
  }

  lemma SubmitRecords(s: System, step: Step)
    requires TasksOk(s)
    ensures TasksOk(SubmitStep(s, step)) && s.issued <= SubmitStep(s, step).issued
  {
  }

  lemma SubmitMessages(s: System, step: Step)
    requires MessagesOk(s) && TasksOk(s)
    ensures MessagesOk(SubmitStep(s, step))
  {
    SubmitFrame(s, step);
  }

  lemma PublishUndone(s: System, id: Id)
    ensures Undone(SubmitStep(s, Publish(id))) == if id in s.submitting then Undone(s) + multiset{Request(id, 0)} else Undone(s)
  {
    hide HeldBy;
  }

  lemma PublishFrame(s: System, id: Id)
    ensures var s' := SubmitStep(s, Publish(id));
      s' == s.(submitting := s.submitting - {id}, topic := s'.topic, sent := s'.sent)
  {
  }

  lemma PublishMessages(s: System, id: Id, x: Id)
    requires id in s.submitting
    ensures var s' := SubmitStep(s, Publish(id));
      && RequestRuns(Undone(s'), x) == RequestRuns(Undone(s), x) + (if x == id then MAX_RETRIES + 1 else 0)
      && RequestCount(Undone(s'), x) == RequestCount(Undone(s), x) + (if x == id then 1 else 0)
  {
    PublishUndone(s, id);
    Added(Undone(s), multiset{Request(id, 0)}, x);
    One(Request(id, 0), x);
    hide SubmitStep, Undone, RequestRuns, RequestCount;
  }

  lemma PublishTotals(s: System, id: Id, x: Id)
    ensures var s' := SubmitStep(s, Publish(id)); Budget(s', x) == Budget(s, x) && Tokens(s', x) == Tokens(s, x)
  {
    if id in s.submitting {
      PublishMessages(s, id, x);
      PublishFrame(s, id);
      hide SubmitStep, Undone, RequestRuns, RequestCount, SumOf;
    }
  }

  lemma PublishCounts(s: System, id: Id, x: Id)
    requires Bounded(s, x)
    ensures var s' := SubmitStep(s, Publish(id)); Bounded(s', x) && Tokens(s', x) == Tokens(s, x) && s'.issued == s.issued
  {
    PublishTotals(s, id, x);
    hide Budget, Tokens;
  }

  lemma CreateCounts(s: System, id: Id, x: Id)
    requires TasksOk(s) && Bounded(s, x) && id !in s.issued
    ensures var s' := SubmitStep(s, Create(id));
      Bounded(s', x) && Tokens(s', x) == Tokens(s, x) + (if x == id then 1 else 0) && s'.issued == s.issued + {id}
  {
    assert Undone(SubmitStep(s, Create(id))) == Undone(s);
    hide Undone, RequestRuns, RequestCount;
  }

  lemma CachedCounts(s: System, step: Step, x: Id)
    requires TasksOk(s) && Bounded(s, x) && step.CreateFromCache?
    ensures var s' := SubmitStep(s, step); Bounded(s', x) && (x !in s.issued || Tokens(s', x) != Tokens(s, x) ==> NotLost(s', x))
  {
    var s' := SubmitStep(s, step);
    if s' != s {
      CachedFrame(s, step);
      SameUndone(s, s');
      SameHandlers(s, s', x);
      hide SubmitStep, Undone, Budget, Tokens, RequestRuns, RequestCount;
    } else {
      hide SubmitStep, Undone, Budget, Tokens, RequestRuns, RequestCount;
    }
  }

  lemma CachedFrame(s: System, step: Step)
    requires step.CreateFromCache? && SubmitStep(s, step) != s
    ensures var s' := SubmitStep(s, step);
      && s' == s.(tasks := s'.tasks, issued := s.issued + {step.id})
      && step.id in s'.tasks && s'.tasks[step.id].status.Success?
  {
  }

  lemma SubmitCounts(s: System, step: Step, x: Id)
    requires TasksOk(s) && Bounded(s, x)
    ensures var s' := SubmitStep(s, step); Bounded(s', x) && (x !in s.issued || Tokens(s', x) != Tokens(s, x) ==> NotLost(s', x))
  {
    var s' := SubmitStep(s, step);
    hide Bounded, Tokens, Ended, RequestCount;
    match step
    case Publish(id) => PublishCounts(s, id, x);
    case Create(id) => if id !in s.issued { CreateCounts(s, id, x); }
    case CreateFromCache(_, _) => CachedCounts(s, step, x);
    case _ => FlagCounts(s, step, x);
  }

  lemma FlagCounts(s: System, step: Step, x: Id)
    requires Bounded(s, x) && !step.Create? && !step.CreateFromCache? && !step.Publish?
    ensures var s' := SubmitStep(s, step); Bounded(s', x) && Tokens(s', x) == Tokens(s, x) && (x !in s.issued ==> NotLost(s', x))
  {
    var s' := SubmitStep(s, step);
    assert s' == s.(tasks := s'.tasks, cancelling := s'.cancelling, cancelled := s'.cancelled);
    SameUndone(s, s');
    hide SubmitStep;
    SameCounts(s, s', x);
  }

  lemma PostFrame(s: System, step: Step)
    ensures var s' := PostStep(s, step);
      s' == s.(posts := s'.posts, topic := s'.topic, sent := s'.sent, reopened := s'.reopened, tasks := s'.tasks)
  {
  }

  lemma PostPublished(s: System, p: Post)
    requires MessagesOk(s) && GatewayOk(s) && TasksOk(s)
    ensures var s' := PostStep(s, PostPublish(p)); Grows(s, s') && MessagesOk(s') && GatewayOk(s') && TasksOk(s')
  {
    var s' := PostStep(s, PostPublish(p));
    if s' != s {
      PublishedPost(s, p);
      assert PostOk(s, p);
      hide PostStep, PostOk;
      PublishedMessages(s, s', p);
      PublishedRecords(s, s', p);
    }
  }

  lemma PublishedRecords(s: System, s': System, p: Post)
    requires GatewayOk(s) && TasksOk(s) && PostOk(s, p)
    requires s' == s.(posts := s.posts - multiset{p} + multiset{p.(sent := true)}, topic := s'.topic,
                      sent := s.sent + {Feedback(p.id, |p.snap.turns| + 1, p.snap.turns)}, reopened := s.reopened + {p.id})
    ensures Grows(s, s') && GatewayOk(s') && TasksOk(s')
  {
    hide Numbered;
    forall q | q in s'.posts ensures PostOk(s', q) {
      assert q == p.(sent := true) || (q in s.posts && PostOk(s, q));
    }
    forall c | c in s'.scans ensures ScanOk(s', c) {
      assert ScanOk(s, c);
    }
    hide PostOk, ScanOk;
  }

  lemma PublishedPost(s: System, p: Post)
    requires PostStep(s, PostPublish(p)) != s
    ensures var s', f := PostStep(s, PostPublish(p)), Feedback(p.id, |p.snap.turns| + 1, p.snap.turns);
      && p in s.posts && !p.sent
      && s' == s.(posts := s.posts - multiset{p} + multiset{p.(sent := true)}, topic := s.topic + multiset{f},
                  sent := s.sent + {f}, reopened := s.reopened + {p.id})
  {
  }

  lemma PublishedMessages(s: System, s': System, p: Post)
    requires MessagesOk(s) && PostOk(s, p)
    requires var f := Feedback(p.id, |p.snap.turns| + 1, p.snap.turns);
      s'.topic == s.topic + multiset{f} && s'.sent == s.sent + {f} && s'.reopened == s.reopened + {p.id} && s'.issued == s.issued
    ensures MessagesOk(s')
  {
    hide Numbered;
    forall m | m in s'.sent ensures MessageOk(s', m) {
      assert m in s.sent ==> MessageOk(s, m);
    }
  }

  lemma PostSaved(s: System, p: Post)
    requires MessagesOk(s) && GatewayOk(s) && TasksOk(s)
    ensures var s' := PostStep(s, PostSave(p)); Grows(s, s') && MessagesOk(s') && GatewayOk(s') && TasksOk(s')
  {
    assert p in s.posts ==> PostOk(s, p);
  }

  lemma PostRecords(s: System, step: Step)
    requires MessagesOk(s) && GatewayOk(s) && TasksOk(s)
    ensures var s' := PostStep(s, step); Grows(s, s') && MessagesOk(s') && GatewayOk(s') && TasksOk(s')
  {
    hide MessagesOk, GatewayOk, TasksOk, Grows;
    match step
    case PostRead(id) => PostWasRead(s, id);
    case PostPublish(p) => PostPublished(s, p);
    case PostSave(p) => PostSaved(s, p);
    case _ => StaysOk(s);
  }

  lemma StaysOk(s: System)
    ensures Grows(s, s)
  {
  }

  lemma PostWasRead(s: System, id: Id)
    requires MessagesOk(s) && GatewayOk(s) && TasksOk(s)
    ensures var s' := PostStep(s, PostRead(id)); Grows(s, s') && MessagesOk(s') && GatewayOk(s') && TasksOk(s')
  {
    hide Numbered;
  }

  lemma PostUndone(s: System, p: Post)
    ensures Undone(PostStep(s, PostPublish(p))) == Undone(s)
         || Undone(PostStep(s, PostPublish(p))) == Undone(s) + multiset{Feedback(p.id, |p.snap.turns| + 1, p.snap.turns)}
  {
    hide HeldBy;
  }

  lemma PostTotals(s: System, p: Post, x: Id)
    ensures var s' := PostStep(s, PostPublish(p)); Budget(s', x) == Budget(s, x) && Tokens(s', x) == Tokens(s, x)
  {
    var f := Feedback(p.id, |p.snap.turns| + 1, p.snap.turns);
    PostFrame(s, PostPublish(p));
    PostUndone(s, p);
    Added(Undone(s), multiset{f}, x);
    One(f, x);
    SameHandlers(s, PostStep(s, PostPublish(p)), x);
    hide PostStep, Undone, RequestRuns, RequestCount, Budget, Tokens;
  }

  /** Feedback messages carry no pipeline runs of the submission. */
  lemma PostCounts(s: System, step: Step, x: Id)
    requires Bounded(s, x)
    ensures var s' := PostStep(s, step); Bounded(s', x) && Tokens(s', x) == Tokens(s, x) && (x !in s.issued ==> NotLost(s', x))
  {
    var s' := PostStep(s, step);
    PostFrame(s, step);
    match step
    case PostPublish(p) =>
      if p in s.posts {
        PostTotals(s, p, x);
      }
      hide Budget, Tokens;
    case _ => assert Undone(s') == Undone(s); SameCounts(s, s', x);
  }

  lemma ScanFrame(s: System, step: Step)
    ensures var s' := ScanStep(s, step); s' == s.(tasks := s'.tasks, scans := s'.scans)
  {
  }

  lemma ScanRecords(s: System, step: Step)
    requires MessagesOk(s) && GatewayOk(s) && TasksOk(s)
    ensures var s' := ScanStep(s, step); Grows(s, s') && MessagesOk(s') && GatewayOk(s') && TasksOk(s')
  {
    ScanFrame(s, step);
    if step.ScanSave? && step.scan in s.scans {
      ScanSaved(s, step.scan);
    }
  }

  lemma ScanSaved(s: System, c: Scan)
    requires MessagesOk(s) && GatewayOk(s) && TasksOk(s) && c in s.scans
    ensures var s' := ScanStep(s, ScanSave(c)); Grows(s, s') && MessagesOk(s') && GatewayOk(s') && TasksOk(s')
  {
    assert ScanOk(s, c);
    hide Numbered, MessageOk;
  }

  lemma SubmitKeeps(s: System, step: Step)
    requires Inv(s)
    ensures Inv(SubmitStep(s, step))
  {
    var s' := SubmitStep(s, step);
    SubmitFrame(s, step);
    SubmitTasks(s, step);
    SubmitMessages(s, step);
    hide SubmitStep, HandlersOk, ConsumersOk, MessagesOk, GatewayOk, TasksOk, Bounded, NotLost, Tokens, Grows;
    forall x ensures Bounded(s', x) && (x !in s.issued || Tokens(s', x) != Tokens(s, x) ==> NotLost(s', x)) {
      assert Bounded(s, x);
      SubmitCounts(s, step, x);
    }
    GatewayKeeps(s, s');
  }

  lemma PostKeeps(s: System, step: Step)
    requires Inv(s)
    ensures Inv(PostStep(s, step))
  {
    var s' := PostStep(s, step);
    PostFrame(s, step);
    PostRecords(s, step);
    hide PostStep, HandlersOk, ConsumersOk, MessagesOk, GatewayOk, TasksOk, Bounded, NotLost, Tokens, Grows;
    forall x ensures Bounded(s', x) && (x !in s.issued || Tokens(s', x) != Tokens(s, x) ==> NotLost(s', x)) {
      assert Bounded(s, x);
      PostCounts(s, step, x);
    }
    GatewayKeeps(s, s');
  }

  lemma ScanKeeps(s: System, step: Step)
    requires Inv(s)
    ensures Inv(ScanStep(s, step))
  {
    var s' := ScanStep(s, step);
    ScanFrame(s, step);
    ScanRecords(s, step);
    assert Undone(s') == Undone(s);
    hide ScanStep, HandlersOk, ConsumersOk, MessagesOk, GatewayOk, TasksOk, Bounded, NotLost, Tokens, Grows, Undone;
    forall x ensures Bounded(s', x) && (x !in s.issued || Tokens(s', x) != Tokens(s, x) ==> NotLost(s', x)) {
      assert Bounded(s, x);
      SameCounts(s, s', x);
    }
    GatewayKeeps(s, s');
  }

  lemma ApplyKeeps(s: System, step: Step)
    requires Inv(s)
    ensures Inv(Apply(s, step))
  {
    hide WorkerStep, BrokerStep, SubmitStep, PostStep, ScanStep, Inv;
    match PartyOf(step)
    case Worker => WorkerKeeps(s, step);
    case Broker => BrokerKeeps(s, step);
    case Submission => SubmitKeeps(s, step);
    case FeedbackPost => PostKeeps(s, step);
    case Scanner => ScanKeeps(s, step);
  }

  lemma WorkerKeeps(s: System, step: Step)
    requires Inv(s)
    ensures Inv(WorkerStep(s, step))
  {
    hide Inv, Move, NextHandler, NextThread, NextGiveUp;
    match step
    case Handle(i) =>
      if i < |s.handlers| {
        var h := s.handlers[i];
        MoveKeeps(s, i, NextHandler(h, h.id in s.cancelled, IsRunning(s, h.id)));
      }
    case GiveUp(i) => if i < |s.handlers| { MoveKeeps(s, i, (NextGiveUp(s.handlers[i]), Skip)); }
    case Run(i, act) =>
      if i < |s.handlers| { MoveKeeps(s, i, NextThread(s.handlers[i], s.handlers[i].id in s.cancelled, act)); }
    case _ =>
  }

  lemma EmptyOk()
    ensures Inv(EMPTY)
  {
  }

  lemma {:induction false} Reachable(steps: seq<Step>)
    ensures Inv(After(EMPTY, steps))
  {
    hide Apply, Inv;
    if steps == [] {
      EmptyOk();
    } else {
      Reachable(steps[..|steps| - 1]);
      ApplyKeeps(After(EMPTY, steps[..|steps| - 1]), steps[|steps| - 1]);
    }
  }
}

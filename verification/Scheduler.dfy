/** The batch-evaluation scheduler of evaluation/run.py: a bounded worker pool fed from a
    deque, front-requeued retries and progressive hard timeouts.

    Samples are named by their position in the input list.  The environment is a function
    from loop iteration to tick, so a statement about every `env` covers every mix of
    completions, exceptions and expiries. */
module Scheduler {

  const MAX_SAMPLE_RETRIES: nat := 2
  const TIMEOUTS: seq<real> := [120.0, 300.0, 480.0]
  const WAIT: real := 15.0

  function HardTimeout(retries: nat): real {
    TIMEOUTS[if retries < |TIMEOUTS| - 1 then retries else |TIMEOUTS| - 1]
  }

  /** Longest time the first `attempts` attempts of one sample may take together. */
  function Budget(attempts: nat): real {
    if attempts == 0 then 0.0 else Budget(attempts - 1) + HardTimeout(attempts - 1) + WAIT
  }

  datatype Outcome<R> = Returned(value: R) | Raised

  /** What `wait` reports in one iteration: time slept if a pending future completed, the
      completed futures in the order the loop visits them, and how each of them ended. */
  datatype Tick<R> = Tick(elapsed: real, done: seq<nat>, outcome: nat -> Outcome<R>)

  /** How one attempt ended, and in which iteration. */
  datatype End<R> =
    | Finished(tick: nat, future: nat, value: R)
    | Threw(tick: nat, future: nat)
    | TimedOut(tick: nat, future: nat)

  /** The submission of a future: for which sample, and when. */
  datatype Call = Call(pos: nat, at: real)

  /** The history of a run, only ever appended to: its submissions by future, and what time it was
      once each iteration had waited. */
  datatype Log = Log(calls: seq<Call>, clock: seq<real>)

  predicate Continues(log: Log, log': Log) { log.calls <= log'.calls && log.clock <= log'.clock }

  /** A queue entry.  `trail` and `first` (ended attempts, time of first submission) are
      carried along only to state what a result goes back to. */
  datatype Job<R> = Job(pos: nat, retries: nat, trail: seq<End<R>>, first: real)
  datatype Running<R> = Running(future: nat, job: Job<R>, submitted: real)
  datatype Record<R> = Record(pos: nat, score: Score<R>, trail: seq<End<R>>, first: real, at: real)
  datatype Score<R> = Scored(value: R) | Crashed

  datatype State<R> = State(
    queue: seq<Job<R>>, pending: seq<Running<R>>, results: seq<Record<R>>,
    now: real, lastSubmit: real, log: Log)

  function Upto(n: nat): seq<nat> { seq(n, i => i) }

  ghost function QueuePos<R>(q: seq<Job<R>>): seq<nat> { seq(|q|, i requires 0 <= i < |q| => q[i].pos) }
  ghost function PendingPos<R>(p: seq<Running<R>>): seq<nat> {
    seq(|p|, i requires 0 <= i < |p| => p[i].job.pos)
  }
  ghost function ResultPos<R>(r: seq<Record<R>>): seq<nat> { seq(|r|, i requires 0 <= i < |r| => r[i].pos) }

  /** Queue, pool and results together hold each of the n samples exactly once. */
  ghost predicate Conserved<R>(st: State<R>, n: nat) {
    multiset(QueuePos(st.queue)) + multiset(PendingPos(st.pending)) + multiset(ResultPos(st.results))
    == multiset(Upto(n))
  }

  /** An end the environment really produced, of a call submitted for this very sample. */
  ghost predicate Happened<R>(env: nat -> Tick<R>, log: Log, e: End<R>, pos: nat, attempt: nat) {
    && e.future < |log.calls| && log.calls[e.future].pos == pos && e.tick < |log.clock|
    && match e
       case Finished(t, f, v) => f in env(t).done && env(t).outcome(f) == Returned(v)
       case Threw(t, f) => f in env(t).done && env(t).outcome(f) == Raised
       case TimedOut(t, f) => f !in env(t).done && log.clock[t] - log.calls[f].at > HardTimeout(attempt)
  }

  /** The ended attempts at one sample, each with a call of its own, and when the first began. */
  ghost predicate GoodTrail<R>(env: nat -> Tick<R>, log: Log, trail: seq<End<R>>, pos: nat, first: real) {
    && (forall i :: 0 <= i < |trail| ==> Happened(env, log, trail[i], pos, i))
    && (forall i, j :: 0 <= i < j < |trail| ==> trail[i].future < trail[j].future)
    && (trail != [] ==> log.calls[trail[0].future].at == first)
  }

  /** A retry: as many failed attempts behind it as its counter says. */
  ghost predicate FailedSoFar<R>(env: nat -> Tick<R>, log: Log, job: Job<R>) {
    && |job.trail| == job.retries <= MAX_SAMPLE_RETRIES
    && GoodTrail(env, log, job.trail, job.pos, job.first)
    && forall i :: 0 <= i < |job.trail| ==> !job.trail[i].Finished?
  }

  ghost predicate GoodRunning<R>(env: nat -> Tick<R>, log: Log, r: Running<R>) {
    && FailedSoFar(env, log, r.job) && r.submitted <= r.job.first + Budget(r.job.retries)
    && r.future < |log.calls| && log.calls[r.future] == Call(r.job.pos, r.submitted)
    && (forall i :: 0 <= i < |r.job.trail| ==> r.job.trail[i].future < r.future)
    && (r.job.trail == [] ==> r.job.first == r.submitted)
  }

  /** A result: the value of the last attempt after failed ones, or three failed attempts;
      at most three attempts in all, and no later than their budget. */
  ghost predicate GoodRecord<R>(env: nat -> Tick<R>, log: Log, r: Record<R>) {
    && 1 <= |r.trail| <= MAX_SAMPLE_RETRIES + 1
    && GoodTrail(env, log, r.trail, r.pos, r.first)
    && (forall i :: 0 <= i < |r.trail| - 1 ==> !r.trail[i].Finished?)
    && (match r.score
        case Scored(v) => r.trail[|r.trail| - 1].Finished? && r.trail[|r.trail| - 1].value == v
        case Crashed => |r.trail| == MAX_SAMPLE_RETRIES + 1 && !r.trail[|r.trail| - 1].Finished?)
    && r.at == log.clock[r.trail[|r.trail| - 1].tick] <= r.first + Budget(|r.trail|)
  }

  /** The untouched part of the queue is exactly a suffix of the input, never tried. */
  ghost predicate IsSuffix<R>(queue: seq<Job<R>>, n: nat) {
    |queue| <= n && forall i :: 0 <= i < |queue| ==>
      queue[i].pos == n - |queue| + i && queue[i].retries == 0 && queue[i].trail == []
  }

  /** The first `back` entries are retries just put back, the rest is untouched. */
  ghost predicate GoodQueue<R>(env: nat -> Tick<R>, log: Log, queue: seq<Job<R>>, n: nat, back: nat, now: real) {
    && back <= |queue| && IsSuffix(queue[back..], n)
    && forall i :: 0 <= i < back ==>
         FailedSoFar(env, log, queue[i]) && queue[i].retries > 0 && now <= queue[i].first + Budget(queue[i].retries)
  }

  ghost predicate Distinct<R>(pending: seq<Running<R>>) {
    forall i, j :: 0 <= i < j < |pending| ==> pending[i].future != pending[j].future
  }

  ghost predicate GoodPool<R>(env: nat -> Tick<R>, log: Log, pending: seq<Running<R>>, lastSubmit: real) {
    && (forall i :: 0 <= i < |pending| ==> GoodRunning(env, log, pending[i]) && pending[i].submitted <= lastSubmit)
    && Distinct(pending)
  }

  ghost predicate GoodResults<R>(env: nat -> Tick<R>, log: Log, results: seq<Record<R>>) {
    forall i :: 0 <= i < |results| ==> GoodRecord(env, log, results[i])
  }

  /** Holds everywhere in an iteration. */
  ghost predicate Inv<R>(env: nat -> Tick<R>, st: State<R>, n: nat, back: nat) {
    && Conserved(st, n)
    && GoodQueue(env, st.log, st.queue, n, back, st.now)
    && GoodPool(env, st.log, st.pending, st.lastSubmit)
    && GoodResults(env, st.log, st.results)
    && st.lastSubmit <= st.now
  }

  /** Every pending attempt is at most `slack` past its hard timeout. */
  ghost predicate Within<R>(st: State<R>, slack: real) {
    forall i :: 0 <= i < |st.pending| ==>
      st.now <= st.pending[i].submitted + HardTimeout(st.pending[i].job.retries) + slack
  }

  /** What holds at every loop head: the pool is bounded, waiting samples imply a full pool,
      and the queue is a suffix of the input without a single retry in it. */
  ghost predicate Head<R>(env: nat -> Tick<R>, st: State<R>, n: nat, maxWorkers: nat) {
    && Inv(env, st, n, 0)
    && |st.pending| <= maxWorkers
    && (st.queue != [] ==> |st.pending| == maxWorkers)
    && Within(st, 0.0)
  }

  // ---- attempts left, the first component of the termination measure ----

  function Left<R>(jobs: seq<Job<R>>): nat {
    if jobs == [] then 0
    else (if jobs[0].retries <= MAX_SAMPLE_RETRIES then MAX_SAMPLE_RETRIES + 1 - jobs[0].retries else 0)
         + Left(jobs[1..])
  }

  ghost function Jobs<R>(p: seq<Running<R>>): seq<Job<R>> { seq(|p|, i requires 0 <= i < |p| => p[i].job) }

  ghost function TotalLeft<R>(st: State<R>): nat { Left(st.queue) + Left(Jobs(st.pending)) }

  lemma {:induction false} LeftSplit<R>(a: seq<Job<R>>, b: seq<Job<R>>)
    ensures Left(a + b) == Left(a) + Left(b)
  {
    if a == [] {
      assert a + b == b;
    } else {
      assert (a + b)[1..] == a[1..] + b;
      LeftSplit(a[1..], b);
    }
  }

  lemma LeftRemove<R>(p: seq<Running<R>>, k: nat)
    requires k < |p| && p[k].job.retries <= MAX_SAMPLE_RETRIES
    ensures Left(Jobs(p)) == Left(Jobs(p[..k] + p[k + 1..])) + MAX_SAMPLE_RETRIES + 1 - p[k].job.retries
  {
    assert Jobs(p) == Jobs(p[..k]) + ([p[k].job] + Jobs(p[k + 1..]));
    assert Jobs(p[..k] + p[k + 1..]) == Jobs(p[..k]) + Jobs(p[k + 1..]);
    LeftSplit(Jobs(p[..k]), [p[k].job] + Jobs(p[k + 1..]));
    LeftSplit([p[k].job], Jobs(p[k + 1..]));
    LeftSplit(Jobs(p[..k]), Jobs(p[k + 1..]));
    assert Left([p[k].job]) == MAX_SAMPLE_RETRIES + 1 - p[k].job.retries;
  }

  lemma RemovePos<R>(p: seq<Running<R>>, k: nat)
    requires k < |p|
    ensures multiset(PendingPos(p)) == multiset(PendingPos(p[..k] + p[k + 1..])) + multiset{p[k].job.pos}
  {
    assert PendingPos(p) == PendingPos(p[..k]) + [p[k].job.pos] + PendingPos(p[k + 1..]);
    assert PendingPos(p[..k] + p[k + 1..]) == PendingPos(p[..k]) + PendingPos(p[k + 1..]);
  }

  // ---- the phases of one iteration ----

  /** `_submit_next` while slots are free: turns every retry back into a running attempt. */
  method Refill<R>(ghost env: nat -> Tick<R>, st0: State<R>, ghost n: nat, ghost back: nat, maxWorkers: nat)
    returns (st: State<R>)
    requires Inv(env, st0, n, back) && Within(st0, 0.0)
    requires |st0.pending| + back <= maxWorkers
    ensures Head(env, st, n, maxWorkers)
    ensures st.results == st0.results && st.now == st0.now
    ensures Continues(st0.log, st.log) && st.log.clock == st0.log.clock
    ensures TotalLeft(st) == TotalLeft(st0)
    ensures st0.queue == [] || |st0.pending| == maxWorkers ==> st == st0
  {
    st := st0;
    ghost var rest := back;
    while |st.pending| < maxWorkers && st.queue != []
      invariant Inv(env, st, n, rest) && Within(st, 0.0)
      invariant |st.pending| + rest <= maxWorkers
      invariant st.results == st0.results && st.now == st0.now
      invariant Continues(st0.log, st.log) && st.log.clock == st0.log.clock
      invariant TotalLeft(st) == TotalLeft(st0)
      invariant st0.queue == [] || |st0.pending| == maxWorkers ==> st == st0
      decreases |st.queue|
    {
      SubmittedGood(env, st, n, rest);
      SubmittedConserves(st, n);
      st, rest := Submitted(st), if rest == 0 then 0 else rest - 1;
    }
  }

  /** The state after `_submit_next` on a non-empty queue. */
  function Submitted<R>(st: State<R>): State<R>
    requires st.queue != []
  {
    var head := st.queue[0];
    var job := if head.retries == 0 then head.(first := st.now) else head;
    st.(queue := st.queue[1..], pending := st.pending + [Running(|st.log.calls|, job, st.now)],
        lastSubmit := st.now, log := st.log.(calls := st.log.calls + [Call(head.pos, st.now)]))
  }

  lemma SubmittedConserves<R>(st: State<R>, n: nat)
    requires st.queue != [] && Conserved(st, n)
    ensures Conserved(Submitted(st), n) && TotalLeft(Submitted(st)) == TotalLeft(st)
  {
    var head, st' := st.queue[0], Submitted(st);
    var job := st'.pending[|st.pending|].job;
    assert QueuePos(st.queue) == [head.pos] + QueuePos(st'.queue);
    assert PendingPos(st'.pending) == PendingPos(st.pending) + [head.pos];
    assert Jobs(st'.pending) == Jobs(st.pending) + [job];
    LeftSplit(Jobs(st.pending), [job]);
    assert Left([job]) == Left([head]);
  }

  // ---- what is on record stays on record ----

  lemma TrailLasts<R>(env: nat -> Tick<R>, log: Log, log': Log, trail: seq<End<R>>, pos: nat, first: real)
    requires Continues(log, log') && GoodTrail(env, log, trail, pos, first)
    ensures GoodTrail(env, log', trail, pos, first)
  {
    forall i | 0 <= i < |trail| ensures Happened(env, log', trail[i], pos, i) {
      assert Happened(env, log, trail[i], pos, i);
    }
    assert trail != [] ==> Happened(env, log, trail[0], pos, 0);
  }

  lemma QueueLasts<R>(env: nat -> Tick<R>, log: Log, log': Log, queue: seq<Job<R>>, n: nat, back: nat, now: real)
    requires Continues(log, log') && GoodQueue(env, log, queue, n, back, now)
    ensures GoodQueue(env, log', queue, n, back, now)
  {
    forall i | 0 <= i < back ensures FailedSoFar(env, log', queue[i]) {
      assert FailedSoFar(env, log, queue[i]);
      TrailLasts(env, log, log', queue[i].trail, queue[i].pos, queue[i].first);
    }
    hide GoodTrail;
  }

  lemma PoolLasts<R>(env: nat -> Tick<R>, log: Log, log': Log, pending: seq<Running<R>>, lastSubmit: real)
    requires Continues(log, log') && GoodPool(env, log, pending, lastSubmit)
    ensures GoodPool(env, log', pending, lastSubmit)
  {
    forall i | 0 <= i < |pending| ensures GoodRunning(env, log', pending[i]) {
      assert GoodRunning(env, log, pending[i]);
      TrailLasts(env, log, log', pending[i].job.trail, pending[i].job.pos, pending[i].job.first);
    }
    hide GoodTrail;
  }

  lemma ResultsLast<R>(env: nat -> Tick<R>, log: Log, log': Log, results: seq<Record<R>>)
    requires Continues(log, log') && GoodResults(env, log, results)
    ensures GoodResults(env, log', results)
  {
    forall i | 0 <= i < |results| ensures GoodRecord(env, log', results[i]) {
      var r := results[i];
      assert GoodRecord(env, log, r);
      TrailLasts(env, log, log', r.trail, r.pos, r.first);
      assert Happened(env, log, r.trail[|r.trail| - 1], r.pos, |r.trail| - 1);
    }
  }

  lemma SubmittedQueue<R>(env: nat -> Tick<R>, st: State<R>, n: nat, back: nat)
    requires st.queue != [] && GoodQueue(env, st.log, st.queue, n, back, st.now)
    ensures GoodQueue(env, st.log, st.queue[1..], n, if back == 0 then 0 else back - 1, st.now)
  {
    var rest, tail := if back == 0 then 0 else back - 1, st.queue[1..];
    assert tail[rest..] == if back == 0 then st.queue[back..][1..] else st.queue[back..];
    forall i | 0 <= i < rest ensures tail[i] == st.queue[i + 1] {}
    hide FailedSoFar;
  }

  lemma SubmittedHead<R>(env: nat -> Tick<R>, st: State<R>, n: nat, back: nat)
    requires st.queue != [] && GoodQueue(env, st.log, st.queue, n, back, st.now)
    ensures GoodRunning(env, Submitted(st).log, Submitted(st).pending[|st.pending|])
  {
    var log', head := Submitted(st).log, st.queue[0];
    if back == 0 {
      assert st.queue[back..][0] == head;
    } else {
      assert FailedSoFar(env, st.log, head);
      TrailLasts(env, st.log, log', head.trail, head.pos, head.first);
      forall i | 0 <= i < |head.trail| ensures head.trail[i].future < |st.log.calls| {
        assert Happened(env, st.log, head.trail[i], head.pos, i);
      }
    }
  }

  lemma SubmittedPool<R>(env: nat -> Tick<R>, st: State<R>, n: nat, back: nat)
    requires st.queue != [] && Inv(env, st, n, back)
    ensures GoodPool(env, Submitted(st).log, Submitted(st).pending, st.now)
  {
    var st' := Submitted(st);
    SubmittedHead(env, st, n, back);
    PoolLasts(env, st.log, st'.log, st.pending, st.lastSubmit);
    forall i | 0 <= i < |st.pending| ensures st.pending[i].future < |st.log.calls| {
      assert GoodRunning(env, st.log, st.pending[i]);
    }
    hide GoodRunning;
  }

  lemma SubmittedGood<R>(env: nat -> Tick<R>, st: State<R>, n: nat, back: nat)
    requires st.queue != [] && Inv(env, st, n, back) && Within(st, 0.0)
    ensures var rest := if back == 0 then 0 else back - 1;
            Inv(env, Submitted(st), n, rest) && Within(Submitted(st), 0.0)
  {
    var st' := Submitted(st);
    SubmittedFrame(st);
    hide Submitted, Conserved, GoodQueue, GoodPool, GoodResults, TotalLeft, Budget, Within;
    SubmittedConserves(st, n);
    SubmittedQueue(env, st, n, back);
    QueueLasts(env, st.log, st'.log, st'.queue, n, if back == 0 then 0 else back - 1, st.now);
    SubmittedPool(env, st, n, back);
    ResultsLast(env, st.log, st'.log, st.results);
    SubmittedWithin(st);
  }

  /** The head of the queue, and nothing else, becomes the newest running call. */
  lemma SubmittedFrame<R>(st: State<R>)
    requires st.queue != []
    ensures var st', call := Submitted(st), Call(st.queue[0].pos, st.now);
      && st' == st.(queue := st.queue[1..], pending := st'.pending, lastSubmit := st.now, log := st'.log)
      && st'.log.clock == st.log.clock && st'.log.calls == st.log.calls + [call] && Continues(st.log, st'.log)
      && |st'.pending| == |st.pending| + 1 && st'.pending[..|st.pending|] == st.pending
      && var r := st'.pending[|st.pending|];
         r.future == |st.log.calls| && r.submitted == st.now && r.job == st.queue[0].(first := r.job.first)
  {
  }

  lemma SubmittedWithin<R>(st: State<R>)
    requires st.queue != [] && Within(st, 0.0)
    ensures Within(Submitted(st), 0.0)
  {
  }

  /** The state after the attempt at index k has ended: it leaves the pool, and its sample is
      either recorded or put back at the front of the queue. */
  function Settled<R>(st: State<R>, k: nat, end: End<R>): State<R>
    requires k < |st.pending|
  {
    var job := st.pending[k].job;
    var trail := job.trail + [end];
    var pending := st.pending[..k] + st.pending[k + 1..];
    if Retried(st, k, end) then
      st.(pending := pending, queue := [Job(job.pos, job.retries + 1, trail, job.first)] + st.queue)
    else
      var score := if end.Finished? then Scored(end.value) else Crashed;
      st.(pending := pending, results := st.results + [Record(job.pos, score, trail, job.first, st.now)])
  }

  predicate Retried<R>(st: State<R>, k: nat, end: End<R>)
    requires k < |st.pending|
  {
    !end.Finished? && st.pending[k].job.retries < MAX_SAMPLE_RETRIES
  }

  lemma SettledConserves<R>(st: State<R>, n: nat, k: nat, end: End<R>)
    requires k < |st.pending| && Conserved(st, n)
    ensures Conserved(Settled(st, k, end), n)
  {
    var job, st' := st.pending[k].job, Settled(st, k, end);
    RemovePos(st.pending, k);
    if Retried(st, k, end) {
      assert QueuePos(st'.queue) == [job.pos] + QueuePos(st.queue);
    } else {
      assert ResultPos(st'.results) == ResultPos(st.results) + [job.pos];
    }
  }

  /** Every ended attempt uses up one of the sample's three. */
  lemma SettledUsesAttempt<R>(st: State<R>, k: nat, end: End<R>)
    requires k < |st.pending| && st.pending[k].job.retries <= MAX_SAMPLE_RETRIES
    ensures TotalLeft(Settled(st, k, end)) < TotalLeft(st)
  {
    var job, st' := st.pending[k].job, Settled(st, k, end);
    LeftRemove(st.pending, k);
    if Retried(st, k, end) {
      var again := st'.queue[0];
      LeftSplit([again], st.queue);
      assert Left([again]) == MAX_SAMPLE_RETRIES - job.retries;
    }
  }

  lemma SettledPool<R>(env: nat -> Tick<R>, st: State<R>, k: nat, end: End<R>)
    requires k < |st.pending| && GoodPool(env, st.log, st.pending, st.lastSubmit)
    ensures var p := Settled(st, k, end).pending;
      && GoodPool(env, st.log, p, st.lastSubmit)
      && |p| == |st.pending| - 1
      && forall r :: r in p ==> r in st.pending && r.future != st.pending[k].future
  {
    var p := Settled(st, k, end).pending;
    forall i | 0 <= i < |p| ensures p[i] == st.pending[if i < k then i else i + 1] {}
    hide GoodRunning;
  }

  /** The end of the call that is running at index k, seen in this iteration. */
  ghost predicate Ends<R>(env: nat -> Tick<R>, st: State<R>, k: nat, end: End<R>)
    requires k < |st.pending|
  {
    && end.future == st.pending[k].future
    && Happened(env, st.log, end, st.pending[k].job.pos, st.pending[k].job.retries)
    && st.log.clock[end.tick] == st.now
  }

  lemma SettledTrail<R>(env: nat -> Tick<R>, st: State<R>, k: nat, end: End<R>)
    requires k < |st.pending| && GoodRunning(env, st.log, st.pending[k]) && Ends(env, st, k, end)
    ensures var job := st.pending[k].job; GoodTrail(env, st.log, job.trail + [end], job.pos, job.first)
  {
    var job := st.pending[k].job;
    var trail := job.trail + [end];
    forall i | 0 <= i < |trail| ensures Happened(env, st.log, trail[i], job.pos, i) {
      assert i < |job.trail| ==> trail[i] == job.trail[i] && Happened(env, st.log, job.trail[i], job.pos, i);
    }
    assert job.trail != [] ==> trail[0] == job.trail[0];
  }

  lemma SettledQueue<R>(env: nat -> Tick<R>, st: State<R>, n: nat, back: nat, k: nat, end: End<R>)
    requires Inv(env, st, n, back) && Within(st, WAIT) && k < |st.pending| && Ends(env, st, k, end)
    ensures var st' := Settled(st, k, end);
      && GoodQueue(env, st.log, st'.queue, n, if Retried(st, k, end) then back + 1 else back, st.now)
      && GoodResults(env, st.log, st'.results)
  {
    var job, st' := st.pending[k].job, Settled(st, k, end);
    assert GoodRunning(env, st.log, st.pending[k]);
    SettledTrail(env, st, k, end);
    assert Budget(job.retries + 1) == Budget(job.retries) + HardTimeout(job.retries) + WAIT;
    assert st.now <= job.first + Budget(job.retries + 1);
    hide GoodTrail, Conserved;
    if Retried(st, k, end) {
      assert st'.queue[back + 1..] == st.queue[back..];
      assert FailedSoFar(env, st.log, st'.queue[0]);
    } else {
      assert GoodRecord(env, st.log, st'.results[|st.results|]);
    }
  }

  /** One ended attempt keeps the whole invariant. */
  lemma SettledGood<R>(env: nat -> Tick<R>, st: State<R>, n: nat, back: nat, k: nat, end: End<R>)
    requires Inv(env, st, n, back) && Within(st, WAIT) && k < |st.pending| && Ends(env, st, k, end)
    ensures var st' := Settled(st, k, end);
      && Inv(env, st', n, if Retried(st, k, end) then back + 1 else back)
      && Within(st', WAIT) && TotalLeft(st') < TotalLeft(st)
      && forall r :: r in st'.pending ==> r in st.pending && r.future != st.pending[k].future
  {
    SettledConserves(st, n, k, end);
    SettledUsesAttempt(st, k, end);
    SettledPool(env, st, k, end);
    SettledQueue(env, st, n, back, k, end);
    var p := Settled(st, k, end).pending;
    forall i | 0 <= i < |p|
      ensures st.now <= p[i].submitted + HardTimeout(p[i].job.retries) + WAIT
    {
      assert p[i] in p;
    }
  }

  function IndexOf<R>(p: seq<Running<R>>, future: nat): (k: int)
    ensures k == -1 ==> forall i :: 0 <= i < |p| ==> p[i].future != future
    ensures k != -1 ==> 0 <= k < |p| && p[k].future == future
  {
    if p == [] then -1
    else if p[|p| - 1].future == future then |p| - 1
    else IndexOf(p[..|p| - 1], future)
  }

  lemma IndexOfFinds<R>(p: seq<Running<R>>, future: nat)
    ensures IndexOf(p, future) != -1 <==> exists r :: r in p && r.future == future
  {
    if IndexOf(p, future) != -1 {
      assert p[IndexOf(p, future)] in p;
    }
  }

  /** Attempts were used up, or the clock moved on by a full wait and nothing else happened. */
  ghost predicate Progress<R>(st0: State<R>, st: State<R>) {
    TotalLeft(st) < TotalLeft(st0)
    || st == st0.(now := st0.now + WAIT, log := st0.log.(clock := st0.log.clock + [st0.now + WAIT]))
  }

  /** One pass of the main loop: wait, collect expired futures, settle the completed ones, then
      the expired ones that are still pending, then refill. */
  method Step<R>(env: nat -> Tick<R>, i: nat, st0: State<R>, ghost n: nat, maxWorkers: nat)
    returns (st: State<R>)
    requires Head(env, st0, n, maxWorkers) && i == |st0.log.clock| && 0.0 <= env(i).elapsed <= WAIT
    ensures Head(env, st, n, maxWorkers)
    ensures st0.results <= st.results && Continues(st0.log, st.log)
    ensures st.now == st0.now + if exists r :: r in st0.pending && r.future in env(i).done then env(i).elapsed else WAIT
    ensures st.log.clock == st0.log.clock + [st.now]
    ensures Progress(st0, st)
  {
    hide Conserved, GoodQueue, GoodRunning, GoodResults, Expired, Left;
    st := Woken(env, i, st0);
    WokenWhen(env, i, st0);
    hide Completes;
    WokenGood(env, st0, st, n);
    ghost var woke, back := st, 0;
    var expired := Expired(st.pending, st.now);
    st, back := SettleDone(env, i, st, n);
    ghost var completed := st;
    st, back := SettleExpired(env, i, st, n, back, expired, woke.pending);
    NobodyLate(woke, st);
    ghost var settled := st;
    st := Refill(env, st, n, back, maxWorkers);
    if settled == woke {
      WokenByNobody(env, i, st0);
    }
  }

  predicate Completes<R>(env: nat -> Tick<R>, i: nat, pending: seq<Running<R>>) {
    exists d :: d in env(i).done && IndexOf(pending, d) != -1
  }

  /** `wait` returns when a pending future has completed, and after 15 s otherwise. */
  function Woken<R>(env: nat -> Tick<R>, i: nat, st: State<R>): State<R> {
    var now := st.now + if Completes(env, i, st.pending) then env(i).elapsed else WAIT;
    st.(now := now, log := st.log.(clock := st.log.clock + [now]))
  }

  lemma WokenWhen<R>(env: nat -> Tick<R>, i: nat, st: State<R>)
    ensures Completes(env, i, st.pending) <==> exists r :: r in st.pending && r.future in env(i).done
  {
    forall d ensures IndexOf(st.pending, d) != -1 <==> exists r :: r in st.pending && r.future == d {
      IndexOfFinds(st.pending, d);
    }
    if r :| r in st.pending && r.future in env(i).done {
      assert r.future in env(i).done && IndexOf(st.pending, r.future) != -1;
    }
  }

  lemma WokenByNobody<R>(env: nat -> Tick<R>, i: nat, st: State<R>)
    requires Gone(st.pending, env(i).done)
    ensures !Completes(env, i, st.pending)
  {
    WokenWhen(env, i, st);
  }

  lemma WokenGood<R>(env: nat -> Tick<R>, st0: State<R>, st: State<R>, n: nat)
    requires Inv(env, st0, n, 0) && Within(st0, 0.0)
    requires st0.now <= st.now <= st0.now + WAIT && st == st0.(now := st.now, log := st.log) && Continues(st0.log, st.log)
    ensures Inv(env, st, n, 0) && Within(st, WAIT)
  {
    QueueLasts(env, st0.log, st.log, st.queue, n, 0, st.now);
    PoolLasts(env, st0.log, st.log, st.pending, st.lastSubmit);
    ResultsLast(env, st0.log, st.log, st.results);
  }

  function Expired<R>(p: seq<Running<R>>, now: real): (fs: seq<nat>)
    ensures forall r :: r in p && now - r.submitted > HardTimeout(r.job.retries) ==> r.future in fs
    ensures forall f :: f in fs ==>
      exists r :: r in p && r.future == f && now - r.submitted > HardTimeout(r.job.retries)
  {
    if p == [] then []
    else var rest := Expired(p[1..], now);
      if now - p[0].submitted > HardTimeout(p[0].job.retries) then [p[0].future] + rest else rest
  }

  /** What settling some attempts of st0 has led to: no slot was lost to a retry, and unless
      nothing happened, attempts were used up. */
  ghost predicate Advanced<R>(st0: State<R>, back0: nat, st: State<R>, back: nat) {
    && |st.pending| + back <= |st0.pending| + back0
    && st.now == st0.now && st.lastSubmit == st0.lastSubmit && st.log == st0.log && st0.results <= st.results
    && (forall r :: r in st.pending ==> r in st0.pending)
    && ((st == st0 && back == back0) || TotalLeft(st) < TotalLeft(st0))
  }

  ghost predicate Gone<R>(pending: seq<Running<R>>, futures: seq<nat>) {
    forall r :: r in pending ==> r.future !in futures
  }

  /** Settle `future` unless it has left the pool already. */
  method SettleIfPending<R>(ghost env: nat -> Tick<R>, st0: State<R>, ghost n: nat, ghost back0: nat,
                            future: nat, end: End<R>)
    returns (st: State<R>, ghost back: nat)
    requires Inv(env, st0, n, back0) && Within(st0, WAIT)
    requires var at := IndexOf(st0.pending, future); at != -1 ==> Ends(env, st0, at, end)
    ensures Inv(env, st, n, back) && Within(st, WAIT) && Advanced(st0, back0, st, back)
    ensures Gone(st.pending, [future])
    ensures IndexOf(st0.pending, future) != -1 ==> TotalLeft(st) < TotalLeft(st0)
  {
    st, back := st0, back0;
    var at := IndexOf(st0.pending, future);
    if at != -1 {
      SettledGood(env, st0, n, back0, at, end);
      st, back := Settled(st0, at, end), if Retried(st0, at, end) then back0 + 1 else back0;
    }
  }

  lemma GoneMore<R>(p: seq<Running<R>>, p': seq<Running<R>>, futures: seq<nat>, k: nat)
    requires k < |futures| && Gone(p, futures[..k]) && Gone(p', [futures[k]])
    requires forall r :: r in p' ==> r in p
    ensures Gone(p', futures[..k + 1])
  {
    assert futures[..k + 1] == futures[..k] + [futures[k]];
    forall r | r in p' ensures r.future !in futures[..k + 1] {
      assert futures[k] in [futures[k]];
    }
  }

  /** The end of a call that the environment reports as done. */
  lemma DoneEnds<R>(env: nat -> Tick<R>, st: State<R>, i: nat, k: nat)
    requires GoodPool(env, st.log, st.pending, st.lastSubmit) && k < |env(i).done|
    requires i < |st.log.clock| && st.log.clock[i] == st.now
    ensures var at, f := IndexOf(st.pending, env(i).done[k]), env(i).done[k];
      at != -1 ==> Ends(env, st, at, match env(i).outcome(f) case Returned(v) => Finished(i, f, v) case Raised => Threw(i, f))
  {
    var at := IndexOf(st.pending, env(i).done[k]);
    if at != -1 {
      assert GoodRunning(env, st.log, st.pending[at]);
    }
  }

  /** The completed futures, in whatever order the set of them is visited. */
  method SettleDone<R>(env: nat -> Tick<R>, i: nat, st0: State<R>, ghost n: nat)
    returns (st: State<R>, ghost back: nat)
    requires Inv(env, st0, n, 0) && Within(st0, WAIT) && i < |st0.log.clock| && st0.log.clock[i] == st0.now
    ensures Inv(env, st, n, back) && Within(st, WAIT) && Advanced(st0, 0, st, back)
    ensures Gone(st.pending, env(i).done)
  {
    st, back := st0, 0;
    var done := env(i).done;
    for k := 0 to |done|
      invariant Inv(env, st, n, back) && Within(st, WAIT)
      invariant Advanced(st0, 0, st, back)
      invariant Gone(st.pending, done[..k])
    {
      DoneEnds(env, st, i, k);
      var end := match env(i).outcome(done[k])
        case Returned(v) => Finished(i, done[k], v)
        case Raised => Threw(i, done[k]);
      ghost var before := st.pending;
      st, back := SettleIfPending(env, st, n, back, done[k], end);
      GoneMore(before, st.pending, done, k);
    }
    assert done[..|done|] == done;
  }

  lemma StillLate<R>(woken: seq<Running<R>>, run: Running<R>, now: real)
    requires Distinct(woken) && run in woken && run.future in Expired(woken, now)
    ensures now - run.submitted > HardTimeout(run.job.retries)
  {
    var r :| r in woken && r.future == run.future && now - r.submitted > HardTimeout(r.job.retries);
    var i :| 0 <= i < |woken| && woken[i] == r;
    var j :| 0 <= j < |woken| && woken[j] == run;
    assert i == j;
  }

  /** The end of a call that has run over its time and is not done. */
  lemma ExpiredEnds<R>(env: nat -> Tick<R>, st: State<R>, i: nat, woken: seq<Running<R>>, expired: seq<nat>, k: nat)
    requires GoodPool(env, st.log, st.pending, st.lastSubmit) && Gone(st.pending, env(i).done)
    requires i < |st.log.clock| && st.log.clock[i] == st.now
    requires Distinct(woken) && expired == Expired(woken, st.now) && k < |expired|
    requires forall r :: r in st.pending ==> r in woken
    ensures var at := IndexOf(st.pending, expired[k]); at != -1 ==> Ends(env, st, at, TimedOut(i, expired[k]))
  {
    var at := IndexOf(st.pending, expired[k]);
    if at != -1 {
      assert st.pending[at] in st.pending && GoodRunning(env, st.log, st.pending[at]);
      StillLate(woken, st.pending[at], st.now);
    }
  }

  /** The expired futures, unless they were completed as well. */
  method SettleExpired<R>(env: nat -> Tick<R>, i: nat, st0: State<R>, ghost n: nat, ghost back0: nat,
                          expired: seq<nat>, ghost woken: seq<Running<R>>)
    returns (st: State<R>, ghost back: nat)
    requires Inv(env, st0, n, back0) && Within(st0, WAIT) && i < |st0.log.clock| && st0.log.clock[i] == st0.now
    requires Gone(st0.pending, env(i).done)
    requires Distinct(woken) && expired == Expired(woken, st0.now)
    requires forall r :: r in st0.pending ==> r in woken
    ensures Inv(env, st, n, back) && Within(st, WAIT) && Advanced(st0, back0, st, back)
    ensures Gone(st.pending, expired)
  {
    hide Conserved, GoodQueue, GoodRunning, GoodResults, Expired, Left, Within;
    st, back := st0, back0;
    for k := 0 to |expired|
      invariant Inv(env, st, n, back) && Within(st, WAIT)
      invariant Advanced(st0, back0, st, back)
      invariant Gone(st.pending, expired[..k])
    {
      var before := st.pending;
      ExpiredEnds(env, st, i, woken, expired, k);
      st, back := SettleIfPending(env, st, n, back, expired[k], TimedOut(i, expired[k]));
      GoneMore(before, st.pending, expired, k);
    }
    assert expired[..|expired|] == expired;
  }

  /** With the expired ones gone, nobody left in the pool is past its timeout. */
  lemma NobodyLate<R>(woken: State<R>, st: State<R>)
    requires st.now == woken.now && forall r :: r in st.pending ==> r in woken.pending
    requires Gone(st.pending, Expired(woken.pending, woken.now))
    ensures Within(st, 0.0)
  {
    forall j | 0 <= j < |st.pending|
      ensures st.now <= st.pending[j].submitted + HardTimeout(st.pending[j].job.retries) + 0.0
    {
      assert st.pending[j] in st.pending;
    }
  }

  function Initial<R>(n: nat, start: real): State<R> {
    State(seq(n, (i: nat) => Job(i, 0, [], start)), [], [], start, start, Log([], []))
  }

  lemma InitialGood<R>(env: nat -> Tick<R>, n: nat, start: real)
    ensures Inv(env, Initial<R>(n, start), n, 0) && Within(Initial<R>(n, start), 0.0)
  {
    var st := Initial<R>(n, start);
    assert QueuePos(st.queue) == Upto(n);
    assert st.queue[0..] == st.queue;
  }

  /** Seconds until every attempt now running has hit its hard timeout. */
  function Patience<R>(st: State<R>): real { st.lastSubmit + 480.0 - st.now }

  lemma PatienceLeft<R>(env: nat -> Tick<R>, st: State<R>, n: nat, maxWorkers: nat)
    requires Head(env, st, n, maxWorkers) && st.pending != []
    ensures Patience(st) >= 0.0
  {
    assert st.pending[0].submitted <= st.lastSubmit;
  }

  lemma Done<R>(env: nat -> Tick<R>, st: State<R>, n: nat, maxWorkers: nat)
    requires Head(env, st, n, maxWorkers) && st.pending == [] && maxWorkers >= 1
    ensures multiset(ResultPos(st.results)) == multiset(Upto(n)) && GoodResults(env, st.log, st.results)
  {
    assert QueuePos(st.queue) == [] && PendingPos(st.pending) == [];
  }

  function Latest(clock: seq<real>, start: real): real { if clock == [] then start else clock[|clock| - 1] }

  /** The clock of a run: each iteration waits for what the environment says or for the full 15 s. */
  predicate Ticks<R>(env: nat -> Tick<R>, clock: seq<real>, start: real) {
    clock == [] ||
      var i := |clock| - 1;
      && Ticks(env, clock[..i], start)
      && (clock[i] == Latest(clock[..i], start) + env(i).elapsed || clock[i] == Latest(clock[..i], start) + WAIT)
  }

  lemma NoTicks<R>(env: nat -> Tick<R>, start: real)
    ensures Ticks(env, [], start)
  {
  }

  lemma TicksOn<R>(env: nat -> Tick<R>, clock: seq<real>, start: real, now: real)
    requires Ticks(env, clock, start)
    requires now == Latest(clock, start) + env(|clock|).elapsed || now == Latest(clock, start) + WAIT
    ensures Ticks(env, clock + [now], start) && Latest(clock + [now], start) == now
  {
    assert (clock + [now])[..|clock|] == clock;
  }

  /** `run_bird_eval` for one configuration, run to its normal exit: it terminates, and every
      sample ends with exactly one result, after at most three attempts at this very sample, all but
      the last of which failed, and within its time budget. */
  method RunBirdEval<R>(n: nat, maxWorkers: nat, env: nat -> Tick<R>, start: real)
    returns (results: seq<Record<R>>, ghost log: Log)
    requires maxWorkers >= 1
    requires forall i :: 0.0 <= env(i).elapsed <= WAIT
    ensures multiset(ResultPos(results)) == multiset(Upto(n))
    ensures GoodResults(env, log, results)
    ensures Ticks(env, log.clock, start)
  {
    InitialGood(env, n, start);
    hide Inv, Within, Ticks, Left;
    assert Ticks(env, [], start) by { NoTicks(env, start); }
    var st := Refill(env, Initial(n, start), n, 0, maxWorkers);
    var i := 0;
    while st.pending != []
      invariant Head(env, st, n, maxWorkers)
      invariant |st.log.clock| == i && st.now == Latest(st.log.clock, start)
      invariant Ticks(env, st.log.clock, start)
      decreases TotalLeft(st), Patience(st)
    {
      PatienceLeft(env, st, n, maxWorkers);
      ghost var clock := st.log.clock;
      st := Step(env, i, st, n, maxWorkers);
      TicksOn(env, clock, start, st.now);
      i := i + 1;
    }
    Done(env, st, n, maxWorkers);
    results, log := st.results, st.log;
  }

  /** If a call for a sample returns nothing but that sample's value, a value on record is the value of
      the sample it is recorded for. */
  lemma ScoresBelong<R>(env: nat -> Tick<R>, log: Log, results: seq<Record<R>>, value: nat -> R)
    requires GoodResults(env, log, results)
    requires forall t, f, v :: 0 <= t && 0 <= f < |log.calls| && f in env(t).done && env(t).outcome(f) == Returned(v) ==>
      v == value(log.calls[f].pos)
    ensures forall k :: 0 <= k < |results| && results[k].score.Scored? ==> results[k].score.value == value(results[k].pos)
  {
    forall k | 0 <= k < |results| && results[k].score.Scored? ensures results[k].score.value == value(results[k].pos) {
      var r := results[k];
      assert GoodRecord(env, log, r);
      assert Happened(env, log, r.trail[|r.trail| - 1], r.pos, |r.trail| - 1);
    }
  }

  /** Every result is in within 945 seconds of its sample's first submission. */
  lemma ResultsInTime<R>(env: nat -> Tick<R>, log: Log, results: seq<Record<R>>)
    requires GoodResults(env, log, results)
    ensures forall k :: 0 <= k < |results| ==>
      var trail := results[k].trail;
      && trail != [] && trail[0].future < |log.calls| && trail[|trail| - 1].tick < |log.clock|
      && log.clock[trail[|trail| - 1].tick] <= log.calls[trail[0].future].at + 945.0
  {
    BudgetOfThree();
    forall k | 0 <= k < |results|
      ensures var trail := results[k].trail;
        && trail != [] && trail[0].future < |log.calls| && trail[|trail| - 1].tick < |log.clock|
        && log.clock[trail[|trail| - 1].tick] <= log.calls[trail[0].future].at + 945.0
    {
      var r := results[k];
      assert GoodRecord(env, log, r);
      assert Happened(env, log, r.trail[0], r.pos, 0) && Happened(env, log, r.trail[|r.trail| - 1], r.pos, |r.trail| - 1);
    }
  }

  /** (120+15) + (300+15) + (480+15). */
  lemma BudgetOfThree()
    ensures Budget(1) == 135.0 && Budget(2) == 450.0 && Budget(3) == 945.0
  {
    assert Budget(1) == Budget(0) + HardTimeout(0) + WAIT;
    assert Budget(2) == Budget(1) + HardTimeout(1) + WAIT;
    assert Budget(3) == Budget(2) + HardTimeout(2) + WAIT;
  }
}

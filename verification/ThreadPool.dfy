/** The worker threads behind the scheduler of evaluation/run.py.  Cancelling a future removes it from the
    pool's queue but cannot stop a call that has started, so a hard timeout leaves the thread of a call
    that never returns occupied for good. */
module ThreadPool {
  import opened Scheduler

  /** Calls that occupy a thread, whether or not anybody still waits for them, and submitted ones that wait
      for a thread. */
  datatype Pool = Pool(busy: set<nat>, waiting: seq<nat>)

  datatype Event = Submit(future: nat) | Start | Return(future: nat) | Cancel(future: nat)

  function Removed(s: seq<nat>, f: nat): seq<nat> {
    if s == [] then [] else (if s[0] == f then [] else [s[0]]) + Removed(s[1..], f)
  }

  function Apply(p: Pool, e: Event, maxWorkers: nat): Pool {
    match e
    case Submit(f) => p.(waiting := p.waiting + [f])
    case Start =>
      if p.waiting == [] || |p.busy| >= maxWorkers then p else Pool(p.busy + {p.waiting[0]}, p.waiting[1..])
    case Return(f) => p.(busy := p.busy - {f})
    case Cancel(f) => p.(waiting := Removed(p.waiting, f))
  }

  function After(p: Pool, events: seq<Event>, maxWorkers: nat): Pool
    decreases |events|
  {
    if events == [] then p else After(Apply(p, events[0], maxWorkers), events[1..], maxWorkers)
  }

  /** None of these calls returns. */
  predicate NoneReturns(events: seq<Event>, hanging: set<nat>) {
    forall f :: f in hanging ==> Return(f) !in events
  }

  /** Calls that never return keep their threads. */
  lemma {:induction false} HangingStay(p: Pool, events: seq<Event>, maxWorkers: nat, hanging: set<nat>)
    requires hanging <= p.busy && |p.busy| <= maxWorkers && NoneReturns(events, hanging)
    ensures hanging <= After(p, events, maxWorkers).busy && |After(p, events, maxWorkers).busy| <= maxWorkers
    decreases |events|
  {
    if events != [] {
      var p' := Apply(p, events[0], maxWorkers);
      if p'.busy <= p.busy {
        Fewer(p'.busy, p.busy);
      }
      HangingStay(p', events[1..], maxWorkers, hanging);
    }
  }

  lemma Fewer(a: set<nat>, b: set<nat>)
    requires a <= b
    ensures |a| <= |b| && (|a| == |b| ==> a == b)
  {
    assert b == a + (b - a);
  }

  /** With every thread held by such a call, no other call ever starts. */
  lemma NothingStarts(p: Pool, events: seq<Event>, maxWorkers: nat, hanging: set<nat>)
    requires hanging <= p.busy && |p.busy| <= maxWorkers && NoneReturns(events, hanging) && |hanging| == maxWorkers
    ensures After(p, events, maxWorkers).busy == hanging
  {
    HangingStay(p, events, maxWorkers, hanging);
    Fewer(hanging, After(p, events, maxWorkers).busy);
  }

  /** This call can still get a thread, without being helped by the return of a hanging one. */
  ghost predicate CanStart(p: Pool, f: nat, maxWorkers: nat, hanging: set<nat>) {
    exists events :: NoneReturns(events, hanging) && f in After(p, events, maxWorkers).busy
  }

  /** A waiting call can start if and only if fewer calls hang than there are threads. */
  lemma CanStartIff(p: Pool, f: nat, maxWorkers: nat, hanging: set<nat>)
    requires hanging <= p.busy && |p.busy| <= maxWorkers
    requires f in p.waiting && forall g :: g in p.waiting ==> g !in p.busy
    ensures CanStart(p, f, maxWorkers, hanging) <==> |hanging| < maxWorkers
  {
    Fewer(hanging, p.busy);
    if |hanging| < maxWorkers {
      var events := Serving(p, f, maxWorkers, hanging);
    } else if events :| NoneReturns(events, hanging) && f in After(p, events, maxWorkers).busy {
      NothingStarts(p, events, maxWorkers, hanging);
    }
  }

  /** The events that serve it: the others return, and those before it in the queue are run first. */
  lemma {:induction false} Serving(p: Pool, f: nat, maxWorkers: nat, hanging: set<nat>) returns (events: seq<Event>)
    requires hanging <= p.busy && |p.busy| <= maxWorkers && |hanging| < maxWorkers
    requires f in p.waiting && forall g :: g in p.waiting ==> g !in p.busy
    ensures NoneReturns(events, hanging) && f in After(p, events, maxWorkers).busy
    decreases |p.waiting|, |p.busy|
  {
    if p.busy != hanging {
      var g :| g in p.busy && g !in hanging;
      var p' := Apply(p, Return(g), maxWorkers);
      assert p.busy == p'.busy + {g};
      var rest := Serving(p', f, maxWorkers, hanging);
      events := [Return(g)] + rest;
    } else {
      var head := p.waiting[0];
      var p' := Apply(p, Start, maxWorkers);
      if head == f {
        events := [Start];
        assert After(p', [], maxWorkers) == p';
      } else {
        var p'' := Apply(p', Return(head), maxWorkers);
        assert p'' == Pool(p.busy, p.waiting[1..]);
        var rest := Serving(p'', f, maxWorkers, hanging);
        events := [Start] + ([Return(head)] + rest);
        assert After(p, events, maxWorkers) == After(p', [Return(head)] + rest, maxWorkers);
      }
    }
  }

  // ---- what becomes of the samples ----

  /** From iteration t0 on the scheduler is told only of calls that have run in this pool and returned. */
  ghost predicate Serves<R>(env: nat -> Tick<R>, t0: nat, p: Pool, maxWorkers: nat, hanging: set<nat>) {
    forall t, f :: t0 <= t && f in env(t).done ==> CanReturn(p, f, maxWorkers, hanging)
  }

  /** Another call than the hanging ones that gets to run. */
  ghost predicate CanReturn(p: Pool, f: nat, maxWorkers: nat, hanging: set<nat>) {
    f !in hanging && CanStart(p, f, maxWorkers, hanging)
  }

  /** Once as many calls hang as there are threads, no sample submitted then or later ever runs, and every
      sample without a result ends as a hard-timeout crash: a result that goes back to an attempt ended at
      or after that iteration is none, and the attempt had timed out. */
  lemma StarvedSamplesCrash<R>(env: nat -> Tick<R>, t0: nat, p: Pool, maxWorkers: nat, hanging: set<nat>, log: Log, r: Record<R>)
    requires p.busy == hanging && |hanging| == maxWorkers && Serves(env, t0, p, maxWorkers, hanging)
    requires GoodRecord(env, log, r) && TickOf(r.trail[|r.trail| - 1]) >= t0
    ensures r.score.Crashed? && |r.trail| == MAX_SAMPLE_RETRIES + 1
    ensures forall i :: 0 <= i < |r.trail| && TickOf(r.trail[i]) >= t0 ==> r.trail[i].TimedOut?
  {
    forall t | t0 <= t ensures env(t).done == [] {
      NobodyReports(env, t0, p, maxWorkers, hanging, t);
    }
    forall i | 0 <= i < |r.trail| && TickOf(r.trail[i]) >= t0 ensures r.trail[i].TimedOut? {
      assert Happened(env, log, r.trail[i], r.pos, i);
    }
  }

  function TickOf<R>(e: End<R>): nat { e.tick }

  lemma NobodyReports<R>(env: nat -> Tick<R>, t0: nat, p: Pool, maxWorkers: nat, hanging: set<nat>, t: nat)
    requires p.busy == hanging && |hanging| == maxWorkers && Serves(env, t0, p, maxWorkers, hanging) && t0 <= t
    ensures env(t).done == []
  {
    if env(t).done != [] {
      var f := env(t).done[0];
      assert f in env(t).done && CanReturn(p, f, maxWorkers, hanging);
      var events :| NoneReturns(events, hanging) && f in After(p, events, maxWorkers).busy;
      NothingStarts(p, events, maxWorkers, hanging);
    }
  }

  /** One thread and a first call that never returns: no sample gets a value, and all end after three hard
      timeouts, although only the first attempt at the first sample ever ran. */
  lemma OneHangingCallStarvesAll<R>(env: nat -> Tick<R>, log: Log, results: seq<Record<R>>)
    requires Serves(env, 0, Pool({0}, []), 1, {0}) && GoodResults(env, log, results)
    ensures forall k :: 0 <= k < |results| ==>
      results[k].score.Crashed? && forall i :: 0 <= i < |results[k].trail| ==> results[k].trail[i].TimedOut?
    ensures forall events :: NoneReturns(events, {0}) ==> After(Pool({0}, []), events, 1).busy == {0}
  {
    forall k | 0 <= k < |results|
      ensures results[k].score.Crashed? && forall i :: 0 <= i < |results[k].trail| ==> results[k].trail[i].TimedOut?
    {
      assert GoodRecord(env, log, results[k]);
      StarvedSamplesCrash(env, 0, Pool({0}, []), 1, {0}, log, results[k]);
      forall i | 0 <= i < |results[k].trail| ensures results[k].trail[i].TimedOut? {
        assert TickOf(results[k].trail[i]) >= 0;
      }
    }
    forall events | NoneReturns(events, {0}) ensures After(Pool({0}, []), events, 1).busy == {0} {
      NothingStarts(Pool({0}, []), events, 1, {0});
    }
  }
}

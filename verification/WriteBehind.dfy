/** Writers, events, the recorder and the cache running side by side: submissions, worker writes,
    marks, batch drains and single records interleave as atomic steps, and keys expire. */
module WriteBehind {
  import opened Basics
  import opened Recorder
  import opened TaskStatus
  import Separators

  /** Where a result was computed: a worker-side state with status SUCCESS of a task submitted with
      this question and database. */
  datatype Origin = Origin(question: string, db: string, sql: string, exec: Exec)

  /** What a task was submitted with. */
  datatype Submitted = Submitted(question: string, db: string)

  /** A snapshot the recorder has read and not yet upserted. */
  datatype Reading = Reading(id: Id, snap: Snap)

  /** `awaiting`: written since its last mark.  `lost`: its mark was dropped on overflow, or its
      record failed, and it has not been read since.  `submitted` and `computed` are the
      history, kept only to state what a cache entry goes back to. */
  datatype System = System(
    store: map<Id, Snap>, dirty: set<Id>, batch: set<Id>, reading: Option<Reading>, rows: map<Id, Row>,
    cache: map<string, Cached>, awaiting: set<Id>, lost: set<Id>, submitted: map<Id, Submitted>, computed: set<Origin>)

  datatype Step =
    | Create(id: Id, question: string, db: string, now: string)
    | CreateFromCache(id: Id, question: string, db: string, now: string)
    | Write(id: Id, status: Status, sql: Option<string>, exec: Exec, retryCount: int, error: Option<string>, now: string)
    | Mark(id: Id, victim: Id)
    | Drain(ids: set<Id>)
    | RecordRead(id: Id, fails: bool)
    | RecordUpsert(owner: Option<string>, fails: bool)
    | Expire(id: Id)
    | ExpireCache(key: string)

  const EMPTY: System := System(map[], {}, {}, None, map[], map[], {}, {}, map[], {})

  /** The writers: gateway and workers create and write tasks, and keys expire. */
  function WriterStep(s: System, step: Step, digest: string -> string): System {
    match step
    case Create(id, q, db, now) =>
      if id in s.submitted then s
      else s.(store := s.store[id := Snap(Pending, Truncated(q), db, None, NoResult, 0, None, false, now, now)],
              submitted := s.submitted[id := Submitted(q, db)], awaiting := s.awaiting + {id})
    case CreateFromCache(id, q, db, now) =>
      var key := Key(digest, q, db);
      if id in s.submitted || key !in s.cache then s
      else
        var c := s.cache[key];
        s.(store := s.store[id := Snap(Success, Truncated(q), db, Some(c.sql), c.exec, 0, None, true, now, now)],
           submitted := s.submitted[id := Submitted(q, db)], awaiting := s.awaiting + {id})
    case Write(id, status, sql, exec, retryCount, error, now) =>
      if id !in s.store then s
      else
        var snap := s.store[id].(status := status, sql := sql, exec := exec, retryCount := retryCount, error := error, updatedAt := now);
        s.(store := s.store[id := snap], awaiting := s.awaiting + {id},
           computed := if Cacheable(snap) && id in s.submitted
                       then s.computed + {Origin(s.submitted[id].question, s.submitted[id].db, snap.sql.value, ForCache(snap.exec))}
                       else s.computed)
    case Expire(id) => s.(store := s.store - {id})
    case ExpireCache(key) => s.(cache := s.cache - {key})
    case _ => s
  }

  /** Marks, drains and records. */
  function RecorderStep(s: System, step: Step, digest: string -> string): System {
    match step
    case Mark(id, victim) =>
      var dirty := s.dirty + {id};
      if |dirty| <= MAX_PENDING then s.(dirty := dirty, awaiting := s.awaiting - {id})
      else if victim in dirty then s.(dirty := dirty - {victim}, awaiting := s.awaiting - {id}, lost := s.lost + {victim})
      else s
    case Drain(ids) =>
      if ids <= s.dirty && |ids| <= BATCH then s.(dirty := s.dirty - ids, batch := s.batch + ids) else s
    case RecordRead(id, fails) =>
      if id !in s.batch || s.reading.Some? then s
      else if fails then s.(batch := s.batch - {id}, lost := s.lost + {id})
      else if id !in s.store then s.(batch := s.batch - {id})
      else s.(batch := s.batch - {id}, lost := s.lost - {id}, reading := Some(Reading(id, s.store[id])))
    case RecordUpsert(owner, fails) =>
      if s.reading.None? then s
      else
        var r := s.reading.value;
        if fails then s.(reading := None, lost := s.lost + {r.id})
        else s.(reading := None, rows := Upsert(s.rows, r.id, RowOf(r.snap, owner)), cache := Put(s.cache, digest, r.snap))
    case _ => s
  }

  predicate ByRecorder(step: Step) { step.Mark? || step.Drain? || step.RecordRead? || step.RecordUpsert? }

  function Apply(s: System, step: Step, digest: string -> string): System {
    if ByRecorder(step) then RecorderStep(s, step, digest) else WriterStep(s, step, digest)
  }

  function After(s: System, steps: seq<Step>, digest: string -> string): System {
    if steps == [] then s else Apply(After(s, steps[..|steps| - 1], digest), steps[|steps| - 1], digest)
  }

  // ---- agreement of rows and store ----

  predicate Agrees(s: System, id: Id)
    requires id in s.store
  {
    id in s.rows && s.rows[id].live == LiveOf(s.store[id])
  }

  predicate Reads(s: System, id: Id) { s.reading.Some? && s.reading.value.id == id }

  /** The row is right, or will be once the snapshot at hand is upserted. */
  predicate Settled(s: System, id: Id)
    requires id in s.store
  {
    if Reads(s, id) then LiveOf(s.reading.value.snap) == LiveOf(s.store[id]) else Agrees(s, id)
  }

  predicate Covered(s: System, id: Id) {
    id in s.store ==> Settled(s, id) || id in s.dirty || id in s.batch || id in s.awaiting || id in s.lost
  }

  ghost predicate Accounted(s: System) {
    && |s.dirty| <= MAX_PENDING
    && forall id :: Covered(s, id)
  }

  lemma ReadCovers(s: System, step: Step, digest: string -> string, id: Id)
    requires Covered(s, id) && step.RecordRead?
    ensures Covered(Apply(s, step, digest), id)
  {
    hide Put, Truncated, LiveOf, Upsert;
    var s' := Apply(s, step, digest);
    assert s' == s.(batch := s'.batch, lost := s'.lost, reading := s'.reading);
  }

  lemma UpsertCovers(s: System, step: Step, digest: string -> string, id: Id)
    requires Covered(s, id) && step.RecordUpsert?
    ensures Covered(Apply(s, step, digest), id)
  {
    hide Put, Truncated;
    var s' := Apply(s, step, digest);
    assert s' == s.(lost := s'.lost, reading := s'.reading, rows := s'.rows, cache := s'.cache);
  }

  lemma ApplyCovers(s: System, step: Step, digest: string -> string, id: Id)
    requires Covered(s, id)
    ensures Covered(Apply(s, step, digest), id)
  {
    hide WriterStep, RecorderStep, Covered;
    match step
    case Mark(_, _) => MarkCovers(s, step, digest, id);
    case Drain(_) => MarkCovers(s, step, digest, id);
    case RecordRead(_, _) => ReadCovers(s, step, digest, id);
    case RecordUpsert(_, _) => UpsertCovers(s, step, digest, id);
    case _ => WriterCovers(s, step, digest, id);
  }

  lemma MarkCovers(s: System, step: Step, digest: string -> string, id: Id)
    requires Covered(s, id) && (step.Mark? || step.Drain?)
    ensures Covered(Apply(s, step, digest), id)
  {
    hide Put, Truncated, LiveOf, Upsert, RowOf;
  }

  lemma WriterCovers(s: System, step: Step, digest: string -> string, id: Id)
    requires Covered(s, id) && !ByRecorder(step)
    ensures Covered(WriterStep(s, step, digest), id)
  {
    hide Truncated, LiveOf, Cacheable, Key, ForCache;
  }

  lemma DirtyStaysBounded(s: System, step: Step, digest: string -> string)
    requires |s.dirty| <= MAX_PENDING
    ensures |Apply(s, step, digest).dirty| <= MAX_PENDING
  {
    match step
    case Mark(id, victim) => MarkBounded(s, id, victim, digest);
    case Drain(ids) => SubsetSmaller(s.dirty - ids, s.dirty);
    case _ => DirtyKept(s, step, digest);
  }

  lemma DirtyKept(s: System, step: Step, digest: string -> string)
    requires !step.Mark? && !step.Drain?
    ensures Apply(s, step, digest).dirty == s.dirty
  {
    hide LiveOf, Put, Upsert, RowOf, Cacheable, Key, Truncated, ForCache;
  }

  lemma MarkBounded(s: System, id: Id, victim: Id, digest: string -> string)
    requires |s.dirty| <= MAX_PENDING
    ensures |Apply(s, Mark(id, victim), digest).dirty| <= MAX_PENDING
  {
    assert |s.dirty + {id}| <= |s.dirty| + 1;
  }

  lemma ApplyAccounts(s: System, step: Step, digest: string -> string)
    requires Accounted(s)
    ensures Accounted(Apply(s, step, digest))
  {
    DirtyStaysBounded(s, step, digest);
    hide Apply, Covered;
    forall id ensures Covered(Apply(s, step, digest), id) {
      assert Covered(s, id);
      ApplyCovers(s, step, digest, id);
    }
  }

  lemma SubsetSmaller<T>(a: set<T>, b: set<T>)
    requires a <= b
    ensures |a| <= |b|
  {
    assert b == a + (b - a);
  }

  /** In every reachable state each task's row agrees with the store on the upserted columns (or is about
      to, from the snapshot at hand), or its id is dirty, drained, still to be marked, or was dropped; and
      the dirty set stays bounded. */
  lemma {:induction false} RowsAgreeOrAreAccountedFor(steps: seq<Step>, digest: string -> string)
    ensures Accounted(After(EMPTY, steps, digest))
  {
    if steps != [] {
      RowsAgreeOrAreAccountedFor(steps[..|steps| - 1], digest);
      ApplyAccounts(After(EMPTY, steps[..|steps| - 1], digest), steps[|steps| - 1], digest);
    }
  }

  /** Once everything is marked and flushed and nothing was dropped, all rows are right. */
  lemma QuietMeansEqual(steps: seq<Step>, digest: string -> string, id: Id)
    requires var s := After(EMPTY, steps, digest);
      id in s.store && Drained(s, id) && id !in s.awaiting && id !in s.lost
    ensures Agrees(After(EMPTY, steps, digest), id)
    ensures var s := After(EMPTY, steps, digest); Reports(s.rows[id].live, s.store[id])
  {
    RowsAgreeOrAreAccountedFor(steps, digest);
    assert Covered(After(EMPTY, steps, digest), id);
    AgreesIff(After(EMPTY, steps, digest), id);
  }

  /** A row is right if and only if it says, column by column, what the store says. */
  lemma AgreesIff(s: System, id: Id)
    requires id in s.store
    ensures Agrees(s, id) <==> id in s.rows && Reports(s.rows[id].live, s.store[id])
  {
    if id in s.rows {
      ReportsIff(s.rows[id].live, s.store[id]);
    }
  }

  // ---- what the store says ----

  /** What the creation of a task fixes. */
  predicate BornOf(snap: Snap, step: Step) {
    (step.Create? || step.CreateFromCache?)
    && snap.question == Truncated(step.question) && snap.db == step.db && snap.createdAt == step.now
    && (snap.cacheHit <==> step.CreateFromCache?)
  }

  /** What the last write, or else the creation, of a task sets; s is the state before it. */
  predicate SetBy(snap: Snap, step: Step, s: System, digest: string -> string) {
    match step
    case Create(_, _, _, now) =>
      snap.status == Pending && snap.sql == None && snap.exec == NoResult && snap.retryCount == 0 && snap.error == None
      && snap.updatedAt == now
    case CreateFromCache(_, q, db, now) =>
      snap.status == Success && snap.retryCount == 0 && snap.error == None && snap.updatedAt == now
      && Key(digest, q, db) in s.cache
      && snap.sql == Some(s.cache[Key(digest, q, db)].sql) && snap.exec == s.cache[Key(digest, q, db)].exec
    case Write(_, status, sql, exec, retryCount, error, now) =>
      snap.status == status && snap.sql == sql && snap.exec == exec && snap.retryCount == retryCount
      && snap.error == error && snap.updatedAt == now
    case _ => false
  }

  function IdOf(step: Step): Option<Id> {
    match step
    case Create(id, _, _, _) => Some(id)
    case CreateFromCache(id, _, _, _) => Some(id)
    case Write(id, _, _, _, _, _, _) => Some(id)
    case _ => None
  }

  /** One step's part in a task's state: it creates the task, or keeps its origin, and sets the rest if it
      writes the task. */
  lemma StoreStep(s: System, step: Step, digest: string -> string, id: Id)
    requires id in Apply(s, step, digest).store && (id in s.store ==> id in s.submitted)
    ensures var snap := Apply(s, step, digest).store[id];
      if id !in s.store then
        IdOf(step) == Some(id) && id !in s.submitted && BornOf(snap, step) && SetBy(snap, step, s, digest)
      else
        && (forall birth :: BornOf(s.store[id], birth) ==> BornOf(snap, birth))
        && (snap == s.store[id] || (step.Write? && step.id == id && SetBy(snap, step, s, digest)))
        && (step.Write? && step.id == id ==> SetBy(snap, step, s, digest))
  {
    if ByRecorder(step) {
      RecorderFrame(s, step, digest);
      hide Apply, BornOf, SetBy;
    } else {
      hide Truncated, Cacheable, Key;
    }
  }

  lemma {:induction false} StoredIsSubmitted(steps: seq<Step>, digest: string -> string, id: Id)
    ensures var s := After(EMPTY, steps, digest); id in s.store ==> id in s.submitted
  {
    if steps != [] {
      var n := |steps| - 1;
      StoredIsSubmitted(steps[..n], digest, id);
      SubmittedLasts(After(EMPTY, steps[..n], digest), steps[n], digest, id);
    }
  }

  lemma SubmittedLasts(s: System, step: Step, digest: string -> string, id: Id)
    requires id in s.store ==> id in s.submitted
    ensures id in Apply(s, step, digest).store ==> id in Apply(s, step, digest).submitted
  {
    if ByRecorder(step) {
      RecorderFrame(s, step, digest);
      hide Apply;
    }
  }

  /** The last of these steps to write the task, or else the one that created it. */
  predicate IsLastTouch(steps: seq<Step>, last: nat, id: Id) {
    last < |steps| && IdOf(steps[last]) == Some(id)
    && forall j :: last < j < |steps| ==> !(steps[j].Write? && steps[j].id == id)
  }

  lemma TouchLasts(steps: seq<Step>, last: nat, id: Id)
    requires steps != [] && IsLastTouch(steps[..|steps| - 1], last, id)
    requires var step := steps[|steps| - 1]; !(step.Write? && step.id == id)
    ensures IsLastTouch(steps, last, id)
  {
  }

  lemma AfterLast(steps: seq<Step>, digest: string -> string)
    requires steps != []
    ensures After(EMPTY, steps, digest) == Apply(After(EMPTY, steps[..|steps| - 1], digest), steps[|steps| - 1], digest)
  {
  }

  /** In every run a task's state goes back to the step that created it, for its question, database, time of
      submission and cache flag, and to the last step that wrote it, or else that creation, for the rest. */
  lemma {:induction false} StateComesFrom(steps: seq<Step>, digest: string -> string, id: Id) returns (birth: nat, last: nat)
    requires id in After(EMPTY, steps, digest).store
    ensures birth <= last < |steps| && IdOf(steps[birth]) == Some(id) && IsLastTouch(steps, last, id)
    ensures var snap := After(EMPTY, steps, digest).store[id];
      BornOf(snap, steps[birth]) && SetBy(snap, steps[last], After(EMPTY, steps[..last], digest), digest)
  {
    assert steps != [];
    AfterLast(steps, digest);
    hide After, Apply, BornOf, SetBy, IsLastTouch;
    var n := |steps| - 1;
    var s := After(EMPTY, steps[..n], digest);
    StoredIsSubmitted(steps[..n], digest, id);
    StoreStep(s, steps[n], digest, id);
    if id !in s.store {
      birth, last := n, n;
      assert IsLastTouch(steps, n, id) by { LastIsTouch(steps, id); }
    } else {
      birth, last := StateComesFrom(steps[..n], digest, id);
      assert steps[..n][..last] == steps[..last];
      if steps[n].Write? && steps[n].id == id {
        last := n;
        LastIsTouch(steps, id);
      } else {
        TouchLasts(steps, last, id);
      }
    }
  }

  lemma LastIsTouch(steps: seq<Step>, id: Id)
    requires steps != [] && IdOf(steps[|steps| - 1]) == Some(id)
    ensures IsLastTouch(steps, |steps| - 1, id)
  {
  }

  // ---- exactly which rows come out right ----

  /** Nothing is under way that would record this task. */
  predicate Drained(s: System, id: Id) { id !in s.dirty && id !in s.batch && !Reads(s, id) }

  /** The row is right, or something under way will read the task as it is. */
  predicate Due(s: System, id: Id)
    requires id in s.store
  {
    id in s.dirty || id in s.batch || Settled(s, id)
  }

  predicate Known(s: System, id: Id) { id in s.store && id in s.submitted }

  /** A step that writes, marks or removes this task. */
  predicate Touches(step: Step, id: Id) {
    (step.Mark? && step.id == id) || (step.Write? && step.id == id) || (step.Expire? && step.id == id)
  }

  /** A step that drops this task's mark on overflow, or fails to record it. */
  predicate Drops(s: System, step: Step, id: Id) {
    match step
    case Mark(other, victim) => victim == id && id in s.dirty && |s.dirty + {other}| > MAX_PENDING
    case RecordRead(other, fails) => other == id && id in s.batch && s.reading.None? && fails
    case RecordUpsert(_, fails) => Reads(s, id) && fails
    case _ => false
  }

  /** Marks and the recorder leave the store alone, all other steps what the recorder works on. */
  lemma RecorderFrame(s: System, step: Step, digest: string -> string)
    requires ByRecorder(step)
    ensures var s' := Apply(s, step, digest);
      s'.store == s.store && s'.submitted == s.submitted && s'.computed == s.computed
  {
    if step.RecordRead? || step.RecordUpsert? {
      RecordFrame(s, step, digest);
      hide RecorderStep;
    }
  }

  lemma RecordFrame(s: System, step: Step, digest: string -> string)
    requires step.RecordRead? || step.RecordUpsert?
    ensures var s' := RecorderStep(s, step, digest);
      s'.store == s.store && s'.submitted == s.submitted && s'.computed == s.computed
  {
    hide Put, Upsert, RowOf, Key, Truncated, Cacheable;
  }

  lemma WriterFrame(s: System, step: Step, digest: string -> string, id: Id)
    requires !ByRecorder(step) && Known(s, id) && !Touches(step, id)
    ensures var s' := Apply(s, step, digest);
      && s'.dirty == s.dirty && s'.batch == s.batch && s'.reading == s.reading && s'.rows == s.rows
      && Known(s', id) && s'.store[id] == s.store[id]
  {
    hide Put, Upsert, RowOf, Key, Truncated, Cacheable;
  }

  lemma UndisturbedStep(s: System, step: Step, digest: string -> string, id: Id)
    requires Known(s, id) && !Touches(step, id) && !Drops(s, step, id)
    ensures var s' := Apply(s, step, digest);
      Known(s', id) && s'.store[id] == s.store[id] && (Due(s', id) <==> Due(s, id))
  {
    if ByRecorder(step) {
      RecorderFrame(s, step, digest);
      RecorderKeepsDue(s, step, digest, id);
    } else {
      WriterFrame(s, step, digest, id);
    }
    hide Apply, LiveOf, Drops;
  }

  lemma RecorderKeepsDue(s: System, step: Step, digest: string -> string, id: Id)
    requires ByRecorder(step) && Known(s, id) && !Touches(step, id) && !Drops(s, step, id)
    requires Apply(s, step, digest).store == s.store
    ensures Due(Apply(s, step, digest), id) <==> Due(s, id)
  {
    hide Put, Key, Truncated, Cacheable;
  }

  /** A run that leaves the task alone and drops nothing of it. */
  predicate Undisturbed(s: System, steps: seq<Step>, digest: string -> string, id: Id) {
    steps == [] ||
      var init, last := steps[..|steps| - 1], steps[|steps| - 1];
      Undisturbed(s, init, digest, id) && !Touches(last, id) && !Drops(After(s, init, digest), last, id)
  }

  /** Over a run that leaves the task alone, drops nothing of it and ends with nothing of it under way,
      the row comes out right if and only if the id was dirty or drained when the run began, or the
      snapshot at hand was current, or, with none at hand, the row was right already. */
  lemma {:induction false} ComesOutRightIff(s: System, steps: seq<Step>, digest: string -> string, id: Id)
    requires Known(s, id) && Undisturbed(s, steps, digest, id)
    ensures var e := After(s, steps, digest);
      && Known(e, id) && e.store[id] == s.store[id]
      && (Due(e, id) <==> Due(s, id))
      && (Drained(e, id) ==> (Agrees(e, id) <==> Due(s, id)))
  {
    if steps != [] {
      ComesOutRightIff(s, steps[..|steps| - 1], digest, id);
      UndisturbedStep(After(s, steps[..|steps| - 1], digest), steps[|steps| - 1], digest, id);
    }
  }

  /** So of a write that nothing marks: its row comes out right if and only if the id was still dirty or
      drained from an earlier mark, or the write changed no recorded column from what the row (or the
      snapshot at hand) says. */
  lemma UnmarkedWriteIff(s: System, write: Step, steps: seq<Step>, digest: string -> string, id: Id)
    requires Known(s, id) && write.Write? && write.id == id
    requires Undisturbed(Apply(s, write, digest), steps, digest, id)
    requires Drained(After(Apply(s, write, digest), steps, digest), id)
    ensures var written, e := Apply(s, write, digest), After(Apply(s, write, digest), steps, digest);
      && id in written.store && id in e.store
      && (Agrees(e, id) <==>
            || id in s.dirty || id in s.batch
            || (if Reads(s, id) then LiveOf(s.reading.value.snap) == LiveOf(written.store[id])
                else id in s.rows && s.rows[id].live == LiveOf(written.store[id])))
  {
    ComesOutRightIff(Apply(s, write, digest), steps, digest, id);
  }

  /** Nothing under way now or later: the row itself stays what it was. */
  ghost predicate SameTask(s: System, s': System, id: Id)
    requires Known(s, id)
  {
    Known(s', id) && Drained(s', id) && s'.store[id] == s.store[id]
    && (id in s'.rows <==> id in s.rows) && (id in s.rows ==> s'.rows[id] == s.rows[id])
  }

  lemma UnmarkedStep(s: System, step: Step, digest: string -> string, id: Id)
    requires Known(s, id) && Drained(s, id) && !Touches(step, id)
    ensures SameTask(s, Apply(s, step, digest), id)
  {
    if ByRecorder(step) {
      RecorderFrame(s, step, digest);
      RecorderPassesBy(s, step, digest, id);
    } else {
      WriterFrame(s, step, digest, id);
    }
    hide Apply;
  }

  lemma RecorderPassesBy(s: System, step: Step, digest: string -> string, id: Id)
    requires ByRecorder(step) && Drained(s, id) && !Touches(step, id)
    ensures var s' := Apply(s, step, digest);
      Drained(s', id) && (id in s'.rows <==> id in s.rows) && (id in s.rows ==> s'.rows[id] == s.rows[id])
  {
    hide Put, Key, Truncated, Cacheable, RowOf;
  }

  /** A write with nothing under way that no mark follows is never recorded: the row stays what it was,
      through every run that does not mark, write or expire the task. */
  lemma {:induction false} UnmarkedStaysUnrecorded(s: System, steps: seq<Step>, digest: string -> string, id: Id)
    requires Known(s, id) && Drained(s, id) && forall i :: 0 <= i < |steps| ==> !Touches(steps[i], id)
    ensures SameTask(s, After(s, steps, digest), id)
  {
    if steps != [] {
      UnmarkedStaysUnrecorded(s, steps[..|steps| - 1], digest, id);
      UnmarkedStep(After(s, steps[..|steps| - 1], digest), steps[|steps| - 1], digest, id);
    }
  }

  lemma {:induction false} AfterConcat(s: System, a: seq<Step>, b: seq<Step>, digest: string -> string)
    ensures After(s, a + b, digest) == After(After(s, a, digest), b, digest)
  {
    hide Apply;
    if b == [] {
      assert a + b == a;
    } else {
      AfterConcat(s, a, b[..|b| - 1], digest);
      assert (a + b)[..|a + b| - 1] == a + b[..|b| - 1];
    }
  }

  lemma Two(s: System, a: Step, b: Step, digest: string -> string)
    ensures After(s, [a, b], digest) == Apply(Apply(s, a, digest), b, digest)
  {
    assert [a][..0] == [] && After(s, [a], digest) == Apply(s, a, digest);
    assert [a, b][..1] == [a];
  }

  /** One task from submission to its recorded first write. */
  function Recorded(id: Id, q: string, db: string, snap: Snap, digest: string -> string): System {
    System(map[id := snap], {}, {}, None, map[id := RowOf(snap, None)], Put(map[], digest, snap), {}, {},
           map[id := Submitted(q, db)],
           if Cacheable(snap) then {Origin(q, db, snap.sql.value, ForCache(snap.exec))} else {})
  }

  lemma SubmitWriteRecord(id: Id, q: string, db: string, write: Step, digest: string -> string)
    returns (steps: seq<Step>, snap: Snap)
    requires write.Write? && write.id == id
    ensures snap == Snap(write.status, Truncated(q), db, write.sql, write.exec, write.retryCount, write.error, false, "0", write.now)
    ensures After(EMPTY, steps, digest) == Recorded(id, q, db, snap, digest)
  {
    snap := Snap(write.status, Truncated(q), db, write.sql, write.exec, write.retryCount, write.error, false, "0", write.now);
    var create := Create(id, q, db, "0");
    var computed := Recorded(id, q, db, snap, digest).computed;
    var written := System(map[id := snap], {}, {}, None, map[], map[], {id}, {}, map[id := Submitted(q, db)], computed);
    assert Apply(Apply(EMPTY, create, digest), write, digest) == written;
    Two(EMPTY, create, write, digest);
    var drained := written.(batch := {id}, awaiting := {});
    MarkAndDrain(written, id, digest);
    Two(written, Mark(id, id), Drain({id}), digest);
    RecordAlone(drained, id, snap, digest);
    Two(drained, RecordRead(id, false), RecordUpsert(None, false), digest);
    var a, b, c := [create, write], [Mark(id, id), Drain({id})], [RecordRead(id, false), RecordUpsert(None, false)];
    AfterConcat(EMPTY, a, b, digest);
    AfterConcat(EMPTY, a + b, c, digest);
    steps := a + b + c;
  }

  lemma MarkAndDrain(s: System, id: Id, digest: string -> string)
    requires s.dirty == {} && s.batch == {} && s.awaiting == {id}
    ensures Apply(Apply(s, Mark(id, id), digest), Drain({id}), digest) == s.(batch := {id}, awaiting := {})
  {
    assert Apply(s, Mark(id, id), digest) == s.(dirty := {id}, awaiting := {});
  }

  lemma RecordAlone(s: System, id: Id, snap: Snap, digest: string -> string)
    requires s.batch == {id} && s.store == map[id := snap] && s.rows == map[] && s.lost == {} && s.reading.None?
    ensures Apply(Apply(s, RecordRead(id, false), digest), RecordUpsert(None, false), digest)
         == s.(batch := {}, rows := map[id := RowOf(snap, None)], cache := Put(s.cache, digest, snap))
  {
    assert Apply(s, RecordRead(id, false), digest) == s.(batch := {}, reading := Some(Reading(id, snap)));
  }

  /** The worker publishes its result event before it sets SUCCESS, and publishes nothing after it.
      So with no overflow and no failure, and however much is flushed later, the row of a task that
      ended well still says RUNNING. */
  lemma {:induction false} LateSuccessStaysUnrecorded(id: Id, q: string, db: string, sql: Option<string>, digest: string -> string, later: seq<Step>)
    returns (steps: seq<Step>)
    requires forall i :: 0 <= i < |later| ==> !Touches(later[i], id)
    ensures var s := After(EMPTY, steps + later, digest);
      && id in s.store && s.store[id].status.Success? && id !in s.dirty && id !in s.batch
      && id in s.rows && s.rows[id].live.status.Running?
  {
    var before, snap := SubmitWriteRecord(id, q, db, Write(id, Running, sql, NoResult, 0, None, "1"), digest);
    var success := Write(id, Success, sql, NoResult, 0, None, "2");
    steps := before + [success];
    AfterConcat(EMPTY, before, [success], digest);
    assert [success][..0] == [];
    var s := After(EMPTY, steps, digest);
    assert s == Apply(Recorded(id, q, db, snap, digest), success, digest);
    assert Known(s, id) && Drained(s, id) && s.store[id].status.Success? && s.rows[id].live.status.Running?;
    AfterConcat(EMPTY, steps, later, digest);
    UnmarkedStaysUnrecorded(s, later, digest, id);
  }

  // ---- what a cache hit goes back to ----

  ghost predicate Injective(digest: string -> string) {
    forall a, b :: digest(a) == digest(b) ==> a == b
  }

  /** Database ids without the separator. */
  predicate PlainDb(step: Step) {
    match step
    case Create(_, _, db, _) => '|' !in db
    case CreateFromCache(_, _, db, _) => '|' !in db
    case _ => true
  }

  ghost predicate Explains(o: Origin, question: string, db: string, sql: string, exec: Exec) {
    Truncated(o.question) == question && o.db == db && o.sql == sql && o.exec == exec && '|' !in db
  }

  /** A snapshot that could be cached goes back to something computed. */
  ghost predicate Backed(computed: set<Origin>, snap: Snap) {
    Cacheable(snap) ==>
      exists o :: o in computed && Explains(o, snap.question, snap.db, snap.sql.value, ForCache(snap.exec))
  }

  ghost predicate EntryBacked(computed: set<Origin>, digest: string -> string, key: string, entry: Cached) {
    entry.exec != NoResult
    && exists o :: o in computed && key == Key(digest, Truncated(o.question), o.db)
                   && Explains(o, Truncated(o.question), o.db, entry.sql, entry.exec)
  }

  predicate Matches(snap: Snap, submitted: Submitted) {
    snap.question == Truncated(submitted.question) && snap.db == submitted.db && '|' !in snap.db
  }

  ghost predicate Traced(s: System, digest: string -> string) {
    && (forall id :: id in s.store ==>
          id in s.submitted && Matches(s.store[id], s.submitted[id]) && Backed(s.computed, s.store[id]))
    && (s.reading.Some? ==> Backed(s.computed, s.reading.value.snap))
    && (forall key :: key in s.cache ==> EntryBacked(s.computed, digest, key, s.cache[key]))
  }

  lemma KeyDetermines(digest: string -> string, q: string, db: string, q': string, db': string)
    requires Injective(digest) && Key(digest, q, db) == Key(digest, q', db') && '|' !in db && '|' !in db'
    ensures q == q' && db == db'
  {
    assert q + "|" + db == q + ['|'] + db && q' + "|" + db' == q' + ['|'] + db';
    Separators.SplitAtLast(q, db, q', db', '|');
  }

  lemma ApplyTraces(s: System, step: Step, digest: string -> string)
    requires Traced(s, digest) && Injective(digest) && PlainDb(step)
    ensures Traced(Apply(s, step, digest), digest)
  {
    hide Apply, Traced, PlainDb;
    match step
    case Create(_, _, _, _) => CreateTraces(s, step, digest);
    case CreateFromCache(_, _, _, _) => CacheHitTraces(s, step, digest);
    case Write(_, _, _, _, _, _, _) => WriteTraces(s, step, digest);
    case RecordUpsert(_, _) => UpsertTraces(s, step, digest);
    case Mark(_, _) => MarkTraces(s, step, digest);
    case Drain(_) => MarkTraces(s, step, digest);
    case RecordRead(_, _) => ReadTraces(s, step, digest);
    case Expire(_) => ExpiryTraces(s, step, digest);
    case ExpireCache(_) => ExpiryTraces(s, step, digest);
  }

  lemma MarkTraces(s: System, step: Step, digest: string -> string)
    requires Traced(s, digest) && (step.Mark? || step.Drain?)
    ensures Traced(Apply(s, step, digest), digest)
  {
    RecorderFrame(s, step, digest);
    hide Backed, EntryBacked, Truncated, Put, RowOf, Upsert, Key, Cacheable, Matches;
  }

  lemma ReadTraces(s: System, step: Step, digest: string -> string)
    requires Traced(s, digest) && step.RecordRead?
    ensures Traced(Apply(s, step, digest), digest)
  {
    RecorderFrame(s, step, digest);
    hide Backed, EntryBacked, Truncated, Put, RowOf, Upsert, Key, Cacheable, Matches;
  }

  lemma ExpiryTraces(s: System, step: Step, digest: string -> string)
    requires Traced(s, digest) && (step.Expire? || step.ExpireCache?)
    ensures Traced(Apply(s, step, digest), digest)
  {
    hide Backed, EntryBacked, Truncated, Put, RowOf, Upsert, Key, Cacheable, Matches;
  }

  /** A new task's state is traced if it matches its submission and is backed. */
  lemma NewTaskTraces(s: System, s': System, digest: string -> string, id: Id, snap: Snap, submitted: Submitted)
    requires Traced(s, digest) && id !in s.submitted && Matches(snap, submitted) && Backed(s.computed, snap)
    requires s' == s.(store := s.store[id := snap], submitted := s.submitted[id := submitted], awaiting := s'.awaiting)
    ensures Traced(s', digest)
  {
    hide Matches, Backed, EntryBacked;
  }

  lemma CreateTraces(s: System, step: Step, digest: string -> string)
    requires Traced(s, digest) && step.Create? && PlainDb(step)
    ensures Traced(Apply(s, step, digest), digest)
  {
    if step.id !in s.submitted {
      var snap := Snap(Pending, Truncated(step.question), step.db, None, NoResult, 0, None, false, step.now, step.now);
      hide Traced, Truncated;
      NewTaskTraces(s, Apply(s, step, digest), digest, step.id, snap, Submitted(step.question, step.db));
    }
  }

  lemma CacheHitTraces(s: System, step: Step, digest: string -> string)
    requires Traced(s, digest) && Injective(digest) && step.CreateFromCache? && PlainDb(step)
    ensures Traced(Apply(s, step, digest), digest)
  {
    var key := Key(digest, step.question, step.db);
    if step.id !in s.submitted && key in s.cache {
      var c := s.cache[key];
      var snap := Snap(Success, Truncated(step.question), step.db, Some(c.sql), c.exec, 0, None, true, step.now, step.now);
      EntryBacksHit(s, step.question, step.db, digest, snap);
      hide Traced, Truncated, Key, Backed;
      NewTaskTraces(s, Apply(s, step, digest), digest, step.id, snap, Submitted(step.question, step.db));
    }
  }

  /** What the cache answers goes back to something computed for the question asked. */
  lemma EntryBacksHit(s: System, question: string, db: string, digest: string -> string, snap: Snap)
    requires Traced(s, digest) && Injective(digest) && '|' !in db && Key(digest, question, db) in s.cache
    requires var c := s.cache[Key(digest, question, db)];
      snap.question == Truncated(question) && snap.db == db && snap.sql == Some(c.sql) && snap.exec == c.exec
    ensures Backed(s.computed, snap)
  {
    var key := Key(digest, question, db);
    var c := s.cache[key];
    assert EntryBacked(s.computed, digest, key, c);
    var o :| o in s.computed && key == Key(digest, Truncated(o.question), o.db)
      && Explains(o, Truncated(o.question), o.db, c.sql, c.exec);
    KeyDetermines(digest, question, db, Truncated(o.question), o.db);
    assert Explains(o, Truncated(question), db, c.sql, ForCache(c.exec));
  }

  lemma WriteTraces(s: System, step: Step, digest: string -> string)
    requires Traced(s, digest) && step.Write?
    ensures Traced(Apply(s, step, digest), digest)
  {
    var s', id := Apply(s, step, digest), step.id;
    if id in s.store {
      var snap := s'.store[id];
      if Cacheable(snap) {
        var o := Origin(s.submitted[id].question, s.submitted[id].db, snap.sql.value, ForCache(snap.exec));
        assert o in s'.computed && Explains(o, snap.question, snap.db, snap.sql.value, ForCache(snap.exec));
      }
      assert s' == s.(store := s.store[id := snap], awaiting := s'.awaiting, computed := s'.computed);
      assert Backed(s'.computed, snap) && Matches(snap, s.submitted[id]);
      MoreComputed(s, s'.computed, digest);
    }
    hide Apply, Backed, EntryBacked, Matches;
  }

  lemma MoreComputed(s: System, computed: set<Origin>, digest: string -> string)
    requires Traced(s, digest) && s.computed <= computed
    ensures Traced(s.(computed := computed), digest)
  {
    hide Key, Truncated, Cacheable, Explains;
  }

  lemma UpsertTraces(s: System, step: Step, digest: string -> string)
    requires Traced(s, digest) && step.RecordUpsert?
    ensures Traced(Apply(s, step, digest), digest)
  {
    var s' := Apply(s, step, digest);
    if s.reading.Some? {
      PutBacked(s.computed, s.cache, digest, s.reading.value.snap);
    }
    hide Backed, EntryBacked, Put, Cacheable, Matches, Upsert, RowOf;
    assert s' == s.(lost := s'.lost, reading := s'.reading, rows := s'.rows, cache := s'.cache);
  }

  lemma PutBacked(computed: set<Origin>, cache: map<string, Cached>, digest: string -> string, snap: Snap)
    requires Backed(computed, snap) && forall key :: key in cache ==> EntryBacked(computed, digest, key, cache[key])
    ensures forall key :: key in Put(cache, digest, snap) ==> EntryBacked(computed, digest, key, Put(cache, digest, snap)[key])
  {
    if Cacheable(snap) {
      var o :| o in computed && Explains(o, snap.question, snap.db, snap.sql.value, ForCache(snap.exec));
      assert EntryBacked(computed, digest, Key(digest, snap.question, snap.db), Cached(snap.sql.value, ForCache(snap.exec)));
    }
  }

  lemma {:induction false} ReachableTraces(steps: seq<Step>, digest: string -> string)
    requires Injective(digest) && forall i :: 0 <= i < |steps| ==> PlainDb(steps[i])
    ensures Traced(After(EMPTY, steps, digest), digest)
  {
    if steps != [] {
      ReachableTraces(steps[..|steps| - 1], digest);
      ApplyTraces(After(EMPTY, steps[..|steps| - 1], digest), steps[|steps| - 1], digest);
    }
  }

  /** Any hit for a question of other than exactly 200 characters is a result a worker computed
      for that very question and database, however often it went through cache-created tasks. */
  lemma {:induction false} HitsAreCoherent(steps: seq<Step>, digest: string -> string, question: string, db: string) returns (o: Origin)
    requires Injective(digest) && (forall i :: 0 <= i < |steps| ==> PlainDb(steps[i])) && '|' !in db
    requires |question| != QUESTION_LIMIT
    requires Key(digest, question, db) in After(EMPTY, steps, digest).cache
    ensures var s := After(EMPTY, steps, digest);
      && o in s.computed && o.question == question && o.db == db
      && s.cache[Key(digest, question, db)] == Cached(o.sql, o.exec)
  {
    ReachableTraces(steps, digest);
    var s, key := After(EMPTY, steps, digest), Key(digest, question, db);
    assert EntryBacked(s.computed, digest, key, s.cache[key]);
    o :| o in s.computed && key == Key(digest, Truncated(o.question), o.db)
      && Explains(o, Truncated(o.question), o.db, s.cache[key].sql, s.cache[key].exec);
    KeyDetermines(digest, question, db, Truncated(o.question), o.db);
  }

  /** A question longer than 200 characters is never answered from the cache. */
  lemma {:induction false} LongQuestionsMiss(steps: seq<Step>, digest: string -> string, question: string, db: string)
    requires Injective(digest) && (forall i :: 0 <= i < |steps| ==> PlainDb(steps[i])) && '|' !in db
    requires |question| > QUESTION_LIMIT
    ensures Key(digest, question, db) !in After(EMPTY, steps, digest).cache
  {
    hide After, Key;
    if Key(digest, question, db) in After(EMPTY, steps, digest).cache {
      ReachableTraces(steps, digest);
      var s, key := After(EMPTY, steps, digest), Key(digest, question, db);
      assert EntryBacked(s.computed, digest, key, s.cache[key]);
      var o :| o in s.computed && key == Key(digest, Truncated(o.question), o.db)
        && Explains(o, Truncated(o.question), o.db, s.cache[key].sql, s.cache[key].exec);
      KeyDetermines(digest, question, db, Truncated(o.question), o.db);
    }
  }

  /** At exactly 200 characters coherence fails: the entry of a longer question with the same first
      200 characters answers it, though nobody ever asked it. */
  lemma {:induction false} PrefixAnswersAt200(digest: string -> string, question: string, db: string) returns (steps: seq<Step>)
    requires |question| == QUESTION_LIMIT
    ensures var s := After(EMPTY, steps, digest);
      && Key(digest, question, db) in s.cache
      && s.computed == {Origin(question + "x", db, "select 1", Json("{}", None))}
  {
    assert (question + "x")[..QUESTION_LIMIT] == question;
    assert !IsBlank("select 1") by { assert "select 1"[0] == 's'; }
    var run, _ := SubmitWriteRecord("t", question + "x", db, Write("t", Success, Some("select 1"), NoResult, 0, None, "1"), digest);
    steps := run;
  }
}

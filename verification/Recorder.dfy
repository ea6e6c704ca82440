/** The write-behind recorder of TaskEventRecorder.java and the result cache of
    ResultCacheService.java: the data, and the recorder's own operations. */
module Recorder {
  import opened Basics
  import opened TaskStatus

  const MAX_PENDING: nat := 10000
  const BATCH: nat := 500
  const QUESTION_LIMIT: nat := 200

  /** A task's state in Redis, as far as it is recorded.  `exec` is the JSON of the execution
      result, `rows` the row count in it. */
  datatype Exec = NoResult | Json(text: string, rows: Option<int>)
  datatype Snap = Snap(
    status: Status, question: string, db: string, sql: Option<string>, exec: Exec,
    retryCount: int, error: Option<string>, cacheHit: bool, createdAt: string, updatedAt: string)

  /** A task_record row: the columns of the first insert, and those every upsert overwrites. */
  datatype Row = Row(fixed: Fixed, live: Live)
  datatype Fixed = Fixed(userTag: string, db: string, question: string, submittedAt: string, startedAt: string)
  datatype Live = Live(
    status: Status, sql: Option<string>, rowCount: Option<int>, retryCount: int, error: Option<string>,
    cacheHit: bool, finishedAt: Option<string>)

  /** A result-cache entry. */
  datatype Cached = Cached(sql: string, exec: Exec)

  function LiveOf(s: Snap): Live {
    Live(s.status, s.sql, if s.exec.Json? then s.exec.rows else None, s.retryCount, s.error, s.cacheHit,
         if Terminal(s.status) then Some(s.updatedAt) else None)
  }

  function RowOf(s: Snap, owner: Option<string>): Row {
    Row(Fixed(if owner.None? then "unknown" else owner.value, s.db, s.question, s.createdAt, s.updatedAt), LiveOf(s))
  }

  /** INSERT ... ON DUPLICATE KEY UPDATE. */
  function Upsert(rows: map<Id, Row>, id: Id, row: Row): map<Id, Row> {
    rows[id := if id in rows then rows[id].(live := row.live) else row]
  }

  /** The cache key: a digest of question and database id. */
  function Key(digest: string -> string, question: string, db: string): string { digest(question + "|" + db) }

  predicate IsSpace(c: char) { c == ' ' || '\t' <= c <= '\r' || '\U{1C}' <= c <= '\U{1F}' }

  predicate IsBlank(s: string) { forall i :: 0 <= i < |s| ==> IsSpace(s[i]) }

  predicate Cacheable(s: Snap) { s.status.Success? && s.sql.Some? && !IsBlank(s.sql.value) }

  /** A missing execution result is cached as an empty object. */
  function ForCache(e: Exec): Exec { if e.NoResult? then Json("{}", None) else e }

  function Put(cache: map<string, Cached>, digest: string -> string, s: Snap): map<string, Cached> {
    if Cacheable(s) then cache[Key(digest, s.question, s.db) := Cached(s.sql.value, ForCache(s.exec))] else cache
  }

  // ---- what is recorded, column by column ----

  /** The columns every upsert overwrites say what the snapshot says; a row count is known from a result
      only, and the task counts as finished, at the time of its last update, if its status is final. */
  predicate Reports(live: Live, s: Snap) {
    && live.status == s.status && live.sql == s.sql && live.error == s.error
    && live.retryCount == s.retryCount && live.cacheHit == s.cacheHit
    && (s.exec.NoResult? ==> live.rowCount.None?) && (s.exec.Json? ==> live.rowCount == s.exec.rows)
    && (live.finishedAt.Some? <==> s.status in {Success, Failed, Timeout, Cancelled})
    && (live.finishedAt.Some? ==> live.finishedAt.value == s.updatedAt)
  }

  /** The columns of the first insert. */
  predicate FirstReports(fixed: Fixed, s: Snap, id: Id, owners: map<Id, string>) {
    && fixed.userTag == (if id in owners then owners[id] else "unknown")
    && fixed.db == s.db && fixed.question == s.question
    && fixed.submittedAt == s.createdAt && fixed.startedAt == s.updatedAt
  }

  lemma ReportsIff(live: Live, s: Snap)
    ensures Reports(live, s) <==> live == LiveOf(s)
  {
  }

  /** Only a task that ended well with some SQL is cached, with its SQL and its result, an empty object if
      it has none, under the digest of question and database. */
  ghost predicate CachesResult(cache: map<string, Cached>, before: map<string, Cached>, digest: string -> string, s: Snap) {
    if s.status == Success && s.sql.Some? && exists i :: 0 <= i < |s.sql.value| && !IsSpace(s.sql.value[i]) then
      cache == before[digest(s.question + "|" + s.db) := Cached(s.sql.value, if s.exec.Json? then s.exec else Json("{}", None))]
    else cache == before
  }

  lemma PutCaches(cache: map<string, Cached>, digest: string -> string, s: Snap)
    ensures CachesResult(Put(cache, digest, s), cache, digest, s)
  {
  }

  function Truncated(question: string): string {
    if |question| <= QUESTION_LIMIT then question else question[..QUESTION_LIMIT]
  }

  function Elements(batch: seq<Id>): set<Id> { set id | id in batch }

  /** Of these ids, those with a task in the store whose upsert succeeds are recorded, a new row with the
      columns of its first insert and an old one keeping them; all other rows are those of `before`. */
  ghost predicate RowsSettled(rows: map<Id, Row>, ids: set<Id>, store: map<Id, Snap>, owners: map<Id, string>,
                              failing: set<Id>, before: map<Id, Row>) {
    && (forall id :: id in ids && id in store && id !in failing ==>
          && id in rows && Reports(rows[id].live, store[id])
          && if id in before then rows[id].fixed == before[id].fixed else FirstReports(rows[id].fixed, store[id], id, owners))
    && (forall id :: !(id in ids && id in store && id !in failing) ==>
          (id in rows <==> id in before) && (id in rows ==> rows[id] == before[id]))
  }

  /** Batch after batch, rows that were settled stay so. */
  lemma SettledTogether(before: map<Id, Row>, middle: map<Id, Row>, rows: map<Id, Row>, first: set<Id>, later: set<Id>,
                        all: set<Id>, store: map<Id, Snap>, owners: map<Id, string>, failing: set<Id>)
    requires RowsSettled(middle, first, store, owners, failing, before)
    requires RowsSettled(rows, later, store, owners, failing, middle)
    requires first !! later && all == first + later
    ensures RowsSettled(rows, all, store, owners, failing, before)
  {
    hide Reports, FirstReports;
  }

  /** How many of these ids so many batches leave. */
  function Undrained(ids: nat, batches: nat): nat { if ids <= batches * BATCH then 0 else ids - batches * BATCH }

  lemma UndrainedIs(ids: nat, batches: nat)
    ensures Undrained(ids, batches) == if ids <= batches * BATCH then 0 else ids - batches * BATCH
  {
  }

  lemma UndrainedFirst(ids: nat)
    ensures Undrained(ids, 0) == ids
  {
  }

  lemma UndrainedNext(ids: nat, batches: nat, left: nat)
    requires left <= Undrained(ids, batches)
    ensures left - (if left < BATCH then left else BATCH) <= Undrained(ids, batches + 1)
  {
  }

  lemma DrainedSoFar(all: set<Id>, before: set<Id>, after: set<Id>, batch: set<Id>)
    requires before <= all && batch !! after && batch + after == before
    ensures after <= all && all - before !! batch && all - after == (all - before) + batch
  {
  }

  lemma NothingSettled(rows: map<Id, Row>, none: set<Id>, store: map<Id, Snap>, owners: map<Id, string>, failing: set<Id>)
    requires none == {}
    ensures RowsSettled(rows, none, store, owners, failing, rows)
  {
  }

  /** Whether another id's upsert fails does not matter to this one. */
  lemma SameFailing(rows: map<Id, Row>, id: Id, store: map<Id, Snap>, owners: map<Id, string>, failing: set<Id>, before: map<Id, Row>)
    requires RowsSettled(rows, {id}, store, owners, if id in failing then {id} else {}, before)
    ensures RowsSettled(rows, {id}, store, owners, failing, before)
  {
    hide Reports, FirstReports;
  }

  /** One more record, of an id that may have been recorded before. */
  lemma OneSettled(before: map<Id, Row>, middle: map<Id, Row>, rows: map<Id, Row>, ids: set<Id>, id: Id,
                   store: map<Id, Snap>, owners: map<Id, string>, failing: set<Id>)
    requires RowsSettled(middle, ids, store, owners, failing, before)
    requires RowsSettled(rows, {id}, store, owners, failing, middle)
    ensures RowsSettled(rows, ids + {id}, store, owners, failing, before)
  {
    hide Reports, FirstReports;
  }

  /** The recorder between two Redis states: nothing else changes the store during these calls. */
  class TaskEventRecorder {
    const digest: string -> string
    var dirty: set<Id>
    var rows: map<Id, Row>
    var cache: map<string, Cached>

    constructor (digest: string -> string)
      ensures dirty == {} && rows == map[] && cache == map[] && this.digest == digest
    {
      this.digest := digest;
      dirty, rows, cache := {}, map[], map[];
    }

    /** Bounded: the mark is added, and on overflow one mark, whichever the iterator meets first,
        is dropped. */
    method MarkDirty(id: Id)
      modifies this`dirty
      ensures |old(dirty)| <= MAX_PENDING ==> |dirty| <= MAX_PENDING
      ensures |old(dirty) + {id}| <= MAX_PENDING ==> dirty == old(dirty) + {id}
      ensures |old(dirty) + {id}| > MAX_PENDING ==>
        exists victim :: victim in old(dirty) + {id} && dirty == old(dirty) + {id} - {victim}
    {
      dirty := dirty + {id};
      if |dirty| > MAX_PENDING {
        var victim :| victim in dirty;
        dirty := dirty - {victim};
      }
    }

    /** Splits the dirty set: at most 500 ids, each once, leave it and make up the batch. */
    method DrainBatch() returns (batch: seq<Id>)
      modifies this`dirty
      ensures Elements(batch) !! dirty && Elements(batch) + dirty == old(dirty)
      ensures forall i, j :: 0 <= i < j < |batch| ==> batch[i] != batch[j]
      ensures |batch| == if |old(dirty)| < BATCH then |old(dirty)| else BATCH
      ensures |dirty| == |old(dirty)| - |batch|
    {
      batch := [];
      while dirty != {} && |batch| < BATCH
        invariant |batch| <= BATCH && |batch| + |dirty| == |old(dirty)|
        invariant Elements(batch) !! dirty && Elements(batch) + dirty == old(dirty)
        invariant forall i, j :: 0 <= i < j < |batch| ==> batch[i] != batch[j]
        decreases |dirty|
      {
        var id :| id in dirty;
        dirty := dirty - {id};
        assert id !in Elements(batch);
        batch := batch + [id];
      }
    }

    /** Writes the row of one task, and its cache entry if it ended well; an upsert that fails
        leaves both alone. */
    method Record(id: Id, store: map<Id, Snap>, owners: map<Id, string>, upsertFails: bool)
      modifies this`rows, this`cache
      ensures id !in store || upsertFails ==> rows == old(rows) && cache == old(cache)
      ensures id in store && !upsertFails ==>
        && rows == Upsert(old(rows), id, RowOf(store[id], if id in owners then Some(owners[id]) else None))
        && cache == Put(old(cache), digest, store[id])
      ensures RowsSettled(rows, {id}, store, owners, if upsertFails then {id} else {}, old(rows))
      ensures id in store && !upsertFails ==> CachesResult(cache, old(cache), digest, store[id])
    {
      if id !in store {
        return;
      }
      var s := store[id];
      var owner := if id in owners then Some(owners[id]) else None;
      if upsertFails {
        return;
      }
      ReportsIff(RowOf(s, owner).live, s);
      PutCaches(cache, digest, s);
      rows := Upsert(rows, id, RowOf(s, owner));
      if s.status.Success? && s.sql.Some? && !IsBlank(s.sql.value) {
        cache := cache[Key(digest, s.question, s.db) := Cached(s.sql.value, ForCache(s.exec))];
      }
    }

    /** One scheduled flush with time for `batches` batches: every id it takes out of the dirty set
        ends with a row that says what the store says, unless the task is gone or its upsert failed; what
        was inserted first stays; no other row is touched. */
    method Flush(store: map<Id, Snap>, owners: map<Id, string>, failing: set<Id>, batches: nat)
      modifies this
      ensures dirty <= old(dirty)
      ensures |dirty| <= if |old(dirty)| <= batches * BATCH then 0 else |old(dirty)| - batches * BATCH
      ensures RowsSettled(rows, old(dirty) - dirty, store, owners, failing, old(rows))
    {
      hide RowsSettled, Elements, Undrained;
      var n := 0;
      UndrainedFirst(|dirty|);
      NothingSettled(rows, old(dirty) - dirty, store, owners, failing);
      while dirty != {} && n < batches
        invariant n <= batches && dirty <= old(dirty)
        invariant |dirty| <= Undrained(|old(dirty)|, n)
        invariant RowsSettled(rows, old(dirty) - dirty, store, owners, failing, old(rows))
        decreases |dirty|
      {
        ghost var middle, before, first := rows, dirty, old(dirty) - dirty;
        UndrainedNext(|old(dirty)|, n, |dirty|);
        var batch := DrainBatch();
        DrainedSoFar(old(dirty), before, dirty, Elements(batch));
        RecordBatch(batch, store, owners, failing);
        SettledTogether(old(rows), middle, rows, first, Elements(batch), old(dirty) - dirty, store, owners, failing);
        n := n + 1;
      }
      UndrainedIs(|old(dirty)|, batches);
      UndrainedIs(|old(dirty)|, n);
    }

    method RecordBatch(batch: seq<Id>, store: map<Id, Snap>, owners: map<Id, string>, failing: set<Id>)
      modifies this`rows, this`cache
      ensures RowsSettled(rows, Elements(batch), store, owners, failing, old(rows))
    {
      hide RowsSettled;
      NothingSettled(rows, Elements(batch[..0]), store, owners, failing);
      for i := 0 to |batch|
        invariant RowsSettled(rows, Elements(batch[..i]), store, owners, failing, old(rows))
      {
        ghost var middle := rows;
        Record(batch[i], store, owners, batch[i] in failing);
        SameFailing(rows, batch[i], store, owners, failing, middle);
        OneSettled(old(rows), middle, rows, Elements(batch[..i]), batch[i], store, owners, failing);
        assert Elements(batch[..i + 1]) == Elements(batch[..i]) + {batch[i]};
      }
      assert batch[..|batch|] == batch;
    }
  }
}

/** The Redis task state of infrastructure/task_store.py: the transition table, the functions that
    read and overwrite one task's state, and the scan for dead workers. */
module TaskStore {

  import opened Basics
  import opened TaskStatus

  /** A task's state.  `turns` are the numbers of its stored feedback turns. */
  datatype Task = Task(status: Status, sql: string, retryCount: nat, turns: seq<nat>)

  /** A heartbeat entry: its time, or text that is no time. */
  datatype Beat = At(time: real) | Garbled

  const HEARTBEAT_STALE: real := 60.0

  function AllowedFrom(status: Status): set<Status> {
    match status
    case Pending => {Running, Cancelled}
    case Running => {Success, Failed, Timeout, Cancelled}
    case Success => {}
    case Failed => {Pending}
    case Timeout => {Pending}
    case Cancelled => {}
  }

  predicate ValidTransition(tasks: map<Id, Task>, id: Id, next: Status) {
    if id in tasks then next in AllowedFrom(tasks[id].status) else next.Pending?
  }

  /** The states after `task_transition`; an attempt's first transition also stores its number. */
  function Transitioned(tasks: map<Id, Task>, id: Id, next: Status, retry: Option<nat>): map<Id, Task> {
    if id in tasks && next in AllowedFrom(tasks[id].status)
    then tasks[id := tasks[id].(status := next, retryCount := if retry.Some? then retry.value else tasks[id].retryCount)]
    else tasks
  }

  function Reopened(tasks: map<Id, Task>, id: Id): map<Id, Task> {
    if id in tasks && (tasks[id].status.Success? || tasks[id].status.Failed?)
    then tasks[id := tasks[id].(status := Running)]
    else tasks
  }

  /** A worker counts as lost if its heartbeat is missing, unreadable or over a minute old. */
  predicate Lost(beats: map<Id, Beat>, id: Id, now: real) {
    id !in beats || beats[id].Garbled? || now - beats[id].time > HEARTBEAT_STALE
  }

  predicate Stale(tasks: map<Id, Task>, beats: map<Id, Beat>, id: Id, now: real) {
    id in tasks && tasks[id].status.Running? && Lost(beats, id, now)
  }

  /** The states once every stale one of these keys has been timed out. */
  ghost function Scanned(tasks: map<Id, Task>, beats: map<Id, Beat>, now: real, keys: seq<Id>): map<Id, Task> {
    map id | id in tasks ::
      if id in keys && Stale(tasks, beats, id, now) then tasks[id].(status := Timeout) else tasks[id]
  }

  /** The keys of the store, read and overwritten one call at a time. */
  class Store {
    var tasks: map<Id, Task>
    var cancelled: set<Id>
    var beats: map<Id, Beat>

    constructor ()
      ensures tasks == map[] && cancelled == {} && beats == map[]
    {
      tasks, cancelled, beats := map[], {}, map[];
    }

    method TaskUpdate(id: Id, sql: Option<string>, retry: Option<nat>, turns: Option<seq<nat>>)
      modifies this`tasks
      ensures tasks.Keys == old(tasks).Keys
      ensures forall other :: other in tasks && other != id ==> tasks[other] == old(tasks)[other]
      ensures id in tasks ==>
        && tasks[id].status == old(tasks)[id].status
        && tasks[id].sql == (if sql.Some? then sql.value else old(tasks)[id].sql)
        && tasks[id].retryCount == (if retry.Some? then retry.value else old(tasks)[id].retryCount)
        && tasks[id].turns == (if turns.Some? then turns.value else old(tasks)[id].turns)
    {
      if id !in tasks {
        return;
      }
      var state := tasks[id];
      if sql.Some? { state := state.(sql := sql.value); }
      if retry.Some? { state := state.(retryCount := retry.value); }
      if turns.Some? { state := state.(turns := turns.value); }
      tasks := tasks[id := state];
    }

    method TaskTransition(id: Id, next: Status, retry: Option<nat>)
      modifies this`tasks
      ensures tasks == Transitioned(old(tasks), id, next, retry)
      ensures !ValidTransition(old(tasks), id, next) || id !in old(tasks) ==> tasks == old(tasks)
    {
      var valid := ValidTransition(tasks, id, next);
      if !valid {
        return;
      }
      if id in tasks {
        var state := tasks[id].(status := next);
        if retry.Some? { state := state.(retryCount := retry.value); }
        tasks := tasks[id := state];
      }
    }

    method FeedbackTransition(id: Id)
      modifies this`tasks
      ensures tasks == Reopened(old(tasks), id)
    {
      if id !in tasks || (!tasks[id].status.Success? && !tasks[id].status.Failed?) {
        return;
      }
      tasks := tasks[id := tasks[id].(status := Running)];
    }

    method RequestCancel(id: Id)
      modifies this`cancelled
      ensures cancelled == old(cancelled) + {id}
    {
      cancelled := cancelled + {id};
    }

    method ClearCancel(id: Id)
      modifies this`cancelled
      ensures cancelled == old(cancelled) - {id}
    {
      cancelled := cancelled - {id};
    }

    /** One pass over the keys the cursor reports, in any order and possibly more than once: exactly
        the running tasks with a lost worker are reported, each once, and exactly they change. */
    method ScanStaleTasks(keys: seq<Id>, now: real) returns (stale: seq<Id>)
      modifies this`tasks
      ensures tasks == Scanned(old(tasks), beats, now, keys) && tasks.Keys == old(tasks).Keys
      ensures forall id :: id in tasks ==>
        tasks[id] == if id in stale then old(tasks)[id].(status := Timeout) else old(tasks)[id]
      ensures forall id :: id in stale <==>
        && id in keys && id in old(tasks) && old(tasks)[id].status.Running?
        && (id !in beats || beats[id].Garbled? || now - beats[id].time > 60.0)
      ensures forall id :: id in stale <==> id in keys && Stale(old(tasks), beats, id, now)
      ensures forall i, j :: 0 <= i < j < |stale| ==> stale[i] != stale[j]
    {
      stale := [];
      ghost var before := tasks;
      for i := 0 to |keys|
        invariant tasks == Scanned(before, beats, now, keys[..i])
        invariant forall id :: id in stale <==> id in keys[..i] && Stale(before, beats, id, now)
        invariant forall j, k :: 0 <= j < k < |stale| ==> stale[j] != stale[k]
      {
        var id := keys[i];
        assert keys[..i + 1] == keys[..i] + [id];
        if id in tasks && tasks[id].status.Running? && Lost(beats, id, now) {
          assert id !in keys[..i];
          stale := stale + [id];
          TaskTransition(id, Timeout, None);
        }
        assert tasks == Scanned(before, beats, now, keys[..i + 1]);
      }
      assert keys[..|keys|] == keys;
    }
  }
}

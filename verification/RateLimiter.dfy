/** The sliding-window limiter of RateLimiterService.java: one sorted set per key, changed by
    a Lua script that Redis runs atomically, with an expiry on the whole key.

    The reference it is compared with is the full log of admissions, from which nothing is
    ever removed.  Redis and the gateway are taken to read the same clock, in milliseconds. */
module RateLimiter {
  import opened Basics

  const WINDOW: int := 1000

  /** One admission: the sorted-set member and its score. */
  datatype Entry = Entry(member: string, time: int)

  /** How many admissions of the log fall in the half-open interval (after, upTo]. */
  function CountIn(log: seq<int>, after: int, upTo: int): nat {
    if log == [] then 0
    else CountIn(log[..|log| - 1], after, upTo) + if after < log[|log| - 1] <= upTo then 1 else 0
  }

  function Times(entries: seq<Entry>): seq<int> { seq(|entries|, i requires 0 <= i < |entries| => entries[i].time) }

  /** The reference decision: fewer than `limit` admissions in the window that ends now. */
  predicate Admits(log: seq<int>, now: int, limit: int) {
    CountIn(log, now - WINDOW, now) < limit
  }

  /** The sorted set that holds exactly the admissions after `cutoff`. */
  function LiveSet(entries: seq<Entry>, cutoff: int): map<string, int> {
    if entries == [] then map[]
    else
      var rest, last := LiveSet(entries[..|entries| - 1], cutoff), entries[|entries| - 1];
      if last.time > cutoff then rest[last.member := last.time] else rest
  }

  ghost predicate FreshMembers(entries: seq<Entry>) {
    forall i, j :: 0 <= i < j < |entries| ==> entries[i].member != entries[j].member
  }

  /** The entries of a history the limiter can have: distinct members, times non-decreasing. */
  ghost predicate Chronicle(entries: seq<Entry>, now: int) {
    && FreshMembers(entries)
    && (forall i :: 0 <= i < |entries| ==> 0 <= entries[i].time <= now)
    && (forall i, j :: 0 <= i < j < |entries| ==> entries[i].time <= entries[j].time)
  }

  lemma {:induction false} LiveSetIs(entries: seq<Entry>, cutoff: int, member: string)
    requires FreshMembers(entries)
    ensures member in LiveSet(entries, cutoff) <==>
            exists i :: 0 <= i < |entries| && entries[i].member == member && entries[i].time > cutoff
    ensures forall i :: 0 <= i < |entries| && entries[i].member == member && entries[i].time > cutoff ==>
            member in LiveSet(entries, cutoff) && LiveSet(entries, cutoff)[member] == entries[i].time
  {
    if entries != [] {
      var k := |entries| - 1;
      LiveSetIs(entries[..k], cutoff, member);
      assert forall i :: 0 <= i < k ==> entries[..k][i] == entries[i];
    }
  }

  /** The size of the sorted set is the number of admissions it stands for. */
  lemma {:induction false} LiveSetSize(entries: seq<Entry>, cutoff: int, now: int)
    requires Chronicle(entries, now)
    ensures |LiveSet(entries, cutoff)| == CountIn(Times(entries), cutoff, now)
  {
    if entries != [] {
      var k := |entries| - 1;
      LiveSetSize(entries[..k], cutoff, now);
      LiveSetIs(entries[..k], cutoff, entries[k].member);
      assert forall i :: 0 <= i < k ==> entries[..k][i] == entries[i];
      assert Times(entries)[..k] == Times(entries[..k]);
    }
  }

  /** ZREMRANGEBYSCORE key 0 max. */
  function RemoveUpTo(zset: map<string, int>, max: int): map<string, int> {
    map m | m in zset && !(0 <= zset[m] <= max) :: zset[m]
  }

  /** Purging with a later cutoff is the same as never having kept the older entries. */
  lemma PurgeIs(entries: seq<Entry>, old_: int, cutoff: int, now: int)
    requires Chronicle(entries, now) && old_ <= cutoff
    ensures RemoveUpTo(LiveSet(entries, old_), cutoff) == LiveSet(entries, cutoff)
  {
    var purged, live := RemoveUpTo(LiveSet(entries, old_), cutoff), LiveSet(entries, cutoff);
    forall m: string
      ensures m in purged <==> m in live
      ensures m in purged ==> purged[m] == live[m]
    {
      LiveSetIs(entries, old_, m);
      LiveSetIs(entries, cutoff, m);
    }
  }

  /** Once the whole key has expired, every entry in it was out of the window anyway. */
  lemma ExpiredIsEmpty(entries: seq<Entry>, last: int, cutoff: int)
    requires Chronicle(entries, last) && last <= cutoff
    ensures LiveSet(entries, cutoff) == map[]
  {
    forall m: string ensures m !in LiveSet(entries, cutoff) {
      LiveSetIs(entries, cutoff, m);
    }
  }

  /** A new admission extends the history and the sorted set alike. */
  lemma Admitted(log: seq<Entry>, now: int, member: string, cutoff: int)
    requires Chronicle(log, now) && 0 <= now && cutoff < now
    requires forall i :: 0 <= i < |log| ==> log[i].member != member
    ensures var log' := log + [Entry(member, now)];
      Chronicle(log', now) && LiveSet(log', cutoff) == LiveSet(log, cutoff)[member := now]
  {
    var log' := log + [Entry(member, now)];
    assert log'[..|log|] == log;
  }

  /** The keys Redis still has at time `now`: an expired key is gone as a whole. */
  function Present(zset: map<string, int>, expiresAt: Option<int>, now: int): map<string, int> {
    if expiresAt.Some? && now > expiresAt.value then map[] else zset
  }

  /** A rate-limit key in Redis. */
  datatype RedisKey = RedisKey(zset: map<string, int>, expiresAt: Option<int>)

  /** The sorted set is the log without what lies before the last purge, and the key lives for
      one window after the last admission. */
  ghost predicate Mirrors(key: RedisKey, log: seq<Entry>, cutoff: int, clock: int) {
    && 0 <= clock && Chronicle(log, clock) && cutoff <= clock - WINDOW
    && key.zset == LiveSet(log, cutoff)
    && key.expiresAt == if log == [] then None else Some(log[|log| - 1].time + WINDOW)
  }

  /** What the script leaves of the set before it counts. */
  function Purged(key: RedisKey, now: int): map<string, int> {
    RemoveUpTo(Present(key.zset, key.expiresAt, now), now - WINDOW)
  }

  /** The script counts exactly the logged admissions in the window that ends now. */
  lemma ScriptCounts(key: RedisKey, log: seq<Entry>, cutoff: int, clock: int, now: int)
    requires Mirrors(key, log, cutoff, clock) && clock <= now
    ensures Purged(key, now) == LiveSet(log, now - WINDOW)
    ensures |Purged(key, now)| == CountIn(Times(log), now - WINDOW, now)
  {
    LiveSetSize(log, now - WINDOW, now);
    if key.expiresAt.Some? && now > key.expiresAt.value {
      ExpiredIsEmpty(log, log[|log| - 1].time, now - WINDOW);
    } else {
      PurgeIs(log, cutoff, now - WINDOW, now);
    }
  }

  /** The key and the decision after one run of the script. */
  function Script(key: RedisKey, now: int, member: string, limit: int): (RedisKey, bool) {
    var purged := Purged(key, now);
    if |purged| < limit then (RedisKey(purged[member := now], Some(now + WINDOW)), true)
    else (RedisKey(purged, key.expiresAt), false)
  }

  function Logged(log: seq<Entry>, admitted: bool, member: string, now: int): seq<Entry> {
    if admitted then log + [Entry(member, now)] else log
  }

  ghost predicate Fresh(member: string, log: seq<Entry>) {
    forall i :: 0 <= i < |log| ==> log[i].member != member
  }

  lemma AfterRefusal(key: RedisKey, log: seq<Entry>, cutoff: int, clock: int, now: int)
    requires Mirrors(key, log, cutoff, clock) && clock <= now
    ensures Mirrors(RedisKey(Purged(key, now), key.expiresAt), log, now - WINDOW, now)
  {
    ScriptCounts(key, log, cutoff, clock, now);
  }

  lemma AfterAdmission(key: RedisKey, log: seq<Entry>, now: int, member: string)
    requires Mirrors(key, log, now - WINDOW, now) && Fresh(member, log)
    ensures Mirrors(RedisKey(key.zset[member := now], Some(now + WINDOW)), log + [Entry(member, now)], now - WINDOW, now)
  {
    Admitted(log, now, member, now - WINDOW);
    var log' := log + [Entry(member, now)];
    assert log'[|log'| - 1].time == now;
  }

  /** The script's decision is the reference decision on the full log, so neither the purge nor
      the expiry of the key ever changes one; and the key goes on mirroring the log. */
  lemma MirrorsLater(key: RedisKey, log: seq<Entry>, cutoff: int, clock: int, now: int)
    requires Mirrors(key, log, cutoff, clock) && clock <= now
    ensures Mirrors(key, log, cutoff, now)
  {
  }

  lemma ScriptRefines(key: RedisKey, log: seq<Entry>, cutoff: int, clock: int, now: int, member: string, limit: int)
    requires Mirrors(key, log, cutoff, clock) && clock <= now && Fresh(member, log)
    ensures var (key', ok) := Script(key, now, member, limit);
      && (ok <==> Admits(Times(log), now, limit))
      && Mirrors(key', Logged(log, ok, member, now), now - WINDOW, now)
  {
    ScriptCounts(key, log, cutoff, clock, now);
    AfterRefusal(key, log, cutoff, clock, now);
    if |Purged(key, now)| < limit {
      AfterAdmission(RedisKey(Purged(key, now), key.expiresAt), log, now, member);
    }
  }

  /** One limiter: the key it keeps in Redis, and the log it stands for. */
  class Limiter {
    const limit: int
    var zset: map<string, int>
    var expiresAt: Option<int>
    ghost var log: seq<Entry>     // every admission by the script so far
    ghost var cutoff: int         // of the last purge
    ghost var clock: int

    ghost predicate Valid()
      reads this
    {
      Mirrors(RedisKey(zset, expiresAt), log, cutoff, clock)
    }

    constructor (limit: int)
      ensures Valid() && this.limit == limit && log == [] && clock == 0
    {
      this.limit := limit;
      zset, expiresAt := map[], None;
      log, cutoff, clock := [], -WINDOW, 0;
    }

    /** ZREMRANGEBYSCORE, ZCARD, ZADD and PEXPIRE, after Redis has dropped an expired key. */
    method RunScript(now: int, member: string) returns (ok: bool)
      modifies this`zset, this`expiresAt
      ensures (RedisKey(zset, expiresAt), ok) == Script(old(RedisKey(zset, expiresAt)), now, member, limit)
    {
      if expiresAt.Some? && now > expiresAt.value {
        zset := map[];
      }
      zset := RemoveUpTo(zset, now - WINDOW);
      ok := |zset| < limit;
      if ok {
        zset := zset[member := now];
        expiresAt := Some(now + WINDOW);
      }
    }

    /** `check`: the script, and fail-open when Redis is down. */
    method Check(now: int, member: string, up: bool) returns (allowed: bool)
      requires Valid() && now >= clock && Fresh(member, log)
      modifies this
      ensures Valid() && clock == now
      ensures !up ==> allowed && log == old(log)
      ensures up ==> (allowed <==> Admits(Times(old(log)), now, limit))
      ensures up ==> log == Logged(old(log), allowed, member, now)
    {
      hide Mirrors, Chronicle, Script, Admits, Fresh, Logged;
      if !up {
        MirrorsLater(RedisKey(zset, expiresAt), log, cutoff, clock, now);
        clock := now;
        return true;
      }
      ScriptRefines(RedisKey(zset, expiresAt), log, cutoff, clock, now, member, limit);
      allowed := RunScript(now, member);
      log, cutoff, clock := Logged(log, allowed, member, now), now - WINDOW, now;
    }
  }

  // ---- whole runs ----

  /** The log after the requests made at `times`, under one fixed limit. */
  function RunLog(times: seq<int>, limit: int): (log: seq<int>) {
    if times == [] then []
    else
      var before, now := RunLog(times[..|times| - 1], limit), times[|times| - 1];
      if Admits(before, now, limit) then before + [now] else before
  }

  ghost predicate NonDecreasing(times: seq<int>) {
    forall i, j :: 0 <= i < j < |times| ==> times[i] <= times[j]
  }

  lemma {:induction false} RunLogBounded(times: seq<int>, limit: int, top: int)
    requires forall i :: 0 <= i < |times| ==> times[i] <= top
    ensures forall i :: 0 <= i < |RunLog(times, limit)| ==> RunLog(times, limit)[i] <= top
  {
    if times != [] {
      RunLogBounded(times[..|times| - 1], limit, top);
    }
  }

  /** With nothing in the log after `now`, a window reaching back less far counts no more. */
  lemma {:induction false} CountShrinks(log: seq<int>, a: int, b: int, now: int, upTo: int)
    requires a <= b && forall i :: 0 <= i < |log| ==> log[i] <= now
    ensures CountIn(log, b, upTo) <= CountIn(log, a, now)
  {
    if log != [] {
      CountShrinks(log[..|log| - 1], a, b, now, upTo);
    }
  }

  /** However requests arrive, no interval (a, a+1000] ever holds more than `limit` admissions. */
  lemma {:induction false} WindowBound(times: seq<int>, limit: nat, a: int)
    requires NonDecreasing(times)
    ensures CountIn(RunLog(times, limit), a, a + WINDOW) <= limit
  {
    if times != [] {
      var k := |times| - 1;
      var before, now := RunLog(times[..k], limit), times[k];
      WindowBound(times[..k], limit, a);
      if Admits(before, now, limit) && a < now <= a + WINDOW {
        RunLogBounded(times[..k], limit, now);
        CountShrinks(before, now - WINDOW, a, now, a + WINDOW);
      }
      assert (before + [now])[..|before|] == before;
    }
  }

  /** A request is refused exactly when its window already holds `limit` admissions. */
  lemma RefusedOnlyWhenFull(times: seq<int>, limit: nat, now: int)
    requires NonDecreasing(times + [now])
    ensures RunLog(times + [now], limit) == RunLog(times, limit)
      <==> CountIn(RunLog(times, limit), now - WINDOW, now) == limit
  {
    assert (times + [now])[..|times|] == times;
    assert NonDecreasing(times) by {
      assert forall i :: 0 <= i < |times| ==> times[i] == (times + [now])[i];
    }
    WindowBound(times, limit, now - WINDOW);
  }

  // ---- whole runs of the script ----

  /** The key after the requests made at these times under these members. */
  function KeyAfter(times: seq<int>, members: seq<string>, limit: int): RedisKey
    requires |times| == |members|
  {
    if times == [] then RedisKey(map[], None)
    else
      var k := |times| - 1;
      Script(KeyAfter(times[..k], members[..k], limit), times[k], members[k], limit).0
  }

  /** Did the script admit request i? */
  function Allowed(times: seq<int>, members: seq<string>, limit: int, i: nat): bool
    requires |times| == |members| && i < |times|
  {
    Script(KeyAfter(times[..i], members[..i], limit), times[i], members[i], limit).1
  }

  ghost predicate Requests(times: seq<int>, members: seq<string>) {
    && |times| == |members| && NonDecreasing(times) && (forall i :: 0 <= i < |times| ==> times[i] >= 0)
    && forall i, j :: 0 <= i < j < |members| ==> members[i] != members[j]
  }

  /** A run of the script mirrors the run of the reference, request by request. */
  lemma {:induction false} RunMirrors(times: seq<int>, members: seq<string>, limit: int) returns (log: seq<Entry>)
    requires Requests(times, members)
    ensures var now := if times == [] then 0 else times[|times| - 1];
      Mirrors(KeyAfter(times, members, limit), log, now - WINDOW, now)
    ensures Times(log) == RunLog(times, limit)
    ensures forall i :: 0 <= i < |log| ==> log[i].member in members
  {
    hide Mirrors, Script, Admits;
    if times == [] {
      log := [];
      EmptyMirrors();
    } else {
      var k := |times| - 1;
      var before := RunMirrors(times[..k], members[..k], limit);
      var last := if k == 0 then 0 else times[k - 1];
      assert Fresh(members[k], before) by { assert members[k] !in members[..k]; }
      var key := KeyAfter(times[..k], members[..k], limit);
      ScriptRefines(key, before, last - WINDOW, last, times[k], members[k], limit);
      log := Logged(before, Script(key, times[k], members[k], limit).1, members[k], times[k]);
      TimesLogged(before, Script(key, times[k], members[k], limit).1, members[k], times[k]);
    }
  }

  lemma EmptyMirrors()
    ensures Mirrors(RedisKey(map[], None), [], 0 - WINDOW, 0)
  {
  }

  lemma TimesLogged(log: seq<Entry>, admitted: bool, member: string, now: int)
    ensures Times(Logged(log, admitted, member, now)) == if admitted then Times(log) + [now] else Times(log)
  {
  }

  /** So the script admits exactly what the reference admits, and no interval (a, a+1000] of a run of
      the script holds more than `limit` admissions. */
  lemma ScriptRunIsReference(times: seq<int>, members: seq<string>, limit: nat, i: nat, a: int)
    requires Requests(times, members) && i < |times|
    ensures Allowed(times, members, limit, i) <==> Admits(RunLog(times[..i], limit), times[i], limit)
    ensures CountIn(RunLog(times, limit), a, a + WINDOW) <= limit
  {
    var log := RunMirrors(times[..i], members[..i], limit);
    assert members[i] !in members[..i];
    var last := if i == 0 then 0 else times[i - 1];
    ScriptRefines(KeyAfter(times[..i], members[..i], limit), log, last - WINDOW, last, times[i], members[i], limit);
    WindowBound(times, limit, a);
  }
}

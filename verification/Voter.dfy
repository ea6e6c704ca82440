/** Execution voting of agent/nodes/voter.py.  Executing a candidate, rounding a float and asking
    the model for an index are parameters; the completion order of the pool is an arbitrary
    permutation. */
module Voter {
  import opened Basics
  import opened Cells
  import opened Sorting
  import opened FirstSeen
  import opened VoteHash

  datatype Execution = Execution(success: bool, rows: seq<seq<Cell>>)

  /** An executed candidate; `hash` is empty if it failed. */
  datatype Result = Result(sql: string, run: Execution, hash: seq<Row>)

  /** The voter's answer: always reported as a success, with the data of an executed candidate or
      with none. */
  datatype Verdict = Verdict(sql: string, success: bool, data: Data)
  datatype Data = OfCandidate(rows: seq<seq<Cell>>) | NoData

  /** Normalizing a result is outside any try, so what it raises ends the node. */
  datatype Outcome = Voted(verdict: Verdict) | Raised

  /** `_llm_vote`: the model's index if it is one, else the first candidate. */
  function LlmVote(sqls: seq<string>, pick: int): (winner: string)
    requires sqls != []
    ensures winner in sqls
  {
    if 0 <= pick < |sqls| then sqls[pick] else sqls[0]
  }

  function ResultOf(sql: string, run: string -> Execution, round: Float -> Float): Result {
    Result(sql, run(sql), if run(sql).success then HashOf(run(sql).rows, round) else [])
  }

  function Results(sqls: seq<string>, run: string -> Execution, round: Float -> Float): seq<Result> {
    seq(|sqls|, i requires 0 <= i < |sqls| => ResultOf(sqls[i], run, round))
  }

  /** Some candidate executed with a result whose rows cannot be sorted. */
  ghost predicate Raises(sqls: seq<string>, run: string -> Execution, round: Float -> Float) {
    exists s :: s in sqls && RaisesOn(s, run, round)
  }

  ghost predicate RaisesOn(sql: string, run: string -> Execution, round: Float -> Float) {
    run(sql).success && Unsortable(NormalRows(run(sql).rows, round))
  }

  function Successful(results: seq<Result>): seq<Result> {
    if results == [] then []
    else Successful(results[..|results| - 1])
         + if results[|results| - 1].run.success then [results[|results| - 1]] else []
  }

  function Hash(r: Result): seq<Row> { r.hash }

  function Count(results: seq<Result>, hash: seq<Row>): nat {
    if results == [] then 0
    else Count(results[..|results| - 1], hash) + if Hash(results[|results| - 1]) == hash then 1 else 0
  }

  /** The winner of the vote by result hash: the earliest candidate among those whose hash is
      shared by the most. */
  ghost predicate IsMajority(results: seq<Result>, w: nat) {
    && w < |results|
    && (forall j :: 0 <= j < |results| ==> Count(results, Hash(results[j])) <= Count(results, Hash(results[w])))
    && (forall j :: 0 <= j < w ==> Count(results, Hash(results[j])) < Count(results, Hash(results[w])))
  }

  lemma MajorityIsUnique(results: seq<Result>, v: nat, w: nat)
    requires IsMajority(results, v) && IsMajority(results, w)
    ensures v == w
  {
    var cv, cw := Count(results, Hash(results[v])), Count(results, Hash(results[w]));
    assert cv <= cw && cw <= cv;
  }

  // ---- Counter.most_common ----

  function ByCount(results: seq<Result>): (seq<Row>, seq<Row>) -> bool {
    (a: seq<Row>, b: seq<Row>) => Count(results, a) >= Count(results, b)
  }

  lemma {:induction false} CountPositive(results: seq<Result>, i: nat)
    requires i < |results|
    ensures Count(results, Hash(results[i])) >= 1
  {
    if i < |results| - 1 {
      CountPositive(results[..|results| - 1], i);
    }
  }

  /** The first hash of `most_common` is that of the majority, and its first holder wins. */
  lemma MostCommonIsMajority(results: seq<Result>)
    requires results != []
    ensures var common := Sort(KeysOf(results, Hash, |results|), ByCount(results));
      && common != []
      && FirstAt(results, Hash, common[0]) < |results|
      && IsMajority(results, FirstAt(results, Hash, common[0]))
  {
    var keys, leq := KeysOf(results, Hash, |results|), ByCount(results);
    var common := Sort(keys, leq);
    SortPermutes(keys, leq);
    SortSorts(keys, leq);
    KeysOfHas(results, Hash, |results|, Hash(results[0]));
    SortHas(keys, leq, common[0]);
    KeysOfHas(results, Hash, |results|, common[0]);
    var w := FirstAt(results, Hash, common[0]);
    forall j | 0 <= j < |results|
      ensures Count(results, Hash(results[j])) <= Count(results, Hash(results[w]))
      ensures j < w ==> Count(results, Hash(results[j])) < Count(results, Hash(results[w]))
    {
      CommonBeats(results, common, Hash(results[j]));
    }
  }

  lemma CommonBeats(results: seq<Result>, common: seq<seq<Row>>, hash: seq<Row>)
    requires common == Sort(KeysOf(results, Hash, |results|), ByCount(results)) && common != []
    requires FirstAt(results, Hash, hash) < |results|
    ensures Count(results, hash) <= Count(results, common[0])
    ensures FirstAt(results, Hash, hash) < FirstAt(results, Hash, common[0]) ==>
      Count(results, hash) < Count(results, common[0])
  {
    var keys, leq := KeysOf(results, Hash, |results|), ByCount(results);
    SortPermutes(keys, leq);
    SortSorts(keys, leq);
    KeysOfInOrder(results, Hash, |results|);
    KeysOfHas(results, Hash, |results|, hash);
    SortHas(keys, leq, hash);
    var q :| 0 <= q < |common| && common[q] == hash;
    assert q > 0 ==> leq(common[0], common[q]);
    if q > 0 && leq(common[q], common[0]) {
      SortKeepsTies(keys, leq, 0, q);
      var i, j :| 0 <= i < j < |keys| && keys[i] == common[0] && keys[j] == hash;
    }
  }

  // ---- the vote as a function of the candidates ----

  ghost predicate IsVote(
    sqls: seq<string>, run: string -> Execution, round: Float -> Float, pick: int, fallbackPick: int, v: Verdict)
    requires sqls != []
  {
    var ok := Successful(Results(sqls, run, round));
    && v.success
    && (if ok == [] then v.sql == LlmVote(sqls, fallbackPick) && v.data == NoData
        else if |ok| == 1 then v.sql == ok[0].sql && v.data == OfCandidate(ok[0].run.rows)
        else IsTally(ok, run, pick, v))
  }

  ghost predicate Repeats(results: seq<Result>) {
    exists j :: 0 <= j < |results| && Count(results, Hash(results[j])) >= 2
  }

  function Sqls(results: seq<Result>): seq<string> {
    seq(|results|, i requires 0 <= i < |results| => results[i].sql)
  }

  lemma {:induction false} SuccessfulAre(sqls: seq<string>, run: string -> Execution, round: Float -> Float, results: seq<Result>)
    requires forall r :: r in results ==> r.sql in sqls && r == ResultOf(r.sql, run, round)
    ensures forall r :: r in Successful(results) ==> r in results && r.run.success
    ensures forall r :: r in Successful(results) ==> r.sql in sqls && r == ResultOf(r.sql, run, round)
  {
    if results != [] {
      SuccessfulAre(sqls, run, round, results[..|results| - 1]);
    }
  }

  // ---- completion order ----

  function ByIndex(sqls: seq<string>): (Result, Result) -> bool {
    (a: Result, b: Result) => FirstAt(sqls, Same, a.sql) <= FirstAt(sqls, Same, b.sql)
  }

  function Same(s: string): string { s }

  lemma ResultsPermute(a: seq<string>, b: seq<string>, run: string -> Execution, round: Float -> Float)
    requires multiset(a) == multiset(b)
    ensures multiset(Results(a, run, round)) == multiset(Results(b, run, round))
  {
    var f := (sql: string) => ResultOf(sql, run, round);
    MappedPermute(a, b, f);
    assert Results(a, run, round) == Mapped(a, f) && Results(b, run, round) == Mapped(b, f);
  }

  lemma IndexInDistinct(sqls: seq<string>, i: nat)
    requires i < |sqls| && NoDuplicates(sqls)
    ensures FirstAt(sqls, Same, sqls[i]) == i
  {
    var k := FirstAt(sqls, Same, sqls[i]);
    assert Same(sqls[k]) == sqls[i];
  }

  /** Sorting by candidate index undoes any completion order. */
  lemma SortRestoresOrder(sqls: seq<string>, order: seq<string>, run: string -> Execution, round: Float -> Float)
    requires NoDuplicates(sqls) && multiset(order) == multiset(sqls)
    ensures Sort(Results(order, run, round), ByIndex(sqls)) == Results(sqls, run, round)
  {
    var inOrder, leq := Results(sqls, run, round), ByIndex(sqls);
    var sorted := Sort(Results(order, run, round), leq);
    ResultsPermute(order, sqls, run, round);
    SortPermutes(Results(order, run, round), leq);
    SortSorts(Results(order, run, round), leq);
    forall i, j | 0 <= i < j < |inOrder| ensures leq(inOrder[i], inOrder[j]) {
      IndexInDistinct(sqls, i);
      IndexInDistinct(sqls, j);
    }
    forall x, y | x in sorted && y in sorted && leq(x, y) && leq(y, x) ensures x == y {
      FromResults(sqls, run, round, sorted, x);
      FromResults(sqls, run, round, sorted, y);
    }
    SortedIsUnique(sorted, inOrder, leq);
  }

  lemma FromResults(sqls: seq<string>, run: string -> Execution, round: Float -> Float, sorted: seq<Result>, x: Result)
    requires NoDuplicates(sqls) && multiset(sorted) == multiset(Results(sqls, run, round)) && x in sorted
    ensures var i := FirstAt(sqls, Same, x.sql); i < |sqls| && x == Results(sqls, run, round)[i]
  {
    assert x in multiset(Results(sqls, run, round));
    var i :| 0 <= i < |sqls| && Results(sqls, run, round)[i] == x;
    IndexInDistinct(sqls, i);
  }

  ghost predicate IsOutcome(
    sqls: seq<string>, run: string -> Execution, round: Float -> Float, pick: int, fallbackPick: int, o: Outcome)
    requires sqls != []
  {
    if Raises(sqls, run, round) then o.Raised?
    else o.Voted? && IsVote(sqls, run, round, pick, fallbackPick, o.verdict)
  }

  /** `voter_node` with a database: whatever order the pool completes the candidates in, the same
      outcome results.  It raises if and only if some executed candidate's rows cannot be sorted. */
  method VoterNode(
    sqls: seq<string>, run: string -> Execution, round: Float -> Float, order: seq<string>, pick: int, fallbackPick: int)
    returns (o: Outcome)
    requires sqls != [] && NoDuplicates(sqls) && multiset(order) == multiset(sqls)
    ensures IsOutcome(sqls, run, round, pick, fallbackPick, o)
  {
    hide HashOf, IsVote, Sort, ByIndex;
    var results: seq<Result> := [];
    for i := 0 to |order|
      invariant results == Results(order, run, round)[..i]
      invariant forall j :: 0 <= j < i ==> !RaisesOn(order[j], run, round)
    {
      var e, hash := run(order[i]), [];
      if e.success {
        var normalized := Normalize(e.rows, round);
        if normalized.None? {
          assert order[i] in multiset(sqls) && RaisesOn(order[i], run, round);
          return Raised;
        }
        hash := normalized.value;
      }
      results := results + [Result(order[i], e, hash)];
    }
    assert results == Results(order, run, round);
    forall s | s in sqls ensures !RaisesOn(s, run, round) {
      assert s in multiset(order);
    }
    results := Sort(results, ByIndex(sqls));
    SortRestoresOrder(sqls, order, run, round);
    var v := Ballot(sqls, run, round, results, pick, fallbackPick);
    o := Voted(v);
  }

  /** The vote once all candidates are executed and hashed. */
  method Ballot(
    ghost sqls: seq<string>, ghost run: string -> Execution, ghost round: Float -> Float, results: seq<Result>,
    pick: int, fallbackPick: int)
    returns (v: Verdict)
    requires sqls != [] && results == Results(sqls, run, round)
    ensures IsVote(sqls, run, round, pick, fallbackPick, v)
  {
    var successful := Successful(results);
    SuccessfulAre(sqls, run, round, results);
    if successful == [] {
      assert Sqls(results) == sqls;
      return Verdict(LlmVote(Sqls(results), fallbackPick), true, NoData);
    }
    if |successful| == 1 {
      return Verdict(successful[0].sql, true, OfCandidate(successful[0].run.rows));
    }
    v := TallyVote(run, successful, pick);
  }

  /** The head of `Counter(...).most_common()`. */
  method MostCommon(results: seq<Result>) returns (hash: seq<Row>)
    requires results != []
    ensures var w := FirstAt(results, Hash, hash); w < |results| && IsMajority(results, w)
  {
    var hashes: seq<seq<Row>> := [];
    for i := 0 to |results|
      invariant hashes == KeysOf(results, Hash, i)
    {
      KeysOfHas(results, Hash, i, Hash(results[i]));
      if Hash(results[i]) !in hashes {
        hashes := hashes + [Hash(results[i])];
      }
    }
    MostCommonIsMajority(results);
    hash := Sort(hashes, ByCount(results))[0];
  }

  ghost predicate IsTally(successful: seq<Result>, run: string -> Execution, pick: int, v: Verdict)
    requires successful != []
  {
    if Repeats(successful) then
      exists w: nat :: IsMajority(successful, w) && v.sql == successful[w].sql && v.data == OfCandidate(successful[w].run.rows)
    else
      v.sql == LlmVote(Sqls(successful), pick) && v.data == OfCandidate(run(v.sql).rows)
  }

  function SqlOf(r: Result): string { r.sql }

  /** The vote among at least two executed candidates. */
  method TallyVote(ghost run: string -> Execution, successful: seq<Result>, pick: int) returns (v: Verdict)
    requires |successful| >= 2 && forall r :: r in successful ==> r.run == run(r.sql)
    ensures v.success && IsTally(successful, run, pick, v)
  {
    var hash := MostCommon(successful);
    var w := FirstAt(successful, Hash, hash);
    assert Repeats(successful) <==> Count(successful, Hash(successful[w])) >= 2;
    if Count(successful, hash) >= 2 {
      v := Verdict(successful[w].sql, true, OfCandidate(successful[w].run.rows));
    } else {
      var winner := LlmVote(Sqls(successful), pick);
      var at := FirstAt(successful, SqlOf, winner);
      HolderExists(successful, winner);
      assert successful[at] in successful;
      v := Verdict(winner, true, OfCandidate(successful[at].run.rows));
    }
  }

  lemma HolderExists(results: seq<Result>, sql: string)
    requires sql in Sqls(results)
    ensures FirstAt(results, SqlOf, sql) < |results|
  {
    var i :| 0 <= i < |results| && Sqls(results)[i] == sql;
    assert SqlOf(results[i]) == sql;
  }

  /** Without a database the model chooses among the candidates. */
  function VoterOffline(sqls: seq<string>, sql: string, pick: int): Verdict
    requires sqls != []
  {
    var winner := LlmVote(sqls, pick);
    Verdict(if winner == "" then sql else winner, true, NoData)
  }

  /** The chosen SQL is one of the candidates, and data that comes with it is its own. */
  lemma VoteIsSound(
    sqls: seq<string>, run: string -> Execution, round: Float -> Float, pick: int, fallbackPick: int, v: Verdict)
    requires sqls != [] && IsVote(sqls, run, round, pick, fallbackPick, v)
    ensures v.sql in sqls
    ensures v.data.OfCandidate? ==> run(v.sql).success && v.data.rows == run(v.sql).rows
    ensures v.data.NoData? <==> forall s :: s in sqls ==> !run(s).success
  {
    var results, ok := Results(sqls, run, round), Successful(Results(sqls, run, round));
    SuccessfulAre(sqls, run, round, results);
    if ok != [] {
      var r := Chosen(ok, run, pick, v);
      assert r.sql in sqls && r.run.success;
    }
    forall s | s in sqls && run(s).success ensures ok != [] {
      var i :| 0 <= i < |sqls| && sqls[i] == s;
      SuccessfulAll(results, i);
    }
  }

  /** The outcome is a function of the candidates, what executing them gave and the model's answers:
      the completion order plays no part. */
  lemma VoteIsUnique(
    sqls: seq<string>, run: string -> Execution, round: Float -> Float, pick: int, fallbackPick: int,
    o: Outcome, o': Outcome)
    requires sqls != []
    requires IsOutcome(sqls, run, round, pick, fallbackPick, o) && IsOutcome(sqls, run, round, pick, fallbackPick, o')
    ensures o == o'
  {
    var ok := Successful(Results(sqls, run, round));
    if o.Voted? && |ok| >= 2 && Repeats(ok) {
      var v, v' := o.verdict, o'.verdict;
      var w: nat :| IsMajority(ok, w) && v.sql == ok[w].sql && v.data == OfCandidate(ok[w].run.rows);
      var w': nat :| IsMajority(ok, w') && v'.sql == ok[w'].sql && v'.data == OfCandidate(ok[w'].run.rows);
      MajorityIsUnique(ok, w, w');
    }
  }

  /** What a majority says: another candidate gave the same multiset of rounded rows. */
  lemma MajorityIsConfirmed(sqls: seq<string>, run: string -> Execution, round: Float -> Float, w: nat)
    requires var ok := Successful(Results(sqls, run, round)); Repeats(ok) && IsMajority(ok, w)
    ensures var ok := Successful(Results(sqls, run, round));
      exists j: nat :: j < |ok| && j != w &&
        multiset(NormalRows(ok[j].run.rows, round)) == multiset(NormalRows(ok[w].run.rows, round))
  {
    var ok := Successful(Results(sqls, run, round));
    SuccessfulAre(sqls, run, round, Results(sqls, run, round));
    var j := AnotherHolder(ok, w);
    assert ok[j] in ok && ok[w] in ok;
    HashesAgreeIff(ok[j].run.rows, ok[w].run.rows, round);
  }

  lemma {:induction false} AnotherHolder(results: seq<Result>, w: nat) returns (j: nat)
    requires w < |results| && Count(results, Hash(results[w])) >= 2
    ensures j < |results| && j != w && Hash(results[j]) == Hash(results[w])
  {
    var last := |results| - 1;
    if w == last {
      j := HolderOf(results[..last], Hash(results[w]));
    } else if Hash(results[last]) == Hash(results[w]) {
      j := last;
    } else {
      j := AnotherHolder(results[..last], w);
    }
  }

  lemma {:induction false} HolderOf(results: seq<Result>, hash: seq<Row>) returns (j: nat)
    requires Count(results, hash) >= 1
    ensures j < |results| && Hash(results[j]) == hash
  {
    var last := |results| - 1;
    if Hash(results[last]) == hash {
      j := last;
    } else {
      j := HolderOf(results[..last], hash);
    }
  }

  lemma Chosen(ok: seq<Result>, run: string -> Execution, pick: int, v: Verdict) returns (r: Result)
    requires ok != [] && forall r :: r in ok ==> r.run == run(r.sql)
    requires if |ok| == 1 then v.sql == ok[0].sql && v.data == OfCandidate(ok[0].run.rows) else IsTally(ok, run, pick, v)
    ensures r in ok && r.sql == v.sql && v.data == OfCandidate(r.run.rows)
  {
    if |ok| == 1 {
      r := ok[0];
    } else if Repeats(ok) {
      var w: nat :| IsMajority(ok, w) && v.sql == ok[w].sql && v.data == OfCandidate(ok[w].run.rows);
      r := ok[w];
    } else {
      var i :| 0 <= i < |ok| && Sqls(ok)[i] == v.sql;
      r := ok[i];
      assert r in ok;
    }
  }

  lemma {:induction false} SuccessfulAll(results: seq<Result>, i: nat)
    requires i < |results| && results[i].run.success
    ensures results[i] in Successful(results)
  {
    if i < |results| - 1 {
      SuccessfulAll(results[..|results| - 1], i);
    }
  }

  /** A tie is decided by the model: whichever executed candidate it names wins, the first if it names
      none. */
  lemma TieFollowsModel(sqls: seq<string>, run: string -> Execution, round: Float -> Float, pick: int, fallbackPick: int, v: Verdict)
    requires sqls != [] && IsVote(sqls, run, round, pick, fallbackPick, v)
    requires var ok := Successful(Results(sqls, run, round)); |ok| >= 2 && !Repeats(ok)
    ensures var ok := Successful(Results(sqls, run, round));
      v.sql == ok[if 0 <= pick < |ok| then pick else 0].sql && v.data == OfCandidate(run(v.sql).rows)
  {
  }

  /** With no executed candidate it decides among all of them. */
  lemma FallbackFollowsModel(sqls: seq<string>, run: string -> Execution, round: Float -> Float, pick: int, fallbackPick: int, v: Verdict)
    requires sqls != [] && IsVote(sqls, run, round, pick, fallbackPick, v)
    requires forall s :: s in sqls ==> !run(s).success
    ensures v.sql == sqls[if 0 <= fallbackPick < |sqls| then fallbackPick else 0] && v.data == NoData
  {
    VoteIsSound(sqls, run, round, pick, fallbackPick, v);
    SuccessfulAre(sqls, run, round, Results(sqls, run, round));
  }

  // ---- who wins, told by the candidates ----

  /** The executed candidates, in the order of all candidates, each once and none left out. */
  lemma {:induction false} SuccessfulInOrder(results: seq<Result>) returns (at: seq<nat>)
    ensures |at| == |Successful(results)|
    ensures forall i :: 0 <= i < |at| ==> at[i] < |results| && Successful(results)[i] == results[at[i]]
    ensures forall i, j :: 0 <= i < j < |at| ==> at[i] < at[j]
    ensures forall k: nat :: k < |results| && results[k].run.success ==> k in at
  {
    if results == [] {
      at := [];
    } else {
      var n := |results| - 1;
      var init := SuccessfulInOrder(results[..n]);
      at := init + if results[n].run.success then [n] else [];
      forall k: nat | k < |results| && results[k].run.success ensures k in at {
        if k < n {
          assert results[..n][k] == results[k] && k in init;
        } else {
          assert at[|at| - 1] == n;
        }
      }
    }
  }

  /** How many executed candidates gave this hash. */
  function VotesFor(results: seq<Result>, hash: seq<Row>): nat {
    if results == [] then 0
    else
      var last := results[|results| - 1];
      VotesFor(results[..|results| - 1], hash) + if last.run.success && Hash(last) == hash then 1 else 0
  }

  lemma {:induction false} CountOfSuccessful(results: seq<Result>, hash: seq<Row>)
    ensures Count(Successful(results), hash) == VotesFor(results, hash)
  {
    if results != [] {
      var n := |results| - 1;
      CountOfSuccessful(results[..n], hash);
      CountAppend(Successful(results[..n]), results[n], hash);
      assert Successful(results[..n]) + [] == Successful(results[..n]);
    }
  }

  lemma CountAppend(results: seq<Result>, r: Result, hash: seq<Row>)
    ensures Count(results + [r], hash) == Count(results, hash) + if Hash(r) == hash then 1 else 0
  {
    assert (results + [r])[..|results|] == results;
  }

  /** The winner of a majority, told by the candidates: no executed candidate's result was given more often,
      and none given as often was there earlier. */
  lemma MajorityIsEarliest(results: seq<Result>, w: nat) returns (at: nat)
    requires IsMajority(Successful(results), w)
    ensures at < |results| && results[at] == Successful(results)[w] && results[at].run.success
    ensures forall k: nat :: k < |results| && results[k].run.success ==>
      var mine, best := VotesFor(results, Hash(results[k])), VotesFor(results, Hash(results[at]));
      mine < best || (mine == best && at <= k)
  {
    var ok := Successful(results);
    var places := SuccessfulInOrder(results);
    at := places[w];
    CountOfSuccessful(results, Hash(results[at]));
    assert ok[w] in ok;
    SuccessfulOnly(results);
    forall k: nat | k < |results| && results[k].run.success
      ensures var mine, best := VotesFor(results, Hash(results[k])), VotesFor(results, Hash(results[at]));
        mine < best || (mine == best && at <= k)
    {
      CountOfSuccessful(results, Hash(results[k]));
      var j :| 0 <= j < |places| && places[j] == k;
      assert Count(ok, Hash(ok[j])) <= Count(ok, Hash(ok[w]));
    }
  }

  lemma {:induction false} SuccessfulOnly(results: seq<Result>)
    ensures forall r :: r in Successful(results) ==> r.run.success
  {
    if results != [] {
      SuccessfulOnly(results[..|results| - 1]);
    }
  }
}

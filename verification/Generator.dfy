/** Candidate generation of agent/nodes/generator.py.  What the model answers at each
    temperature is a parameter, as is the whitespace and case normalization. */
module Generator {

  /** One call: an exception, or the SQL extracted from the answer (possibly empty). */
  datatype Reply = Error | Answer(sql: string)
  datatype Generated = Raised | Candidates(sqls: seq<string>)

  predicate Seen(sqls: seq<string>, sql: string, norm: string -> string) {
    exists i :: 0 <= i < |sqls| && norm(sqls[i]) == norm(sql)
  }

  /** The non-empty answers, each normal form once, in order. */
  function Distinct(replies: seq<Reply>, norm: string -> string): seq<string> {
    if replies == [] then []
    else
      var sqls, last := Distinct(replies[..|replies| - 1], norm), replies[|replies| - 1];
      if last.Error? || last.sql == "" || Seen(sqls, last.sql, norm) then sqls else sqls + [last.sql]
  }

  /** The third temperature is skipped when the second answer repeats the first. */
  predicate StopsEarly(replies: seq<Reply>, norm: string -> string)
    requires |replies| == 3
  {
    replies[1].Answer? && replies[1].sql != "" && Seen(Distinct(replies[..1], norm), replies[1].sql, norm)
  }

  function Asked(replies: seq<Reply>, norm: string -> string): nat
    requires |replies| == 3
  {
    if StopsEarly(replies, norm) then 2 else 3
  }

  /** The multi-candidate loop of `generator_node`. */
  method GenerateMulti(replies: seq<Reply>, norm: string -> string) returns (out: Generated)
    requires |replies| == 3
    ensures replies[0].Error? ==> out == Raised
    ensures !replies[0].Error? ==> out == Candidates(Distinct(replies[..Asked(replies, norm)], norm))
  {
    var candidates: seq<string> := [];
    for i := 0 to 3
      invariant candidates == Distinct(replies[..i], norm)
      invariant i > 0 ==> !replies[0].Error?
      invariant i > 1 ==> !StopsEarly(replies, norm)
    {
      assert replies[..i + 1][..i] == replies[..i];
      if replies[i].Error? {
        if i == 0 {
          return Raised;
        }
        continue;
      }
      var sql := replies[i].sql;
      if sql == "" {
        continue;
      }
      var isDup := Seen(candidates, sql, norm);
      if !isDup {
        candidates := candidates + [sql];
      }
      if |candidates| >= 1 && i == 1 && isDup {
        break;
      }
    }
    out := Candidates(candidates);
    assert replies[..3] == replies;
  }

  ghost predicate PairwiseDifferent(sqls: seq<string>, norm: string -> string) {
    forall i, j :: 0 <= i < j < |sqls| ==> norm(sqls[i]) != norm(sqls[j])
  }

  /** The candidates are non-empty and pairwise different in normal form; every answer asked for
      is represented by one. */
  lemma {:induction false} CandidatesAreDistinct(replies: seq<Reply>, norm: string -> string)
    ensures PairwiseDifferent(Distinct(replies, norm), norm)
    ensures forall i :: 0 <= i < |Distinct(replies, norm)| ==> Distinct(replies, norm)[i] != ""
    ensures forall i :: 0 <= i < |replies| && replies[i].Answer? && replies[i].sql != "" ==>
      Seen(Distinct(replies, norm), replies[i].sql, norm)
  {
    if replies != [] {
      var n := |replies| - 1;
      CandidatesAreDistinct(replies[..n], norm);
      var before, after := Distinct(replies[..n], norm), Distinct(replies, norm);
      forall i | 0 <= i < |replies| && replies[i].Answer? && replies[i].sql != ""
        ensures Seen(after, replies[i].sql, norm)
      {
        if i < n {
          assert replies[..n][i] == replies[i];
          var j :| 0 <= j < |before| && norm(before[j]) == norm(replies[i].sql);
          assert after[j] == before[j];
        } else if after != before {
          assert after[|before|] == replies[n].sql;
        }
      }
    }
  }

  /** Stopping early loses a candidate exactly when the unasked answer would have been new. */
  lemma EarlyStopLosesIff(replies: seq<Reply>, norm: string -> string)
    requires |replies| == 3
    ensures Distinct(replies[..Asked(replies, norm)], norm) != Distinct(replies, norm)
      <==> StopsEarly(replies, norm) && replies[2].Answer? && replies[2].sql != ""
           && !Seen(Distinct(replies[..2], norm), replies[2].sql, norm)
  {
    assert replies[..3] == replies;
  }

  /** What the voter is handed: the candidates, or the single SQL when there are none. */
  function VoterInput(sql: string, candidates: seq<string>): seq<string> {
    if candidates != [] then candidates else [sql]
  }

  lemma VoterInputDistinct(sql: string, replies: seq<Reply>, norm: string -> string)
    ensures var input := VoterInput(sql, Distinct(replies, norm));
      input != [] && forall i, j :: 0 <= i < j < |input| ==> input[i] != input[j]
  {
    CandidatesAreDistinct(replies, norm);
    var input := VoterInput(sql, Distinct(replies, norm));
    forall i, j | 0 <= i < j < |input| ensures input[i] != input[j] {
      assert norm(input[i]) != norm(input[j]);
    }
  }

  /** Where the candidates come from. */
  ghost predicate FirstAnswers(replies: seq<Reply>, norm: string -> string, at: seq<nat>) {
    && (forall i, j :: 0 <= i < j < |at| ==> at[i] < at[j])
    && (forall i :: 0 <= i < |at| ==> at[i] < |replies| && replies[at[i]].Answer? && replies[at[i]].sql != "")
    && forall i, j :: 0 <= i < |at| && 0 <= j < at[i] && replies[j].Answer? && replies[j].sql != "" ==>
         norm(replies[j].sql) != norm(replies[at[i]].sql)
  }

  predicate Answers(reply: Reply) { reply.Answer? && reply.sql != "" }

  lemma FirstAnswersLast(replies: seq<Reply>, norm: string -> string, at: seq<nat>)
    requires replies != [] && FirstAnswers(replies[..|replies| - 1], norm, at)
    ensures FirstAnswers(replies, norm, at)
  {
    var init := replies[..|replies| - 1];
    assert forall j :: 0 <= j < |init| ==> init[j] == replies[j];
  }

  lemma FirstAnswersMore(replies: seq<Reply>, norm: string -> string, at: seq<nat>)
    requires replies != [] && FirstAnswers(replies, norm, at) && forall i :: 0 <= i < |at| ==> at[i] < |replies| - 1
    requires var last := replies[|replies| - 1];
      Answers(last) && forall j :: 0 <= j < |replies| - 1 && Answers(replies[j]) ==> norm(replies[j].sql) != norm(last.sql)
    ensures FirstAnswers(replies, norm, at + [|replies| - 1])
  {
  }

  /** The candidates are the first answers of their normal forms, in the order of the replies. */
  lemma {:induction false} CandidatesInOrder(replies: seq<Reply>, norm: string -> string) returns (at: seq<nat>)
    ensures |at| == |Distinct(replies, norm)| && FirstAnswers(replies, norm, at)
    ensures forall i :: 0 <= i < |at| ==> at[i] < |replies| && Distinct(replies, norm)[i] == SqlOf(replies[at[i]])
  {
    if replies == [] {
      at := [];
    } else {
      var n := |replies| - 1;
      at := CandidatesInOrder(replies[..n], norm);
      FirstAnswersLast(replies, norm, at);
      var last := replies[n];
      if Answers(last) && !Seen(Distinct(replies[..n], norm), last.sql, norm) {
        forall j | 0 <= j < n && Answers(replies[j]) ensures norm(replies[j].sql) != norm(last.sql) {
          CandidatesAreDistinct(replies[..n], norm);
          assert replies[..n][j] == replies[j] && Seen(Distinct(replies[..n], norm), replies[j].sql, norm);
        }
        hide FirstAnswers;
        FirstAnswersMore(replies, norm, at);
        at := at + [n];
      } else {
        hide FirstAnswers;
      }
    }
  }

  function SqlOf(reply: Reply): string { if reply.Answer? then reply.sql else "" }

  /** The third temperature is skipped if and only if the first two both answered, with the same normal form. */
  lemma StopsEarlyIff(replies: seq<Reply>, norm: string -> string)
    requires |replies| == 3
    ensures StopsEarly(replies, norm) <==>
      Answers(replies[0]) && Answers(replies[1]) && norm(replies[0].sql) == norm(replies[1].sql)
  {
    var first := Distinct(replies[..1], norm);
    OneReply(replies[0], norm);
    assert replies[..1] == [replies[0]];
    if Answers(replies[0]) {
      assert norm(first[0]) == norm(replies[0].sql);
    }
  }

  lemma OneReply(reply: Reply, norm: string -> string)
    ensures Distinct([reply], norm) == if Answers(reply) then [reply.sql] else []
  {
    assert [reply][..0] == [] && Distinct([], norm) == [];
  }

  // ---- what the guard looks at and what the voter executes ----

  /** The SQL of the state: the first candidate. */
  function Primary(candidates: seq<string>): string { if candidates == [] then "" else candidates[0] }

  /** The guard checks the primary SQL only; when it passes, the voter executes all candidates. */
  function Executed(candidates: seq<string>, guard: string -> bool): seq<string> {
    if guard(Primary(candidates)) then VoterInput(Primary(candidates), candidates) else []
  }

  ghost predicate AllGuarded(candidates: seq<string>, guard: string -> bool) {
    forall sql :: sql in Executed(candidates, guard) ==> guard(sql)
  }

  /** Every executed SQL has passed the guard if and only if the first candidate fails it or all pass. */
  lemma AllGuardedIff(candidates: seq<string>, guard: string -> bool)
    ensures AllGuarded(candidates, guard) <==>
      (guard(Primary(candidates)) ==> forall sql :: sql in candidates ==> guard(sql))
  {
    if candidates != [] {
      assert Primary(candidates) in candidates;
    }
  }

  /** Whatever the guard rejects, no unchecked SQL is executed if and only if there is one candidate at
      most: of two, the guard can accept the first and would reject the second. */
  lemma GuardCoversIff(replies: seq<Reply>, norm: string -> string)
    ensures var candidates := Distinct(replies, norm);
      (forall guard :: AllGuarded(candidates, guard)) <==> |candidates| <= 1
  {
    var candidates := Distinct(replies, norm);
    CandidatesAreDistinct(replies, norm);
    if |candidates| <= 1 {
      forall guard: string -> bool ensures AllGuarded(candidates, guard) {
        AllGuardedIff(candidates, guard);
      }
    } else {
      var guard := (sql: string) => sql == candidates[0];
      assert norm(candidates[0]) != norm(candidates[1]);
      assert candidates[1] in Executed(candidates, guard);
      assert !AllGuarded(candidates, guard);
    }
  }
}

/** The semantic check of agent/nodes/semantic_check.py: reject counter and escape hatch.  The
    model's answer and the SQL normalization are parameters. */
module SemanticCheck {

  /** How the model's answer begins, or that asking it failed. */
  datatype Answer = Yes | No | Unclear | LlmError

  /** `_sem_last_rejected_sql` and `_sem_reject_count`. */
  datatype Memory = Memory(lastRejected: string, rejectCount: nat)

  const FRESH: Memory := Memory("", 0)

  datatype Call = Call(question: string, sql: string, answer: Answer)

  predicate Escapes(m: Memory, sql: string, norm: string -> string) {
    norm(sql) == m.lastRejected && m.rejectCount >= 2
  }

  /** Whether the call gets as far as a verdict of the model. */
  predicate Judged(m: Memory, c: Call, norm: string -> string) {
    c.sql != "" && c.question != "" && !Escapes(m, c.sql, norm) && !c.answer.LlmError?
  }

  predicate Passes(m: Memory, c: Call, norm: string -> string) {
    Judged(m, c, norm) ==> c.answer.Yes?
  }

  /** The memory after the node: only a verdict changes it. */
  function After(m: Memory, c: Call, norm: string -> string): Memory {
    if !Judged(m, c, norm) then m
    else if c.answer.Yes? then Memory("", 0)
    else Memory(norm(c.sql), if norm(c.sql) == m.lastRejected then m.rejectCount + 1 else 1)
  }

  // ---- runs of the node ----

  datatype Verdict = Verdict(sql: string, passed: bool)
  datatype History = History(memory: Memory, log: seq<Verdict>)

  /** One more call. */
  function Extended(h: History, c: Call, norm: string -> string): History {
    History(After(h.memory, c, norm),
            if Judged(h.memory, c, norm) then h.log + [Verdict(norm(c.sql), c.answer.Yes?)] else h.log)
  }

  /** The memory and the log of all verdicts after a sequence of calls. */
  function RunChecks(calls: seq<Call>, norm: string -> string): History {
    if calls == [] then History(FRESH, [])
    else Extended(RunChecks(calls[..|calls| - 1], norm), calls[|calls| - 1], norm)
  }

  /** How many rejections of `sql` end the log. */
  function Trailing(log: seq<Verdict>, sql: string): nat {
    if log == [] || log[|log| - 1].passed || log[|log| - 1].sql != sql then 0
    else 1 + Trailing(log[..|log| - 1], sql)
  }

  ghost predicate NeverThrice(log: seq<Verdict>) {
    forall i :: 0 <= i < |log| - 2 ==>
      log[i].passed || log[i + 1].passed || log[i + 2].passed
      || log[i].sql != log[i + 1].sql || log[i + 1].sql != log[i + 2].sql
  }

  /** The memory describes the end of the log. */
  ghost predicate Remembers(h: History) {
    && h.memory.rejectCount == Trailing(h.log, h.memory.lastRejected) <= 2
    && (h.log != [] && !h.log[|h.log| - 1].passed ==> h.log[|h.log| - 1].sql == h.memory.lastRejected)
  }

  lemma ExtendedRemembers(h: History, c: Call, norm: string -> string)
    requires Remembers(h)
    ensures Remembers(Extended(h, c, norm))
    ensures Judged(h.memory, c, norm) && !c.answer.Yes? ==> Trailing(h.log, norm(c.sql)) < 2
  {
    var h' := Extended(h, c, norm);
    if Judged(h.memory, c, norm) {
      assert h'.log[..|h.log|] == h.log;
      if norm(c.sql) != h.memory.lastRejected {
        assert Trailing(h.log, norm(c.sql)) == 0;
      }
    }
  }

  lemma ExtendedNeverThrice(h: History, v: Verdict)
    requires NeverThrice(h.log) && (v.passed || Trailing(h.log, v.sql) < 2)
    ensures NeverThrice(h.log + [v])
  {
    if !v.passed && |h.log| >= 2 {
      TrailingTwo(h.log, v.sql);
    }
  }

  /** Over runs of any length the counter is the number of trailing rejections of the remembered
      SQL, it never exceeds two, and nothing is rejected three times in a row. */
  lemma {:induction false} CounterCountsRejections(calls: seq<Call>, norm: string -> string)
    ensures Remembers(RunChecks(calls, norm)) && NeverThrice(RunChecks(calls, norm).log)
  {
    if calls != [] {
      var h, c := RunChecks(calls[..|calls| - 1], norm), calls[|calls| - 1];
      CounterCountsRejections(calls[..|calls| - 1], norm);
      ExtendedRemembers(h, c, norm);
      if Judged(h.memory, c, norm) {
        ExtendedNeverThrice(h, Verdict(norm(c.sql), c.answer.Yes?));
      }
    }
  }

  lemma TrailingTwo(log: seq<Verdict>, sql: string)
    requires |log| >= 2 && Trailing(log, sql) < 2
    ensures var a, b := log[|log| - 2], log[|log| - 1];
      a.passed || b.passed || a.sql != b.sql || b.sql != sql
  {
    assert Trailing(log, sql) == 0 || Trailing(log[..|log| - 1], sql) == 0;
  }

  /** The escape hatch opens exactly for the SQL whose last two verdicts were rejections. */
  lemma EscapesIffTwiceRejected(calls: seq<Call>, sql: string, norm: string -> string)
    ensures Escapes(RunChecks(calls, norm).memory, sql, norm)
       <==> Trailing(RunChecks(calls, norm).log, norm(sql)) == 2
  {
    CounterCountsRejections(calls, norm);
    var h := RunChecks(calls, norm);
    if norm(sql) != h.memory.lastRejected {
      assert Trailing(h.log, norm(sql)) == 0;
    }
  }

  /** Which calls get a verdict, and what it is: none for an empty SQL or question, an SQL rejected twice in
      a row just before, or a model that fails; of the others, only YES is a pass. */
  lemma VerdictIs(calls: seq<Call>, c: Call, norm: string -> string)
    ensures var h := RunChecks(calls, norm); var log := Extended(h, c, norm).log;
      var skipped := c.sql == "" || c.question == "" || c.answer == LlmError || Trailing(h.log, norm(c.sql)) == 2;
      log == h.log + (if skipped then [] else [Verdict(norm(c.sql), c.answer == Yes)])
  {
    EscapesIffTwiceRejected(calls, c.sql, norm);
  }

  /** A call passes if and only if the model says YES or there is no verdict; with a verdict it passes if
      and only if the verdict is a pass. */
  lemma PassesIff(calls: seq<Call>, c: Call, norm: string -> string)
    ensures var h := RunChecks(calls, norm); var log := Extended(h, c, norm).log;
      && (Passes(h.memory, c, norm) <==>
            || c.answer == Yes || c.sql == "" || c.question == "" || c.answer == LlmError
            || Trailing(h.log, norm(c.sql)) == 2)
      && (Passes(h.memory, c, norm) <==> log == h.log || log[|log| - 1].passed)
  {
    EscapesIffTwiceRejected(calls, c.sql, norm);
    var h := RunChecks(calls, norm);
    if Judged(h.memory, c, norm) {
      assert |Extended(h, c, norm).log| == |h.log| + 1;
    }
  }
}

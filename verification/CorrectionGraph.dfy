/** The self-correcting pipelines of agent/graphs/full_graph.py and feedback_graph.py: the
    routing, the retry counter and the loop through generator, guard, voter, semantic check and
    refiner.  What the nodes decide in each round is a parameter. */
module CorrectionGraph {
  import Cells
  import SemanticCheck
  import Voter
  import VoteHash

  datatype Node =
    | Router | SchemaRetriever | Decomposer | FewshotSelector
    | Generator | Guard | VoterNode | SemanticCheckNode | Refiner | PostRefiner

  /** What one round brings: the guard's verdict, the voter's outcome, and the model's semantic
      answer. */
  datatype Round = Round(guardPass: bool, vote: Voter.Outcome, answer: SemanticCheck.Answer)

  /** A request; rounds are numbered by the retry counter the generator sees. */
  datatype Request = Request(
    question: string, maxRetries: nat, decompose: bool, norm: string -> string, round: nat -> Round)

  /** What the voter can answer at all. */
  ghost predicate FromVoter(o: Voter.Outcome) {
    || (exists sqls, run, round, p, q :: sqls != [] && Voter.IsOutcome(sqls, run, round, p, q, o))
    || (exists sqls, sql, p :: sqls != [] && o == Voter.Voted(Voter.VoterOffline(sqls, sql, p)))
  }

  ghost predicate Realistic(r: Request) {
    forall k :: FromVoter(r.round(k).vote)
  }

  /** A node that raises ends the run without a result. */
  datatype Place = At(node: Node) | End | Crashed

  datatype State = State(place: Place, retry: nat, memory: SemanticCheck.Memory)

  /** The SQL the voter put into the state; a round whose voter raises has none. */
  function SqlOf(r: Request, retry: nat): string {
    match r.round(retry).vote
    case Voted(v) => v.sql
    case Raised => ""
  }

  predicate Succeeds(o: Voter.Outcome) { o.Voted? && o.verdict.success }

  function CallOf(r: Request, retry: nat): SemanticCheck.Call {
    SemanticCheck.Call(r.question, SqlOf(r, retry), r.round(retry).answer)
  }

  predicate Accepts(r: Request, s: State) {
    SemanticCheck.Passes(s.memory, CallOf(r, s.retry), r.norm)
  }

  /** One node, then its outgoing edge. */
  function Step(r: Request, s: State): State
    requires s.place.At?
  {
    match s.place.node
    case Router => s.(place := At(SchemaRetriever))
    case SchemaRetriever => s.(place := At(if r.decompose then Decomposer else FewshotSelector))
    case Decomposer => s.(place := At(FewshotSelector))
    case FewshotSelector => s.(place := At(Generator))
    case Generator => s.(place := At(Guard))
    case Guard => s.(place := At(if r.round(s.retry).guardPass then VoterNode else Refiner))
    case VoterNode =>
      s.(place := match r.round(s.retry).vote
                  case Voted(v) => At(if v.success then SemanticCheckNode else Refiner)
                  case Raised => Crashed)
    case SemanticCheckNode =>
      State(if Accepts(r, s) then End else At(Refiner), s.retry,
            SemanticCheck.After(s.memory, CallOf(r, s.retry), r.norm))
    case Refiner => s.(place := At(PostRefiner))
    case PostRefiner =>
      s.(place := if s.retry + 1 > r.maxRetries then End else At(Generator), retry := s.retry + 1)
  }

  /** How far a node is from the end of its round. */
  function Rank(n: Node): nat {
    match n
    case Router => 10 case SchemaRetriever => 9 case Decomposer => 8 case FewshotSelector => 7
    case Generator => 6 case Guard => 5 case VoterNode => 4 case SemanticCheckNode => 3
    case Refiner => 2 case PostRefiner => 1
  }

  /** The most nodes that can still be visited. */
  function Budget(r: Request, s: State): nat
    requires s.retry <= r.maxRetries || !s.place.At?
  {
    if !s.place.At? then 0 else 6 * (r.maxRetries - s.retry) + Rank(s.place.node)
  }

  datatype Run = Run(trace: seq<Node>, final: State)

  function RunFrom(r: Request, s: State): Run
    requires s.retry <= r.maxRetries || !s.place.At?
    decreases Budget(r, s)
  {
    if !s.place.At? then Run([], s)
    else
      var rest := RunFrom(r, Step(r, s));
      Run([s.place.node] + rest.trace, rest.final)
  }

  function FullGraph(r: Request): Run { RunFrom(r, State(At(Router), 0, SemanticCheck.FRESH)) }

  /** The feedback graph is the same loop, entered at the refiner. */
  function FeedbackGraph(r: Request): Run { RunFrom(r, State(At(Refiner), 0, SemanticCheck.FRESH)) }

  function Generations(trace: seq<Node>): nat {
    if trace == [] then 0 else (if trace[0] == Generator then 1 else 0) + Generations(trace[1..])
  }

  /** How often the generator can still run. */
  function GenerationsLeft(r: Request, s: State): int {
    if !s.place.At? then 0
    else r.maxRetries - s.retry + if Rank(s.place.node) >= Rank(Generator) then 1 else 0
  }

  lemma {:induction false} RunIsBounded(r: Request, s: State)
    requires s.retry <= r.maxRetries || !s.place.At?
    ensures |RunFrom(r, s).trace| <= Budget(r, s)
    ensures Generations(RunFrom(r, s).trace) <= GenerationsLeft(r, s)
    decreases Budget(r, s)
  {
    if s.place.At? {
      RunIsBounded(r, Step(r, s));
      var rest := RunFrom(r, Step(r, s)).trace;
      assert ([s.place.node] + rest)[1..] == rest;
    }
  }

  /** For every sequence of verdicts: generator runs and node visits of both graphs. */
  lemma LoopsAreBounded(r: Request)
    ensures Generations(FullGraph(r).trace) <= r.maxRetries + 1
    ensures |FullGraph(r).trace| <= 4 + 6 * (r.maxRetries + 1)
    ensures Generations(FeedbackGraph(r).trace) <= r.maxRetries
    ensures |FeedbackGraph(r).trace| <= 6 * r.maxRetries + 2
  {
    RunIsBounded(r, State(At(Router), 0, SemanticCheck.FRESH));
    RunIsBounded(r, State(At(Refiner), 0, SemanticCheck.FRESH));
  }

  /** The voter of a round raises. */
  predicate RaisesIn(r: Request, retry: nat) { r.round(retry).guardPass && r.round(retry).vote.Raised? }

  /** A run ends in one of three ways: in the semantic check, passed in the round it ended in; in the
      refiner's counter node with the retries used up; or in the voter of its last round, which
      raised. */
  lemma {:induction false} EndMeans(r: Request, s: State)
    requires s.place.At? && s.retry <= r.maxRetries
    ensures var run := RunFrom(r, s); var k := run.final.retry;
      && run.trace != []
      && match run.trace[|run.trace| - 1]
         case VoterNode => run.final.place.Crashed? && k <= r.maxRetries && r.round(k).vote.Raised?
         case PostRefiner => run.final.place.End? && k == r.maxRetries + 1
         case SemanticCheckNode =>
           && run.final.place.End? && k <= r.maxRetries
           && exists m :: SemanticCheck.Passes(m, CallOf(r, k), r.norm)
                          && run.final.memory == SemanticCheck.After(m, CallOf(r, k), r.norm)
         case _ => false
    decreases Budget(r, s)
  {
    var next := Step(r, s);
    if next.place.At? {
      EndMeans(r, next);
    } else if s.place.node == SemanticCheckNode {
      assert SemanticCheck.Passes(s.memory, CallOf(r, s.retry), r.norm);
    }
  }

  // ---- how a run ends, told by the rounds alone ----

  /** What the semantic check remembers before round k of a loop whose first round is `first`. */
  function MemoryAt(r: Request, first: nat, k: nat): SemanticCheck.Memory {
    if k <= first then SemanticCheck.FRESH
    else
      var m := MemoryAt(r, first, k - 1);
      if r.round(k - 1).guardPass && Succeeds(r.round(k - 1).vote)
      then SemanticCheck.After(m, CallOf(r, k - 1), r.norm)
      else m
  }

  /** Round k is checked and passed. */
  predicate PassesIn(r: Request, first: nat, k: nat) {
    r.round(k).guardPass && Succeeds(r.round(k).vote) && SemanticCheck.Passes(MemoryAt(r, first, k), CallOf(r, k), r.norm)
  }

  /** Round k sends the loop to the refiner: it fails the guard, or the voter, or the semantic check. */
  predicate GoesOn(r: Request, first: nat, k: nat) { !RaisesIn(r, k) && !PassesIn(r, first, k) }

  /** All rounds from `first` up to k go on. */
  predicate GoesOnUpTo(r: Request, first: nat, k: nat) {
    forall j :: first <= j < k ==> GoesOn(r, first, j)
  }

  function AtRound(r: Request, first: nat, k: nat): State { State(At(Generator), k, MemoryAt(r, first, k)) }

  /** One round of the loop. */
  lemma OneRound(r: Request, first: nat, k: nat)
    requires first <= k <= r.maxRetries
    ensures RunFrom(r, AtRound(r, first, k)).final ==
      if RaisesIn(r, k) then State(Crashed, k, MemoryAt(r, first, k))
      else if PassesIn(r, first, k) then State(End, k, MemoryAt(r, first, k + 1))
      else if k < r.maxRetries then RunFrom(r, AtRound(r, first, k + 1)).final
      else State(End, k + 1, MemoryAt(r, first, k + 1))
  {
    var s0 := AtRound(r, first, k);
    var s1 := Step(r, s0);
    var s2 := Step(r, s1);
    Moves(r, s0);
    Moves(r, s1);
    if s2.place == At(VoterNode) {
      Moves(r, s2);
      var s3 := Step(r, s2);
      if s3.place == At(SemanticCheckNode) {
        Moves(r, s3);
        if !PassesIn(r, first, k) {
          RefinedRound(r, Step(r, s3), first, k);
        }
      } else if s3.place == At(Refiner) {
        RefinedRound(r, s3, first, k);
      }
    } else {
      RefinedRound(r, s2, first, k);
    }
  }

  lemma Moves(r: Request, s: State)
    requires s.place.At? && s.retry <= r.maxRetries
    ensures RunFrom(r, s).final == RunFrom(r, Step(r, s)).final
    ensures RunFrom(r, s).trace == [s.place.node] + RunFrom(r, Step(r, s)).trace
  {
  }

  lemma RefinedRound(r: Request, s: State, first: nat, k: nat)
    requires first <= k <= r.maxRetries && s == State(At(Refiner), k, MemoryAt(r, first, k + 1))
    ensures RunFrom(r, s).final ==
      if k < r.maxRetries then RunFrom(r, AtRound(r, first, k + 1)).final else State(End, k + 1, MemoryAt(r, first, k + 1))
  {
    Moves(r, s);
    Moves(r, Step(r, s));
  }

  /** The round a loop stops in is the first that does not go on. */
  lemma {:induction false} LoopEnds(r: Request, first: nat, k: nat)
    requires first <= k <= r.maxRetries && GoesOnUpTo(r, first, k)
    ensures var final := RunFrom(r, AtRound(r, first, k)).final; var n := final.retry;
      && k <= n <= r.maxRetries + 1 && GoesOnUpTo(r, first, n)
      && final.place == (if n <= r.maxRetries && RaisesIn(r, n) then Crashed else End)
      && (n <= r.maxRetries ==> !GoesOn(r, first, n))
    decreases r.maxRetries - k
  {
    OneRound(r, first, k);
    if GoesOn(r, first, k) && k < r.maxRetries {
      LoopEnds(r, first, k + 1);
    }
  }

  lemma FirstToStop(r: Request, first: nat, k: nat, n: nat)
    requires first <= k <= r.maxRetries && first <= n && GoesOnUpTo(r, first, k) && GoesOnUpTo(r, first, n)
    requires !GoesOn(r, first, k) && (n <= r.maxRetries ==> !GoesOn(r, first, n))
    ensures k == n
  {
  }

  /** The voter of round k raises, and all rounds before go on. */
  ghost predicate CrashesAt(r: Request, first: nat, k: nat) {
    first <= k <= r.maxRetries && RaisesIn(r, k) && GoesOnUpTo(r, first, k)
  }

  /** Round k passes, and all rounds before go on. */
  ghost predicate PassesAt(r: Request, first: nat, k: nat) {
    first <= k <= r.maxRetries && PassesIn(r, first, k) && GoesOnUpTo(r, first, k)
  }

  /** The loop crashes in round k if and only if the voter raises there and all rounds before go on; it
      ends with a pass of round k if and only if that round passes and all before go on; and it uses up
      the retries if and only if every round goes on. */
  ghost predicate EndsByRounds(r: Request, first: nat, final: State) {
    && (forall k: nat :: CrashesAt(r, first, k) <==> final.place.Crashed? && final.retry == k)
    && (forall k: nat :: PassesAt(r, first, k) <==> final.place.End? && final.retry == k <= r.maxRetries)
    && (GoesOnUpTo(r, first, r.maxRetries + 1) <==> final.place.End? && final.retry == r.maxRetries + 1)
  }

  lemma LoopEndsByRounds(r: Request, first: nat)
    requires first <= r.maxRetries
    ensures EndsByRounds(r, first, RunFrom(r, AtRound(r, first, first)).final)
  {
    LoopEnds(r, first, first);
    var final := RunFrom(r, AtRound(r, first, first)).final;
    hide RunFrom, RaisesIn, PassesIn;
    forall k: nat | CrashesAt(r, first, k) || PassesAt(r, first, k) ensures k == final.retry {
      FirstToStop(r, first, k, final.retry);
    }
  }

  /** Both graphs, for every request: how the run ends is told by what the rounds bring.  The feedback
      graph begins with round 1, as its first node is the refiner. */
  lemma EndsIff(r: Request)
    ensures EndsByRounds(r, 0, FullGraph(r).final)
    ensures EndsByRounds(r, 1, FeedbackGraph(r).final)
  {
    EntersLoop(r);
    LoopEndsByRounds(r, 0);
    if r.maxRetries > 0 {
      LoopEndsByRounds(r, 1);
    }
  }

  lemma EntersLoop(r: Request)
    ensures FullGraph(r).final == RunFrom(r, AtRound(r, 0, 0)).final
    ensures FeedbackGraph(r).final ==
      if r.maxRetries > 0 then RunFrom(r, AtRound(r, 1, 1)).final else State(End, 1, SemanticCheck.FRESH)
  {
    var s := State(At(Router), 0, SemanticCheck.FRESH);
    var s' := Step(r, Step(r, s));
    Moves(r, s);
    Moves(r, Step(r, s));
    Moves(r, s');
    if s'.place == At(Decomposer) {
      Moves(r, Step(r, s'));
    }
    var f := State(At(Refiner), 0, SemanticCheck.FRESH);
    Moves(r, f);
    Moves(r, Step(r, f));
  }

  /** A run crashes if and only if in some round the voter raises and every round before it fails the guard
      or is rejected. */
  lemma CrashesIff(r: Request)
    ensures FullGraph(r).final.place.Crashed? <==> exists k: nat :: CrashesAt(r, 0, k)
    ensures FeedbackGraph(r).final.place.Crashed? <==> exists k: nat :: CrashesAt(r, 1, k)
  {
    EndsIff(r);
    hide FullGraph, FeedbackGraph, CrashesAt;
    assert FullGraph(r).final.place.Crashed? ==> CrashesAt(r, 0, FullGraph(r).final.retry);
    assert FeedbackGraph(r).final.place.Crashed? ==> CrashesAt(r, 1, FeedbackGraph(r).final.retry);
  }

  /** The calls of the semantic check before round k. */
  function CallsBefore(r: Request, first: nat, k: nat): seq<SemanticCheck.Call> {
    if k <= first then []
    else CallsBefore(r, first, k - 1) + if r.round(k - 1).guardPass && Succeeds(r.round(k - 1).vote) then [CallOf(r, k - 1)] else []
  }

  lemma {:induction false} MemoryIsOfCalls(r: Request, first: nat, k: nat)
    ensures MemoryAt(r, first, k) == SemanticCheck.RunChecks(CallsBefore(r, first, k), r.norm).memory
  {
    if k > first {
      MemoryIsOfCalls(r, first, k - 1);
      var before, calls := CallsBefore(r, first, k - 1), CallsBefore(r, first, k);
      assert calls != before ==> calls[..|calls| - 1] == before;
    }
  }

  /** No verdict is asked for in round k: nothing to judge, a model that fails, or an SQL that the last two
      verdicts of this run rejected. */
  predicate NoVerdictIn(r: Request, first: nat, k: nat) {
    || SqlOf(r, k) == "" || r.question == "" || r.round(k).answer == SemanticCheck.LlmError
    || SemanticCheck.Trailing(SemanticCheck.RunChecks(CallsBefore(r, first, k), r.norm).log, r.norm(SqlOf(r, k))) == 2
  }

  /** A round that gets as far as the semantic check passes if and only if the model says YES to it or gives
      no verdict. */
  lemma PassesInIff(r: Request, first: nat, k: nat)
    ensures PassesIn(r, first, k) <==>
      r.round(k).guardPass && Succeeds(r.round(k).vote) && (r.round(k).answer == SemanticCheck.Yes || NoVerdictIn(r, first, k))
  {
    MemoryIsOfCalls(r, first, k);
    SemanticCheck.PassesIff(CallsBefore(r, first, k), CallOf(r, k), r.norm);
  }

  /** So a run that ends without a crash and before its retries are used up had YES in its last round, or no
      verdict there. */
  lemma EndsWithYes(r: Request)
    ensures var final := FullGraph(r).final;
      final.place.End? && final.retry <= r.maxRetries ==>
        r.round(final.retry).answer == SemanticCheck.Yes || NoVerdictIn(r, 0, final.retry)
    ensures var final := FeedbackGraph(r).final;
      final.place.End? && final.retry <= r.maxRetries ==>
        r.round(final.retry).answer == SemanticCheck.Yes || NoVerdictIn(r, 1, final.retry)
  {
    EndsIff(r);
    var k, l := FullGraph(r).final.retry, FeedbackGraph(r).final.retry;
    PassesInIff(r, 0, k);
    PassesInIff(r, 1, l);
    hide FullGraph, FeedbackGraph, NoVerdictIn, PassesIn, GoesOnUpTo;
    assert PassesAt(r, 0, k) || !PassesAt(r, 0, k);
    assert PassesAt(r, 1, l) || !PassesAt(r, 1, l);
  }

  // ---- the way through the nodes ----

  /** The nodes of round k; `back` follows if it goes on. */
  function RoundThen(r: Request, first: nat, k: nat, back: seq<Node>): seq<Node> {
    [Generator, Guard] + if r.round(k).guardPass then [VoterNode] + VoteThen(r, first, k, back) else back
  }

  function VoteThen(r: Request, first: nat, k: nat, back: seq<Node>): seq<Node> {
    match r.round(k).vote
    case Raised => []
    case Voted(v) => if v.success then [SemanticCheckNode] + (if PassesIn(r, first, k) then [] else back) else back
  }

  /** Through refiner and counter, and on to the next round while retries are left. */
  function Back(r: Request, first: nat, k: nat): seq<Node>
    requires first <= k <= r.maxRetries
  {
    [Refiner, PostRefiner] + if k < r.maxRetries then RunFrom(r, AtRound(r, first, k + 1)).trace else []
  }

  /** Rounds follow one another while they go on and retries are left. */
  lemma RoundIsTrace(r: Request, first: nat, k: nat)
    requires first <= k <= r.maxRetries
    ensures RunFrom(r, AtRound(r, first, k)).trace == RoundThen(r, first, k, Back(r, first, k))
  {
    var s0 := AtRound(r, first, k);
    var s1 := Step(r, s0);
    var s2 := Step(r, s1);
    Moves(r, s0);
    Moves(r, s1);
    if s2.place == At(VoterNode) {
      Moves(r, s2);
      VoteIsTrace(r, first, k);
    } else {
      RefinedTrace(r, s2, first, k);
    }
    hide RunFrom, VoteThen, Back;
  }

  lemma VoteIsTrace(r: Request, first: nat, k: nat)
    requires first <= k <= r.maxRetries && r.round(k).guardPass
    ensures var next := Step(r, State(At(VoterNode), k, MemoryAt(r, first, k)));
      RunFrom(r, next).trace == VoteThen(r, first, k, Back(r, first, k))
  {
    var s3 := Step(r, State(At(VoterNode), k, MemoryAt(r, first, k)));
    if s3.place == At(SemanticCheckNode) {
      Moves(r, s3);
      if !PassesIn(r, first, k) {
        RefinedTrace(r, Step(r, s3), first, k);
      }
    } else if s3.place == At(Refiner) {
      RefinedTrace(r, s3, first, k);
    }
    hide Back;
  }

  lemma RefinedTrace(r: Request, s: State, first: nat, k: nat)
    requires first <= k <= r.maxRetries && s == State(At(Refiner), k, MemoryAt(r, first, k + 1))
    ensures RunFrom(r, s).trace == Back(r, first, k)
  {
    Moves(r, s);
    Moves(r, Step(r, s));
  }

  /** The full graph goes through router, schema, decomposer if asked for, and examples into its first
      round. */
  lemma FullBeginsWith(r: Request)
    ensures FullGraph(r).trace ==
      [Router] + ([SchemaRetriever] + ExamplesFrom(r, RunFrom(r, AtRound(r, 0, 0)).trace))
  {
    var s := State(At(Router), 0, SemanticCheck.FRESH);
    var s' := Step(r, Step(r, s));
    Moves(r, s);
    Moves(r, Step(r, s));
    Moves(r, s');
    if r.decompose {
      Moves(r, Step(r, s'));
    }
    hide RunFrom;
  }

  function ExamplesFrom(r: Request, rounds: seq<Node>): seq<Node> {
    if r.decompose then [Decomposer] + ([FewshotSelector] + rounds) else [FewshotSelector] + rounds
  }

  /** The feedback graph goes through the refiner into round 1, if it has one. */
  lemma FeedbackBeginsWith(r: Request)
    ensures FeedbackGraph(r).trace ==
      [Refiner] + ([PostRefiner] + if r.maxRetries > 0 then RunFrom(r, AtRound(r, 1, 1)).trace else [])
  {
    var f := State(At(Refiner), 0, SemanticCheck.FRESH);
    Moves(r, f);
    Moves(r, Step(r, f));
  }

  function NullColumn(sql: string): Voter.Execution {
    Voter.Execution(true, [[Cells.Num(Cells.Finite(1.0))], [Cells.Null]])
  }

  function CrashingRound(k: nat): Round { Round(true, Voter.Raised, SemanticCheck.Yes) }

  /** A query that returns 1 and NULL in one column ends the run in its first round, however many
      retries are left. */
  lemma NullColumnCrashes(r: Request, round: Cells.Float -> Cells.Float)
    requires r.round == CrashingRound
    ensures Realistic(r)
    ensures FullGraph(r).final.place.Crashed? && FullGraph(r).final.retry == 0
  {
    VoteHash.NullAmongNumbersRaises(round);
    assert Voter.RaisesOn("q", NullColumn, round) && "q" in ["q"];
    forall k ensures FromVoter(r.round(k).vote) {
      assert ["q"] != [] && Voter.IsOutcome(["q"], NullColumn, round, 0, 0, r.round(k).vote);
    }
    assert CrashesAt(r, 0, 0);
    EndsIff(r);
    hide FullGraph, FromVoter;
  }

  // ---- the edge that never fires ----

  lemma VoterAlwaysSucceeds(o: Voter.Outcome)
    requires FromVoter(o)
    ensures o.Voted? ==> o.verdict.success
  {
  }

  predicate VoterToRefiner(trace: seq<Node>) {
    exists i :: 0 <= i < |trace| - 1 && trace[i] == VoterNode && trace[i + 1] == Refiner
  }

  lemma {:induction false} VoterNeverRefines(r: Request, s: State)
    requires Realistic(r) && (s.retry <= r.maxRetries || !s.place.At?)
    ensures !VoterToRefiner(RunFrom(r, s).trace)
    decreases Budget(r, s)
  {
    if s.place.At? {
      StepShrinks(r, s);
      Moves(r, s);
      hide Step, RunFrom, Budget, Realistic, VoterToRefiner;
      VoterNeverRefines(r, Step(r, s));
      BeginsAt(r, Step(r, s));
      if s.place.node == VoterNode {
        VoterGoesOn(r, s);
      }
      Prepended(s.place.node, RunFrom(r, Step(r, s)).trace);
    } else {
      hide Realistic;
    }
  }

  lemma StepShrinks(r: Request, s: State)
    requires s.place.At? && s.retry <= r.maxRetries
    ensures var next := Step(r, s); (next.retry <= r.maxRetries || !next.place.At?) && Budget(r, next) < Budget(r, s)
  {
  }

  lemma BeginsAt(r: Request, s: State)
    requires s.retry <= r.maxRetries || !s.place.At?
    ensures var trace := RunFrom(r, s).trace; trace != [] ==> s.place == At(trace[0])
  {
  }

  lemma VoterGoesOn(r: Request, s: State)
    requires Realistic(r) && s.place == At(VoterNode)
    ensures Step(r, s).place != At(Refiner)
  {
    assert FromVoter(r.round(s.retry).vote);
    VoterAlwaysSucceeds(r.round(s.retry).vote);
  }

  lemma Prepended(node: Node, rest: seq<Node>)
    requires !VoterToRefiner(rest) && (rest != [] && node == VoterNode ==> rest[0] != Refiner)
    ensures !VoterToRefiner([node] + rest)
  {
    forall i | 0 <= i < |rest| ensures ([node] + rest)[i + 1] == rest[i] {}
  }

  // ---- the bounds are reached ----

  /** Every round passes the guard and is rejected by the semantic check, each with another SQL. */
  ghost predicate AlwaysRejected(r: Request) {
    && r.question != ""
    && (forall k :: r.round(k).guardPass && Succeeds(r.round(k).vote) && r.round(k).answer.No? && SqlOf(r, k) != "")
    && forall j, k :: 0 <= j < k ==> r.norm(SqlOf(r, j)) != r.norm(SqlOf(r, k))
  }

  lemma {:induction false} RejectedToTheEnd(r: Request, s: State)
    requires AlwaysRejected(r) && s.place.At? && s.retry <= r.maxRetries && s.memory.rejectCount <= 1
    requires forall k: nat :: s.memory.lastRejected == r.norm(SqlOf(r, k)) && s.memory.rejectCount == 1 ==>
      k < s.retry || (k == s.retry && Rank(s.place.node) <= 2)
    requires r.decompose || Rank(s.place.node) <= 8
    ensures |RunFrom(r, s).trace| == Budget(r, s) && RunFrom(r, s).final.retry == r.maxRetries + 1
    ensures Generations(RunFrom(r, s).trace) == GenerationsLeft(r, s)
    decreases Budget(r, s)
  {
    var next := Step(r, s);
    if next.place.At? {
      RejectedToTheEnd(r, next);
    }
    var rest := RunFrom(r, next).trace;
    assert ([s.place.node] + rest)[1..] == rest;
  }

  /** The bounds are exact. */
  lemma BoundsAreReached(r: Request)
    requires AlwaysRejected(r) && r.decompose
    ensures Generations(FullGraph(r).trace) == r.maxRetries + 1
    ensures |FullGraph(r).trace| == 4 + 6 * (r.maxRetries + 1)
    ensures Generations(FeedbackGraph(r).trace) == r.maxRetries
    ensures |FeedbackGraph(r).trace| == 6 * r.maxRetries + 2
  {
    RejectedToTheEnd(r, State(At(Router), 0, SemanticCheck.FRESH));
    RejectedToTheEnd(r, State(At(Refiner), 0, SemanticCheck.FRESH));
  }

  /** k + 1 times the letter a: another candidate for every round. */
  function Letters(k: nat): string { seq(k + 1, _ => 'a') }

  function RejectedRound(k: nat): Round {
    Round(true, Voter.Voted(Voter.VoterOffline([Letters(k)], "", 0)), SemanticCheck.No)
  }

  /** Such requests exist for every number of retries. */
  function Unlucky(maxRetries: nat): (r: Request)
    ensures r.maxRetries == maxRetries && r.decompose && AlwaysRejected(r) && Realistic(r)
  {
    var r := Request("q", maxRetries, true, (sql: string) => sql, RejectedRound);
    assert forall k: nat :: SqlOf(r, k) == Letters(k) && |Letters(k)| == k + 1;
    assert forall k: nat :: [Letters(k)] != [] && r.round(k).vote == Voter.Voted(Voter.VoterOffline([Letters(k)], "", 0));
    r
  }

  /** LangGraph stops a run after 25 nodes unless told otherwise, and neither graph says otherwise. */
  const STEP_LIMIT: nat := 25

  /** Every run of the full graph stays within the limit if and only if there are at most two retries,
      every run of the feedback graph if and only if there are at most three. */
  lemma StepLimitIff(maxRetries: nat)
    ensures (forall r :: Realistic(r) && r.maxRetries == maxRetries ==> |FullGraph(r).trace| <= STEP_LIMIT)
       <==> maxRetries <= 2
    ensures (forall r :: Realistic(r) && r.maxRetries == maxRetries ==> |FeedbackGraph(r).trace| <= STEP_LIMIT)
       <==> maxRetries <= 3
  {
    forall r ensures |FullGraph(r).trace| <= 4 + 6 * (r.maxRetries + 1) && |FeedbackGraph(r).trace| <= 6 * r.maxRetries + 2 {
      LoopsAreBounded(r);
    }
    BoundsAreReached(Unlucky(maxRetries));
  }

  // ---- the escape hatch inside the loop ----

  /** Every round yields the same acceptable SQL. */
  ghost predicate Stuck(r: Request) {
    && r.question != ""
    && forall k :: r.round(k).guardPass && Succeeds(r.round(k).vote) && SqlOf(r, k) != ""
                   && r.norm(SqlOf(r, k)) == r.norm(SqlOf(r, 0))
  }

  /** Rejections the memory holds against the one SQL of a stuck request. */
  function Held(r: Request, m: SemanticCheck.Memory): nat {
    if m.lastRejected == r.norm(SqlOf(r, 0)) then m.rejectCount else 0
  }

  lemma {:induction false} StuckIsReleased(r: Request, s: State)
    requires Stuck(r) && s.place.At? && s.retry <= r.maxRetries && Held(r, s.memory) <= 2
    requires Held(r, s.memory) + (r.maxRetries - s.retry) >= 2 + if Rank(s.place.node) <= 2 then 1 else 0
    ensures RunFrom(r, s).final.retry <= r.maxRetries
    ensures Generations(RunFrom(r, s).trace)
         <= 3 - Held(r, s.memory) - if 3 <= Rank(s.place.node) <= 5 then 1 else 0
    decreases Budget(r, s)
  {
    var next := Step(r, s);
    if next.place.At? {
      StuckIsReleased(r, next);
    }
    var rest := RunFrom(r, next).trace;
    assert ([s.place.node] + rest)[1..] == rest;
  }

  /** A generator that keeps producing one SQL never uses up two or more retries: its third round
      passes at the latest.  The feedback graph needs three. */
  lemma StuckGeneratorPasses(r: Request)
    requires Stuck(r)
    ensures r.maxRetries >= 2 ==> FullGraph(r).final.retry <= r.maxRetries && Generations(FullGraph(r).trace) <= 3
    ensures r.maxRetries >= 3 ==> FeedbackGraph(r).final.retry <= r.maxRetries && Generations(FeedbackGraph(r).trace) <= 3
  {
    if r.maxRetries >= 2 {
      StuckIsReleased(r, State(At(Router), 0, SemanticCheck.FRESH));
    }
    if r.maxRetries >= 3 {
      StuckIsReleased(r, State(At(Refiner), 0, SemanticCheck.FRESH));
    }
  }
}

/** The idempotency chain of `submit` in TaskController.java over the key operations of
    TaskStoreService.java.  Each Redis call is one atomic step, and the steps of any number of
    requests interleave arbitrarily. */
module IdempotentSubmit {

  import opened Basics
  import Separators

  type Id = string

  /** Where a request stands. */
  datatype Pc =
    | Arrived                 // about to look its key up
    | Acquiring               // key not seen: about to SETNX
    | Outrun                  // SETNX failed: about to read the winner
    | Quota                   // first of its key, or without a key
    | Creating                // quota passed
    | Publishing              // state written, message to be sent
    | Answered(id: Id)        // 202 with this task id
    | Refused                 // 429

  /** A request: its key if any, its fresh task id, and what quota and result cache will say. */
  datatype Request = Request(key: Option<string>, own: Id, quotaOk: bool, cached: bool, pc: Pc)

  datatype System = System(requests: seq<Request>, keys: map<string, Id>, created: set<Id>, published: set<Id>)

  datatype Step = Advance(i: nat) | Expire(key: string)

  function SetPc(s: System, i: nat, pc: Pc): System
    requires i < |s.requests|
  {
    s.(requests := s.requests[i := s.requests[i].(pc := pc)])
  }

  function AdvanceOne(s: System, i: nat): System
    requires i < |s.requests|
  {
    var r := s.requests[i];
    match r.pc
    case Arrived =>
      if r.key.None? then SetPc(s, i, Quota)
      else if r.key.value in s.keys then SetPc(s, i, Answered(s.keys[r.key.value]))
      else SetPc(s, i, Acquiring)
    case Acquiring =>
      if r.key.None? then s
      else if r.key.value in s.keys then SetPc(s, i, Outrun)
      else SetPc(s, i, Quota).(keys := s.keys[r.key.value := r.own])
    case Outrun =>
      if r.key.None? then s
      else SetPc(s, i, Answered(if r.key.value in s.keys then s.keys[r.key.value] else r.own))
    case Quota => SetPc(s, i, if r.quotaOk then Creating else Refused)
    case Creating =>
      SetPc(s, i, if r.cached then Answered(r.own) else Publishing).(created := s.created + {r.own})
    case Publishing => SetPc(s, i, Answered(r.own)).(published := s.published + {r.own})
    case Answered(_) => s
    case Refused => s
  }

  function Apply(s: System, step: Step): System {
    match step
    case Advance(i) => if i < |s.requests| then AdvanceOne(s, i) else s
    case Expire(k) => s.(keys := s.keys - {k})
  }

  /** A run: where it starts and the steps it takes. */
  datatype Run = Run(start: System, steps: seq<Step>)

  /** The state before step n. */
  function At(u: Run, n: nat): (s: System)
    requires n <= |u.steps|
    ensures |s.requests| == |u.start.requests|
  {
    if n == 0 then u.start else Apply(At(u, n - 1), u.steps[n - 1])
  }

  function End(u: Run): System { At(u, |u.steps|) }

  /** Any requests, none of them started, with task ids of their own. */
  ghost predicate Initial(s: System) {
    && s.keys == map[] && s.created == {} && s.published == {}
    && (forall i :: 0 <= i < |s.requests| ==> s.requests[i].pc == Arrived)
    && forall i, j :: 0 <= i < j < |s.requests| ==> s.requests[i].own != s.requests[j].own
  }

  // ---- what the steps of a run are ----

  predicate Moves(u: Run, n: nat, i: nat) {
    n < |u.steps| && i < |u.start.requests| && u.steps[n] == Advance(i)
  }

  /** Step n is request i's SETNX of key k. */
  predicate Tries(u: Run, n: nat, i: nat, k: string) {
    Moves(u, n, i) && At(u, n).requests[i].pc.Acquiring? && At(u, n).requests[i].key == Some(k)
  }

  predicate Takes(u: Run, n: nat, i: nat, k: string) { Tries(u, n, i, k) && k !in At(u, n).keys }

  ghost predicate TakenAt(u: Run, n: nat, k: string) {
    exists i: nat :: Takes(u, n, i, k)
  }

  predicate Fails(u: Run, n: nat, i: nat, k: string) { Tries(u, n, i, k) && k in At(u, n).keys }

  /** Step n is request i's second look-up, after its SETNX failed. */
  predicate LooksAgain(u: Run, n: nat, i: nat, k: string) {
    Moves(u, n, i) && At(u, n).requests[i].pc.Outrun? && At(u, n).requests[i].key == Some(k)
  }

  ghost predicate ExpiresIn(u: Run, k: string, after: nat, before: nat) {
    exists p :: after < p < before <= |u.steps| && u.steps[p] == Expire(k)
  }

  ghost predicate TakenIn(u: Run, k: string, after: nat, before: nat) {
    exists p: nat :: after < p < before && TakenAt(u, p, k)
  }

  ghost predicate TakesKey(u: Run, i: nat) {
    exists n: nat, k :: Takes(u, n, i, k)
  }

  /** One request moves, and at most its own key is taken and its own id recorded. */
  lemma AdvanceFrame(s: System, i: nat)
    requires i < |s.requests|
    ensures var s', r := AdvanceOne(s, i), s.requests[i];
      && s'.requests == s.requests[i := r.(pc := s'.requests[i].pc)]
      && (s'.keys == s.keys || (r.pc.Acquiring? && r.key.Some? && r.key.value !in s.keys && s'.keys == s.keys[r.key.value := r.own]))
      && s.created <= s'.created <= s.created + {r.own}
  {
  }

  /** What a step leaves alone, seen from request i. */
  lemma StepFrame(u: Run, n: nat, i: nat)
    requires n < |u.steps| && i < |u.start.requests|
    ensures var s, s' := At(u, n), At(u, n + 1);
      && s' == Apply(s, u.steps[n])
      && s'.requests[i] == s.requests[i].(pc := s'.requests[i].pc)
      && (!Moves(u, n, i) ==> s'.requests[i] == s.requests[i])
  {
    if u.steps[n].Advance? && u.steps[n].i < |u.start.requests| {
      AdvanceFrame(At(u, n), u.steps[n].i);
      hide AdvanceOne;
    }
  }

  /** What a step adds to the created tasks: that of a request which it takes past its quota. */
  lemma CreatedFrame(u: Run, n: nat) returns (j: nat)
    requires n < |u.steps|
    ensures var s, s' := At(u, n), At(u, n + 1);
      s'.created == s.created
      || (Moves(u, n, j) && s.requests[j].pc.Creating? && s'.created == s.created + {s.requests[j].own}
          && (s'.requests[j].pc.Publishing? || s'.requests[j].pc.Answered?))
  {
    j := if u.steps[n].Advance? then u.steps[n].i else 0;
  }

  /** What a step publishes: the task of a request that has created it and answers next. */
  lemma PublishedFrame(u: Run, n: nat) returns (j: nat)
    requires n < |u.steps|
    ensures var s, s' := At(u, n), At(u, n + 1);
      s'.published == s.published
      || (Moves(u, n, j) && s.requests[j].pc.Publishing? && s'.published == s.published + {s.requests[j].own})
  {
    j := if u.steps[n].Advance? then u.steps[n].i else 0;
  }

  /** How a request gets on with creating and publishing. */
  lemma CreatesNext(u: Run, n: nat, i: nat)
    requires Moves(u, n, i)
    ensures var s, s' := At(u, n), At(u, n + 1); var r := s.requests[i];
      && (r.pc.Creating? ==> s'.requests[i].pc == (if r.cached then Answered(r.own) else Publishing)
                             && r.own in s'.created && s'.published == s.published)
      && (r.pc.Publishing? ==> s'.requests[i].pc == Answered(r.own) && r.own in s'.published)
      && (s'.requests[i].pc.Publishing? ==> r.pc.Creating?)
  {
  }

  /** Only the program counter of a request changes. */
  lemma {:induction false} Fixed(u: Run, n: nat, i: nat)
    requires n <= |u.steps| && i < |u.start.requests|
    ensures At(u, n).requests[i] == u.start.requests[i].(pc := At(u, n).requests[i].pc)
  {
    hide Apply;
    if n > 0 {
      Fixed(u, n - 1, i);
      StepFrame(u, n - 1, i);
      assert At(u, n).requests[i] == At(u, n - 1).requests[i].(pc := At(u, n).requests[i].pc);
    }
  }

  lemma KeysFrame(u: Run, n: nat, k: string)
    requires n < |u.steps|
    ensures var s, s' := At(u, n), At(u, n + 1);
      if u.steps[n] == Expire(k) then k !in s'.keys
      else if TakenAt(u, n, k) then
        k in s'.keys && exists i: nat :: Takes(u, n, i, k) && s'.keys[k] == u.start.requests[i].own
      else (k in s'.keys <==> k in s.keys) && (k in s.keys ==> s'.keys[k] == s.keys[k])
  {
    if u.steps[n].Advance? && u.steps[n].i < |u.start.requests| {
      var i := u.steps[n].i;
      Fixed(u, n, i);
      assert Takes(u, n, i, k) || !TakenAt(u, n, k);
    }
  }

  /** Whoever holds a key took it, and it has not expired since. */
  lemma {:induction false} Holder(u: Run, n: nat, k: string) returns (m: nat, i: nat)
    requires Initial(u.start) && n <= |u.steps| && k in At(u, n).keys
    ensures m < n && Takes(u, m, i, k) && !ExpiresIn(u, k, m, n)
    ensures At(u, n).keys[k] == u.start.requests[i].own
  {
    KeysFrame(u, n - 1, k);
    if TakenAt(u, n - 1, k) {
      m := n - 1;
      i :| Takes(u, n - 1, i, k) && At(u, n).keys[k] == u.start.requests[i].own;
    } else {
      m, i := Holder(u, n - 1, k);
    }
  }

  lemma {:induction false} StillHeld(u: Run, m: nat, n: nat, i: nat, k: string)
    requires Takes(u, m, i, k) && m < n <= |u.steps| && !ExpiresIn(u, k, m, n)
    ensures k in At(u, n).keys && At(u, n).keys[k] == u.start.requests[i].own
  {
    KeysFrame(u, n - 1, k);
    if m < n - 1 {
      StillHeld(u, m, n - 1, i, k);
      assert u.steps[n - 1] != Expire(k);
    }
  }

  /** A SETNX takes its key if and only if every earlier taking of that key has expired; other keys
      play no part. */
  lemma TakesIff(u: Run, n: nat, i: nat, k: string)
    requires Initial(u.start) && Tries(u, n, i, k)
    ensures Takes(u, n, i, k) <==> forall m, j :: 0 <= m < n && Takes(u, m, j, k) ==> ExpiresIn(u, k, m, n)
  {
    if Takes(u, n, i, k) {
      forall m, j | 0 <= m < n && Takes(u, m, j, k) ensures ExpiresIn(u, k, m, n) {
        if !ExpiresIn(u, k, m, n) {
          StillHeld(u, m, n, j, k);
        }
      }
    } else {
      var m, j := Holder(u, n, k);
    }
  }

  // ---- how a request came to where it is ----

  /** The step that brought request i where it is. */
  lemma {:induction false} LastMove(u: Run, n: nat, i: nat) returns (m: nat)
    requires Initial(u.start) && n <= |u.steps| && i < |u.start.requests| && At(u, n).requests[i].pc != Arrived
    ensures m < n && Moves(u, m, i) && At(u, m + 1).requests[i] == At(u, n).requests[i]
    ensures At(u, m).requests[i].pc != At(u, n).requests[i].pc
    ensures At(u, m).requests[i].key == u.start.requests[i].key == At(u, n).requests[i].key
  {
    hide Apply;
    assert n > 0;
    StepFrame(u, n - 1, i);
    Fixed(u, n - 1, i);
    if At(u, n - 1).requests[i] == At(u, n).requests[i] {
      m := LastMove(u, n - 1, i);
    } else {
      m := n - 1;
    }
  }

  /** Past its SETNX, a request with a key has taken it. */
  lemma {:induction false} WasTaken(u: Run, n: nat, i: nat) returns (m: nat)
    requires Initial(u.start) && n <= |u.steps| && i < |u.start.requests| && u.start.requests[i].key.Some?
    requires var pc := At(u, n).requests[i].pc; pc.Quota? || pc.Creating? || pc.Publishing? || pc.Refused?
    ensures m < n && Takes(u, m, i, u.start.requests[i].key.value)
  {
    m := LastMove(u, n, i);
    if !At(u, m).requests[i].pc.Acquiring? {
      m := WasTaken(u, m, i);
    }
  }

  /** Who has a task is past creating it. */
  lemma {:induction false} CreatedIsPast(u: Run, n: nat, i: nat)
    requires Initial(u.start) && n <= |u.steps| && i < |u.start.requests|
    requires u.start.requests[i].own in At(u, n).created
    ensures At(u, n).requests[i].pc.Publishing? || At(u, n).requests[i].pc.Answered?
  {
    if u.start.requests[i].own in At(u, n - 1).created {
      CreatedIsPast(u, n - 1, i);
      PastStaysPast(u, n - 1, i);
    } else {
      var j := CreatedFrame(u, n - 1);
      hide Apply, At;
      Fixed(u, n - 1, j);
    }
  }

  lemma PastStaysPast(u: Run, n: nat, i: nat)
    requires n < |u.steps| && i < |u.start.requests|
    requires At(u, n).requests[i].pc.Publishing? || At(u, n).requests[i].pc.Answered?
    ensures At(u, n + 1).requests[i].pc.Publishing? || At(u, n + 1).requests[i].pc.Answered?
  {
    StepFrame(u, n, i);
  }

  /** A task under a key was created by a request that took the key. */
  lemma {:induction false} CreatedWasTaken(u: Run, n: nat, i: nat) returns (m: nat)
    requires Initial(u.start) && n <= |u.steps| && i < |u.start.requests| && u.start.requests[i].key.Some?
    requires u.start.requests[i].own in At(u, n).created
    ensures m < n && Takes(u, m, i, u.start.requests[i].key.value)
  {
    if u.start.requests[i].own in At(u, n - 1).created {
      m := CreatedWasTaken(u, n - 1, i);
    } else {
      var j := u.steps[n - 1].i;
      Fixed(u, n - 1, j);
      m := WasTaken(u, n - 1, i);
    }
  }

  /** What the taker of a key goes through, up to step n. */
  ghost predicate GoesOn(u: Run, n: nat, i: nat)
    requires n <= |u.steps| && i < |u.start.requests|
  {
    var r, has := At(u, n).requests[i], u.start.requests[i].own in At(u, n).created;
    match r.pc
    case Quota => !has
    case Creating => !has && r.quotaOk
    case Publishing => has && r.quotaOk
    case Answered(id) => has && r.quotaOk && id == u.start.requests[i].own
    case Refused => !has && !r.quotaOk
    case _ => false
  }

  lemma GoesOnAfter(u: Run, n: nat, i: nat)
    requires Initial(u.start) && n < |u.steps| && i < |u.start.requests| && GoesOn(u, n, i)
    ensures GoesOn(u, n + 1, i)
  {
    Fixed(u, n, i);
    StepFrame(u, n, i);
    if u.steps[n].Advance? && u.steps[n].i < |u.start.requests| && u.steps[n].i != i {
      var j := u.steps[n].i;
      Fixed(u, n, j);
      AdvanceFrame(At(u, n), j);
      hide AdvanceOne;
      assert u.start.requests[i].own != At(u, n).requests[j].own;
    }
  }

  lemma {:induction false} TakerGoesOn(u: Run, m: nat, n: nat, i: nat, k: string)
    requires Initial(u.start) && Takes(u, m, i, k) && m < n <= |u.steps|
    ensures GoesOn(u, n, i)
  {
    if m < n - 1 {
      TakerGoesOn(u, m, n - 1, i, k);
      GoesOnAfter(u, n - 1, i);
    } else {
      StepFrame(u, m, i);
      if u.start.requests[i].own in At(u, m).created {
        CreatedIsPast(u, m, i);
      }
    }
  }

  // ---- one task per key ----

  ghost predicate SameKey(u: Run, i: nat, j: nat, k: string) {
    i < |u.start.requests| && j < |u.start.requests| && u.start.requests[i].key == u.start.requests[j].key == Some(k)
  }

  predicate Done(r: Request) { r.pc.Answered? || r.pc.Refused? }

  /** Two requests took the key at different times, and it expired in between. */
  ghost predicate ExpiresBetweenTakings(u: Run, i: nat, j: nat, k: string) {
    exists m: nat, n: nat :: Takes(u, m, i, k) && Takes(u, n, j, k) && (ExpiresIn(u, k, m, n) || ExpiresIn(u, k, n, m))
  }

  lemma TakingsAreSeparated(u: Run, m: nat, i: nat, n: nat, j: nat, k: string)
    requires Initial(u.start) && Takes(u, m, i, k) && Takes(u, n, j, k) && i != j
    ensures ExpiresIn(u, k, m, n) || ExpiresIn(u, k, n, m)
  {
    TakesIff(u, m, i, k);
    TakesIff(u, n, j, k);
    assert m != n;
  }

  /** Whatever the interleaving, two requests of one key both create a task only if the key expires
      between their SETNX steps; and once they are done they do exactly then, their quota allowing. */
  lemma BothCreateIff(u: Run, i: nat, j: nat, k: string)
    requires Initial(u.start) && SameKey(u, i, j, k) && i != j
    ensures var both := u.start.requests[i].own in End(u).created && u.start.requests[j].own in End(u).created;
      && (both ==> ExpiresBetweenTakings(u, i, j, k))
      && (Done(End(u).requests[i]) && Done(End(u).requests[j]) ==>
            (both <==> ExpiresBetweenTakings(u, i, j, k)
                       && u.start.requests[i].quotaOk && u.start.requests[j].quotaOk))
  {
    var e := |u.steps|;
    Fixed(u, e, i);
    Fixed(u, e, j);
    if u.start.requests[i].own in End(u).created && u.start.requests[j].own in End(u).created {
      var m := CreatedWasTaken(u, e, i);
      var n := CreatedWasTaken(u, e, j);
      TakingsAreSeparated(u, m, i, n, j, k);
      TakerGoesOn(u, m, e, i, k);
      TakerGoesOn(u, n, e, j, k);
    }
    if ExpiresBetweenTakings(u, i, j, k) {
      var m: nat, n: nat :| Takes(u, m, i, k) && Takes(u, n, j, k) && (ExpiresIn(u, k, m, n) || ExpiresIn(u, k, n, m));
      TakerGoesOn(u, m, e, i, k);
      TakerGoesOn(u, n, e, j, k);
    }
  }

  // ---- which id an accepted request is told ----

  /** The key ran out between the failed SETNX and the second look-up, and nobody took it again. */
  ghost predicate Stray(u: Run, j: nat, k: string) {
    exists a: nat, p: nat, g: nat ::
      a < p < g < |u.steps| && Fails(u, a, j, k) && u.steps[p] == Expire(k) && LooksAgain(u, g, j, k) && !TakenIn(u, k, p, g)
  }

  lemma {:induction false} FreeAfter(u: Run, p: nat, g: nat, k: string)
    requires p < g <= |u.steps| && u.steps[p] == Expire(k) && !TakenIn(u, k, p, g)
    ensures k !in At(u, g).keys
  {
    KeysFrame(u, g - 1, k);
    if p < g - 1 {
      FreeAfter(u, p, g - 1, k);
      assert TakenAt(u, g - 1, k) ==> TakenIn(u, k, p, g);
    }
  }

  /** A key that is held at one time and free later expired in between, and was not taken since. */
  lemma {:induction false} WhenFreed(u: Run, a: nat, g: nat, k: string) returns (p: nat)
    requires a < g <= |u.steps| && k in At(u, a).keys && k !in At(u, g).keys && u.steps[a] != Expire(k)
    ensures a < p < g && u.steps[p] == Expire(k) && !TakenIn(u, k, p, g)
  {
    KeysFrame(u, g - 1, k);
    if u.steps[g - 1] == Expire(k) {
      p := g - 1;
    } else {
      assert k !in At(u, g - 1).keys;
      p := WhenFreed(u, a, g - 1, k);
    }
  }

  /** How request j got the id it was told: by taking the key itself, from the key's holder, or, when
      the key was gone at its second look, from nobody. */
  lemma HowAnswered(u: Run, n: nat, j: nat, k: string) returns (first: nat)
    requires Initial(u.start) && n <= |u.steps| && SameKey(u, j, j, k) && At(u, n).requests[j].pc.Answered?
    ensures SameKey(u, first, j, k) && At(u, n).requests[j].pc.id == u.start.requests[first].own
    ensures TakesKey(u, first) || (first == j && Stray(u, j, k))
  {
    var g := LastMove(u, n, j);
    Fixed(u, g, j);
    StepFrame(u, g, j);
    var pc := At(u, g).requests[j].pc;
    if k in At(u, g).keys && (pc.Arrived? || pc.Outrun?) {
      var m;
      m, first := Holder(u, g, k);
      Fixed(u, m, first);
    } else if pc.Outrun? {
      first := j;
      var a := LastMove(u, g, j);
      assert Fails(u, a, j, k) && LooksAgain(u, g, j, k);
      var p := WhenFreed(u, a, g, k);
    } else {
      first := j;
      var m := WasTaken(u, g, j);
    }
  }

  /** A request that takes its key is never told a stray id. */
  lemma StrayNeverTakes(u: Run, j: nat, k: string)
    requires Initial(u.start) && Stray(u, j, k)
    ensures !TakesKey(u, j)
  {
    var a: nat, p: nat, g: nat :|
      a < p < g < |u.steps| && Fails(u, a, j, k) && u.steps[p] == Expire(k) && LooksAgain(u, g, j, k) && !TakenIn(u, k, p, g);
    if m: nat, k' :| Takes(u, m, j, k') {
      if m < g {
        TakerGoesOn(u, m, g, j, k');
      } else {
        LeftBehind(u, g, m, j, k);
      }
    }
  }

  /** After its second look a request is answered, with its own id if the key was gone. */
  lemma {:induction false} LeftBehind(u: Run, g: nat, n: nat, j: nat, k: string)
    requires LooksAgain(u, g, j, k) && g <= n <= |u.steps|
    ensures n == g || At(u, n).requests[j].pc.Answered?
    ensures n > g && k !in At(u, g).keys ==> At(u, n).requests[j].pc == Answered(u.start.requests[j].own)
  {
    if n > g {
      LeftBehind(u, g, n - 1, j, k);
      StepFrame(u, n - 1, j);
      Fixed(u, g, j);
    }
  }

  /** The id in an accepted response is that of a request of the key.  Once that request is done, a task
      exists under the id if and only if it took the key and its quota check passed; and it did take the
      key unless the response is a stray, which happens exactly when the key expired between the failed
      SETNX and the second look-up and was not taken since. */
  lemma AcceptedNamesTaskIff(u: Run, j: nat, k: string) returns (first: nat)
    requires Initial(u.start) && SameKey(u, j, j, k) && End(u).requests[j].pc.Answered?
    ensures SameKey(u, first, j, k) && End(u).requests[j].pc.id == u.start.requests[first].own
    ensures !TakesKey(u, first) <==> Stray(u, j, k)
    ensures Done(End(u).requests[first]) ==>
      (End(u).requests[j].pc.id in End(u).created <==> !Stray(u, j, k) && u.start.requests[first].quotaOk)
  {
    var e := |u.steps|;
    first := HowAnswered(u, e, j, k);
    Fixed(u, e, first);
    if Stray(u, j, k) {
      StrayNeverTakes(u, j, k);
      StrayIsOwn(u, j, k);
      assert first == j;
      if u.start.requests[j].own in End(u).created {
        var m := CreatedWasTaken(u, e, j);
      }
    }
    if m: nat, k' :| Takes(u, m, first, k') {
      TakerGoesOn(u, m, e, first, k');
    }
  }

  lemma StrayIsOwn(u: Run, j: nat, k: string)
    requires Initial(u.start) && Stray(u, j, k)
    ensures End(u).requests[j].pc == Answered(u.start.requests[j].own)
  {
    var a: nat, p: nat, g: nat :|
      a < p < g < |u.steps| && Fails(u, a, j, k) && u.steps[p] == Expire(k) && LooksAgain(u, g, j, k) && !TakenIn(u, k, p, g);
    FreeAfter(u, p, g, k);
    LeftBehind(u, g, |u.steps|, j, k);
  }

  /** Where request i took the key, an accepted request of the key is told another id if and only if its
      response is a stray, or names one that took the key with an expiry between the two SETNX steps. */
  lemma AnotherIdIff(u: Run, i: nat, j: nat, k: string)
    requires Initial(u.start) && SameKey(u, i, j, k) && TakesKey(u, i) && End(u).requests[j].pc.Answered?
    ensures End(u).requests[j].pc.id != u.start.requests[i].own
       <==> (Stray(u, j, k)
             || exists f: nat :: f < |u.start.requests| && f != i && ExpiresBetweenTakings(u, i, f, k)
                                 && End(u).requests[j].pc.id == u.start.requests[f].own)
  {
    var first := AcceptedNamesTaskIff(u, j, k);
    if Stray(u, j, k) {
      assert first != i;
    } else if first != i {
      var m: nat, k1 :| Takes(u, m, i, k1);
      var n: nat, k2 :| Takes(u, n, first, k2);
      Fixed(u, m, i);
      Fixed(u, n, first);
      TakingsAreSeparated(u, m, i, n, first, k);
    }
  }

  /** A key that does not expire, whatever happens to the others: its accepted responses carry one id,
      and at most one of its requests creates a task. */
  lemma OneTaskPerKey(u: Run, i: nat, j: nat, k: string)
    requires Initial(u.start) && SameKey(u, i, j, k) && Expire(k) !in u.steps
    ensures End(u).requests[i].pc.Answered? && End(u).requests[j].pc.Answered? ==>
      End(u).requests[i].pc.id == End(u).requests[j].pc.id
    ensures u.start.requests[i].own in End(u).created && u.start.requests[j].own in End(u).created ==> i == j
  {
    if i != j {
      BothCreateIff(u, i, j, k);
    }
    if End(u).requests[i].pc.Answered? && End(u).requests[j].pc.Answered? {
      var f := AcceptedNamesTaskIff(u, i, k);
      var f' := AcceptedNamesTaskIff(u, j, k);
      var m: nat, k1 :| Takes(u, m, f, k1);
      var n: nat, k2 :| Takes(u, n, f', k2);
      Fixed(u, m, f);
      Fixed(u, n, f');
      if f != f' {
        TakingsAreSeparated(u, m, f, n, f', k);
      }
    }
  }

  /** A request without a key waits or goes its own way. */
  lemma {:induction false} KeylessGoesOn(u: Run, n: nat, i: nat)
    requires Initial(u.start) && n <= |u.steps| && i < |u.start.requests| && u.start.requests[i].key.None?
    ensures At(u, n).requests[i].pc.Arrived? || GoesOn(u, n, i)
  {
    if n > 0 {
      KeylessGoesOn(u, n - 1, i);
      if GoesOn(u, n - 1, i) {
        GoesOnAfter(u, n - 1, i);
      } else {
        StepFrame(u, n - 1, i);
        Fixed(u, n - 1, i);
        if u.start.requests[i].own in At(u, n).created {
          CreatedIsPast(u, n, i);
        }
      }
    }
  }

  /** Without a key an accepted request is told its own id, and its task exists. */
  lemma KeylessNamesItsTask(u: Run, i: nat)
    requires Initial(u.start) && i < |u.start.requests| && u.start.requests[i].key.None?
    requires End(u).requests[i].pc.Answered?
    ensures End(u).requests[i].pc.id == u.start.requests[i].own && u.start.requests[i].own in End(u).created
  {
    KeylessGoesOn(u, |u.steps|, i);
  }

  /** Where request i stands with its task: published is what is created, not answered from the cache, and
      past publishing; a request from the cache is never about to publish. */
  ghost predicate PublishesRight(u: Run, n: nat, i: nat)
    requires n <= |u.steps| && i < |u.start.requests|
  {
    var s, r := At(u, n), u.start.requests[i];
    && (r.own in s.published <==> r.own in s.created && !r.cached && !s.requests[i].pc.Publishing?)
    && (s.requests[i].pc.Publishing? ==> r.own in s.created && !r.cached)
  }

  lemma {:induction false} PublishesRightAt(u: Run, n: nat, i: nat)
    requires Initial(u.start) && n <= |u.steps| && i < |u.start.requests|
    ensures PublishesRight(u, n, i)
  {
    if n > 0 {
      PublishesRightAt(u, n - 1, i);
      Fixed(u, n - 1, i);
      StepFrame(u, n - 1, i);
      if Moves(u, n - 1, i) {
        OwnPublishes(u, n - 1, i);
      } else {
        OthersPublish(u, n - 1, i);
      }
    }
  }

  lemma OthersPublish(u: Run, n: nat, i: nat)
    requires Initial(u.start) && n < |u.steps| && i < |u.start.requests| && !Moves(u, n, i) && PublishesRight(u, n, i)
    ensures PublishesRight(u, n + 1, i)
  {
    StepFrame(u, n, i);
    var j := CreatedFrame(u, n);
    var k := PublishedFrame(u, n);
    if Moves(u, n, j) { Fixed(u, n, j); }
    if Moves(u, n, k) { Fixed(u, n, k); }
    hide Apply, At;
  }

  lemma OwnPublishes(u: Run, n: nat, i: nat)
    requires Initial(u.start) && Moves(u, n, i) && PublishesRight(u, n, i)
    ensures PublishesRight(u, n + 1, i)
  {
    Fixed(u, n, i);
    StepFrame(u, n, i);
    CreatesNext(u, n, i);
    var j := CreatedFrame(u, n);
    var k := PublishedFrame(u, n);
    if u.start.requests[i].own in At(u, n).created {
      CreatedIsPast(u, n, i);
    }
    hide Apply, At;
  }

  /** At every step of every run what is published of a request is its created task, unless it is answered
      from the cache; and once the request is done, that is exactly what is published. */
  lemma PublishedIff(u: Run, n: nat, i: nat)
    requires Initial(u.start) && n <= |u.steps| && i < |u.start.requests|
    ensures var s, r := At(u, n), u.start.requests[i];
      && (r.own in s.published ==> r.own in s.created && !r.cached)
      && (Done(s.requests[i]) ==> (r.own in s.published <==> r.own in s.created && !r.cached))
  {
    PublishesRightAt(u, n, i);
  }

  /** Only created tasks are published. */
  lemma {:induction false} PublishedIsCreated(u: Run, n: nat)
    requires Initial(u.start) && n <= |u.steps|
    ensures At(u, n).published <= At(u, n).created
  {
    if n > 0 {
      PublishedIsCreated(u, n - 1);
      var step := u.steps[n - 1];
      if step.Advance? && step.i < |u.start.requests| && At(u, n - 1).requests[step.i].pc.Publishing? {
        PublishingHasTask(u, n - 1, step.i);
      }
    }
  }

  lemma {:induction false} PublishingHasTask(u: Run, n: nat, i: nat)
    requires Initial(u.start) && n <= |u.steps| && i < |u.start.requests| && At(u, n).requests[i].pc.Publishing?
    ensures At(u, n).requests[i].own in At(u, n).created
  {
    if At(u, n - 1).requests[i].pc.Publishing? {
      PublishingHasTask(u, n - 1, i);
      var j := CreatedFrame(u, n - 1);
      StepFrame(u, n - 1, i);
      hide Apply;
    } else {
      BeginsPublishing(u, n - 1, i);
    }
  }

  lemma BeginsPublishing(u: Run, n: nat, i: nat)
    requires n < |u.steps| && i < |u.start.requests|
    requires !At(u, n).requests[i].pc.Publishing? && At(u, n + 1).requests[i].pc.Publishing?
    ensures At(u, n + 1).requests[i].own in At(u, n + 1).created
  {
    StepFrame(u, n, i);
  }

  // ---- what a key stands for ----

  const KEY_PREFIX: nat := 80

  function Prefix(question: string): string {
    if |question| <= KEY_PREFIX then question else question[..KEY_PREFIX]
  }

  /** `TaskIdempotency.key`: a digest of the client's key and the beginning of the question. */
  function KeyOf(digest: string -> string, clientKey: string, question: string): string {
    digest(clientKey + ":" + Prefix(question))
  }

  ghost predicate Injective(digest: string -> string) {
    forall a, b :: digest(a) == digest(b) ==> a == b
  }

  /** Two submissions share a key if and only if they give the same client key and their questions begin
      with the same 80 characters. */
  lemma KeySharedIff(digest: string -> string, clientKey: string, question: string, clientKey': string, question': string)
    requires Injective(digest) && ':' !in clientKey && ':' !in clientKey'
    ensures KeyOf(digest, clientKey, question) == KeyOf(digest, clientKey', question')
       <==> clientKey == clientKey' && Prefix(question) == Prefix(question')
  {
    if KeyOf(digest, clientKey, question) == KeyOf(digest, clientKey', question') {
      assert clientKey + ":" + Prefix(question) == clientKey + [':'] + Prefix(question);
      assert clientKey' + ":" + Prefix(question') == clientKey' + [':'] + Prefix(question');
      Separators.SplitAtFirst(clientKey, Prefix(question), clientKey', Prefix(question'), ':');
    }
  }

  /** A client key names one question only if and only if the question is shorter than 80 characters: every
      longer one has another with the same key. */
  lemma KeyNamesQuestionIff(digest: string -> string, clientKey: string, question: string)
    requires Injective(digest) && ':' !in clientKey
    ensures (forall other :: KeyOf(digest, clientKey, other) == KeyOf(digest, clientKey, question) ==> other == question)
       <==> |question| < KEY_PREFIX
  {
    if |question| < KEY_PREFIX {
      forall other | KeyOf(digest, clientKey, other) == KeyOf(digest, clientKey, question) ensures other == question {
        KeySharedIff(digest, clientKey, other, clientKey, question);
      }
    } else {
      var other := question + "x";
      assert Prefix(other) == Prefix(question) && |other| != |question|;
      assert KeyOf(digest, clientKey, other) == KeyOf(digest, clientKey, question);
    }
  }

  /** So the second of two different questions with the same first 80 characters is answered with the id of
      the first one's task, in every run in which the key does not expire. */
  lemma LongQuestionsShareTask(u: Run, i: nat, j: nat, digest: string -> string, clientKey: string, question: string, question': string)
    requires Initial(u.start) && i < |u.start.requests| && j < |u.start.requests| && i != j
    requires u.start.requests[i].key == Some(KeyOf(digest, clientKey, question))
    requires u.start.requests[j].key == Some(KeyOf(digest, clientKey, question'))
    requires Prefix(question) == Prefix(question') && Expire(KeyOf(digest, clientKey, question)) !in u.steps
    requires End(u).requests[i].pc.Answered? && u.start.requests[i].own in End(u).created && End(u).requests[j].pc.Answered?
    ensures End(u).requests[j].pc.id == u.start.requests[i].own && u.start.requests[j].own !in End(u).created
  {
    var k := KeyOf(digest, clientKey, question);
    OneTaskPerKey(u, i, j, k);
    var m := CreatedWasTaken(u, |u.steps|, i);
    TakerGoesOn(u, m, |u.steps|, i, k);
  }

  // ---- runs that fail ----

  /** Two requests of one key that differ in their places only; the second is within quota. */
  function Duo(key: string, quota: bool, first: Pc, second: Pc, keys: map<string, Id>, created: set<Id>): System {
    System([Request(Some(key), "a", quota, false, first), Request(Some(key), "b", true, false, second)],
           keys, created, {})
  }

  function Two(key: string, quota: bool): System { Duo(key, quota, Arrived, Arrived, map[], {}) }

  /** Step n of the run leads to the state s. */
  lemma Goes(u: Run, n: nat, before: System, s: System)
    requires n < |u.steps| && At(u, n) == before && Apply(before, u.steps[n]) == s
    ensures At(u, n + 1) == s
  {
  }

  function Taken(key: string): map<string, Id> { map[key := "a"] }

  /** When the first request runs out of quota, the second is still accepted, with an id under which
      no task will ever exist. */
  lemma AcceptedWithoutTask(key: string)
    ensures var u := Run(Two(key, false), [Advance(0), Advance(0), Advance(1), Advance(0)]);
      Initial(u.start) && End(u) == Duo(key, false, Refused, Answered("a"), Taken(key), {})
  {
    var u := Run(Two(key, false), [Advance(0), Advance(0), Advance(1), Advance(0)]);
    Goes(u, 0, u.start, Duo(key, false, Acquiring, Arrived, map[], {}));
    Goes(u, 1, Duo(key, false, Acquiring, Arrived, map[], {}), Duo(key, false, Quota, Arrived, Taken(key), {}));
    Goes(u, 2, Duo(key, false, Quota, Arrived, Taken(key), {}), Duo(key, false, Quota, Answered("a"), Taken(key), {}));
    Goes(u, 3, Duo(key, false, Quota, Answered("a"), Taken(key), {}), Duo(key, false, Refused, Answered("a"), Taken(key), {}));
  }

  /** Four steps of the first request. */
  lemma FirstCreates(u: Run, key: string)
    requires |u.steps| >= 4 && u.steps[0] == u.steps[1] == u.steps[2] == u.steps[3] == Advance(0) && u.start == Two(key, true)
    ensures At(u, 4) == Duo(key, true, Publishing, Arrived, Taken(key), {"a"})
  {
    Goes(u, 0, u.start, Duo(key, true, Acquiring, Arrived, map[], {}));
    Goes(u, 1, Duo(key, true, Acquiring, Arrived, map[], {}), Duo(key, true, Quota, Arrived, Taken(key), {}));
    Goes(u, 2, Duo(key, true, Quota, Arrived, Taken(key), {}), Duo(key, true, Creating, Arrived, Taken(key), {}));
    Goes(u, 3, Duo(key, true, Creating, Arrived, Taken(key), {}), Duo(key, true, Publishing, Arrived, Taken(key), {"a"}));
    hide At;
  }

  /** Without any expiry the second request, whatever its question, is told the id of the first one's task. */
  lemma SecondIsToldFirst(key: string)
    ensures var u := Run(Two(key, true), [Advance(0), Advance(0), Advance(0), Advance(0), Advance(0), Advance(1)]);
      Initial(u.start) && At(u, 6) == Duo(key, true, Answered("a"), Answered("a"), Taken(key), {"a"}).(published := {"a"})
  {
    var u := Run(Two(key, true), [Advance(0), Advance(0), Advance(0), Advance(0), Advance(0), Advance(1)]);
    FirstCreates(u, key);
    var answered := Duo(key, true, Answered("a"), Arrived, Taken(key), {"a"}).(published := {"a"});
    Goes(u, 4, Duo(key, true, Publishing, Arrived, Taken(key), {"a"}), answered);
    Goes(u, 5, answered, Duo(key, true, Answered("a"), Answered("a"), Taken(key), {"a"}).(published := {"a"}));
    hide At;
  }

  /** When the key expires after the first request took it, two tasks are created for it. */
  lemma ExpiryAllowsTwo(key: string)
    ensures var u := Run(Two(key, true), [Advance(0), Advance(0), Advance(0), Advance(0), Expire(key),
                                     Advance(1), Advance(1), Advance(1), Advance(1)]);
      Initial(u.start) && End(u) == Duo(key, true, Publishing, Publishing, map[key := "b"], {"a", "b"})
  {
    var u := Run(Two(key, true), [Advance(0), Advance(0), Advance(0), Advance(0), Expire(key),
                             Advance(1), Advance(1), Advance(1), Advance(1)]);
    FirstCreates(u, key);
    hide At;
    Goes(u, 4, Duo(key, true, Publishing, Arrived, Taken(key), {"a"}), Duo(key, true, Publishing, Arrived, map[], {"a"}));
    SecondCreates(u, key);
  }

  lemma SecondCreates(u: Run, key: string)
    requires |u.steps| == 9 && u.steps[5] == u.steps[6] == u.steps[7] == u.steps[8] == Advance(1)
    requires At(u, 5) == Duo(key, true, Publishing, Arrived, map[], {"a"})
    ensures End(u) == Duo(key, true, Publishing, Publishing, map[key := "b"], {"a", "b"})
  {
    var late := map[key := "b"];
    Goes(u, 5, Duo(key, true, Publishing, Arrived, map[], {"a"}), Duo(key, true, Publishing, Acquiring, map[], {"a"}));
    Goes(u, 6, Duo(key, true, Publishing, Acquiring, map[], {"a"}), Duo(key, true, Publishing, Quota, late, {"a"}));
    Goes(u, 7, Duo(key, true, Publishing, Quota, late, {"a"}), Duo(key, true, Publishing, Creating, late, {"a"}));
    Goes(u, 8, Duo(key, true, Publishing, Creating, late, {"a"}), Duo(key, true, Publishing, Publishing, late, {"a", "b"}));
    hide At;
  }

  /** When it expires between the second request's failed SETNX and its look-up, the second is told its own
      id, under which no task exists, next to the task of the first. */
  lemma ExpiryMakesStray(key: string)
    ensures var u := Run(Two(key, true), [Advance(0), Advance(1), Advance(0), Advance(1), Expire(key),
                                     Advance(1), Advance(0), Advance(0)]);
      Initial(u.start) && End(u) == Duo(key, true, Publishing, Answered("b"), map[], {"a"})
  {
    var u := Run(Two(key, true), [Advance(0), Advance(1), Advance(0), Advance(1), Expire(key),
                             Advance(1), Advance(0), Advance(0)]);
    Goes(u, 0, u.start, Duo(key, true, Acquiring, Arrived, map[], {}));
    Goes(u, 1, Duo(key, true, Acquiring, Arrived, map[], {}), Duo(key, true, Acquiring, Acquiring, map[], {}));
    Goes(u, 2, Duo(key, true, Acquiring, Acquiring, map[], {}), Duo(key, true, Quota, Acquiring, Taken(key), {}));
    Goes(u, 3, Duo(key, true, Quota, Acquiring, Taken(key), {}), Duo(key, true, Quota, Outrun, Taken(key), {}));
    SecondStrays(u, key);
    hide At;
  }

  lemma SecondStrays(u: Run, key: string)
    requires |u.steps| == 8 && u.steps[4] == Expire(key) && u.steps[5] == Advance(1) && u.steps[6] == u.steps[7] == Advance(0)
    requires At(u, 4) == Duo(key, true, Quota, Outrun, Taken(key), {})
    ensures End(u) == Duo(key, true, Publishing, Answered("b"), map[], {"a"})
  {
    Goes(u, 4, Duo(key, true, Quota, Outrun, Taken(key), {}), Duo(key, true, Quota, Outrun, map[], {}));
    Goes(u, 5, Duo(key, true, Quota, Outrun, map[], {}), Duo(key, true, Quota, Answered("b"), map[], {}));
    Goes(u, 6, Duo(key, true, Quota, Answered("b"), map[], {}), Duo(key, true, Creating, Answered("b"), map[], {}));
    Goes(u, 7, Duo(key, true, Creating, Answered("b"), map[], {}), Duo(key, true, Publishing, Answered("b"), map[], {"a"}));
    hide At;
  }
}

/**
 * How far a run goes: the first candidate that answers is the one that serves, a run that fails has
 * been to every candidate, and every call is held for or against its provider.
 */
module Fallback {
  import opened Common
  import opened Text
  import opened Envelope
  import opened Policy
  import opened Pipeline
  import opened Executor
  import opened ExecutorLaws

  // ---------------------------------------------------------------- one hop

  /** A reply that ends a hop well: it came, and the verifier has nothing against it. */
  predicate Acceptable(judge: Judge, sent: Request, a: Attempt) {
    !a.abortedBefore && a.reply.Ok? && judge(a.reply.value, sent) == None
  }

  /** Attempt n is the first acceptable one, and every one before it failed in a way worth another. */
  predicate AnswersOn(judge: Judge, sent: Request, attempts: nat -> Attempt, n: nat) {
    n <= 2 && Acceptable(judge, sent, attempts(n)) && forall i: nat :: i < n ==> WorthAnother(judge, sent, attempts(i))
  }

  lemma {:induction false} SomeAttemptAnswers(judge: Judge, route: Route, sent: Request, attempts: nat -> Attempt,
                                              attempt: nat, last: Option<RouterError>) returns (n: nat)
    requires attempt <= MAX_RETRIES && Attempts(judge, route, sent, attempts, attempt, last).result.Ok?
    requires forall i: nat :: i < attempt ==> WorthAnother(judge, sent, attempts(i))
    ensures AnswersOn(judge, sent, attempts, n)
    decreases MAX_RETRIES - attempt
  {
    var outcome := Judged(judge, attempts(attempt).reply, sent);
    if outcome.Ok? {
      n := attempt;
    } else {
      assert WorthAnother(judge, sent, attempts(attempt));
      n := SomeAttemptAnswers(judge, route, sent, attempts, attempt + 1, Some(outcome.error));
    }
  }

  /** A hop answers exactly when one of its three attempts does, and with that attempt's reply. */
  lemma HopAnswersExactlyWhen(judge: Judge, route: Route, sent: Request, attempts: nat -> Attempt)
    ensures var result := Attempts(judge, route, sent, attempts, 0, None).result;
            && (result.Ok? <==> exists n: nat :: AnswersOn(judge, sent, attempts, n))
            && forall n: nat :: AnswersOn(judge, sent, attempts, n) ==> result == attempts(n).reply
  {
    var result := Attempts(judge, route, sent, attempts, 0, None).result;
    if result.Ok? {
      var n := SomeAttemptAnswers(judge, route, sent, attempts, 0, None);
    }
    forall n: nat | AnswersOn(judge, sent, attempts, n) ensures result == attempts(n).reply {
      FirstGoodReplyAnswers(judge, route, sent, attempts, 0, None, n);
    }
  }

  // ---------------------------------------------------------------- one candidate

  /** The candidate has a row, routes, is let through by the breaker and gets a slot. */
  predicate GetsSlot(s: Setting, w: Hop, id: string) {
    && Lookup(s.p.rows, id).Some? && w.breakerAllows && w.slotGranted
    && RouteFor(s.o, s.p, Lookup(s.p.rows, id).value, w.provider).Ok?
  }

  predicate AnswersAt(s: Setting, w: Hop, id: string, n: nat) {
    GetsSlot(s, w, id) && AnswersOn(s.judge, HopEnvelope(s.o, Lookup(s.p.rows, id).value), w.attempts, n)
  }

  /** Nobody leaves, and the candidate is missing, unroutable, refused or fails. */
  ghost predicate PassedBy(s: Setting, w: Hop, id: string) {
    !w.aborted && !w.abortedAfter && forall n: nat :: !AnswersAt(s, w, id, n)
  }

  lemma VisitAnswersExactlyWhen(s: Setting, w: Hop, id: string, last: Option<RouterError>)
    requires !w.aborted
    ensures var v := VisitOf(s, w, id, last);
            && (v.answer.Some? <==> exists n: nat :: AnswersAt(s, w, id, n))
            && (forall n: nat :: AnswersAt(s, w, id, n) ==>
                  w.attempts(n).reply.Ok? && v.answer == Some(w.attempts(n).reply.value))
            && (v.answer.None? && !w.abortedAfter ==> !v.stop)
  {
    if GetsSlot(s, w, id) {
      var route := RouteFor(s.o, s.p, Lookup(s.p.rows, id).value, w.provider).value;
      var sent := HopEnvelope(s.o, route.model);
      HopAnswersExactlyWhen(s.judge, route, sent, w.attempts);
      if n: nat :| AnswersOn(s.judge, sent, w.attempts, n) {
        assert AnswersAt(s, w, id, n);
      }
    }
  }

  // ---------------------------------------------------------------- the chain

  /** Past candidates that come to nothing, the first that answers serves. */
  lemma {:induction false} ChainReaches(s: Setting, ids: seq<string>, k: nat, last: Option<RouterError>, j: nat, n: nat)
    requires j < |ids| && !s.world(k + j).aborted && AnswersAt(s, s.world(k + j), ids[j], n)
    requires forall i: nat :: i < j ==> PassedBy(s, s.world(k + i), ids[i])
    ensures Chain(s, ids, k, last).result == s.world(k + j).attempts(n).reply
    decreases |ids|
  {
    var v := VisitOf(s, s.world(k), ids[0], last);
    if j == 0 {
      VisitAnswersExactlyWhen(s, s.world(k), ids[0], last);
    } else {
      assert PassedBy(s, s.world(k + 0), ids[0]);
      VisitAnswersExactlyWhen(s, s.world(k), ids[0], last);
      forall i: nat | i < j - 1 ensures PassedBy(s, s.world(k + 1 + i), ids[1..][i]) {
        assert PassedBy(s, s.world(k + (i + 1)), ids[i + 1]);
      }
      assert s.world(k + 1 + (j - 1)) == s.world(k + j);
      ChainReaches(s, ids[1..], k + 1, v.last, j - 1, n);
    }
  }

  lemma VisitAnswerIs(s: Setting, w: Hop, id: string, last: Option<RouterError>) returns (n: nat)
    requires VisitOf(s, w, id, last).answer.Some?
    ensures AnswersAt(s, w, id, n)
  {
    VisitAnswersExactlyWhen(s, w, id, last);
    n :| AnswersAt(s, w, id, n);
  }

  lemma RestAnswers(s: Setting, ids: seq<string>, k: nat, last: Option<RouterError>)
    requires ids != [] && Chain(s, ids, k, last).result.Ok? && VisitOf(s, s.world(k), ids[0], last).answer.None?
    ensures Chain(s, ids[1..], k + 1, VisitOf(s, s.world(k), ids[0], last).last).result.Ok?
  {
  }

  lemma {:induction false} ChainAnswerIsSomeones(s: Setting, ids: seq<string>, k: nat, last: Option<RouterError>)
    returns (j: nat, n: nat)
    requires Chain(s, ids, k, last).result.Ok?
    ensures j < |ids| && AnswersAt(s, s.world(k + j), ids[j], n)
    decreases |ids|
  {
    var v := VisitOf(s, s.world(k), ids[0], last);
    if v.answer.Some? {
      n := VisitAnswerIs(s, s.world(k), ids[0], last);
      j := 0;
    } else {
      RestAnswers(s, ids, k, last);
      j, n := ChainAnswerIsSomeones(s, ids[1..], k + 1, v.last);
      assert s.world(k + 1 + j) == s.world(k + (j + 1));
      j := j + 1;
    }
  }

  /** Nobody aborts, at any candidate. */
  ghost predicate NoAborts(s: Setting) {
    forall k: nat :: Undisturbed(s.world(k))
  }

  predicate Undisturbed(w: Hop) {
    !w.aborted && !w.abortedAfter
  }

  ghost predicate SomeoneAnswers(s: Setting, ids: seq<string>) {
    exists j: nat, n: nat :: AnswersFrom(s, ids, j, n)
  }

  predicate AnswersFrom(s: Setting, ids: seq<string>, j: nat, n: nat) {
    j < |ids| && AnswersAt(s, s.world(j), ids[j], n)
  }

  /** The first candidate that answers serves the request with its reply. */
  lemma FirstAnswerServes(s: Setting, m: Model, j: nat, n: nat)
    requires Select(s.p, s.o.envelope) == Ok(m)
    requires var ids := CandidateIds(s.p, m);
             && AnswersFrom(s, ids, j, n) && !s.world(j).aborted
             && forall i: nat :: i < j ==> PassedBy(s, s.world(i), ids[i])
    ensures Execute(s).result == s.world(j).attempts(n).reply
  {
    var ids := CandidateIds(s.p, m);
    forall i: nat | i < j ensures PassedBy(s, s.world(0 + i), ids[i]) {
      assert PassedBy(s, s.world(i), ids[i]);
    }
    ChainReaches(s, ids, 0, None, j, n);
  }

  /** The selected model is asked before any fallback. */
  lemma SelectedModelServes(s: Setting, m: Model, n: nat)
    requires Select(s.p, s.o.envelope) == Ok(m) && !s.world(0).aborted && AnswersAt(s, s.world(0), m.id, n)
    ensures Execute(s).result == s.world(0).attempts(n).reply
  {
    FirstAnswerServes(s, m, 0, n);
  }

  /** The candidates are the selected model, then the chain as configured without it. */
  lemma CandidatesAre(p: Effective, m: Model)
    ensures var ids := CandidateIds(p, m);
            && |ids| > 0 && ids[0] == m.id && m.id !in ids[1..]
            && forall id :: id in ids[1..] <==> id in p.fallbackChain && id != m.id
    ensures m.id !in p.fallbackChain ==> CandidateIds(p, m)[1..] == p.fallbackChain
  {
    if m.id !in p.fallbackChain {
      NothingLeftOut(p.fallbackChain, m.id);
    }
  }

  lemma {:induction false} NothingLeftOut(chain: seq<string>, primary: string)
    requires primary !in chain
    ensures Others(chain, primary) == chain
  {
    if chain != [] {
      NothingLeftOut(chain[1..], primary);
    }
  }

  lemma {:induction false} FirstOf(s: Setting, ids: seq<string>, j: nat, n: nat) returns (j': nat, n': nat)
    requires AnswersFrom(s, ids, j, n) && NoAborts(s)
    ensures AnswersFrom(s, ids, j', n') && forall i: nat :: i < j' ==> PassedBy(s, s.world(i), ids[i])
    decreases j
  {
    if i: nat, m: nat :| i < j && AnswersFrom(s, ids, i, m) {
      j', n' := FirstOf(s, ids, i, m);
    } else {
      j', n' := j, n;
      forall i: nat | i < j ensures PassedBy(s, s.world(i), ids[i]) {
        assert Undisturbed(s.world(i));
        assert forall m: nat :: !AnswersFrom(s, ids, i, m);
        forall m: nat ensures !AnswersAt(s, s.world(i), ids[i], m) {
          assert !AnswersFrom(s, ids, i, m);
        }
      }
    }
  }

  /** A run nobody aborts succeeds exactly when some candidate would answer. */
  lemma ServesExactlyWhen(s: Setting, m: Model)
    requires Select(s.p, s.o.envelope) == Ok(m) && NoAborts(s)
    ensures Execute(s).result.Ok? <==> SomeoneAnswers(s, CandidateIds(s.p, m))
  {
    var ids := CandidateIds(s.p, m);
    if Execute(s).result.Ok? {
      var j, n := ChainAnswerIsSomeones(s, ids, 0, None);
      assert AnswersFrom(s, ids, j, n);
    }
    if SomeoneAnswers(s, ids) {
      var j: nat, n: nat :| AnswersFrom(s, ids, j, n);
      j, n := FirstOf(s, ids, j, n);
      assert Undisturbed(s.world(j));
      FirstAnswerServes(s, m, j, n);
    }
  }

  // ---------------------------------------------------------------- every candidate in order

  /** What the first event of a visit must be. */
  function OpeningOf(o: Outbound, p: Effective, m: Model, provider: Result<string>, allowed: bool, granted: bool): Event
  {
    match RouteFor(o, p, m, provider)
    case Err(e) => Skipped(m, e)
    case Ok(route) =>
      if !allowed then Refused(m, RouterError(ProviderUnavailable, CircuitOpen))
      else if !granted then Refused(m, RouterError(RateLimited, NoSlot))
      else Granted(route)
  }

  function Openings(log: seq<Event>): seq<Event> {
    if log == [] then []
    else (if log[0].Skipped? || log[0].Refused? || log[0].Granted? then [log[0]] else []) + Openings(log[1..])
  }

  /** One opening per candidate with a row, in order. */
  function Expected(s: Setting, ids: seq<string>, k: nat): seq<Event>
    decreases |ids|
  {
    if ids == [] then []
    else
      var w, m := s.world(k), Lookup(s.p.rows, ids[0]);
      (if m.None? then [] else [OpeningOf(s.o, s.p, m.value, w.provider, w.breakerAllows, w.slotGranted)])
      + Expected(s, ids[1..], k + 1)
  }

  lemma {:induction false} OpeningsAppend(a: seq<Event>, b: seq<Event>)
    ensures Openings(a + b) == Openings(a) + Openings(b)
  {
    if a == [] {
      NoPrefix(b);
      NoPrefix(Openings(b));
    } else {
      assert (a + b)[1..] == a[1..] + b;
      OpeningsAppend(a[1..], b);
      var first: seq<Event> := if a[0].Skipped? || a[0].Refused? || a[0].Granted? then [a[0]] else [];
      Regroup(first, Openings(a[1..]), Openings(b));
    }
  }

  lemma {:induction false} NoOpenings(log: seq<Event>)
    requires forall i :: 0 <= i < |log| ==> !log[i].Skipped? && !log[i].Refused? && !log[i].Granted?
    ensures Openings(log) == []
  {
    if log != [] { NoOpenings(log[1..]); }
  }

  lemma OneOpening(e: Event, rest: seq<Event>)
    requires e.Skipped? || e.Refused? || e.Granted?
    requires forall i :: 0 <= i < |rest| ==> !rest[i].Skipped? && !rest[i].Refused? && !rest[i].Granted?
    ensures Openings([e] + rest) == [e]
  {
    assert ([e] + rest)[1..] == rest;
    NoOpenings(rest);
    NoPrefix([e]);
  }

  lemma ServedOpens(route: Route, run: Run)
    requires forall i :: 0 <= i < |run.log| ==> run.log[i].Call? || run.log[i].Recorded?
    ensures Openings(Served(route, run)) == [Granted(route)]
  {
    var rest := run.log + (if run.result.Err? then [Failed(run.result.error)] else []) + [Released(route.provider)];
    OneOpening(Granted(route), rest);
    assert Served(route, run) == [Granted(route)] + rest;
  }

  lemma HopOpens(s: Setting, w: Hop, model: Model, routed: Result<Route>, last: Option<RouterError>)
    requires routed == RouteFor(s.o, s.p, model, w.provider)
    ensures Openings(HopOf(s, w, model, routed, last).log) ==
            [OpeningOf(s.o, s.p, model, w.provider, w.breakerAllows, w.slotGranted)]
  {
    var log := HopOf(s, w, model, routed, last).log;
    match routed {
      case Err(e) =>
        OneOpening(Skipped(model, e), []);
        NoPrefix(log);
      case Ok(route) =>
        if !w.breakerAllows || !w.slotGranted {
          OneOpening(log[0], []);
          NoPrefix(log);
        } else {
          var sent := HopEnvelope(s.o, route.model);
          AttemptsGrantNothing(s.judge, route, sent, w.attempts, 0, None);
          ServedOpens(route, Attempts(s.judge, route, sent, w.attempts, 0, None));
        }
    }
  }

  lemma VisitOpens(s: Setting, w: Hop, id: string, last: Option<RouterError>)
    requires !w.aborted
    ensures Openings(VisitOf(s, w, id, last).log) ==
            if Lookup(s.p.rows, id).None? then []
            else [OpeningOf(s.o, s.p, Lookup(s.p.rows, id).value, w.provider, w.breakerAllows, w.slotGranted)]
  {
    var m := Lookup(s.p.rows, id);
    if m.Some? {
      HopOpens(s, w, m.value, RouteFor(s.o, s.p, m.value, w.provider), last);
    }
  }

  lemma {:induction false} ChainOpens(s: Setting, ids: seq<string>, k: nat, last: Option<RouterError>)
    requires NoAborts(s)
    ensures Openings(Chain(s, ids, k, last).log) <= Expected(s, ids, k)
    ensures Chain(s, ids, k, last).result.Err? ==> Openings(Chain(s, ids, k, last).log) == Expected(s, ids, k)
    decreases |ids|
  {
    if ids != [] {
      var w := s.world(k);
      assert Undisturbed(w);
      var v := VisitOf(s, w, ids[0], last);
      VisitOpens(s, w, ids[0], last);
      VisitAnswersExactlyWhen(s, w, ids[0], last);
      if v.answer.None? {
        ChainOpens(s, ids[1..], k + 1, v.last);
        OpeningsAppend(v.log, Chain(s, ids[1..], k + 1, v.last).log);
      }
    }
  }

  /**
   * A run nobody aborts visits its candidates in order, each with the opening its own circumstances
   * call for, and one that fails has visited them all.
   */
  lemma FailedRunsVisitEveryone(s: Setting, m: Model)
    requires Select(s.p, s.o.envelope) == Ok(m) && NoAborts(s)
    ensures Openings(Execute(s).log) <= Expected(s, CandidateIds(s.p, m), 0)
    ensures Execute(s).result.Err? ==> Openings(Execute(s).log) == Expected(s, CandidateIds(s.p, m), 0)
  {
    ChainOpens(s, CandidateIds(s.p, m), 0, None);
  }

  /** Leaving the selected model out keeps the others in the order of the chain. */
  lemma {:induction false} OthersKeepOrder(a: seq<string>, b: seq<string>, primary: string)
    ensures Others(a + b, primary) == Others(a, primary) + Others(b, primary)
    ensures forall id :: Others([id], primary) == if id == primary then [] else [id]
  {
    forall id ensures Others([id], primary) == if id == primary then [] else [id] {
      assert [id][1..] == [];
    }
    if a == [] {
      NoPrefix(b);
      NoPrefix(Others(b, primary));
    } else {
      assert (a + b)[1..] == a[1..] + b;
      OthersKeepOrder(a[1..], b, primary);
      Regroup(if a[0] != primary then [a[0]] else [], Others(a[1..], primary), Others(b, primary));
    }
  }

  // ---------------------------------------------------------------- who is blamed

  /** Every call is directly followed by its own record. */
  ghost predicate CallsAreNoted(log: seq<Event>) {
    forall i :: 0 <= i < |log| && log[i].Call? ==>
      i + 1 < |log| && log[i + 1] == Recorded(log[i].route.provider, log[i].outcome.Ok?)
  }

  lemma NotedAppend(a: seq<Event>, b: seq<Event>)
    requires CallsAreNoted(a) && CallsAreNoted(b)
    ensures CallsAreNoted(a + b)
  {
    var log := a + b;
    forall i | 0 <= i < |log| && log[i].Call?
      ensures i + 1 < |log| && log[i + 1] == Recorded(log[i].route.provider, log[i].outcome.Ok?)
    {
      if i < |a| {
        assert log[i] == a[i] && log[i + 1] == a[i + 1];
      } else {
        assert log[i] == b[i - |a|] && log[i + 1] == b[i - |a| + 1];
      }
    }
  }

  lemma {:induction false} AttemptsAreNoted(judge: Judge, route: Route, sent: Request, attempts: nat -> Attempt,
                                            attempt: nat, last: Option<RouterError>)
    requires attempt <= MAX_RETRIES && forall n: nat :: !attempts(n).abortedAfter
    ensures CallsAreNoted(Attempts(judge, route, sent, attempts, attempt, last).log)
    decreases MAX_RETRIES - attempt
  {
    var a := attempts(attempt);
    if !a.abortedBefore {
      var outcome := Judged(judge, a.reply, sent);
      var log := Tried(route, sent, attempt, a, outcome);
      assert CallsAreNoted(log);
      if outcome.Err? && !GivesUp(a, attempt, outcome.error) {
        AttemptsAreNoted(judge, route, sent, attempts, attempt + 1, Some(outcome.error));
        NotedAppend(log, Attempts(judge, route, sent, attempts, attempt + 1, Some(outcome.error)).log);
      }
    }
  }

  /** A failure that an abort may have caused is never held against the provider: the hop's calls end with it. */
  lemma {:induction false} AbortsAreNotBlamed(judge: Judge, route: Route, sent: Request, attempts: nat -> Attempt,
                                              attempt: nat, last: Option<RouterError>, i: nat)
    requires attempt <= MAX_RETRIES
    requires var log := Attempts(judge, route, sent, attempts, attempt, last).log;
             i < |log| && log[i].Call? && log[i].outcome.Err? && attempts(log[i].attempt).abortedAfter
    ensures i == |Attempts(judge, route, sent, attempts, attempt, last).log| - 1
    decreases MAX_RETRIES - attempt
  {
    var a := attempts(attempt);
    var outcome := Judged(judge, a.reply, sent);
    var log := Tried(route, sent, attempt, a, outcome);
    if i >= |log| {
      AbortsAreNotBlamed(judge, route, sent, attempts, attempt + 1, Some(outcome.error), i - |log|);
    }
  }

  lemma ServedIsNoted(route: Route, run: Run)
    requires CallsAreNoted(run.log)
    ensures CallsAreNoted(Served(route, run))
  {
    var failed: seq<Event> := if run.result.Err? then [Failed(run.result.error)] else [];
    NotedAppend([Granted(route)], run.log);
    NotedAppend([Granted(route)] + run.log, failed);
    NotedAppend([Granted(route)] + run.log + failed, [Released(route.provider)]);
  }

  /** No attempt of the hop is aborted under way. */
  ghost predicate CalmAttempts(w: Hop) {
    forall n: nat :: !w.attempts(n).abortedAfter
  }

  lemma HopIsNoted(s: Setting, w: Hop, model: Model, routed: Result<Route>, last: Option<RouterError>)
    requires CalmAttempts(w)
    ensures CallsAreNoted(HopOf(s, w, model, routed, last).log)
  {
    if routed.Ok? && w.breakerAllows && w.slotGranted {
      var sent := HopEnvelope(s.o, routed.value.model);
      AttemptsAreNoted(s.judge, routed.value, sent, w.attempts, 0, None);
      ServedIsNoted(routed.value, Attempts(s.judge, routed.value, sent, w.attempts, 0, None));
    }
  }

  lemma {:induction false} ChainIsNoted(s: Setting, ids: seq<string>, k: nat, last: Option<RouterError>)
    requires forall i: nat :: CalmAttempts(s.world(i))
    ensures CallsAreNoted(Chain(s, ids, k, last).log)
    decreases |ids|
  {
    if ids != [] {
      var w, m := s.world(k), Lookup(s.p.rows, ids[0]);
      var v := VisitOf(s, w, ids[0], last);
      if m.Some? {
        HopIsNoted(s, w, m.value, RouteFor(s.o, s.p, m.value, w.provider), last);
      }
      if v.answer.None? && !v.stop {
        ChainIsNoted(s, ids[1..], k + 1, v.last);
        NotedAppend(v.log, Chain(s, ids[1..], k + 1, v.last).log);
      }
    }
  }

  /** Without aborts every call of a run is recorded with the breaker, as the success or failure it was. */
  lemma EveryCallIsRecorded(s: Setting)
    requires forall k: nat :: CalmAttempts(s.world(k))
    ensures CallsAreNoted(Execute(s).log)
  {
    var m := Select(s.p, s.o.envelope);
    if m.Ok? {
      ChainIsNoted(s, CandidateIds(s.p, m.value), 0, None);
    }
  }
}

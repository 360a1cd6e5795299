/** What every non-streaming run keeps. */
module ExecutorLaws {
  import opened Common
  import opened Text
  import opened Envelope
  import opened Policy
  import opened Pipeline
  import opened VerifyResponse
  import opened Executor

  // ---------------------------------------------------------------- the protocol of a run

  /** Where a run stands: between hops, or inside one that holds a slot. */
  datatype Phase =
    | Idle
    | Ready(route: Route)
    | Called(route: Route, attempt: nat, outcome: Result<Response>)
    | Noted(route: Route, attempt: nat, outcome: Result<Response>)
    | Streaming(route: Route)
    | Settled(route: Route)
    | Faulted(route: Route)
    | Closing(route: Route)
    | Broken

  /** The only moves a run may make. */
  function Move(ph: Phase, e: Event): Phase {
    match (ph, e)
    case (Idle, Skipped(_, _)) => Idle
    case (Idle, Refused(_, _)) => Idle
    case (Idle, Granted(r)) => Ready(r)
    case (Ready(r), Call(r', _, 0, outcome)) => if r == r' then Called(r, 0, outcome) else Broken
    case (Ready(r), Failed(_)) => Closing(r)
    case (Called(r, k, outcome), Recorded(provider, ok)) =>
      if provider == r.provider && ok == outcome.Ok? then Noted(r, k, outcome) else Broken
    case (Called(r, k, Err(e)), Failed(e')) => if e == e' then Closing(r) else Broken
    case (Noted(r, k, Err(e)), Call(r', _, k', outcome)) =>
      if r == r' && k' == k + 1 <= MAX_RETRIES && WorthRetrying(e) then Called(r, k', outcome) else Broken
    case (Noted(r, k, Err(e)), Failed(e')) => if e == e' then Closing(r) else Broken
    case (Noted(r, k, Ok(_)), Released(provider)) => if provider == r.provider then Idle else Broken
    case (Ready(r), Opened(r', _)) => if r == r' then Streaming(r) else Broken
    case (Streaming(r), Yielded(r', _)) => if r == r' then Streaming(r) else Broken
    case (Streaming(r), Recorded(provider, ok)) =>
      if provider != r.provider then Broken else if ok then Settled(r) else Faulted(r)
    case (Streaming(r), Failed(_)) => Closing(r)
    case (Streaming(r), Released(provider)) => if provider == r.provider then Idle else Broken
    case (Settled(r), Released(provider)) => if provider == r.provider then Idle else Broken
    case (Faulted(r), Failed(_)) => Closing(r)
    case (Closing(r), Released(provider)) => if provider == r.provider then Idle else Broken
    case _ => Broken
  }

  function After(ph: Phase, log: seq<Event>): Phase {
    if log == [] then ph else Move(After(ph, log[..|log| - 1]), log[|log| - 1])
  }

  lemma {:induction false} AfterAppend(ph: Phase, a: seq<Event>, b: seq<Event>)
    ensures After(ph, a + b) == After(After(ph, a), b)
    decreases |b|
  {
    if b == [] {
      NoPrefix(a);
    } else {
      assert (a + b)[..|a + b| - 1] == a + b[..|b| - 1];
      AfterAppend(ph, a, b[..|b| - 1]);
    }
  }

  lemma AfterOne(ph: Phase, e: Event)
    ensures After(ph, [e]) == Move(ph, e)
  {
    assert [e][..0] == [];
  }

  /** Where the attempt loop may be entered. */
  predicate Entry(ph: Phase, route: Route, attempt: nat, last: Option<RouterError>) {
    if attempt == 0 then ph == Ready(route) && last == None
    else ph.Noted? && ph.route == route && ph.attempt == attempt - 1 && ph.outcome.Err?
         && WorthRetrying(ph.outcome.error) && last == Some(ph.outcome.error)
  }

  /** Where it may be left. */
  predicate Exit(ph: Phase, route: Route, result: Result<Response>) {
    match result
    case Ok(_) => ph.Noted? && ph.route == route && ph.outcome == result
    case Err(e) => ph == Ready(route) || ((ph.Called? || ph.Noted?) && ph.route == route && ph.outcome == result)
  }

  lemma {:induction false} AttemptsFollow(judge: Judge, route: Route, sent: Request, attempts: nat -> Attempt,
                                          attempt: nat, last: Option<RouterError>, ph: Phase)
    requires attempt <= MAX_RETRIES && Entry(ph, route, attempt, last)
    ensures var run := Attempts(judge, route, sent, attempts, attempt, last);
            Exit(After(ph, run.log), route, run.result)
    decreases MAX_RETRIES - attempt
  {
    var a := attempts(attempt);
    if a.abortedBefore {
      EntryExits(ph, route, attempt, last);
    } else {
      var outcome := Judged(judge, a.reply, sent);
      if outcome.Err? && !GivesUp(a, attempt, outcome.error) {
        AttemptsFollow(judge, route, sent, attempts, attempt + 1, Some(outcome.error), Noted(route, attempt, outcome));
        var rest := Attempts(judge, route, sent, attempts, attempt + 1, Some(outcome.error));
        TriedGoesOn(route, sent, attempt, a, outcome, last, ph, rest);
      } else {
        TriedStops(route, sent, attempt, a, outcome, last, ph);
      }
    }
  }

  lemma TriedGoesOn(route: Route, sent: Request, attempt: nat, a: Attempt, outcome: Result<Response>,
                    last: Option<RouterError>, ph: Phase, rest: Run)
    requires attempt <= MAX_RETRIES && Entry(ph, route, attempt, last)
    requires outcome.Err? && !GivesUp(a, attempt, outcome.error)
    requires Exit(After(Noted(route, attempt, outcome), rest.log), route, rest.result)
    ensures Exit(After(ph, Tried(route, sent, attempt, a, outcome) + rest.log), route, rest.result)
  {
    TriedFollows(route, sent, attempt, a, outcome, last, ph);
    AfterAppend(ph, Tried(route, sent, attempt, a, outcome), rest.log);
  }

  lemma TriedStops(route: Route, sent: Request, attempt: nat, a: Attempt, outcome: Result<Response>,
                   last: Option<RouterError>, ph: Phase)
    requires attempt <= MAX_RETRIES && Entry(ph, route, attempt, last)
    ensures Exit(After(ph, Tried(route, sent, attempt, a, outcome)), route, outcome)
  {
    TriedFollows(route, sent, attempt, a, outcome, last, ph);
  }

  lemma EntryExits(ph: Phase, route: Route, attempt: nat, last: Option<RouterError>)
    requires Entry(ph, route, attempt, last)
    ensures Exit(ph, route, Err(last.OrElse(ABORTED)))
  {
  }

  lemma EntryCalls(route: Route, sent: Request, attempt: nat, outcome: Result<Response>, last: Option<RouterError>,
                   ph: Phase)
    requires attempt <= MAX_RETRIES && Entry(ph, route, attempt, last)
    ensures Move(ph, Call(route, sent, attempt, outcome)) == Called(route, attempt, outcome)
  {
  }

  lemma TriedFollows(route: Route, sent: Request, attempt: nat, a: Attempt, outcome: Result<Response>,
                     last: Option<RouterError>, ph: Phase)
    requires attempt <= MAX_RETRIES && Entry(ph, route, attempt, last)
    ensures After(ph, Tried(route, sent, attempt, a, outcome)) ==
            if outcome.Ok? || !a.abortedAfter then Noted(route, attempt, outcome) else Called(route, attempt, outcome)
  {
    var call := Call(route, sent, attempt, outcome);
    AfterOne(ph, call);
    EntryCalls(route, sent, attempt, outcome, last, ph);
    var note := Recorded(route.provider, outcome.Ok?);
    AfterAppend(ph, [call], [note]);
    AfterOne(Called(route, attempt, outcome), note);
    NoPrefix([call]);
  }

  lemma ServedFollows(judge: Judge, route: Route, sent: Request, attempts: nat -> Attempt)
    ensures After(Idle, Served(route, Attempts(judge, route, sent, attempts, 0, None))) == Idle
  {
    var run := Attempts(judge, route, sent, attempts, 0, None);
    AfterOne(Idle, Granted(route));
    AttemptsFollow(judge, route, sent, attempts, 0, None, Ready(route));
    AfterAppend(Idle, [Granted(route)], run.log);
    ClosingFollows(route, run.result, [Granted(route)] + run.log);
  }

  lemma ClosingFollows(route: Route, result: Result<Response>, log: seq<Event>)
    requires Exit(After(Idle, log), route, result)
    ensures After(Idle, log + (if result.Err? then [Failed(result.error)] else []) + [Released(route.provider)]) == Idle
  {
    if result.Err? {
      FailureCloses(route, result, log);
    } else {
      NoPrefix(log);
      SuccessCloses(route, result, log);
    }
  }

  lemma SuccessCloses(route: Route, result: Result<Response>, log: seq<Event>)
    requires result.Ok? && Exit(After(Idle, log), route, result)
    ensures After(Idle, log + [Released(route.provider)]) == Idle
  {
    AfterAppend(Idle, log, [Released(route.provider)]);
    AfterOne(After(Idle, log), Released(route.provider));
  }

  lemma FailureCloses(route: Route, result: Result<Response>, log: seq<Event>)
    requires result.Err? && Exit(After(Idle, log), route, result)
    ensures After(Idle, log + [Failed(result.error)] + [Released(route.provider)]) == Idle
  {
    FailureEndsCalls(route, result, log);
    AfterAppend(Idle, log + [Failed(result.error)], [Released(route.provider)]);
    AfterOne(Closing(route), Released(route.provider));
  }

  lemma FailureEndsCalls(route: Route, result: Result<Response>, log: seq<Event>)
    requires result.Err? && Exit(After(Idle, log), route, result)
    ensures After(Idle, log + [Failed(result.error)]) == Closing(route)
  {
    AfterAppend(Idle, log, [Failed(result.error)]);
    AfterOne(After(Idle, log), Failed(result.error));
  }

  lemma HopFollows(s: Setting, w: Hop, model: Model, routed: Result<Route>, last: Option<RouterError>)
    ensures After(Idle, HopOf(s, w, model, routed, last).log) == Idle
  {
    match routed {
      case Err(e) => AfterOne(Idle, Skipped(model, e));
      case Ok(route) =>
        AfterOne(Idle, Refused(model, BREAKER_OPEN));
        AfterOne(Idle, Refused(model, NO_SLOT));
        ServedFollows(s.judge, route, HopEnvelope(s.o, route.model), w.attempts);
    }
  }

  lemma VisitFollows(s: Setting, w: Hop, id: string, last: Option<RouterError>)
    ensures After(Idle, VisitOf(s, w, id, last).log) == Idle
  {
    var model := Lookup(s.p.rows, id);
    if model.Some? {
      HopFollows(s, w, model.value, RouteFor(s.o, s.p, model.value, w.provider), last);
    }
  }

  lemma {:induction false} ChainFollows(s: Setting, ids: seq<string>, k: nat, last: Option<RouterError>)
    ensures After(Idle, Chain(s, ids, k, last).log) == Idle
    decreases |ids|
  {
    if ids != [] {
      var v := VisitOf(s, s.world(k), ids[0], last);
      VisitFollows(s, s.world(k), ids[0], last);
      if v.answer.None? && !v.stop {
        var rest := Chain(s, ids[1..], k + 1, v.last);
        AfterAppend(Idle, v.log, rest.log);
        ChainFollows(s, ids[1..], k + 1, v.last);
      }
    }
  }

  /**
   * Every run follows the protocol from start to finish: one slot at a time, given back before the
   * next is taken and at the end; every call inside a slot; at most one breaker record per call.
   */
  lemma RunFollowsProtocol(s: Setting)
    ensures After(Idle, Execute(s).log) == Idle
  {
    var m := Select(s.p, s.o.envelope);
    if m.Ok? {
      ChainFollows(s, CandidateIds(s.p, m.value), 0, None);
    }
  }

  // ---------------------------------------------------------------- consequences of the protocol

  lemma {:induction false} BrokenStays(ph: Phase, log: seq<Event>, i: nat)
    requires i <= |log| && After(ph, log) != Broken
    ensures After(ph, log[..i]) != Broken
  {
    if i == |log| {
      assert log[..i] == log;
    } else {
      BrokenStays(ph, log[..|log| - 1], i);
      assert log[..|log| - 1][..i] == log[..i];
    }
  }

  /** Busy, down, or an unusable answer other than a truncated one. */
  predicate Transient(e: RouterError) {
    e.code in {RateLimited, ProviderUnavailable, InvalidResponse} && e != RouterError(InvalidResponse, Truncated)
  }

  /** A repeated call follows, on the same hop, a failed call whose error is worth retrying. */
  lemma RepeatsAreJustified(s: Setting, i: nat)
    requires var log := Execute(s).log; i < |log| && log[i].Call? && log[i].attempt > 0
    ensures var log := Execute(s).log;
            && i >= 2 && log[i].attempt <= 2 && log[i - 2].Call?
            && log[i - 2].route == log[i].route && log[i - 2].attempt == log[i].attempt - 1
            && log[i - 2].outcome.Err? && Transient(log[i - 2].outcome.error)
            && log[i - 1] == Recorded(log[i].route.provider, false)
  {
    var log := Execute(s).log;
    RunFollowsProtocol(s);
    RepeatJustified(log, i);
  }

  lemma LastMove(log: seq<Event>, i: nat)
    requires After(Idle, log) == Idle && i < |log|
    ensures Move(After(Idle, log[..i]), log[i]) == After(Idle, log[..i + 1]) != Broken
  {
    BrokenStays(Idle, log, i + 1);
    assert log[..i + 1][..i] == log[..i];
  }

  lemma RepeatJustified(log: seq<Event>, i: nat)
    requires After(Idle, log) == Idle && i < |log| && log[i].Call? && log[i].attempt > 0
    ensures i >= 2 && log[i].attempt <= MAX_RETRIES && log[i - 2].Call?
            && log[i - 2].route == log[i].route && log[i - 2].attempt == log[i].attempt - 1
            && log[i - 2].outcome.Err? && WorthRetrying(log[i - 2].outcome.error)
            && log[i - 1] == Recorded(log[i].route.provider, false)
  {
    LastMove(log, i);
    CallMoves(After(Idle, log[..i]), log[i]);
    assert i >= 1;
    LastMove(log, i - 1);
    NotedMoves(After(Idle, log[..i - 1]), log[i - 1]);
    assert i >= 2;
    LastMove(log, i - 2);
    CalledMoves(After(Idle, log[..i - 2]), log[i - 2]);
  }

  lemma CallMoves(ph: Phase, e: Event)
    requires e.Call? && e.attempt > 0 && Move(ph, e) != Broken
    ensures ph.Noted? && e.attempt == ph.attempt + 1 <= MAX_RETRIES && e.route == ph.route
    ensures ph.outcome.Err? && WorthRetrying(ph.outcome.error)
  {
  }

  lemma NotedMoves(ph: Phase, e: Event)
    requires Move(ph, e).Noted?
    ensures ph.Called? && Move(ph, e) == Noted(ph.route, ph.attempt, ph.outcome)
    ensures e == Recorded(ph.route.provider, ph.outcome.Ok?)
  {
  }

  lemma CalledMoves(ph: Phase, e: Event)
    requires Move(ph, e).Called?
    ensures e.Call? && Move(ph, e) == Called(e.route, e.attempt, e.outcome)
  {
  }

  function Grants(log: seq<Event>, provider: string): nat {
    if log == [] then 0
    else Grants(log[..|log| - 1], provider) +
         (if log[|log| - 1].Granted? && log[|log| - 1].route.provider == provider then 1 else 0)
  }

  function Releases(log: seq<Event>, provider: string): nat {
    if log == [] then 0
    else Releases(log[..|log| - 1], provider) + (if log[|log| - 1] == Released(provider) then 1 else 0)
  }

  predicate Holds(ph: Phase, provider: string) {
    !ph.Idle? && !ph.Broken? && ph.route.provider == provider
  }

  function Held(ph: Phase, provider: string): nat {
    if Holds(ph, provider) then 1 else 0
  }

  lemma MoveBalances(ph: Phase, e: Event, provider: string)
    requires Move(ph, e) != Broken
    ensures Held(Move(ph, e), provider) == Held(ph, provider)
              + (if e.Granted? && e.route.provider == provider then 1 else 0)
              - (if e == Released(provider) then 1 else 0)
  {
  }

  /** At every moment the slots taken and not yet given back are those of the current hop. */
  lemma {:induction false} SlotsBalance(log: seq<Event>, provider: string)
    requires After(Idle, log) != Broken
    ensures Grants(log, provider) == Releases(log, provider) + Held(After(Idle, log), provider)
  {
    if log != [] {
      SlotsBalance(log[..|log| - 1], provider);
      MoveBalances(After(Idle, log[..|log| - 1]), log[|log| - 1], provider);
    }
  }

  /** A finished run has given back exactly the slots it was granted. */
  lemma EveryGrantIsReleased(s: Setting, provider: string)
    ensures Grants(Execute(s).log, provider) == Releases(Execute(s).log, provider)
  {
    RunFollowsProtocol(s);
    SlotsBalance(Execute(s).log, provider);
  }

  // ---------------------------------------------------------------- how many calls

  function Calls(log: seq<Event>): nat {
    if log == [] then 0 else (if log[0].Call? then 1 else 0) + Calls(log[1..])
  }

  lemma {:induction false} CallsAppend(a: seq<Event>, b: seq<Event>)
    ensures Calls(a + b) == Calls(a) + Calls(b)
  {
    if a == [] {
      NoPrefix(b);
    } else {
      assert (a + b)[1..] == a[1..] + b;
      CallsAppend(a[1..], b);
    }
  }

  lemma OneEventCalls(e: Event)
    ensures Calls([e]) == if e.Call? then 1 else 0
  {
    assert [e][1..] == [];
  }

  lemma {:induction false} AttemptsBound(judge: Judge, route: Route, sent: Request, attempts: nat -> Attempt,
                                         attempt: nat, last: Option<RouterError>)
    requires attempt <= MAX_RETRIES
    ensures Calls(Attempts(judge, route, sent, attempts, attempt, last).log) <= MAX_RETRIES + 1 - attempt
    decreases MAX_RETRIES - attempt
  {
    var a := attempts(attempt);
    if !a.abortedBefore {
      var outcome := Judged(judge, a.reply, sent);
      var log := Tried(route, sent, attempt, a, outcome);
      var call, note := Call(route, sent, attempt, outcome), Recorded(route.provider, outcome.Ok?);
      OneEventCalls(call);
      OneEventCalls(note);
      CallsAppend([call], [note]);
      NoPrefix([call]);
      assert Calls(log) == 1;
      if outcome.Err? && !GivesUp(a, attempt, outcome.error) {
        var rest := Attempts(judge, route, sent, attempts, attempt + 1, Some(outcome.error));
        CallsAppend(log, rest.log);
        AttemptsBound(judge, route, sent, attempts, attempt + 1, Some(outcome.error));
      }
    }
  }

  lemma ServedCalls(route: Route, run: Run)
    ensures Calls(Served(route, run)) == Calls(run.log)
  {
    var failed: seq<Event> := if run.result.Err? then [Failed(run.result.error)] else [];
    var granted: seq<Event> := [Granted(route)];
    var released: seq<Event> := [Released(route.provider)];
    OneEventCalls(granted[0]);
    OneEventCalls(released[0]);
    if run.result.Err? { OneEventCalls(failed[0]); }
    CallsAppend(granted, run.log);
    CallsAppend(granted + run.log, failed);
    CallsAppend(granted + run.log + failed, released);
  }

  lemma HopBound(s: Setting, w: Hop, model: Model, routed: Result<Route>, last: Option<RouterError>)
    ensures Calls(HopOf(s, w, model, routed, last).log) <= MAX_RETRIES + 1
  {
    match routed {
      case Err(e) => OneEventCalls(Skipped(model, e));
      case Ok(route) =>
        OneEventCalls(Refused(model, BREAKER_OPEN));
        OneEventCalls(Refused(model, NO_SLOT));
        var sent := HopEnvelope(s.o, route.model);
        ServedCalls(route, Attempts(s.judge, route, sent, w.attempts, 0, None));
        AttemptsBound(s.judge, route, sent, w.attempts, 0, None);
    }
  }

  lemma VisitBound(s: Setting, w: Hop, id: string, last: Option<RouterError>)
    ensures Calls(VisitOf(s, w, id, last).log) <= MAX_RETRIES + 1
  {
    var model := Lookup(s.p.rows, id);
    if model.Some? {
      HopBound(s, w, model.value, RouteFor(s.o, s.p, model.value, w.provider), last);
    }
  }

  lemma {:induction false} ChainBound(s: Setting, ids: seq<string>, k: nat, last: Option<RouterError>)
    ensures Calls(Chain(s, ids, k, last).log) <= (MAX_RETRIES + 1) * |ids|
    decreases |ids|
  {
    if ids != [] {
      var v := VisitOf(s, s.world(k), ids[0], last);
      VisitBound(s, s.world(k), ids[0], last);
      if v.answer.None? && !v.stop {
        CallsAppend(v.log, Chain(s, ids[1..], k + 1, v.last).log);
        ChainBound(s, ids[1..], k + 1, v.last);
      }
    }
  }

  lemma CallsAreBounded(s: Setting)
    ensures Calls(Execute(s).log) <= 3 * (1 + |s.p.fallbackChain|)
  {
    var m := Select(s.p, s.o.envelope);
    if m.Ok? {
      ChainBound(s, CandidateIds(s.p, m.value), 0, None);
    }
  }

  // ---------------------------------------------------------------- the error that surfaces

  function HopErrors(log: seq<Event>): seq<RouterError> {
    if log == [] then []
    else
      (match log[0]
       case Skipped(_, e) => [e]
       case Refused(_, e) => [e]
       case Failed(e) => [e]
       case _ => []) + HopErrors(log[1..])
  }

  lemma {:induction false} HopErrorsAppend(a: seq<Event>, b: seq<Event>)
    ensures HopErrors(a + b) == HopErrors(a) + HopErrors(b)
  {
    if a == [] {
      NoPrefix(b);
      NoPrefix(HopErrors(b));
    } else {
      assert (a + b)[1..] == a[1..] + b;
      HopErrorsAppend(a[1..], b);
      var first := match a[0] case Skipped(_, e) => [e] case Refused(_, e) => [e] case Failed(e) => [e] case _ => [];
      Regroup(first, HopErrors(a[1..]), HopErrors(b));
    }
  }

  /** The i-th error is the last that is not policy-side, or the last of all if every one is. */
  predicate Surfaces(errors: seq<RouterError>, i: nat) {
    && i < |errors|
    && (forall j :: i < j < |errors| ==> errors[j].code in {CapabilityMissing, PolicyBlocked})
    && (errors[i].code in {CapabilityMissing, PolicyBlocked} ==>
          && i == |errors| - 1
          && forall j :: 0 <= j < |errors| ==> errors[j].code in {CapabilityMissing, PolicyBlocked})
  }

  ghost predicate Carried(errors: seq<RouterError>, last: Option<RouterError>) {
    if errors == [] then last == None
    else last.Some? && exists i: nat :: Surfaces(errors, i) && errors[i] == last.value
  }

  lemma CarriedGrows(errors: seq<RouterError>, last: Option<RouterError>, e: RouterError)
    requires Carried(errors, last)
    ensures Carried(errors + [e], Some(PreferError(last, e)))
  {
    var more := errors + [e];
    if errors == [] || !PolicySide(e.code) || PolicySide(last.value.code) {
      assert Surfaces(more, |errors|);
    } else {
      var i: nat :| Surfaces(errors, i) && errors[i] == last.value;
      assert Surfaces(more, i);
    }
  }

  /** Adapters report faults of the provider, never of the policy. */
  ghost predicate AdaptersReportFaults(s: Setting) {
    forall k: nat :: ReportsFaults(s.world(k).attempts)
  }

  ghost predicate ReportsFaults(attempts: nat -> Attempt) {
    forall n: nat :: attempts(n).reply.Err? ==> !PolicySide(attempts(n).reply.error.code)
  }

  lemma {:induction false} AttemptsFault(judge: Judge, route: Route, sent: Request, attempts: nat -> Attempt,
                                         attempt: nat, last: Option<RouterError>)
    requires attempt <= MAX_RETRIES && (last.Some? ==> !PolicySide(last.value.code))
    requires ReportsFaults(attempts)
    ensures var run := Attempts(judge, route, sent, attempts, attempt, last);
            run.result.Err? ==> !PolicySide(run.result.error.code)
    decreases MAX_RETRIES - attempt
  {
    var a := attempts(attempt);
    if !a.abortedBefore {
      var outcome := Judged(judge, a.reply, sent);
      if outcome.Err? && !GivesUp(a, attempt, outcome.error) {
        AttemptsFault(judge, route, sent, attempts, attempt + 1, Some(outcome.error));
      }
    }
  }

  lemma {:induction false} AttemptsLogNoErrors(judge: Judge, route: Route, sent: Request, attempts: nat -> Attempt,
                                               attempt: nat, last: Option<RouterError>)
    requires attempt <= MAX_RETRIES
    ensures HopErrors(Attempts(judge, route, sent, attempts, attempt, last).log) == []
    decreases MAX_RETRIES - attempt
  {
    var a := attempts(attempt);
    if !a.abortedBefore {
      var outcome := Judged(judge, a.reply, sent);
      var log := Tried(route, sent, attempt, a, outcome);
      TriedHasNoErrors(route, sent, attempt, a, outcome);
      if outcome.Err? && !GivesUp(a, attempt, outcome.error) {
        AttemptsLogNoErrors(judge, route, sent, attempts, attempt + 1, Some(outcome.error));
        HopErrorsAppend(log, Attempts(judge, route, sent, attempts, attempt + 1, Some(outcome.error)).log);
      }
    }
  }

  lemma TriedHasNoErrors(route: Route, sent: Request, attempt: nat, a: Attempt, outcome: Result<Response>)
    ensures HopErrors(Tried(route, sent, attempt, a, outcome)) == []
  {
    var call, note := Call(route, sent, attempt, outcome), Recorded(route.provider, outcome.Ok?);
    assert [call][1..] == [] && [note][1..] == [];
    HopErrorsAppend([call], [note]);
    NoPrefix([call]);
  }

  lemma ServedErrors(route: Route, run: Run)
    requires HopErrors(run.log) == []
    ensures HopErrors(Served(route, run)) == if run.result.Err? then [run.result.error] else []
  {
    var failed: seq<Event> := if run.result.Err? then [Failed(run.result.error)] else [];
    var granted: seq<Event> := [Granted(route)];
    var released: seq<Event> := [Released(route.provider)];
    assert granted[1..] == [] && released[1..] == [];
    if run.result.Err? { assert failed[1..] == []; }
    HopErrorsAppend(granted, run.log);
    HopErrorsAppend(granted + run.log, failed);
    HopErrorsAppend(granted + run.log + failed, released);
  }

  /** A hop passed over leaves its error, ranked by `PreferError`. */
  lemma PassedOverCarries(e: Event, last: Option<RouterError>, errors: seq<RouterError>)
    requires (e.Skipped? || e.Refused?) && Carried(errors, last)
    ensures Carried(errors + HopErrors([e]), Some(PreferError(last, e.error)))
  {
    assert [e][1..] == [];
    assert HopErrors([e]) == [e.error];
    CarriedGrows(errors, last, e.error);
  }

  lemma HopCarries(s: Setting, w: Hop, model: Model, routed: Result<Route>, last: Option<RouterError>,
                   errors: seq<RouterError>)
    requires ReportsFaults(w.attempts)
    requires Carried(errors, last)
    ensures var v := HopOf(s, w, model, routed, last); v.answer.None? ==> Carried(errors + HopErrors(v.log), v.last)
  {
    match routed {
      case Err(e) => PassedOverCarries(Skipped(model, e), last, errors);
      case Ok(route) =>
        if !w.breakerAllows {
          PassedOverCarries(Refused(model, BREAKER_OPEN), last, errors);
        } else if !w.slotGranted {
          PassedOverCarries(Refused(model, NO_SLOT), last, errors);
        } else {
          ServedCarries(s, w, route, last, errors);
        }
    }
  }

  lemma VisitCarries(s: Setting, w: Hop, id: string, last: Option<RouterError>, errors: seq<RouterError>)
    requires ReportsFaults(w.attempts) && Carried(errors, last)
    ensures var v := VisitOf(s, w, id, last); v.answer.None? ==> Carried(errors + HopErrors(v.log), v.last)
  {
    var model := Lookup(s.p.rows, id);
    NoPrefix(errors);
    if model.Some? {
      HopCarries(s, w, model.value, RouteFor(s.o, s.p, model.value, w.provider), last, errors);
    }
  }

  lemma ServedCarries(s: Setting, w: Hop, route: Route, last: Option<RouterError>, errors: seq<RouterError>)
    requires ReportsFaults(w.attempts)
    requires Carried(errors, last)
    ensures var run := Attempts(s.judge, route, HopEnvelope(s.o, route.model), w.attempts, 0, None);
            run.result.Err? ==> Carried(errors + HopErrors(Served(route, run)), Some(run.result.error))
  {
    var run := Attempts(s.judge, route, HopEnvelope(s.o, route.model), w.attempts, 0, None);
    AttemptsFault(s.judge, route, HopEnvelope(s.o, route.model), w.attempts, 0, None);
    AttemptsLogNoErrors(s.judge, route, HopEnvelope(s.o, route.model), w.attempts, 0, None);
    ServedErrors(route, run);
    if run.result.Err? { CarriedGrows(errors, last, run.result.error); }
  }

  /** What is thrown in the end, given every hop's error. */
  ghost predicate SurfacesAs(errors: seq<RouterError>, e: RouterError) {
    if errors == [] then e == RouterError(ProviderUnavailable, NoUsableModel)
    else exists i: nat :: Surfaces(errors, i) && errors[i] == e
  }

  lemma CarriedSurfaces(errors: seq<RouterError>, last: Option<RouterError>)
    requires Carried(errors, last)
    ensures SurfacesAs(errors, last.OrElse(NO_MODEL))
  {
  }

  lemma {:induction false} ChainCarries(s: Setting, ids: seq<string>, k: nat, last: Option<RouterError>,
                                        errors: seq<RouterError>)
    requires AdaptersReportFaults(s) && Carried(errors, last) && !s.timedOut
    ensures var run := Chain(s, ids, k, last);
            run.result.Err? ==> SurfacesAs(errors + HopErrors(run.log), run.result.error)
    decreases |ids|
  {
    if ids == [] {
      NoPrefix(errors);
      CarriedSurfaces(errors, last);
    } else {
      var v := VisitOf(s, s.world(k), ids[0], last);
      VisitCarries(s, s.world(k), ids[0], last, errors);
      if v.answer.None? {
        var now := errors + HopErrors(v.log);
        if v.stop {
          CarriedSurfaces(now, v.last);
        } else {
          var rest := Chain(s, ids[1..], k + 1, v.last);
          ChainCarries(s, ids[1..], k + 1, v.last, now);
          HopErrorsAppend(v.log, rest.log);
          Regroup(errors, HopErrors(v.log), HopErrors(rest.log));
        }
      }
    }
  }

  /** On exhaustion the last meaningful hop error surfaces. */
  lemma MeaningfulErrorSurfaces(s: Setting)
    requires AdaptersReportFaults(s) && !s.timedOut
    requires Select(s.p, s.o.envelope).Ok? && Execute(s).result.Err?
    ensures SurfacesAs(HopErrors(Execute(s).log), Execute(s).result.error)
  {
    var ids := CandidateIds(s.p, Select(s.p, s.o.envelope).value);
    ChainCarries(s, ids, 0, None, []);
    NoPrefix(HopErrors(Execute(s).log));
  }

  /** A timed-out run that fails says so. */
  lemma {:induction false} TimeoutSurfaces(s: Setting, ids: seq<string>, k: nat, last: Option<RouterError>)
    requires s.timedOut
    ensures Chain(s, ids, k, last).result.Err? ==>
              Chain(s, ids, k, last).result == Err(RouterError(ProviderUnavailable, TotalTimeout))
    decreases |ids|
  {
    if ids != [] {
      var v := VisitOf(s, s.world(k), ids[0], last);
      TimeoutSurfaces(s, ids[1..], k + 1, v.last);
    }
  }

  // ---------------------------------------------------------------- what is called

  /** Every adapter call of a log, streaming or not, satisfies `ok`. */
  ghost predicate AllCalls(ok: (Route, Request) -> bool, log: seq<Event>) {
    forall i :: 0 <= i < |log| && (log[i].Call? || log[i].Opened?) ==> ok(log[i].route, log[i].sent)
  }

  lemma AllCallsAppend(ok: (Route, Request) -> bool, a: seq<Event>, b: seq<Event>)
    requires AllCalls(ok, a) && AllCalls(ok, b)
    ensures AllCalls(ok, a + b)
  {
  }

  lemma {:induction false} AttemptsCall(ok: (Route, Request) -> bool, judge: Judge, route: Route, sent: Request,
                                        attempts: nat -> Attempt, attempt: nat, last: Option<RouterError>)
    requires attempt <= MAX_RETRIES && ok(route, sent)
    ensures AllCalls(ok, Attempts(judge, route, sent, attempts, attempt, last).log)
    decreases MAX_RETRIES - attempt
  {
    var a := attempts(attempt);
    if !a.abortedBefore {
      var outcome := Judged(judge, a.reply, sent);
      var log := Tried(route, sent, attempt, a, outcome);
      if outcome.Err? && !GivesUp(a, attempt, outcome.error) {
        AttemptsCall(ok, judge, route, sent, attempts, attempt + 1, Some(outcome.error));
        AllCallsAppend(ok, log, Attempts(judge, route, sent, attempts, attempt + 1, Some(outcome.error)).log);
      }
    }
  }

  lemma HopCallsAre(ok: (Route, Request) -> bool, s: Setting, w: Hop, model: Model, routed: Result<Route>,
                    last: Option<RouterError>)
    requires routed.Ok? ==> ok(routed.value, HopEnvelope(s.o, routed.value.model))
    ensures AllCalls(ok, HopOf(s, w, model, routed, last).log)
  {
    if routed.Ok? {
      AttemptsCall(ok, s.judge, routed.value, HopEnvelope(s.o, routed.value.model), w.attempts, 0, None);
    }
  }

  lemma {:induction false} ChainCallsAre(ok: (Route, Request) -> bool, s: Setting, ids: seq<string>, k: nat,
                                         last: Option<RouterError>)
    requires forall id, rest {:trigger RouteFor(s.o, s.p, Lookup(s.p.rows, id).value, rest)} ::
               id in ids && Lookup(s.p.rows, id).Some? ==>
                 var routed := RouteFor(s.o, s.p, Lookup(s.p.rows, id).value, rest);
                 routed.Ok? ==> ok(routed.value, HopEnvelope(s.o, routed.value.model))
    ensures AllCalls(ok, Chain(s, ids, k, last).log)
    decreases |ids|
  {
    if ids != [] {
      var v := VisitOf(s, s.world(k), ids[0], last);
      var w, model := s.world(k), Lookup(s.p.rows, ids[0]);
      if model.Some? {
        HopCallsAre(ok, s, w, model.value, RouteFor(s.o, s.p, model.value, w.provider), last);
      }
      if v.answer.None? && !v.stop {
        ChainCallsAre(ok, s, ids[1..], k + 1, v.last);
        AllCallsAppend(ok, v.log, Chain(s, ids[1..], k + 1, v.last).log);
      }
    }
  }

  // ---------------------------------------------------------------- who answered

  lemma {:induction false} AttemptsAnswer(judge: Judge, route: Route, sent: Request, attempts: nat -> Attempt,
                                          attempt: nat, last: Option<RouterError>)
    requires attempt <= MAX_RETRIES
    ensures var run := Attempts(judge, route, sent, attempts, attempt, last);
            run.result.Ok? ==>
              && |run.log| >= 2 && run.log[|run.log| - 2].Call? && run.log[|run.log| - 2].outcome == run.result
              && run.log[|run.log| - 2].route == route
              && judge(run.result.value, sent) == None
    decreases MAX_RETRIES - attempt
  {
    var a := attempts(attempt);
    if !a.abortedBefore {
      var outcome := Judged(judge, a.reply, sent);
      if outcome.Err? && !GivesUp(a, attempt, outcome.error) {
        AttemptsAnswer(judge, route, sent, attempts, attempt + 1, Some(outcome.error));
      }
    }
  }

  /** An attempt that fails in a way worth another try, with nobody leaving. */
  predicate WorthAnother(judge: Judge, sent: Request, a: Attempt) {
    && !a.abortedBefore && !a.abortedAfter && !a.sleepAborted
    && match a.reply
       case Err(e) => Transient(e)
       case Ok(res) => judge(res, sent).Some? && judge(res, sent) != Some(Truncated)
  }

  /** Retrying outlasts transient faults: the first acceptable reply within the limit is the hop's answer. */
  lemma {:induction false} FirstGoodReplyAnswers(judge: Judge, route: Route, sent: Request,
                                                 attempts: nat -> Attempt, attempt: nat, last: Option<RouterError>,
                                                 n: nat)
    requires attempt <= n <= MAX_RETRIES
    requires forall i: nat :: attempt <= i < n ==> WorthAnother(judge, sent, attempts(i))
    requires !attempts(n).abortedBefore && Judged(judge, attempts(n).reply, sent).Ok?
    ensures Attempts(judge, route, sent, attempts, attempt, last).result == attempts(n).reply
    decreases n - attempt
  {
    if attempt < n {
      var outcome := Judged(judge, attempts(attempt).reply, sent);
      assert WorthAnother(judge, sent, attempts(attempt));
      FirstGoodReplyAnswers(judge, route, sent, attempts, attempt + 1, Some(outcome.error), n);
    }
  }

  /** The end of a successful run: the answering call, its breaker record, the release. */
  predicate EndsWithAnswer(s: Setting, run: Run) {
    run.result.Ok? ==>
      var n := |run.log|;
      && n >= 3 && run.log[n - 3].Call? && run.log[n - 3].outcome == run.result
      && LastRoute(run.log, None) == Some(run.log[n - 3].route)
      && s.judge(run.result.value, HopEnvelope(s.o, run.log[n - 3].route.model)) == None
  }

  lemma ServedAnswers(s: Setting, route: Route, attempts: nat -> Attempt)
    ensures var run := Attempts(s.judge, route, HopEnvelope(s.o, route.model), attempts, 0, None);
            run.result.Ok? ==> EndsWithAnswer(s, Run(Served(route, run), run.result))
  {
    var sent := HopEnvelope(s.o, route.model);
    var run := Attempts(s.judge, route, sent, attempts, 0, None);
    AttemptsGrantNothing(s.judge, route, sent, attempts, 0, None);
    AttemptsAnswer(s.judge, route, sent, attempts, 0, None);
    ServedRoute(route, run, None);
    if run.result.Ok? { ServedTail(route, run); }
  }

  lemma ServedTail(route: Route, run: Run)
    requires run.result.Ok? && |run.log| >= 2
    ensures var log := Served(route, run); |log| == |run.log| + 2 && log[|log| - 3] == run.log[|run.log| - 2]
  {
  }

  lemma VisitAnswers(s: Setting, w: Hop, id: string, last: Option<RouterError>)
    requires VisitOf(s, w, id, last).answer.Some?
    ensures var v := VisitOf(s, w, id, last); EndsWithAnswer(s, Run(v.log, Ok(v.answer.value)))
  {
    var routed := RouteFor(s.o, s.p, Lookup(s.p.rows, id).value, w.provider);
    assert VisitOf(s, w, id, last) == HopOf(s, w, Lookup(s.p.rows, id).value, routed, last);
    ServedAnswers(s, routed.value, w.attempts);
  }

  lemma {:induction false} ChainAnswers(s: Setting, ids: seq<string>, k: nat, last: Option<RouterError>)
    ensures EndsWithAnswer(s, Chain(s, ids, k, last))
    decreases |ids|
  {
    if ids != [] {
      var v := VisitOf(s, s.world(k), ids[0], last);
      if v.answer.Some? {
        VisitAnswers(s, s.world(k), ids[0], last);
      } else if !v.stop {
        ChainAnswers(s, ids[1..], k + 1, v.last);
        AnswerAfterMore(s, v.log, Chain(s, ids[1..], k + 1, v.last));
      }
    }
  }

  /** Earlier events do not change how a run ends. */
  lemma AnswerAfterMore(s: Setting, before: seq<Event>, rest: Run)
    requires EndsWithAnswer(s, rest)
    ensures EndsWithAnswer(s, Run(before + rest.log, rest.result))
  {
    if rest.result.Ok? {
      LastRouteAppend(before, rest.log, None);
      LastRouteDecides(rest.log, LastRoute(before, None));
    }
  }

  lemma {:induction false} LastRouteDecides(log: seq<Event>, before: Option<Route>)
    requires LastRoute(log, None).Some?
    ensures LastRoute(log, before) == LastRoute(log, None)
  {
    if !log[|log| - 1].Granted? {
      LastRouteDecides(log[..|log| - 1], before);
    }
  }

  /** The answer is what the last call returned, the context names its route, and it passed the verifier. */
  lemma AnswerIsTheLastCalls(s: Setting)
    ensures EndsWithAnswer(s, Execute(s))
  {
    var m := Select(s.p, s.o.envelope);
    if m.Ok? {
      ChainAnswers(s, CandidateIds(s.p, m.value), 0, None);
    }
  }
}

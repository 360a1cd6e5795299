/**
 * Resilient execution without streaming (src/resilience/executor.ts): retries inside a hop, the
 * breaker and the slot around it, and the walk along the fallback chain. Everything the outside
 * world decides is an input, so a statement about all inputs is one about all runs.
 */
module Executor {
  import opened Common
  import opened Text
  import opened Envelope
  import opened Policy
  import opened Pipeline
  import opened VerifyResponse
  import Anthropic

  type Chunk = Anthropic.Chunk

  /** The verifier's objection to a response, if it has one. */
  type Judge = (Response, Request) -> Option<ErrorReason>

  /** One adapter call and the aborts around it. */
  datatype Attempt = Attempt(abortedBefore: bool, reply: Result<Response>, abortedAfter: bool, sleepAborted: bool)

  /** What the outside world does at one candidate. */
  datatype Hop = Hop(
    aborted: bool,
    provider: Result<string>,
    breakerAllows: bool,
    slotGranted: bool,
    attempts: nat -> Attempt,
    abortedAfter: bool)

  datatype Setting = Setting(p: Effective, o: Outbound, judge: Judge, world: nat -> Hop, timedOut: bool)

  /**
   * What a run does, in order. A streaming hop opens one upstream stream and yields chunks under the
   * route the context names at that moment (module Streaming).
   */
  datatype Event =
    | Skipped(model: Model, error: RouterError)
    | Refused(model: Model, error: RouterError)
    | Granted(route: Route)
    | Call(route: Route, sent: Request, attempt: nat, outcome: Result<Response>)
    | Opened(route: Route, sent: Request)
    | Yielded(route: Route, chunk: Chunk)
    | Recorded(provider: string, ok: bool)
    | Failed(error: RouterError)
    | Released(provider: string)

  datatype Run = Run(log: seq<Event>, result: Result<Response>)

  const MAX_RETRIES: nat := 2

  const BREAKER_OPEN := RouterError(ProviderUnavailable, CircuitOpen)
  const NO_SLOT := RouterError(RateLimited, NoSlot)
  const TIMED_OUT := RouterError(ProviderUnavailable, TotalTimeout)
  const NO_MODEL := RouterError(ProviderUnavailable, NoUsableModel)
  const ABORTED := RouterError(Unknown, CallerAborted)

  // ---------------------------------------------------------------- one hop

  /** A reply counts as a success only if the verifier has nothing against it. */
  function Judged(judge: Judge, reply: Result<Response>, sent: Request): Result<Response> {
    if reply.Ok? && judge(reply.value, sent).Some?
    then Err(RouterError(InvalidResponse, judge(reply.value, sent).value))
    else reply
  }

  /** Truncation is deterministic, so it is not worth a retry. */
  predicate WorthRetrying(e: RouterError) {
    Retryable(e.code) && !(e.code == InvalidResponse && e.reason == Truncated)
  }

  predicate GivesUp(a: Attempt, attempt: nat, e: RouterError) {
    !WorthRetrying(e) || attempt == MAX_RETRIES || a.abortedAfter || a.sleepAborted
  }

  /** The events of one attempt that was made. */
  function Tried(route: Route, sent: Request, attempt: nat, a: Attempt, outcome: Result<Response>): seq<Event> {
    [Call(route, sent, attempt, outcome)] +
    (if outcome.Ok? || !a.abortedAfter then [Recorded(route.provider, outcome.Ok?)] else [])
  }

  function Attempts(judge: Judge, route: Route, sent: Request, attempts: nat -> Attempt, attempt: nat,
                    last: Option<RouterError>): Run
    requires attempt <= MAX_RETRIES
    decreases MAX_RETRIES - attempt
  {
    var a := attempts(attempt);
    if a.abortedBefore then Run([], Err(last.OrElse(ABORTED)))
    else
      var outcome := Judged(judge, a.reply, sent);
      var log := Tried(route, sent, attempt, a, outcome);
      if outcome.Ok? || GivesUp(a, attempt, outcome.error) then Run(log, outcome)
      else
        var rest := Attempts(judge, route, sent, attempts, attempt + 1, Some(outcome.error));
        Run(log + rest.log, rest.result)
  }

  method ExecuteHopWithRetries(judge: Judge, route: Route, sent: Request, attempts: nat -> Attempt)
    returns (log: seq<Event>, result: Result<Response>)
    ensures Run(log, result) == Attempts(judge, route, sent, attempts, 0, None)
  {
    ghost var whole := Attempts(judge, route, sent, attempts, 0, None);
    var lastErr := None;
    log := [];
    var attempt := 0;
    NoPrefix(whole.log);
    while true
      invariant attempt <= MAX_RETRIES
      invariant log + Attempts(judge, route, sent, attempts, attempt, lastErr).log == whole.log
      invariant Attempts(judge, route, sent, attempts, attempt, lastErr).result == whole.result
      decreases MAX_RETRIES - attempt
    {
      var a := attempts(attempt);
      if a.abortedBefore {
        NoPrefix(log);
        return log, Err(lastErr.OrElse(ABORTED));
      }
      var outcome := Judged(judge, a.reply, sent);
      var tried := Tried(route, sent, attempt, a, outcome);
      if outcome.Ok? || GivesUp(a, attempt, outcome.error) {
        return log + tried, outcome;
      }
      lastErr := Some(outcome.error);
      Regroup(log, tried, Attempts(judge, route, sent, attempts, attempt + 1, lastErr).log);
      log, attempt := log + tried, attempt + 1;
    }
  }

  // ---------------------------------------------------------------- the chain

  predicate PolicySide(code: ErrorCode) {
    code == CapabilityMissing || code == PolicyBlocked
  }

  /** A hop that was never eligible does not hide why an eligible one failed. */
  function PreferError(prev: Option<RouterError>, next: RouterError): RouterError {
    if prev.Some? && PolicySide(next.code) && !PolicySide(prev.value.code) then prev.value else next
  }

  function Exhausted(timedOut: bool, last: Option<RouterError>): Result<Response> {
    Err(if timedOut then TIMED_OUT else last.OrElse(NO_MODEL))
  }

  /** A granted hop, from the grant to the release. */
  function Served(route: Route, run: Run): seq<Event> {
    [Granted(route)] + run.log + (if run.result.Err? then [Failed(run.result.error)] else [])
    + [Released(route.provider)]
  }

  /** What one candidate does: its events, and either the answer or the error to carry on with. */
  datatype Visit = Visit(log: seq<Event>, answer: Option<Response>, last: Option<RouterError>, stop: bool)

  function VisitOf(s: Setting, w: Hop, id: string, last: Option<RouterError>): Visit {
    var model := Lookup(s.p.rows, id);
    if w.aborted then Visit([], None, last, true)
    else if model.None? then Visit([], None, last, false)
    else HopOf(s, w, model.value, RouteFor(s.o, s.p, model.value, w.provider), last)
  }

  function HopOf(s: Setting, w: Hop, model: Model, routed: Result<Route>, last: Option<RouterError>): Visit {
    match routed
    case Err(e) => Visit([Skipped(model, e)], None, Some(PreferError(last, e)), false)
    case Ok(route) =>
      if !w.breakerAllows then Visit([Refused(model, BREAKER_OPEN)], None, Some(BREAKER_OPEN), false)
      else if !w.slotGranted then Visit([Refused(model, NO_SLOT)], None, Some(NO_SLOT), false)
      else Finished(route, Attempts(s.judge, route, HopEnvelope(s.o, route.model), w.attempts, 0, None), last,
                    w.abortedAfter)
  }

  function Finished(route: Route, run: Run, last: Option<RouterError>, aborted: bool): Visit {
    match run.result
    case Ok(res) => Visit(Served(route, run), Some(res), last, true)
    case Err(e) => Visit(Served(route, run), None, Some(e), aborted)
  }

  function Chain(s: Setting, ids: seq<string>, k: nat, last: Option<RouterError>): Run
    decreases |ids|
  {
    if ids == [] then Run([], Exhausted(s.timedOut, last))
    else
      var v := VisitOf(s, s.world(k), ids[0], last);
      if v.answer.Some? then Run(v.log, Ok(v.answer.value))
      else if v.stop then Run(v.log, Exhausted(s.timedOut, v.last))
      else
        var rest := Chain(s, ids[1..], k + 1, v.last);
        Run(v.log + rest.log, rest.result)
  }

  /** Non-streaming execution of a scrubbed request. */
  function Execute(s: Setting): Run {
    match Select(s.p, s.o.envelope)
    case Err(e) => Run([], Err(e))
    case Ok(m) => Chain(s, CandidateIds(s.p, m), 0, None)
  }

  /** The route the context names after a run: that of the last grant. */
  function LastRoute(log: seq<Event>, before: Option<Route>): Option<Route> {
    if log == [] then before
    else if log[|log| - 1].Granted? then Some(log[|log| - 1].route)
    else LastRoute(log[..|log| - 1], before)
  }

  lemma LastRouteSkips(log: seq<Event>, more: seq<Event>, before: Option<Route>)
    requires forall i :: 0 <= i < |more| ==> !more[i].Granted?
    ensures LastRoute(log + more, before) == LastRoute(log, before)
    decreases |more|
  {
    if more == [] {
      NoPrefix(log);
    } else {
      assert (log + more)[..|log + more| - 1] == log + more[..|more| - 1];
      LastRouteSkips(log, more[..|more| - 1], before);
    }
  }

  lemma {:induction false} AttemptsGrantNothing(judge: Judge, route: Route, sent: Request, attempts: nat -> Attempt,
                                                attempt: nat, last: Option<RouterError>)
    requires attempt <= MAX_RETRIES
    ensures var log := Attempts(judge, route, sent, attempts, attempt, last).log;
            forall i :: 0 <= i < |log| ==> log[i].Call? || log[i].Recorded?
    decreases MAX_RETRIES - attempt
  {
    var a := attempts(attempt);
    if !a.abortedBefore {
      var outcome := Judged(judge, a.reply, sent);
      if outcome.Err? && !GivesUp(a, attempt, outcome.error) {
        AttemptsGrantNothing(judge, route, sent, attempts, attempt + 1, Some(outcome.error));
      }
    }
  }

  lemma {:induction false} LastRouteAppend(a: seq<Event>, b: seq<Event>, before: Option<Route>)
    ensures LastRoute(a + b, before) == LastRoute(b, LastRoute(a, before))
    decreases |b|
  {
    if b == [] {
      NoPrefix(a);
    } else {
      assert (a + b)[..|a + b| - 1] == a + b[..|b| - 1];
      LastRouteAppend(a, b[..|b| - 1], before);
    }
  }

  lemma ServedRoute(route: Route, run: Run, before: Option<Route>)
    requires forall i :: 0 <= i < |run.log| ==> !run.log[i].Granted?
    ensures LastRoute(Served(route, run), before) == Some(route)
  {
    var failed: seq<Event> := if run.result.Err? then [Failed(run.result.error)] else [];
    var released: seq<Event> := [Released(route.provider)];
    LastRouteSkips([Granted(route)], run.log, before);
    LastRouteSkips([Granted(route)] + run.log, failed, before);
    LastRouteSkips([Granted(route)] + run.log + failed, released, before);
  }

  // ---------------------------------------------------------------- the chain as it runs

  /** One pass of the loop over candidates. */
  method VisitCandidate(ctx: PipelineCtx, s: Setting, w: Hop, id: string, last: Option<RouterError>) returns (v: Visit)
    requires ctx.effective == s.p && ctx.Out() == s.o
    modifies ctx`route
    ensures v == VisitOf(s, w, id, last)
    ensures ctx.route == LastRoute(v.log, old(ctx.route))
  {
    if w.aborted { return Visit([], None, last, true); }
    var model := Lookup(s.p.rows, id);
    if model.None? { return Visit([], None, last, false); }
    var r := ctx.RouteForModel(model.value, w.provider);
    if r.Err? { return Visit([Skipped(model.value, r.error)], None, Some(PreferError(last, r.error)), false); }
    var route := r.value;
    if !w.breakerAllows { return Visit([Refused(model.value, BREAKER_OPEN)], None, Some(BREAKER_OPEN), false); }
    if !w.slotGranted { return Visit([Refused(model.value, NO_SLOT)], None, Some(NO_SLOT), false); }
    v := RunHop(ctx, s, w, route, last);
  }

  /** The granted hop: the context names it, it runs, the slot is given back on every exit. */
  method RunHop(ctx: PipelineCtx, s: Setting, w: Hop, route: Route, last: Option<RouterError>) returns (v: Visit)
    modifies ctx`route
    ensures v == Finished(route, Attempts(s.judge, route, HopEnvelope(s.o, route.model), w.attempts, 0, None), last,
                          w.abortedAfter)
    ensures ctx.route == LastRoute(v.log, old(ctx.route))
  {
    ctx.route := Some(route);
    var log, result := ExecuteHopWithRetries(s.judge, route, HopEnvelope(s.o, route.model), w.attempts);
    AttemptsGrantNothing(s.judge, route, HopEnvelope(s.o, route.model), w.attempts, 0, None);
    ServedRoute(route, Run(log, result), old(ctx.route));
    var events := [Granted(route)] + log;
    match result {
      case Ok(res) => return Visit(events + [] + [Released(route.provider)], Some(res), last, true);
      case Err(e) => return Visit(events + [Failed(e)] + [Released(route.provider)], None, Some(e), w.abortedAfter);
    }
  }

  /** The loop over candidates. */
  method ExecuteResilient(ctx: PipelineCtx, s: Setting) returns (log: seq<Event>, result: Result<Response>)
    requires ctx.effective == s.p && ctx.Out() == s.o
    modifies ctx`route
    ensures Run(log, result) == Execute(s)
    ensures ctx.route == LastRoute(log, old(ctx.route))
  {
    var candidates := ctx.CandidateModels();
    if candidates.Err? { return [], Err(candidates.error); }
    log, result := Walk(ctx, s, candidates.value);
  }

  method Walk(ctx: PipelineCtx, s: Setting, ids: seq<string>) returns (log: seq<Event>, result: Result<Response>)
    requires ctx.effective == s.p && ctx.Out() == s.o
    modifies ctx`route
    ensures Run(log, result) == Chain(s, ids, 0, None)
    ensures ctx.route == LastRoute(log, old(ctx.route))
  {
    ghost var whole := Chain(s, ids, 0, None);
    var lastErr := None;
    log := [];
    NoPrefix(whole.log);
    assert ids[0..] == ids;
    for i := 0 to |ids|
      invariant log + Chain(s, ids[i..], i, lastErr).log == whole.log
      invariant Chain(s, ids[i..], i, lastErr).result == whole.result
      invariant ctx.route == LastRoute(log, old(ctx.route)) && ctx.Out() == s.o
    {
      ChainStep(s, ids, i, lastErr, log);
      var v := VisitCandidate(ctx, s, s.world(i), ids[i], lastErr);
      LastRouteAppend(log, v.log, old(ctx.route));
      log, lastErr := log + v.log, v.last;
      if v.answer.Some? { return log, Ok(v.answer.value); }
      if v.stop { return log, Exhausted(s.timedOut, lastErr); }
    }
    NoPrefix(log);
    return log, Exhausted(s.timedOut, lastErr);
  }

  lemma ChainStep(s: Setting, ids: seq<string>, i: nat, last: Option<RouterError>, before: seq<Event>)
    requires i < |ids|
    ensures var v := VisitOf(s, s.world(i), ids[i], last);
            var run, rest := Chain(s, ids[i..], i, last), Chain(s, ids[i + 1..], i + 1, v.last);
            if v.answer.Some? then run == Run(v.log, Ok(v.answer.value))
            else if v.stop then run == Run(v.log, Exhausted(s.timedOut, v.last))
            else run.result == rest.result && before + run.log == (before + v.log) + rest.log
  {
    assert ids[i..][0] == ids[i] && ids[i..][1..] == ids[i + 1..];
    var v := VisitOf(s, s.world(i), ids[i], last);
    Regroup(before, v.log, Chain(s, ids[i + 1..], i + 1, v.last).log);
  }
}

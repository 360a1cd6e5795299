/**
 * The data boundary over whole runs: scrub, route, then execute with retries and fallbacks. What
 * reaches an adapter is stated for every request, policy, scrubber finding and outside behaviour.
 */
module Boundary {
  import opened Common
  import opened Envelope
  import opened Redaction
  import opened RedactionLaws
  import opened Policy
  import opened Pipeline
  import opened VerifyResponse
  import opened Executor
  import opened ExecutorLaws
  import opened Streaming
  import opened StreamingLaws

  /** A request served without streaming. */
  function Serve(sc: Scrubber, broken: bool, p: Effective, env: Request, judge: Judge, world: nat -> Hop,
                 timedOut: bool): Run {
    ServeScrubbed(ScrubStage(sc, broken, p, env), p, judge, world, timedOut)
  }

  function ServeScrubbed(stage: Result<Outbound>, p: Effective, judge: Judge, world: nat -> Hop, timedOut: bool): Run {
    match stage
    case Err(e) => Run([], Err(e))
    case Ok(o) => Execute(Setting(p, o, judge, world, timedOut))
  }

  /** A request served as a stream. */
  function ServeStream(sc: Scrubber, broken: bool, p: Effective, env: Request, world: nat -> StreamHop,
                       timedOut: bool, stopOn: Option<nat>): StreamRun {
    StreamScrubbed(ScrubStage(sc, broken, p, env), p, world, timedOut, stopOn)
  }

  function StreamScrubbed(stage: Result<Outbound>, p: Effective, world: nat -> StreamHop, timedOut: bool,
                          stopOn: Option<nat>): StreamRun {
    match stage
    case Err(e) => StreamRun([], Threw(e))
    case Ok(o) => StreamExecute(StreamSetting(p, o, world, timedOut, stopOn))
  }

  /** The stages in order on one context, without streaming. */
  method RunStages(ctx: PipelineCtx, sc: Scrubber, broken: bool, primary: Result<string>, judge: Judge,
                   world: nat -> Hop, timedOut: bool)
    returns (log: seq<Event>, result: Result<Response>)
    requires ctx.cloudEnvelope == None && ctx.cloudBlockedCounts == None
    modifies ctx
    ensures Run(log, result) == Serve(sc, broken, ctx.effective, old(ctx.envelope), judge, world, timedOut)
  {
    ghost var stage := ScrubStage(sc, broken, ctx.effective, ctx.envelope);
    var error := ctx.StageScrub(sc, broken);
    log, result := AfterScrub(ctx, error, primary, judge, world, timedOut, stage);
  }

  method AfterScrub(ctx: PipelineCtx, error: Option<RouterError>, primary: Result<string>, judge: Judge,
                    world: nat -> Hop, timedOut: bool, ghost stage: Result<Outbound>)
    returns (log: seq<Event>, result: Result<Response>)
    requires match stage case Ok(o) => error == None && ctx.Out() == o case Err(e) => error == Some(e)
    modifies ctx
    ensures Run(log, result) == ServeScrubbed(stage, ctx.effective, judge, world, timedOut)
  {
    if error.Some? { return [], Err(error.value); }
    var unroutable := ctx.StageRoute(primary);
    if unroutable.Some? { return [], Err(unroutable.value); }
    log, result := ExecuteResilient(ctx, Setting(ctx.effective, ctx.Out(), judge, world, timedOut));
  }

  /** The stages in order on one context, streaming. */
  method RunStreamStages(ctx: PipelineCtx, sc: Scrubber, broken: bool, primary: Result<string>,
                         world: nat -> StreamHop, timedOut: bool, stopOn: Option<nat>)
    returns (log: seq<Event>, ending: Ending)
    requires ctx.cloudEnvelope == None && ctx.cloudBlockedCounts == None
    modifies ctx
    ensures StreamRun(log, ending) == ServeStream(sc, broken, ctx.effective, old(ctx.envelope), world, timedOut, stopOn)
  {
    ghost var stage := ScrubStage(sc, broken, ctx.effective, ctx.envelope);
    var error := ctx.StageScrub(sc, broken);
    log, ending := StreamAfterScrub(ctx, error, primary, world, timedOut, stopOn, stage);
  }

  method StreamAfterScrub(ctx: PipelineCtx, error: Option<RouterError>, primary: Result<string>,
                          world: nat -> StreamHop, timedOut: bool, stopOn: Option<nat>,
                          ghost stage: Result<Outbound>)
    returns (log: seq<Event>, ending: Ending)
    requires match stage case Ok(o) => error == None && ctx.Out() == o case Err(e) => error == Some(e)
    modifies ctx
    ensures StreamRun(log, ending) == StreamScrubbed(stage, ctx.effective, world, timedOut, stopOn)
  {
    if error.Some? { return [], Threw(error.value); }
    var unroutable := ctx.StageRoute(primary);
    if unroutable.Some? { return [], Threw(unroutable.value); }
    log, ending := ExecuteResilientStream(ctx, StreamSetting(ctx.effective, ctx.Out(), world, timedOut, stopOn));
  }

  // ---------------------------------------------------------------- every call is admissible

  /** What may be called, with what, given the matches in a request and its redaction. */
  ghost function Admitted(p: Effective, env: Request, found: Counts, redacted: Request): (Route, Request) -> bool {
    (route: Route, sent: Request) => Admits(p, env, found, redacted, route.model, sent)
  }

  lemma {:induction false} LookupUnique(rows: seq<Model>, m: Model)
    requires m in rows && forall i, j :: 0 <= i < j < |rows| ==> rows[i].id != rows[j].id
    ensures Lookup(rows, m.id) == Some(m)
  {
    if rows[0] != m {
      assert rows == [rows[0]] + rows[1..];
      var j :| 0 < j < |rows| && rows[j] == m;
      LookupUnique(rows[1..], m);
    }
  }

  lemma CandidateIsReachable(p: Effective, primary: Model, id: string)
    requires p.Resolved() && primary in p.rows && id in CandidateIds(p, primary) && Lookup(p.rows, id).Some?
    ensures Reachable(p, primary, Lookup(p.rows, id).value)
  {
    if id == primary.id {
      LookupUnique(p.rows, primary);
    }
  }

  /** Every candidate with a row is the primary or a fallback of the policy. */
  ghost predicate AllReachable(p: Effective, primary: Model, ids: seq<string>) {
    forall id :: id in ids && Lookup(p.rows, id).Some? ==> Reachable(p, primary, Lookup(p.rows, id).value)
  }

  lemma CandidatesAreReachable(p: Effective, primary: Model)
    requires p.Resolved() && primary in p.rows
    ensures AllReachable(p, primary, CandidateIds(p, primary))
  {
    forall id | id in CandidateIds(p, primary) && Lookup(p.rows, id).Some?
      ensures Reachable(p, primary, Lookup(p.rows, id).value)
    {
      CandidateIsReachable(p, primary, id);
    }
  }

  lemma ScrubFacts(sc: Scrubber, p: Effective, env: Request)
    requires Quiet(sc.rewrite, sc.count)
    ensures |Report(sc, env)| == 0 ==> Redacted(sc, env) == env
    ensures Needs(p, Redacted(sc, env)) == Needs(p, env)
  {
    RedactionKeepsSelection(sc, p, env);
    if |Report(sc, env)| == 0 {
      NothingFoundNothingChanged(sc, env);
    }
  }

  /** Primary, retry or fallback: whatever is called, and with whatever, the boundary admits. */
  lemma EveryCallIsAdmitted(sc: Scrubber, broken: bool, p: Effective, env: Request, judge: Judge, world: nat -> Hop,
                            timedOut: bool)
    requires p.Resolved() && Quiet(sc.rewrite, sc.count)
    ensures AllCalls(Admitted(p, env, Report(sc, env), Redacted(sc, env)),
                     Serve(sc, broken, p, env, judge, world, timedOut).log)
  {
    var stage := ScrubStage(sc, broken, p, env);
    if stage.Ok? {
      ScrubKeepsSelection(sc, broken, p, env, stage.value);
      SelectionIsValid(p, env);
      var primary := Select(p, env).value;
      CandidatesAreReachable(p, primary);
      ScrubFacts(sc, p, env);
      ChainIsAdmitted(Setting(p, stage.value, judge, world, timedOut), primary, broken, Report(sc, env), env,
                      Redacted(sc, env), CandidateIds(p, primary));
    }
  }

  lemma ChainIsAdmitted(s: Setting, primary: Model, broken: bool, found: Counts, env: Request, redacted: Request,
                        ids: seq<string>)
    requires Decide(s.p.scrubMode, Ok(primary), CloudInChain(s.p, s.p.fallbackChain), broken, found, env, redacted) ==
             Ok(s.o)
    requires (|found| == 0 ==> redacted == env) && Needs(s.p, redacted) == Needs(s.p, env)
    requires AllReachable(s.p, primary, ids)
    ensures AllCalls(Admitted(s.p, env, found, redacted), Chain(s, ids, 0, None).log)
  {
    forall id, rest | id in ids && Lookup(s.p.rows, id).Some?
      ensures var routed := RouteFor(s.o, s.p, Lookup(s.p.rows, id).value, rest);
              routed.Ok? ==> Admitted(s.p, env, found, redacted)(routed.value, HopEnvelope(s.o, routed.value.model))
    {
      var m := Lookup(s.p.rows, id).value;
      if RouteFor(s.o, s.p, m, rest).Ok? {
        HopIsAdmitted(s.p, primary, broken, found, env, redacted, s.o, m, rest);
      }
    }
    ChainCallsAre(Admitted(s.p, env, found, redacted), s, ids, 0, None);
  }

  /** The same for the streams a run opens. */
  lemma EveryStreamIsAdmitted(sc: Scrubber, broken: bool, p: Effective, env: Request, world: nat -> StreamHop,
                              timedOut: bool, stopOn: Option<nat>)
    requires p.Resolved() && Quiet(sc.rewrite, sc.count)
    ensures AllCalls(Admitted(p, env, Report(sc, env), Redacted(sc, env)),
                     ServeStream(sc, broken, p, env, world, timedOut, stopOn).log)
  {
    var stage := ScrubStage(sc, broken, p, env);
    if stage.Ok? {
      ScrubKeepsSelection(sc, broken, p, env, stage.value);
      SelectionIsValid(p, env);
      var primary := Select(p, env).value;
      CandidatesAreReachable(p, primary);
      ScrubFacts(sc, p, env);
      StreamChainIsAdmitted(StreamSetting(p, stage.value, world, timedOut, stopOn), primary, broken,
                            Report(sc, env), env, Redacted(sc, env), CandidateIds(p, primary));
    }
  }

  lemma StreamChainIsAdmitted(s: StreamSetting, primary: Model, broken: bool, found: Counts, env: Request,
                              redacted: Request, ids: seq<string>)
    requires Decide(s.p.scrubMode, Ok(primary), CloudInChain(s.p, s.p.fallbackChain), broken, found, env, redacted) ==
             Ok(s.o)
    requires (|found| == 0 ==> redacted == env) && Needs(s.p, redacted) == Needs(s.p, env)
    requires AllReachable(s.p, primary, ids)
    ensures AllCalls(Admitted(s.p, env, found, redacted), StreamChain(s, ids, 0, None).log)
  {
    forall id, rest | id in ids && Lookup(s.p.rows, id).Some?
      ensures var routed := RouteFor(s.o, s.p, Lookup(s.p.rows, id).value, rest);
              routed.Ok? ==> Admitted(s.p, env, found, redacted)(routed.value, HopEnvelope(s.o, routed.value.model))
    {
      var m := Lookup(s.p.rows, id).value;
      if RouteFor(s.o, s.p, m, rest).Ok? {
        HopIsAdmitted(s.p, primary, broken, found, env, redacted, s.o, m, rest);
      }
    }
    StreamChainOpens(Admitted(s.p, env, found, redacted), s, ids, 0, None);
  }

  /** The promises of the boundary about one call, in terms of the request's own texts. */
  ghost predicate KeepsBoundary(sc: Scrubber, p: Effective, env: Request, m: Model, sent: Request) {
    var leaves := m.kind !in {Local, LocalOcr};
    && MayServe(m, p, env)
    && sent == env.(messages := sent.messages, maxTokens := sent.maxTokens)
    && !(leaves && p.localOnly)
    && (leaves && p.scrubMode == Redact ==> AllRewritten(sc.rewrite, env.messages, sent.messages))
    && (leaves && p.scrubMode == Block ==>
          forall i, t :: 0 <= i < |env.messages| && TextOf(env.messages[i], t) ==> sc.count(t) == multiset{})
    && (leaves && p.scrubMode != Redact ==> sent.messages == env.messages)
  }

  lemma AdmittedKeepsBoundary(sc: Scrubber, p: Effective, env: Request, m: Model, sent: Request)
    requires Admits(p, env, Report(sc, env), Redacted(sc, env), m, sent)
    ensures KeepsBoundary(sc, p, env, m, sent)
  {
    AdmittedMeans(p, env, Report(sc, env), Redacted(sc, env), m, sent);
    RedactionRewritesEveryText(sc, env);
    ReportsNothingExactlyWhen(sc, env);
  }

  /** The promises of the boundary, call by call. */
  lemma BoundaryHolds(sc: Scrubber, broken: bool, p: Effective, env: Request, judge: Judge, world: nat -> Hop,
                      timedOut: bool, i: nat)
    requires p.Resolved() && Quiet(sc.rewrite, sc.count)
    requires var log := Serve(sc, broken, p, env, judge, world, timedOut).log; i < |log| && log[i].Call?
    ensures var call := Serve(sc, broken, p, env, judge, world, timedOut).log[i];
            KeepsBoundary(sc, p, env, call.route.model, call.sent)
  {
    EveryCallIsAdmitted(sc, broken, p, env, judge, world, timedOut);
    var call := Serve(sc, broken, p, env, judge, world, timedOut).log[i];
    assert Admitted(p, env, Report(sc, env), Redacted(sc, env))(call.route, call.sent);
    AdmittedKeepsBoundary(sc, p, env, call.route.model, call.sent);
  }

  /** The same for every stream a run opens. */
  lemma StreamBoundaryHolds(sc: Scrubber, broken: bool, p: Effective, env: Request, world: nat -> StreamHop,
                            timedOut: bool, stopOn: Option<nat>, i: nat)
    requires p.Resolved() && Quiet(sc.rewrite, sc.count)
    requires var log := ServeStream(sc, broken, p, env, world, timedOut, stopOn).log; i < |log| && log[i].Opened?
    ensures var call := ServeStream(sc, broken, p, env, world, timedOut, stopOn).log[i];
            KeepsBoundary(sc, p, env, call.route.model, call.sent)
  {
    EveryStreamIsAdmitted(sc, broken, p, env, world, timedOut, stopOn);
    var call := ServeStream(sc, broken, p, env, world, timedOut, stopOn).log[i];
    assert Admitted(p, env, Report(sc, env), Redacted(sc, env))(call.route, call.sent);
    AdmittedKeepsBoundary(sc, p, env, call.route.model, call.sent);
  }

  lemma AdmittedMeans(p: Effective, env: Request, found: Counts, redacted: Request, m: Model, sent: Request)
    requires Admits(p, env, found, redacted, m, sent)
    ensures MayServe(m, p, env)
    ensures sent == env.(maxTokens := sent.maxTokens) || sent == redacted.(maxTokens := sent.maxTokens)
    ensures p.localOnly ==> IsLocal(m.kind)
    ensures !IsLocal(m.kind) && p.scrubMode == Redact ==> sent.messages == redacted.messages
    ensures !IsLocal(m.kind) && p.scrubMode == Block ==> |found| == 0
    ensures !IsLocal(m.kind) && p.scrubMode != Redact ==> sent.messages == env.messages
  {
  }

  /** With a scrubber that throws, every call goes to a local model and carries the original request. */
  ghost function Inside(env: Request): (Route, Request) -> bool {
    (route: Route, sent: Request) => route.model.kind in {Local, LocalOcr} && sent == ClampToModel(env, route.model)
  }

  lemma BrokenScrubberKeepsInside(sc: Scrubber, p: Effective, env: Request, judge: Judge, world: nat -> Hop,
                                  timedOut: bool)
    requires p.Resolved()
    ensures AllCalls(Inside(env), Serve(sc, true, p, env, judge, world, timedOut).log)
  {
    var stage := ScrubStage(sc, true, p, env);
    if stage.Ok? {
      BrokenStage(p.scrubMode, Select(p, env), CloudInChain(p, p.fallbackChain), Report(sc, env), env,
                  Redacted(sc, env), stage.value);
      SelectionIsValid(p, env);
      var primary := Select(p, env).value;
      CandidatesAreReachable(p, primary);
      StaysInside(Setting(p, stage.value, judge, world, timedOut), primary, env, CandidateIds(p, primary));
    }
  }

  lemma BrokenStage(mode: ScrubMode, primary: Result<Model>, cloudInChain: bool, found: Counts,
                    env: Request, redacted: Request, o: Outbound)
    requires Decide(mode, primary, cloudInChain, true, found, env, redacted) == Ok(o)
    ensures primary.Ok? && IsLocal(primary.value.kind) && !cloudInChain && o == Outbound(env, None, None)
  {
  }

  lemma StaysInside(s: Setting, primary: Model, env: Request, ids: seq<string>)
    requires s.o == Outbound(env, None, None) && IsLocal(primary.kind) && !CloudInChain(s.p, s.p.fallbackChain)
    requires AllReachable(s.p, primary, ids)
    ensures AllCalls(Inside(env), Chain(s, ids, 0, None).log)
  {
    forall id, rest | id in ids && Lookup(s.p.rows, id).Some?
      ensures var routed := RouteFor(s.o, s.p, Lookup(s.p.rows, id).value, rest);
              routed.Ok? ==> Inside(env)(routed.value, HopEnvelope(s.o, routed.value.model))
    {
      var m := Lookup(s.p.rows, id).value;
      if !IsLocal(m.kind) {
        CloudIsConsidered(s.p, primary, m);
      }
    }
    ChainCallsAre(Inside(env), s, ids, 0, None);
  }
}

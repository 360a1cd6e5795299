/**
 * The data boundary (src/gateway/pipeline.ts): what the scrub stage leaves for local and for
 * cloud hops, which hops may be routed, and the envelope each hop is sent.
 */
module Pipeline {
  import opened Common
  import opened Envelope
  import opened Redaction
  import opened Policy

  /** What the scrub stage decided: the request, the copy for cloud hops, and the cloud bar. */
  datatype Outbound = Outbound(envelope: Request, cloudEnvelope: Option<Request>, barred: Option<Counts>)

  datatype Route = Route(model: Model, provider: string)

  predicate CloudInChain(p: Effective, chain: seq<string>) {
    exists i :: 0 <= i < |chain| && Lookup(p.rows, chain[i]).Some? && !IsLocal(Lookup(p.rows, chain[i]).value.kind)
  }

  /** The scrub stage; `broken` says that the scrubber throws. */
  function ScrubStage(sc: Scrubber, broken: bool, p: Effective, env: Request): Result<Outbound> {
    Decide(p.scrubMode, Select(p, env), CloudInChain(p, p.fallbackChain), broken, Report(sc, env), env,
           Redacted(sc, env))
  }

  /** The stage's decision from the selected model, the matches found and the redacted copy. */
  function Decide(mode: ScrubMode, primary: Result<Model>, cloudInChain: bool, broken: bool,
                  found: Counts, env: Request, redacted: Request): Result<Outbound>
  {
    if primary.Err? then Err(primary.error)
    else
      var cloudPrimary := !IsLocal(primary.value.kind);
      if !cloudPrimary && !cloudInChain then Ok(Outbound(env, None, None))
      else if broken then Err(RouterError(ScrubberBlocked, ScrubberFailure))
      else Settled(mode, cloudPrimary, found, env, redacted)
  }

  function Settled(mode: ScrubMode, cloudPrimary: bool, found: Counts, env: Request,
                   redacted: Request): Result<Outbound> {
    var plain := Outbound(env, None, None);
    if |found| == 0 then Ok(plain)
    else
      match mode
      case Redact =>
        Ok(if cloudPrimary then plain.(envelope := redacted) else plain.(cloudEnvelope := Some(redacted)))
      case Block =>
        if cloudPrimary then Err(RouterError(ScrubberBlocked, Unstated)) else Ok(plain.(barred := Some(found)))
      case Warn => Ok(plain)
  }

  /** `rest` is what provider, credential and address lookups would answer. */
  function RouteFor(o: Outbound, p: Effective, m: Model, rest: Result<string>): Result<Route> {
    var violation := ModelViolation(m, p, Needs(p, o.envelope));
    if violation.Some? then Err(RouterError(ViolationCode(violation.value), Unstated))
    else if !IsLocal(m.kind) && o.barred.Some? then Err(RouterError(ScrubberBlocked, Unstated))
    else match rest case Err(e) => Err(e) case Ok(provider) => Ok(Route(m, provider))
  }

  function HopEnvelope(o: Outbound, m: Model): Request {
    ClampToModel(if !IsLocal(m.kind) && o.cloudEnvelope.Some? then o.cloudEnvelope.value else o.envelope, m)
  }

  /** The selected model, then the chain without it; repeats inside the chain stay. */
  function Others(chain: seq<string>, primary: string): (r: seq<string>)
    ensures |r| <= |chain| && primary !in r
    ensures forall id :: id in r <==> id in chain && id != primary
  {
    if chain == [] then [] else
      assert chain == [chain[0]] + chain[1..];
      (if chain[0] != primary then [chain[0]] else []) + Others(chain[1..], primary)
  }

  function CandidateIds(p: Effective, primary: Model): seq<string> {
    [primary.id] + Others(p.fallbackChain, primary.id)
  }

  /** Redact mode rewrites and counts; the other modes only count. */
  method Inspect(sc: Scrubber, mode: ScrubMode, env: Request) returns (copy: Request, counts: Counts, total: nat)
    ensures counts == Report(sc, env) && total == |counts|
    ensures mode == Redact ==> copy == Redacted(sc, env)
  {
    copy, counts, total := env, multiset{}, 0;
    if mode == Redact {
      copy, counts, total := RedactEnvelope(sc, env);
    } else {
      counts, total := ScanEnvelope(sc, env);
    }
  }

  /** The request context the stages write. */
  class PipelineCtx {
    const effective: Effective
    var envelope: Request
    var cloudEnvelope: Option<Request>
    var cloudBlockedCounts: Option<Counts>
    var route: Option<Route>
    var routeError: Option<RouterError>

    constructor (p: Effective, env: Request)
      ensures effective == p && envelope == env && Out() == Outbound(env, None, None)
      ensures route == None && routeError == None
    {
      effective, envelope := p, env;
      cloudEnvelope, cloudBlockedCounts, route, routeError := None, None, None, None;
    }

    function Out(): Outbound
      reads this
    {
      Outbound(envelope, cloudEnvelope, cloudBlockedCounts)
    }

    method HasCloudFallback() returns (r: bool)
      ensures r == CloudInChain(effective, effective.fallbackChain)
    {
      var chain := effective.fallbackChain;
      for i := 0 to |chain|
        invariant !CloudInChain(effective, chain[..i])
      {
        var m := Lookup(effective.rows, chain[i]);
        if m.Some? && !IsLocal(m.value.kind) { return true; }
      }
      assert chain[..|chain|] == chain;
      return false;
    }

    method StageScrub(sc: Scrubber, broken: bool) returns (error: Option<RouterError>)
      requires cloudEnvelope == None && cloudBlockedCounts == None
      modifies this`envelope, this`cloudEnvelope, this`cloudBlockedCounts
      ensures match ScrubStage(sc, broken, effective, old(envelope))
              case Ok(o) => error == None && Out() == o
              case Err(e) => error == Some(e)
    {
      var model := SelectModel(effective, envelope);
      if model.Err? { return Some(model.error); }
      var cloudPrimary := !IsLocal(model.value.kind);
      var cloudInChain := HasCloudFallback();
      if !cloudPrimary && !cloudInChain { return None; }
      if broken { return Some(RouterError(ScrubberBlocked, ScrubberFailure)); }
      var copy, counts, total := Inspect(sc, effective.scrubMode, envelope);
      error := Settle(cloudPrimary, copy, counts, total);
    }

    /** What the stage writes once the matches are known; `copy` is read in redact mode only. */
    method Settle(cloudPrimary: bool, copy: Request, counts: Counts, total: nat) returns (error: Option<RouterError>)
      requires cloudEnvelope == None && cloudBlockedCounts == None && total == |counts|
      modifies this`envelope, this`cloudEnvelope, this`cloudBlockedCounts
      ensures match Settled(effective.scrubMode, cloudPrimary, counts, old(envelope), copy)
              case Ok(o) => error == None && Out() == o
              case Err(e) => error == Some(e)
    {
      if total == 0 { return None; }
      match effective.scrubMode {
        case Redact =>
          if cloudPrimary { envelope := copy; } else { cloudEnvelope := Some(copy); }
        case Block =>
          if cloudPrimary { return Some(RouterError(ScrubberBlocked, Unstated)); }
          cloudBlockedCounts := Some(counts);
        case Warn =>
      }
      return None;
    }

    /**
     * A hop is routed exactly when its model may serve the request, the scrub verdict does not bar
     * it and its provider resolves; a model that may not serve is refused on the policy's side, and
     * that outranks the bar, which outranks what the provider lookup says.
     */
    method RouteForModel(m: Model, rest: Result<string>) returns (r: Result<Route>)
      ensures r == RouteFor(Out(), effective, m, rest)
      ensures r.Ok? <==> MayServe(m, effective, envelope) && (IsLocal(m.kind) || cloudBlockedCounts == None) && rest.Ok?
      ensures r.Ok? ==> r.value == Route(m, rest.value)
      ensures !MayServe(m, effective, envelope) ==> r.Err? && r.error.code in {PolicyBlocked, CapabilityMissing}
      ensures MayServe(m, effective, envelope) && !IsLocal(m.kind) && cloudBlockedCounts.Some? ==>
                r == Err(RouterError(ScrubberBlocked, Unstated))
      ensures MayServe(m, effective, envelope) && (IsLocal(m.kind) || cloudBlockedCounts == None) && rest.Err? ==>
                r == Err(rest.error)
    {
      NoViolationIsMayServe(m, effective, envelope);
      var violation := ModelViolation(m, effective, Needs(effective, envelope));
      if violation.Some? { return Err(RouterError(ViolationCode(violation.value), Unstated)); }
      if !IsLocal(m.kind) && cloudBlockedCounts.Some? { return Err(RouterError(ScrubberBlocked, Unstated)); }
      match rest
      case Err(e) => return Err(e);
      case Ok(provider) => return Ok(Route(m, provider));
    }

    /** A primary that cannot be routed is left to the fallback chain; a failed selection is final. */
    method StageRoute(rest: Result<string>) returns (error: Option<RouterError>)
      modifies this`route, this`routeError
      ensures match Select(effective, envelope)
              case Err(e) => error == Some(e) && route == old(route) && routeError == old(routeError)
              case Ok(m) =>
                error == None &&
                match RouteFor(Out(), effective, m, rest)
                case Ok(r) => route == Some(r) && routeError == old(routeError)
                case Err(e) => routeError == Some(e) && route == old(route)
    {
      var model := SelectModel(effective, envelope);
      if model.Err? { return Some(model.error); }
      var r := RouteForModel(model.value, rest);
      match r {
        case Ok(found) => route := Some(found);
        case Err(e) => routeError := Some(e);
      }
      return None;
    }

    method CandidateModels() returns (r: Result<seq<string>>)
      ensures match Select(effective, envelope)
              case Err(e) => r == Err(e)
              case Ok(m) => r == Ok(CandidateIds(effective, m))
    {
      var model := SelectModel(effective, envelope);
      if model.Err? { return Err(model.error); }
      return Ok(CandidateIds(effective, model.value));
    }
  }

  // ---------------------------------------------------------------- the boundary, one hop

  /** What the policy, the request, its matches and its redaction allow one model to be sent. */
  ghost predicate Admits(p: Effective, env: Request, found: Counts, redacted: Request, m: Model, sent: Request) {
    && MayServe(m, p, env)
    && (p.localOnly ==> IsLocal(m.kind))
    && (sent == ClampToModel(env, m) || sent == ClampToModel(redacted, m))
    && (!IsLocal(m.kind) ==>
          match p.scrubMode
          case Redact => sent == ClampToModel(redacted, m)
          case Block => sent == ClampToModel(env, m) && |found| == 0
          case Warn => sent == ClampToModel(env, m))
  }

  /** The models a run can reach: the selected one and those of the fallback chain. */
  predicate Reachable(p: Effective, primary: Model, m: Model) {
    primary == m || (m.id in p.fallbackChain && Lookup(p.rows, m.id) == Some(m))
  }

  lemma CloudIsConsidered(p: Effective, primary: Model, m: Model)
    requires Reachable(p, primary, m) && !IsLocal(m.kind)
    ensures !IsLocal(primary.kind) || CloudInChain(p, p.fallbackChain)
  {
    if primary != m {
      var i :| 0 <= i < |p.fallbackChain| && p.fallbackChain[i] == m.id;
    }
  }

  /** A routed hop is sent only what the boundary admits. */
  lemma HopIsAdmitted(p: Effective, primary: Model, broken: bool, found: Counts, env: Request, redacted: Request,
                      o: Outbound, m: Model, rest: Result<string>)
    requires Decide(p.scrubMode, Ok(primary), CloudInChain(p, p.fallbackChain), broken, found, env, redacted) == Ok(o)
    requires |found| == 0 ==> redacted == env
    requires Needs(p, redacted) == Needs(p, env)
    requires Reachable(p, primary, m) && RouteFor(o, p, m, rest).Ok?
    ensures Admits(p, env, found, redacted, m, HopEnvelope(o, m))
  {
    NoViolationIsMayServe(m, p, env);
    if !IsLocal(m.kind) {
      CloudIsConsidered(p, primary, m);
    }
  }

  /**
   * A reachable hop is routed exactly when its model may serve, its provider resolves and it is not a
   * cloud one barred by findings in block mode; it is sent the redacted request exactly in redact mode
   * when it, or the selected model, is a cloud one.
   */
  lemma HopIsExactly(p: Effective, primary: Model, broken: bool, found: Counts, env: Request, redacted: Request,
                     o: Outbound, m: Model, rest: Result<string>)
    requires Decide(p.scrubMode, Ok(primary), CloudInChain(p, p.fallbackChain), broken, found, env, redacted) == Ok(o)
    requires |found| == 0 ==> redacted == env
    requires Needs(p, redacted) == Needs(p, env) && Reachable(p, primary, m)
    ensures RouteFor(o, p, m, rest).Ok? <==>
            MayServe(m, p, env) && rest.Ok? && !(p.scrubMode == Block && found != multiset{} && !IsLocal(m.kind))
    ensures var redacts := p.scrubMode == Redact && (!IsLocal(primary.kind) || !IsLocal(m.kind));
            HopEnvelope(o, m) == ClampToModel(if redacts then redacted else env, m)
  {
    NoViolationIsMayServe(m, p, env);
    if !IsLocal(m.kind) {
      CloudIsConsidered(p, primary, m);
    }
  }

  /**
   * When the scrub stage turns a request away: selection fails, the scrubber throws although a hop
   * could be cloud, or in block mode something is found and the selected model is a cloud one.
   */
  lemma ScrubFailsExactlyWhen(sc: Scrubber, broken: bool, p: Effective, env: Request)
    ensures var primary, stage := Select(p, env), ScrubStage(sc, broken, p, env);
            match primary
            case Err(e) => stage == Err(e)
            case Ok(m) =>
              && (stage.Err? <==>
                    || (broken && (!IsLocal(m.kind) || CloudInChain(p, p.fallbackChain)))
                    || (p.scrubMode == Block && !IsLocal(m.kind) && Report(sc, env) != multiset{}))
              && (stage.Err? ==> stage.error.code == ScrubberBlocked)
  {
    DecideFailsExactlyWhen(p.scrubMode, Select(p, env), CloudInChain(p, p.fallbackChain), broken, Report(sc, env),
                           env, Redacted(sc, env));
  }

  lemma DecideFailsExactlyWhen(mode: ScrubMode, primary: Result<Model>, cloudInChain: bool, broken: bool,
                               found: Counts, env: Request, redacted: Request)
    ensures var stage := Decide(mode, primary, cloudInChain, broken, found, env, redacted);
            match primary
            case Err(e) => stage == Err(e)
            case Ok(m) =>
              && (stage.Err? <==>
                    || (broken && (!IsLocal(m.kind) || cloudInChain))
                    || (mode == Block && !IsLocal(m.kind) && found != multiset{}))
              && (stage.Err? ==> stage.error.code == ScrubberBlocked)
  {
  }

  /** The scrub stage never changes which model is selected. */
  lemma ScrubKeepsSelection(sc: Scrubber, broken: bool, p: Effective, env: Request, o: Outbound)
    requires ScrubStage(sc, broken, p, env) == Ok(o)
    ensures Needs(p, o.envelope) == Needs(p, env) && Select(p, o.envelope) == Select(p, env)
    ensures Select(p, env).Ok?
  {
    var redacted := Redacted(sc, env);
    DecideKeeps(p.scrubMode, Select(p, env), CloudInChain(p, p.fallbackChain), broken, Report(sc, env), env,
                redacted, o);
    RedactionKeepsSelection(sc, p, env);
  }

  lemma DecideKeeps(mode: ScrubMode, primary: Result<Model>, cloudInChain: bool, broken: bool,
                    found: Counts, env: Request, redacted: Request, o: Outbound)
    requires Decide(mode, primary, cloudInChain, broken, found, env, redacted) == Ok(o)
    ensures primary.Ok? && o.envelope in {env, redacted}
  {
  }

  /** When the primary is local, local hops serve the original. */
  lemma LocalPrimarySeesOriginal(sc: Scrubber, broken: bool, p: Effective, env: Request, o: Outbound, m: Model)
    requires ScrubStage(sc, broken, p, env) == Ok(o) && Select(p, env).Ok?
    requires IsLocal(Select(p, env).value.kind) && IsLocal(m.kind)
    ensures HopEnvelope(o, m) == ClampToModel(env, m)
  {
    LocalDecision(p.scrubMode, Select(p, env), CloudInChain(p, p.fallbackChain), broken, Report(sc, env), env,
                  Redacted(sc, env), o);
  }

  lemma LocalDecision(mode: ScrubMode, primary: Result<Model>, cloudInChain: bool, broken: bool,
                      found: Counts, env: Request, redacted: Request, o: Outbound)
    requires Decide(mode, primary, cloudInChain, broken, found, env, redacted) == Ok(o)
    requires primary.Ok? && IsLocal(primary.value.kind)
    ensures o.envelope == env
  {
  }
}

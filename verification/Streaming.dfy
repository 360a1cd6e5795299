/**
 * Resilient streaming (src/resilience/executor.ts): fallback only before the first content chunk.
 * Frames without content are held back until then, so a hop that is replaced has relayed nothing.
 */
module Streaming {
  import opened Common
  import opened Text
  import opened Envelope
  import opened Policy
  import opened Pipeline
  import opened Executor

  /**
   * What the outside world does at one candidate: the chunks upstream produces and how it ends
   * (`thrown` is None for a normal end), and whether the idle timer or an abort ended it.
   */
  datatype StreamHop = StreamHop(
    aborted: bool,
    provider: Result<string>,
    breakerAllows: bool,
    slotGranted: bool,
    chunks: seq<Chunk>,
    thrown: Option<RouterError>,
    idleFired: bool,
    abortedAfter: bool)

  /** `stopOn` is the index of the chunk at which the consumer walks away, if it does. */
  datatype StreamSetting = StreamSetting(p: Effective, o: Outbound, world: nat -> StreamHop, timedOut: bool,
                                         stopOn: Option<nat>)

  datatype Ending = Completed | Stopped | Threw(error: RouterError)

  datatype StreamRun = StreamRun(log: seq<Event>, ending: Ending)

  const EMPTY_STREAM := RouterError(InvalidResponse, NoContent)
  const IDLE := RouterError(ProviderUnavailable, IdleTimeout)

  predicate IsContent(c: Chunk) {
    !c.FinishChunk?
  }

  predicate HasContent(chunks: seq<Chunk>) {
    exists i :: 0 <= i < |chunks| && IsContent(chunks[i])
  }

  /** All of a hop's chunks or, without content, none. */
  function Relayed(chunks: seq<Chunk>): seq<Chunk> {
    if HasContent(chunks) then chunks else []
  }

  predicate WalksAway(stopOn: Option<nat>, chunks: seq<Chunk>) {
    stopOn.Some? && stopOn.value < |chunks|
  }

  /** What the consumer takes of them. */
  function Taken(stopOn: Option<nat>, chunks: seq<Chunk>): seq<Chunk> {
    if WalksAway(stopOn, chunks) then chunks[..stopOn.value + 1] else chunks
  }

  function Yields(route: Route, chunks: seq<Chunk>): seq<Event> {
    seq(|chunks|, i requires 0 <= i < |chunks| => Yielded(route, chunks[i]))
  }

  lemma YieldsGrow(route: Route, chunks: seq<Chunk>, c: Chunk)
    ensures Yields(route, chunks) + [Yielded(route, c)] == Yields(route, chunks + [c])
  {
  }

  // ---------------------------------------------------------------- one hop

  /** How a hop whose chunks were all taken ends. */
  function Fault(w: StreamHop): Option<RouterError> {
    if w.thrown.None? && HasContent(w.chunks) then None
    else Some(if w.idleFired then IDLE else w.thrown.OrElse(EMPTY_STREAM))
  }

  datatype Pass = Pass(log: seq<Event>, ending: Option<Ending>, last: Option<RouterError>, stop: bool)

  /** The events of a granted hop around what the consumer took. */
  function Framed(route: Route, sent: Request, taken: seq<Chunk>, tail: seq<Event>): seq<Event> {
    [Granted(route), Opened(route, sent)] + Yields(route, taken) + tail
  }

  /** A fault blames the provider unless an abort or a stall ended the stream. */
  function FaultTail(route: Route, e: RouterError, blamed: bool): seq<Event> {
    if blamed then [Recorded(route.provider, false), Failed(e), Released(route.provider)]
    else [Failed(e), Released(route.provider)]
  }

  /** Content, an abort or a stall makes a fault final. */
  predicate Final(w: StreamHop) {
    HasContent(w.chunks) || w.abortedAfter || w.idleFired
  }

  function Relay(route: Route, sent: Request, w: StreamHop, stopOn: Option<nat>, last: Option<RouterError>): Pass {
    var out := Relayed(w.chunks);
    if WalksAway(stopOn, out) then
      Pass(Framed(route, sent, Taken(stopOn, out), [Released(route.provider)]), Some(Stopped), last, true)
    else
      match Fault(w)
      case None =>
        Pass(Framed(route, sent, out, [Recorded(route.provider, true), Released(route.provider)]), Some(Completed),
             last, true)
      case Some(e) =>
        Pass(Framed(route, sent, out, FaultTail(route, e, !w.abortedAfter && !w.idleFired)),
             if Final(w) then Some(Threw(e)) else None, Some(e), false)
  }

  function StreamHopOf(s: StreamSetting, w: StreamHop, model: Model, routed: Result<Route>,
                       last: Option<RouterError>): Pass {
    match routed
    case Err(e) => Pass([Skipped(model, e)], None, Some(PreferError(last, e)), false)
    case Ok(route) =>
      if !w.breakerAllows then Pass([Refused(model, BREAKER_OPEN)], None, Some(BREAKER_OPEN), false)
      else if !w.slotGranted then Pass([Refused(model, NO_SLOT)], None, Some(NO_SLOT), false)
      else Relay(route, HopEnvelope(s.o, route.model), w, s.stopOn, last)
  }

  function StreamVisit(s: StreamSetting, w: StreamHop, id: string, last: Option<RouterError>): Pass {
    var model := Lookup(s.p.rows, id);
    if w.aborted then Pass([], None, last, true)
    else if model.None? then Pass([], None, last, false)
    else StreamHopOf(s, w, model.value, RouteFor(s.o, s.p, model.value, w.provider), last)
  }

  function StreamExhausted(timedOut: bool, last: Option<RouterError>): Ending {
    Threw(if timedOut then TIMED_OUT else last.OrElse(NO_MODEL))
  }

  function StreamChain(s: StreamSetting, ids: seq<string>, k: nat, last: Option<RouterError>): StreamRun
    decreases |ids|
  {
    if ids == [] then StreamRun([], StreamExhausted(s.timedOut, last))
    else
      var v := StreamVisit(s, s.world(k), ids[0], last);
      if v.ending.Some? then StreamRun(v.log, v.ending.value)
      else if v.stop then StreamRun(v.log, StreamExhausted(s.timedOut, v.last))
      else
        var rest := StreamChain(s, ids[1..], k + 1, v.last);
        StreamRun(v.log + rest.log, rest.ending)
  }

  function StreamExecute(s: StreamSetting): StreamRun {
    match Select(s.p, s.o.envelope)
    case Err(e) => StreamRun([], Threw(e))
    case Ok(m) => StreamChain(s, CandidateIds(s.p, m), 0, None)
  }

  // ---------------------------------------------------------------- as it runs

  /** Yield the held-back frames in order, as far as the consumer takes them. */
  method Flush(ctx: PipelineCtx, route: Route, pending: seq<Chunk>, stopOn: Option<nat>)
    returns (log: seq<Event>, given: nat, stopped: bool)
    requires ctx.route == Some(route)
    ensures log == Yields(route, Taken(stopOn, pending))
    ensures stopped == WalksAway(stopOn, pending) && (!stopped ==> given == |pending|)
  {
    log, given := [], 0;
    while given < |pending|
      invariant given <= |pending| && log == Yields(route, pending[..given])
      invariant stopOn.Some? ==> given <= stopOn.value
    {
      YieldsGrow(route, pending[..given], pending[given]);
      assert pending[..given] + [pending[given]] == pending[..given + 1];
      log, given := log + [Yielded(ctx.route.value, pending[given])], given + 1;
      if stopOn.Some? && given == stopOn.value + 1 { return log, given, true; }
    }
    assert pending[..|pending|] == pending;
    return log, given, false;
  }

  /** The loop over one hop's chunks: hold back, flush, then pass on. */
  method RelayChunks(ctx: PipelineCtx, route: Route, chunks: seq<Chunk>, stopOn: Option<nat>)
    returns (log: seq<Event>, contentSeen: bool, stopped: bool)
    requires ctx.route == Some(route)
    ensures log == Yields(route, Taken(stopOn, Relayed(chunks)))
    ensures stopped == WalksAway(stopOn, Relayed(chunks))
    ensures !stopped ==> contentSeen == HasContent(chunks)
  {
    log, contentSeen := [], false;
    var pending, given := [], 0;
    for i := 0 to |chunks|
      invariant contentSeen == HasContent(chunks[..i])
      invariant if contentSeen then given == i && log == Yields(route, chunks[..i]) && pending == []
                else given == 0 && log == [] && pending == chunks[..i]
      invariant stopOn.Some? ==> given <= stopOn.value
    {
      var chunk := chunks[i];
      SeenSoFar(chunks, i);
      if !contentSeen && !IsContent(chunk) {
        pending := pending + [chunk];
        continue;
      }
      if !contentSeen {
        contentSeen := true;
        log, given, stopped := Flush(ctx, route, pending, stopOn);
        TakenEarly(stopOn, chunks, i);
        if stopped { return; }
        pending := [];
      }
      YieldsGrow(route, chunks[..i], chunk);
      log, given := log + [Yielded(ctx.route.value, chunk)], given + 1;
      if stopOn.Some? && given == stopOn.value + 1 {
        TakenEarly(stopOn, chunks, i + 1);
        return log, true, true;
      }
    }
    assert chunks[..|chunks|] == chunks;
    return log, contentSeen, false;
  }

  lemma SeenSoFar(chunks: seq<Chunk>, i: nat)
    requires i < |chunks|
    ensures chunks[..i] + [chunks[i]] == chunks[..i + 1]
    ensures HasContent(chunks[..i + 1]) <==> HasContent(chunks[..i]) || IsContent(chunks[i])
    ensures HasContent(chunks[..i + 1]) ==> HasContent(chunks)
  {
    if HasContent(chunks[..i]) {
      var j :| 0 <= j < i && IsContent(chunks[..i][j]);
      assert IsContent(chunks[..i + 1][j]);
    }
    if IsContent(chunks[i]) {
      assert IsContent(chunks[..i + 1][i]);
    }
  }

  /** What is taken of a part, when the consumer walks away inside it, is what is taken of the whole. */
  lemma TakenEarly(stopOn: Option<nat>, chunks: seq<Chunk>, i: nat)
    requires i <= |chunks|
    ensures WalksAway(stopOn, chunks[..i]) ==>
              WalksAway(stopOn, chunks) && Taken(stopOn, chunks[..i]) == Taken(stopOn, chunks)
    ensures !WalksAway(stopOn, chunks[..i]) ==> Taken(stopOn, chunks[..i]) == chunks[..i]
  {
    if WalksAway(stopOn, chunks[..i]) {
      assert chunks[..i][..stopOn.value + 1] == chunks[..stopOn.value + 1];
    }
  }

  lemma FramedRoute(route: Route, sent: Request, taken: seq<Chunk>, tail: seq<Event>, before: Option<Route>)
    requires forall i :: 0 <= i < |tail| ==> !tail[i].Granted?
    ensures LastRoute(Framed(route, sent, taken, tail), before) == Some(route)
  {
    var granted: seq<Event> := [Granted(route)];
    assert [Granted(route), Opened(route, sent)] == granted + [Opened(route, sent)];
    LastRouteSkips(granted, [Opened(route, sent)], before);
    LastRouteSkips([Granted(route), Opened(route, sent)], Yields(route, taken), before);
    LastRouteSkips([Granted(route), Opened(route, sent)] + Yields(route, taken), tail, before);
  }

  lemma RelayRoute(route: Route, sent: Request, w: StreamHop, stopOn: Option<nat>, last: Option<RouterError>,
                   before: Option<Route>)
    ensures LastRoute(Relay(route, sent, w, stopOn, last).log, before) == Some(route)
  {
    var out := Relayed(w.chunks);
    if WalksAway(stopOn, out) {
      FramedRoute(route, sent, Taken(stopOn, out), [Released(route.provider)], before);
    } else if Fault(w).None? {
      FramedRoute(route, sent, out, [Recorded(route.provider, true), Released(route.provider)], before);
    } else {
      FramedRoute(route, sent, out, FaultTail(route, Fault(w).value, !w.abortedAfter && !w.idleFired), before);
    }
  }

  /** The granted hop: the context names it before its stream is opened. */
  method RelayHop(ctx: PipelineCtx, s: StreamSetting, w: StreamHop, route: Route, last: Option<RouterError>)
    returns (v: Pass)
    modifies ctx`route
    ensures v == Relay(route, HopEnvelope(s.o, route.model), w, s.stopOn, last)
    ensures ctx.route == Some(route)
  {
    ctx.route := Some(route);
    var sent := HopEnvelope(s.o, route.model);
    var log, contentSeen, stopped := RelayChunks(ctx, route, w.chunks, s.stopOn);
    var head := [Granted(route), Opened(route, sent)] + log;
    if stopped { return Pass(head + [Released(route.provider)], Some(Stopped), last, true); }
    if w.thrown.None? && contentSeen {
      return Pass(head + [Recorded(route.provider, true), Released(route.provider)], Some(Completed), last, true);
    }
    var error := if w.idleFired then IDLE else if w.thrown.Some? then w.thrown.value else EMPTY_STREAM;
    var ending := if contentSeen || w.abortedAfter || w.idleFired then Some(Threw(error)) else None;
    if !w.abortedAfter && !w.idleFired {
      return Pass(head + [Recorded(route.provider, false), Failed(error), Released(route.provider)], ending,
                  Some(error), false);
    }
    return Pass(head + [Failed(error), Released(route.provider)], ending, Some(error), false);
  }

  method StreamCandidate(ctx: PipelineCtx, s: StreamSetting, w: StreamHop, id: string, last: Option<RouterError>)
    returns (v: Pass)
    requires ctx.effective == s.p && ctx.Out() == s.o
    modifies ctx`route
    ensures v == StreamVisit(s, w, id, last)
    ensures ctx.route == LastRoute(v.log, old(ctx.route))
  {
    if w.aborted { return Pass([], None, last, true); }
    var model := Lookup(s.p.rows, id);
    if model.None? { return Pass([], None, last, false); }
    var r := ctx.RouteForModel(model.value, w.provider);
    if r.Err? { return Pass([Skipped(model.value, r.error)], None, Some(PreferError(last, r.error)), false); }
    if !w.breakerAllows { return Pass([Refused(model.value, BREAKER_OPEN)], None, Some(BREAKER_OPEN), false); }
    if !w.slotGranted { return Pass([Refused(model.value, NO_SLOT)], None, Some(NO_SLOT), false); }
    v := RelayHop(ctx, s, w, r.value, last);
    RelayRoute(r.value, HopEnvelope(s.o, r.value.model), w, s.stopOn, last, old(ctx.route));
  }

  method ExecuteResilientStream(ctx: PipelineCtx, s: StreamSetting) returns (log: seq<Event>, ending: Ending)
    requires ctx.effective == s.p && ctx.Out() == s.o
    modifies ctx`route
    ensures StreamRun(log, ending) == StreamExecute(s)
    ensures ctx.route == LastRoute(log, old(ctx.route))
  {
    var candidates := ctx.CandidateModels();
    if candidates.Err? { return [], Threw(candidates.error); }
    log, ending := WalkStream(ctx, s, candidates.value);
  }

  method WalkStream(ctx: PipelineCtx, s: StreamSetting, ids: seq<string>) returns (log: seq<Event>, ending: Ending)
    requires ctx.effective == s.p && ctx.Out() == s.o
    modifies ctx`route
    ensures StreamRun(log, ending) == StreamChain(s, ids, 0, None)
    ensures ctx.route == LastRoute(log, old(ctx.route))
  {
    ghost var whole := StreamChain(s, ids, 0, None);
    var lastErr := None;
    log := [];
    NoPrefix(whole.log);
    assert ids[0..] == ids;
    for i := 0 to |ids|
      invariant log + StreamChain(s, ids[i..], i, lastErr).log == whole.log
      invariant StreamChain(s, ids[i..], i, lastErr).ending == whole.ending
      invariant ctx.route == LastRoute(log, old(ctx.route)) && ctx.Out() == s.o
    {
      StreamChainStep(s, ids, i, lastErr, log);
      var v := StreamCandidate(ctx, s, s.world(i), ids[i], lastErr);
      LastRouteAppend(log, v.log, old(ctx.route));
      log, lastErr := log + v.log, v.last;
      if v.ending.Some? { return log, v.ending.value; }
      if v.stop { return log, StreamExhausted(s.timedOut, lastErr); }
    }
    NoPrefix(log);
    return log, StreamExhausted(s.timedOut, lastErr);
  }

  lemma StreamChainStep(s: StreamSetting, ids: seq<string>, i: nat, last: Option<RouterError>, before: seq<Event>)
    requires i < |ids|
    ensures var v := StreamVisit(s, s.world(i), ids[i], last);
            var run, rest := StreamChain(s, ids[i..], i, last), StreamChain(s, ids[i + 1..], i + 1, v.last);
            if v.ending.Some? then run == StreamRun(v.log, v.ending.value)
            else if v.stop then run == StreamRun(v.log, StreamExhausted(s.timedOut, v.last))
            else run.ending == rest.ending && before + run.log == (before + v.log) + rest.log
  {
    assert ids[i..][0] == ids[i] && ids[i..][1..] == ids[i + 1..];
    var v := StreamVisit(s, s.world(i), ids[i], last);
    Regroup(before, v.log, StreamChain(s, ids[i + 1..], i + 1, v.last).log);
  }
}

/** What every streaming run keeps. */
module StreamingLaws {
  import opened Common
  import opened Text
  import opened Envelope
  import opened Policy
  import opened Pipeline
  import opened Executor
  import opened ExecutorLaws
  import opened Streaming

  // ---------------------------------------------------------------- the no-splice rule

  /** What reached the consumer. */
  function Chunks(log: seq<Event>): seq<Chunk> {
    if log == [] then [] else (if log[0].Yielded? then [log[0].chunk] else []) + Chunks(log[1..])
  }

  lemma {:induction false} ChunksAppend(a: seq<Event>, b: seq<Event>)
    ensures Chunks(a + b) == Chunks(a) + Chunks(b)
  {
    if a == [] {
      NoPrefix(b);
      NoPrefix(Chunks(b));
    } else {
      assert (a + b)[1..] == a[1..] + b;
      ChunksAppend(a[1..], b);
      Regroup(if a[0].Yielded? then [a[0].chunk] else [], Chunks(a[1..]), Chunks(b));
    }
  }

  lemma {:induction false} NoChunks(log: seq<Event>)
    requires forall i :: 0 <= i < |log| ==> !log[i].Yielded?
    ensures Chunks(log) == []
  {
    if log != [] {
      NoChunks(log[1..]);
    }
  }

  lemma {:induction false} ChunksOfYields(route: Route, chunks: seq<Chunk>)
    ensures Chunks(Yields(route, chunks)) == chunks
  {
    if chunks != [] {
      assert Yields(route, chunks)[1..] == Yields(route, chunks[1..]);
      ChunksOfYields(route, chunks[1..]);
      assert chunks == [chunks[0]] + chunks[1..];
    }
  }

  /** Every chunk of a log was yielded while the context named `route`. */
  ghost predicate YieldedUnder(log: seq<Event>, route: Route) {
    forall i :: 0 <= i < |log| && log[i].Yielded? ==> log[i].route == route
  }

  lemma FramedYields(route: Route, sent: Request, taken: seq<Chunk>, tail: seq<Event>)
    requires forall i :: 0 <= i < |tail| ==> !tail[i].Yielded?
    ensures Chunks(Framed(route, sent, taken, tail)) == taken && YieldedUnder(Framed(route, sent, taken, tail), route)
  {
    var head: seq<Event> := [Granted(route), Opened(route, sent)];
    NoChunks(head);
    NoChunks(tail);
    ChunksOfYields(route, taken);
    ChunksAppend(head, Yields(route, taken));
    ChunksAppend(head + Yields(route, taken), tail);
    NoPrefix(taken);
  }

  lemma RelayYields(route: Route, sent: Request, w: StreamHop, stopOn: Option<nat>, last: Option<RouterError>)
    ensures var v := Relay(route, sent, w, stopOn, last);
            Chunks(v.log) == Taken(stopOn, Relayed(w.chunks)) && YieldedUnder(v.log, route)
  {
    var out := Relayed(w.chunks);
    if WalksAway(stopOn, out) {
      FramedYields(route, sent, Taken(stopOn, out), [Released(route.provider)]);
    } else if Fault(w).None? {
      FramedYields(route, sent, out, [Recorded(route.provider, true), Released(route.provider)]);
    } else {
      FramedYields(route, sent, out, FaultTail(route, Fault(w).value, !w.abortedAfter && !w.idleFired));
    }
  }

  /** One hop's share in a run that relayed something. */
  ghost predicate SoleSource(w: StreamHop, route: Route, id: string, run: StreamRun) {
    && w.provider == Ok(route.provider) && route.model.id == id
    && HasContent(w.chunks)
    && Chunks(run.log) <= w.chunks
    && YieldedUnder(run.log, route) && LastRoute(run.log, None) == Some(route)
    && (run.ending == Completed ==> Chunks(run.log) == w.chunks && w.thrown == None)
  }

  /** A run relays nothing and does not complete, or everything it relays comes from one hop. */
  ghost predicate OneHop(s: StreamSetting, ids: seq<string>, k: nat, run: StreamRun) {
    || (Chunks(run.log) == [] && run.ending.Threw?)
    || exists i: nat, route :: SoleAt(s, ids, k, i, route, run)
  }

  ghost predicate SoleAt(s: StreamSetting, ids: seq<string>, k: nat, i: nat, route: Route, run: StreamRun) {
    i < |ids| && SoleSource(s.world(k + i), route, ids[i], run)
  }

  lemma RelayIsSole(route: Route, sent: Request, w: StreamHop, stopOn: Option<nat>, last: Option<RouterError>,
                    id: string)
    requires w.provider == Ok(route.provider) && route.model.id == id
    ensures var v := Relay(route, sent, w, stopOn, last);
            if v.ending.None? then Chunks(v.log) == []
            else var run := StreamRun(v.log, v.ending.value);
                 SoleSource(w, route, id, run) || (Chunks(run.log) == [] && run.ending.Threw?)
  {
    RelayYields(route, sent, w, stopOn, last);
    RelayRoute(route, sent, w, stopOn, last, None);
  }

  lemma VisitIsSole(s: StreamSetting, w: StreamHop, id: string, last: Option<RouterError>, route: Route)
    requires Lookup(s.p.rows, id).Some? ==> RouteFor(s.o, s.p, Lookup(s.p.rows, id).value, w.provider).Ok? ==>
               route == RouteFor(s.o, s.p, Lookup(s.p.rows, id).value, w.provider).value
    ensures var v := StreamVisit(s, w, id, last);
            if v.ending.None? then Chunks(v.log) == []
            else var run := StreamRun(v.log, v.ending.value);
                 SoleSource(w, route, id, run) || (Chunks(run.log) == [] && run.ending.Threw?)
  {
    var model := Lookup(s.p.rows, id);
    if model.Some? {
      HopIsSole(s, w, id, model.value, RouteFor(s.o, s.p, model.value, w.provider), last);
    }
  }

  lemma HopIsSole(s: StreamSetting, w: StreamHop, id: string, model: Model, routed: Result<Route>,
                  last: Option<RouterError>)
    requires routed.Ok? ==> w.provider == Ok(routed.value.provider) && routed.value.model.id == id
    ensures var v := StreamHopOf(s, w, model, routed, last);
            if v.ending.None? then Chunks(v.log) == []
            else var run := StreamRun(v.log, v.ending.value);
                 routed.Ok? && (SoleSource(w, routed.value, id, run) || (Chunks(run.log) == [] && run.ending.Threw?))
  {
    if routed.Ok? && w.breakerAllows && w.slotGranted {
      RelayIsSole(routed.value, HopEnvelope(s.o, routed.value.model), w, s.stopOn, last, id);
    } else {
      NoChunks(StreamHopOf(s, w, model, routed, last).log);
    }
  }

  lemma {:induction false} ChainIsOneHop(s: StreamSetting, ids: seq<string>, k: nat, last: Option<RouterError>)
    ensures OneHop(s, ids, k, StreamChain(s, ids, k, last))
    decreases |ids|
  {
    if ids != [] {
      var w := s.world(k);
      var v := StreamVisit(s, w, ids[0], last);
      var model := Lookup(s.p.rows, ids[0]);
      if v.ending.Some? {
        var route := RouteFor(s.o, s.p, model.value, w.provider).value;
        VisitIsSole(s, w, ids[0], last, route);
        assert SoleSource(w, route, ids[0], StreamRun(v.log, v.ending.value)) ==>
                 SoleAt(s, ids, k, 0, route, StreamRun(v.log, v.ending.value));
      } else {
        QuietVisit(s, w, ids[0], last);
        if !v.stop {
          ChainIsOneHop(s, ids[1..], k + 1, v.last);
          Prepended(s, ids, k, v.log, StreamChain(s, ids[1..], k + 1, v.last));
        }
      }
    }
  }

  lemma QuietVisit(s: StreamSetting, w: StreamHop, id: string, last: Option<RouterError>)
    requires StreamVisit(s, w, id, last).ending.None?
    ensures Chunks(StreamVisit(s, w, id, last).log) == []
  {
    var model := Lookup(s.p.rows, id);
    if model.Some? {
      HopIsSole(s, w, id, model.value, RouteFor(s.o, s.p, model.value, w.provider), last);
    }
  }

  /** Hops that relayed nothing do not show. */
  lemma Prepended(s: StreamSetting, ids: seq<string>, k: nat, before: seq<Event>, rest: StreamRun)
    requires ids != [] && Chunks(before) == [] && OneHop(s, ids[1..], k + 1, rest)
    ensures OneHop(s, ids, k, StreamRun(before + rest.log, rest.ending))
  {
    ChunksAppend(before, rest.log);
    NoPrefix(Chunks(rest.log));
    if !(Chunks(rest.log) == [] && rest.ending.Threw?) {
      var i: nat, route :| SoleAt(s, ids[1..], k + 1, i, route, rest);
      LastRouteAppend(before, rest.log, None);
      LastRouteDecides(rest.log, LastRoute(before, None));
      QuietIsUnder(before, route);
      assert SoleAt(s, ids, k, i + 1, route, StreamRun(before + rest.log, rest.ending));
    }
  }

  lemma {:induction false} QuietIsUnder(log: seq<Event>, route: Route)
    requires Chunks(log) == []
    ensures YieldedUnder(log, route)
  {
    if log != [] {
      QuietIsUnder(log[1..], route);
      forall i | 0 <= i < |log| && log[i].Yielded? ensures log[i].route == route {
        if i > 0 { assert log[i] == log[1..][i - 1]; }
      }
    }
  }

  /** Everything a streaming run yields is a prefix of one hop's chunks, under that hop's route. */
  lemma StreamComesFromOneHop(s: StreamSetting)
    ensures OneHop(s, if Select(s.p, s.o.envelope).Ok? then CandidateIds(s.p, Select(s.p, s.o.envelope).value) else [],
                   0, StreamExecute(s))
  {
    var m := Select(s.p, s.o.envelope);
    if m.Ok? {
      ChainIsOneHop(s, CandidateIds(s.p, m.value), 0, None);
    }
  }

  // ---------------------------------------------------------------- the protocol of a run

  lemma {:induction false} YieldsFollow(route: Route, chunks: seq<Chunk>)
    ensures After(Streaming(route), Yields(route, chunks)) == Streaming(route)
  {
    if chunks != [] {
      var n := |chunks| - 1;
      assert Yields(route, chunks)[..n] == Yields(route, chunks[..n]);
      YieldsFollow(route, chunks[..n]);
    }
  }

  lemma AfterTwo(ph: Phase, a: Event, b: Event)
    ensures After(ph, [a, b]) == Move(Move(ph, a), b)
  {
    AfterOne(ph, a);
    assert [a, b][..1] == [a];
  }

  lemma FaultTailFollows(route: Route, e: RouterError, blamed: bool)
    ensures After(Streaming(route), FaultTail(route, e, blamed)) == Idle
  {
    var note, failed, released := Recorded(route.provider, false), Failed(e), Released(route.provider);
    AfterTwo(Streaming(route), failed, released);
    AfterOne(Streaming(route), note);
    AfterTwo(Faulted(route), failed, released);
    AfterAppend(Streaming(route), [note], [failed, released]);
    assert [note, failed, released] == [note] + [failed, released];
  }

  lemma FramedFollows(route: Route, sent: Request, taken: seq<Chunk>, tail: seq<Event>)
    requires After(Streaming(route), tail) == Idle
    ensures After(Idle, Framed(route, sent, taken, tail)) == Idle
  {
    var head: seq<Event> := [Granted(route), Opened(route, sent)];
    AfterTwo(Idle, Granted(route), Opened(route, sent));
    YieldsFollow(route, taken);
    AfterAppend(Idle, head, Yields(route, taken));
    AfterAppend(Idle, head + Yields(route, taken), tail);
  }

  lemma RelayFollows(route: Route, sent: Request, w: StreamHop, stopOn: Option<nat>, last: Option<RouterError>)
    ensures After(Idle, Relay(route, sent, w, stopOn, last).log) == Idle
  {
    var out := Relayed(w.chunks);
    if WalksAway(stopOn, out) {
      AfterOne(Streaming(route), Released(route.provider));
      FramedFollows(route, sent, Taken(stopOn, out), [Released(route.provider)]);
    } else if Fault(w).None? {
      AfterTwo(Streaming(route), Recorded(route.provider, true), Released(route.provider));
      FramedFollows(route, sent, out, [Recorded(route.provider, true), Released(route.provider)]);
    } else {
      var blamed := !w.abortedAfter && !w.idleFired;
      FaultTailFollows(route, Fault(w).value, blamed);
      FramedFollows(route, sent, out, FaultTail(route, Fault(w).value, blamed));
    }
  }

  lemma StreamHopFollows(s: StreamSetting, w: StreamHop, model: Model, routed: Result<Route>, last: Option<RouterError>)
    ensures After(Idle, StreamHopOf(s, w, model, routed, last).log) == Idle
  {
    match routed {
      case Err(e) => AfterOne(Idle, Skipped(model, e));
      case Ok(route) =>
        AfterOne(Idle, Refused(model, BREAKER_OPEN));
        AfterOne(Idle, Refused(model, NO_SLOT));
        RelayFollows(route, HopEnvelope(s.o, route.model), w, s.stopOn, last);
    }
  }

  lemma {:induction false} StreamChainFollows(s: StreamSetting, ids: seq<string>, k: nat, last: Option<RouterError>)
    ensures After(Idle, StreamChain(s, ids, k, last).log) == Idle
    decreases |ids|
  {
    if ids != [] {
      var w, model := s.world(k), Lookup(s.p.rows, ids[0]);
      var v := StreamVisit(s, w, ids[0], last);
      if model.Some? {
        StreamHopFollows(s, w, model.value, RouteFor(s.o, s.p, model.value, w.provider), last);
      }
      if v.ending.None? && !v.stop {
        StreamChainFollows(s, ids[1..], k + 1, v.last);
        AfterAppend(Idle, v.log, StreamChain(s, ids[1..], k + 1, v.last).log);
      }
    }
  }

  /** Streaming runs follow the same protocol and give back every slot, whoever ends them. */
  lemma StreamFollowsProtocol(s: StreamSetting, provider: string)
    ensures After(Idle, StreamExecute(s).log) == Idle
    ensures Grants(StreamExecute(s).log, provider) == Releases(StreamExecute(s).log, provider)
  {
    var m := Select(s.p, s.o.envelope);
    if m.Ok? {
      StreamChainFollows(s, CandidateIds(s.p, m.value), 0, None);
    }
    SlotsBalance(StreamExecute(s).log, provider);
  }

  // ---------------------------------------------------------------- what is opened

  lemma FramedOpens(ok: (Route, Request) -> bool, route: Route, sent: Request, taken: seq<Chunk>, tail: seq<Event>)
    requires ok(route, sent) && AllCalls(ok, tail)
    ensures AllCalls(ok, Framed(route, sent, taken, tail))
  {
    AllCallsAppend(ok, [Granted(route), Opened(route, sent)], Yields(route, taken));
    AllCallsAppend(ok, [Granted(route), Opened(route, sent)] + Yields(route, taken), tail);
  }

  lemma RelayOpens(ok: (Route, Request) -> bool, route: Route, sent: Request, w: StreamHop, stopOn: Option<nat>,
                   last: Option<RouterError>)
    requires ok(route, sent)
    ensures AllCalls(ok, Relay(route, sent, w, stopOn, last).log)
  {
    var out := Relayed(w.chunks);
    if WalksAway(stopOn, out) {
      FramedOpens(ok, route, sent, Taken(stopOn, out), [Released(route.provider)]);
    } else if Fault(w).None? {
      FramedOpens(ok, route, sent, out, [Recorded(route.provider, true), Released(route.provider)]);
    } else {
      FramedOpens(ok, route, sent, out, FaultTail(route, Fault(w).value, !w.abortedAfter && !w.idleFired));
    }
  }

  lemma StreamHopOpens(ok: (Route, Request) -> bool, s: StreamSetting, w: StreamHop, model: Model,
                       routed: Result<Route>, last: Option<RouterError>)
    requires routed.Ok? ==> ok(routed.value, HopEnvelope(s.o, routed.value.model))
    ensures AllCalls(ok, StreamHopOf(s, w, model, routed, last).log)
  {
    if routed.Ok? {
      RelayOpens(ok, routed.value, HopEnvelope(s.o, routed.value.model), w, s.stopOn, last);
    }
  }

  lemma {:induction false} StreamChainOpens(ok: (Route, Request) -> bool, s: StreamSetting, ids: seq<string>,
                                            k: nat, last: Option<RouterError>)
    requires forall id, rest {:trigger RouteFor(s.o, s.p, Lookup(s.p.rows, id).value, rest)} ::
               id in ids && Lookup(s.p.rows, id).Some? ==>
                 var routed := RouteFor(s.o, s.p, Lookup(s.p.rows, id).value, rest);
                 routed.Ok? ==> ok(routed.value, HopEnvelope(s.o, routed.value.model))
    ensures AllCalls(ok, StreamChain(s, ids, k, last).log)
    decreases |ids|
  {
    if ids != [] {
      var w, model := s.world(k), Lookup(s.p.rows, ids[0]);
      var v := StreamVisit(s, w, ids[0], last);
      if model.Some? {
        StreamHopOpens(ok, s, w, model.value, RouteFor(s.o, s.p, model.value, w.provider), last);
      }
      if v.ending.None? && !v.stop {
        StreamChainOpens(ok, s, ids[1..], k + 1, v.last);
        AllCallsAppend(ok, v.log, StreamChain(s, ids[1..], k + 1, v.last).log);
      }
    }
  }

  // ---------------------------------------------------------------- when a hop is replaced

  /** The hop got its slot and opened its stream. */
  predicate GotSlot(s: StreamSetting, w: StreamHop, id: string) {
    && !w.aborted && Lookup(s.p.rows, id).Some? && w.breakerAllows && w.slotGranted
    && RouteFor(s.o, s.p, Lookup(s.p.rows, id).value, w.provider).Ok?
  }

  /**
   * A granted hop ends the run exactly when it produced content, was aborted or stalled; it completes
   * exactly when its content ended normally and the consumer stayed.
   */
  lemma ReplacedExactlyWhen(s: StreamSetting, w: StreamHop, id: string, last: Option<RouterError>)
    requires GotSlot(s, w, id)
    ensures var v := StreamVisit(s, w, id, last);
            && (v.ending.Some? <==> HasContent(w.chunks) || w.abortedAfter || w.idleFired)
            && (v.ending == Some(Completed) <==>
                  HasContent(w.chunks) && w.thrown == None && !WalksAway(s.stopOn, w.chunks))
  {
    var route := RouteFor(s.o, s.p, Lookup(s.p.rows, id).value, w.provider).value;
    RelayEnds(route, HopEnvelope(s.o, route.model), w, s.stopOn, last);
  }

  lemma RelayEnds(route: Route, sent: Request, w: StreamHop, stopOn: Option<nat>, last: Option<RouterError>)
    ensures var v := Relay(route, sent, w, stopOn, last);
            && (v.ending.Some? <==> HasContent(w.chunks) || w.abortedAfter || w.idleFired)
            && (v.ending == Some(Completed) <==>
                  HasContent(w.chunks) && w.thrown == None && !WalksAway(stopOn, w.chunks))
  {
  }

  // ---------------------------------------------------------------- the error that surfaces

  /** Streams fail with faults of the provider, never of the policy. */
  ghost predicate StreamsReportFaults(s: StreamSetting) {
    forall k: nat :: ThrowsFaults(s.world(k))
  }

  predicate ThrowsFaults(w: StreamHop) {
    w.thrown.Some? ==> !PolicySide(w.thrown.value.code)
  }

  lemma {:induction false} NoHopErrors(log: seq<Event>)
    requires forall i :: 0 <= i < |log| ==> !log[i].Skipped? && !log[i].Refused? && !log[i].Failed?
    ensures HopErrors(log) == []
  {
    if log != [] {
      NoHopErrors(log[1..]);
    }
  }

  lemma FramedErrors(route: Route, sent: Request, taken: seq<Chunk>, tail: seq<Event>)
    ensures HopErrors(Framed(route, sent, taken, tail)) == HopErrors(tail)
  {
    var head := [Granted(route), Opened(route, sent)] + Yields(route, taken);
    NoHopErrors(head);
    HopErrorsAppend(head, tail);
    NoPrefix(HopErrors(tail));
  }

  lemma FaultTailErrors(route: Route, e: RouterError, blamed: bool)
    ensures HopErrors(FaultTail(route, e, blamed)) == [e]
  {
    var failed: seq<Event> := [Failed(e)];
    var released: seq<Event> := [Released(route.provider)];
    var note: seq<Event> := if blamed then [Recorded(route.provider, false)] else [];
    NoHopErrors(note);
    NoHopErrors(released);
    assert HopErrors(failed) == [e] by { assert failed[1..] == []; }
    HopErrorsAppend(failed, released);
    HopErrorsAppend(note, failed + released);
    assert FaultTail(route, e, blamed) == note + (failed + released);
  }

  lemma RelayCarries(route: Route, sent: Request, w: StreamHop, stopOn: Option<nat>, last: Option<RouterError>,
                     errors: seq<RouterError>)
    requires ThrowsFaults(w) && Carried(errors, last)
    ensures var v := Relay(route, sent, w, stopOn, last);
            v.ending.None? || v.ending.value.Threw? ==>
              && Carried(errors + HopErrors(v.log), v.last)
              && (v.ending.Some? ==> v.last == Some(v.ending.value.error))
  {
    if !WalksAway(stopOn, Relayed(w.chunks)) && Fault(w).Some? {
      var e, blamed := Fault(w).value, !w.abortedAfter && !w.idleFired;
      FaultTailErrors(route, e, blamed);
      FramedErrors(route, sent, Relayed(w.chunks), FaultTail(route, e, blamed));
      CarriedGrows(errors, last, e);
    }
  }

  lemma StreamHopCarries(s: StreamSetting, w: StreamHop, model: Model, routed: Result<Route>, last: Option<RouterError>,
                         errors: seq<RouterError>)
    requires ThrowsFaults(w) && Carried(errors, last)
    ensures var v := StreamHopOf(s, w, model, routed, last);
            v.ending.None? || v.ending.value.Threw? ==>
              && Carried(errors + HopErrors(v.log), v.last)
              && (v.ending.Some? ==> v.last == Some(v.ending.value.error))
  {
    match routed {
      case Err(e) => PassedOverCarries(Skipped(model, e), last, errors);
      case Ok(route) =>
        if !w.breakerAllows {
          PassedOverCarries(Refused(model, BREAKER_OPEN), last, errors);
        } else if !w.slotGranted {
          PassedOverCarries(Refused(model, NO_SLOT), last, errors);
        } else {
          RelayCarries(route, HopEnvelope(s.o, route.model), w, s.stopOn, last, errors);
        }
    }
  }

  lemma StreamVisitCarries(s: StreamSetting, w: StreamHop, id: string, last: Option<RouterError>,
                           errors: seq<RouterError>)
    requires ThrowsFaults(w) && Carried(errors, last)
    ensures var v := StreamVisit(s, w, id, last);
            v.ending.None? || v.ending.value.Threw? ==>
              && Carried(errors + HopErrors(v.log), v.last)
              && (v.ending.Some? ==> v.last == Some(v.ending.value.error))
  {
    var model := Lookup(s.p.rows, id);
    NoPrefix(errors);
    if model.Some? {
      StreamHopCarries(s, w, model.value, RouteFor(s.o, s.p, model.value, w.provider), last, errors);
    }
  }

  lemma {:induction false} StreamChainCarries(s: StreamSetting, ids: seq<string>, k: nat, last: Option<RouterError>,
                                              errors: seq<RouterError>)
    requires StreamsReportFaults(s) && Carried(errors, last) && !s.timedOut
    ensures var run := StreamChain(s, ids, k, last);
            run.ending.Threw? ==> SurfacesAs(errors + HopErrors(run.log), run.ending.error)
    decreases |ids|
  {
    if ids == [] {
      NoPrefix(errors);
      CarriedSurfaces(errors, last);
    } else {
      var v := StreamVisit(s, s.world(k), ids[0], last);
      StreamVisitCarries(s, s.world(k), ids[0], last, errors);
      var now := errors + HopErrors(v.log);
      if v.ending.Some? || v.stop {
        if v.ending.None? || v.ending.value.Threw? {
          CarriedSurfaces(now, v.last);
        }
      } else {
        var rest := StreamChain(s, ids[1..], k + 1, v.last);
        StreamChainCarries(s, ids[1..], k + 1, v.last, now);
        HopErrorsAppend(v.log, rest.log);
        Regroup(errors, HopErrors(v.log), HopErrors(rest.log));
      }
    }
  }

  /** A streaming run that throws, whether a hop's fault was final or the chain ran out. */
  lemma MeaningfulStreamErrorSurfaces(s: StreamSetting)
    requires StreamsReportFaults(s) && !s.timedOut
    requires Select(s.p, s.o.envelope).Ok? && StreamExecute(s).ending.Threw?
    ensures SurfacesAs(HopErrors(StreamExecute(s).log), StreamExecute(s).ending.error)
  {
    var ids := CandidateIds(s.p, Select(s.p, s.o.envelope).value);
    StreamChainCarries(s, ids, 0, None, []);
    NoPrefix(HopErrors(StreamExecute(s).log));
  }
}

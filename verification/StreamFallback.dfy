/** How far a streaming run goes, and how it ends at the hop that serves. */
module StreamFallback {
  import opened Common
  import opened Text
  import opened Envelope
  import opened Policy
  import opened Pipeline
  import opened Executor
  import opened Fallback
  import opened Streaming
  import opened StreamingLaws

  /** Some chunk carries output: text, the start of a tool call or a piece of its arguments. */
  predicate Produces(chunks: seq<Chunk>) {
    exists i :: 0 <= i < |chunks| && (chunks[i].Text? || chunks[i].ToolStart? || chunks[i].ToolDelta?)
  }

  lemma ProducingIsContent(chunks: seq<Chunk>)
    ensures Produces(chunks) <==> HasContent(chunks)
  {
    assert forall i :: 0 <= i < |chunks| ==>
      (IsContent(chunks[i]) <==> chunks[i].Text? || chunks[i].ToolStart? || chunks[i].ToolDelta?);
  }

  predicate OpensStream(s: StreamSetting, w: StreamHop, id: string) {
    && Lookup(s.p.rows, id).Some? && w.breakerAllows && w.slotGranted
    && RouteFor(s.o, s.p, Lookup(s.p.rows, id).value, w.provider).Ok?
  }

  /** Nobody leaves, and the candidate is missing, unroutable, refused or ends without output. */
  predicate PassedStream(s: StreamSetting, w: StreamHop, id: string) {
    !w.aborted && (OpensStream(s, w, id) ==> !Produces(w.chunks) && !w.abortedAfter && !w.idleFired)
  }

  /** How a hop with output ends the run, given when the consumer walks away. */
  function EndingOf(w: StreamHop, stopOn: Option<nat>): Ending {
    if stopOn.Some? && stopOn.value < |w.chunks| then Stopped
    else if w.thrown.None? then Completed
    else Threw(if w.idleFired then RouterError(ProviderUnavailable, IdleTimeout) else w.thrown.value)
  }

  lemma RelayServes(route: Route, sent: Request, w: StreamHop, stopOn: Option<nat>, last: Option<RouterError>)
    requires Produces(w.chunks)
    ensures var v := Relay(route, sent, w, stopOn, last);
            v.ending == Some(EndingOf(w, stopOn)) && Chunks(v.log) == Taken(stopOn, w.chunks)
  {
    ProducingIsContent(w.chunks);
    RelayYields(route, sent, w, stopOn, last);
  }

  lemma RelayPasses(route: Route, sent: Request, w: StreamHop, stopOn: Option<nat>, last: Option<RouterError>)
    requires !Produces(w.chunks) && !w.abortedAfter && !w.idleFired
    ensures var v := Relay(route, sent, w, stopOn, last);
            && v.ending == None && !v.stop && Chunks(v.log) == []
            && v.last == Some(if w.thrown.Some? then w.thrown.value else RouterError(InvalidResponse, NoContent))
  {
    ProducingIsContent(w.chunks);
    RelayYields(route, sent, w, stopOn, last);
  }

  lemma PassedVisit(s: StreamSetting, w: StreamHop, id: string, last: Option<RouterError>)
    requires PassedStream(s, w, id)
    ensures var v := StreamVisit(s, w, id, last); v.ending == None && !v.stop && Chunks(v.log) == []
  {
    var m := Lookup(s.p.rows, id);
    if m.Some? {
      PassedHop(s, w, m.value, RouteFor(s.o, s.p, m.value, w.provider), last);
    }
  }

  lemma PassedHop(s: StreamSetting, w: StreamHop, model: Model, routed: Result<Route>, last: Option<RouterError>)
    requires routed.Ok? && w.breakerAllows && w.slotGranted ==>
               !Produces(w.chunks) && !w.abortedAfter && !w.idleFired
    ensures var v := StreamHopOf(s, w, model, routed, last); v.ending == None && !v.stop && Chunks(v.log) == []
  {
    if routed.Ok? && w.breakerAllows && w.slotGranted {
      RelayPasses(routed.value, HopEnvelope(s.o, routed.value.model), w, s.stopOn, last);
    } else {
      NoChunks(StreamHopOf(s, w, model, routed, last).log);
    }
  }

  lemma ServingVisit(s: StreamSetting, w: StreamHop, id: string, last: Option<RouterError>)
    requires !w.aborted && OpensStream(s, w, id) && Produces(w.chunks)
    ensures var v := StreamVisit(s, w, id, last);
            v.ending == Some(EndingOf(w, s.stopOn)) && Chunks(v.log) == Taken(s.stopOn, w.chunks)
  {
    var route := RouteFor(s.o, s.p, Lookup(s.p.rows, id).value, w.provider).value;
    RelayServes(route, HopEnvelope(s.o, route.model), w, s.stopOn, last);
  }

  /** Past candidates without output, the first with output is the stream. */
  lemma {:induction false} StreamReaches(s: StreamSetting, ids: seq<string>, k: nat, last: Option<RouterError>, j: nat)
    requires j < |ids| && !s.world(k + j).aborted
    requires OpensStream(s, s.world(k + j), ids[j]) && Produces(s.world(k + j).chunks)
    requires forall i: nat :: i < j ==> PassedStream(s, s.world(k + i), ids[i])
    ensures var run := StreamChain(s, ids, k, last);
            && run.ending == EndingOf(s.world(k + j), s.stopOn)
            && Chunks(run.log) == Taken(s.stopOn, s.world(k + j).chunks)
    decreases |ids|
  {
    if j == 0 {
      ServingVisit(s, s.world(k), ids[0], last);
    } else {
      assert PassedStream(s, s.world(k + 0), ids[0]);
      PassedVisit(s, s.world(k), ids[0], last);
      var v := StreamVisit(s, s.world(k), ids[0], last);
      forall i: nat | i < j - 1 ensures PassedStream(s, s.world(k + 1 + i), ids[1..][i]) {
        assert PassedStream(s, s.world(k + (i + 1)), ids[i + 1]);
      }
      assert s.world(k + 1 + (j - 1)) == s.world(k + j);
      StreamReaches(s, ids[1..], k + 1, v.last, j - 1);
      ChunksAppend(v.log, StreamChain(s, ids[1..], k + 1, v.last).log);
      NoPrefix(Chunks(StreamChain(s, ids[1..], k + 1, v.last).log));
    }
  }

  /** The first candidate with output serves the stream, all of it unless the consumer walks away. */
  lemma FirstOutputServes(s: StreamSetting, m: Model, j: nat)
    requires Select(s.p, s.o.envelope) == Ok(m)
    requires var ids := CandidateIds(s.p, m);
             && j < |ids| && !s.world(j).aborted && OpensStream(s, s.world(j), ids[j]) && Produces(s.world(j).chunks)
             && forall i: nat :: i < j ==> PassedStream(s, s.world(i), ids[i])
    ensures StreamExecute(s).ending == EndingOf(s.world(j), s.stopOn)
    ensures var chunks := s.world(j).chunks;
            Chunks(StreamExecute(s).log) ==
            if s.stopOn.Some? && s.stopOn.value < |chunks| then chunks[..s.stopOn.value + 1] else chunks
  {
    var ids := CandidateIds(s.p, m);
    forall i: nat | i < j ensures PassedStream(s, s.world(0 + i), ids[i]) {
      assert PassedStream(s, s.world(i), ids[i]);
    }
    StreamReaches(s, ids, 0, None, j);
  }

  // ---------------------------------------------------------------- every candidate in order

  function ExpectedStreams(s: StreamSetting, ids: seq<string>, k: nat): seq<Event>
    decreases |ids|
  {
    if ids == [] then []
    else
      var w, m := s.world(k), Lookup(s.p.rows, ids[0]);
      (if m.None? then [] else [OpeningOf(s.o, s.p, m.value, w.provider, w.breakerAllows, w.slotGranted)])
      + ExpectedStreams(s, ids[1..], k + 1)
  }

  lemma FramedOpening(route: Route, sent: Request, taken: seq<Chunk>, tail: seq<Event>)
    requires forall i :: 0 <= i < |tail| ==> !tail[i].Skipped? && !tail[i].Refused? && !tail[i].Granted?
    ensures Openings(Framed(route, sent, taken, tail)) == [Granted(route)]
  {
    var rest := [Opened(route, sent)] + Yields(route, taken) + tail;
    OneOpening(Granted(route), rest);
    assert Framed(route, sent, taken, tail) == [Granted(route)] + rest;
  }

  lemma RelayOpening(route: Route, sent: Request, w: StreamHop, stopOn: Option<nat>, last: Option<RouterError>)
    ensures Openings(Relay(route, sent, w, stopOn, last).log) == [Granted(route)]
  {
    var out := Relayed(w.chunks);
    if WalksAway(stopOn, out) {
      FramedOpening(route, sent, Taken(stopOn, out), [Released(route.provider)]);
    } else if Fault(w).None? {
      FramedOpening(route, sent, out, [Recorded(route.provider, true), Released(route.provider)]);
    } else {
      FramedOpening(route, sent, out, FaultTail(route, Fault(w).value, !w.abortedAfter && !w.idleFired));
    }
  }

  lemma StreamHopOpening(s: StreamSetting, w: StreamHop, model: Model, routed: Result<Route>, last: Option<RouterError>)
    requires routed == RouteFor(s.o, s.p, model, w.provider)
    ensures Openings(StreamHopOf(s, w, model, routed, last).log) ==
            [OpeningOf(s.o, s.p, model, w.provider, w.breakerAllows, w.slotGranted)]
  {
    var log := StreamHopOf(s, w, model, routed, last).log;
    if routed.Ok? && w.breakerAllows && w.slotGranted {
      RelayOpening(routed.value, HopEnvelope(s.o, routed.value.model), w, s.stopOn, last);
    } else {
      OneOpening(log[0], []);
      NoPrefix(log);
    }
  }

  /** When every candidate comes to nothing, the run has visited them all, in order, and says so. */
  lemma {:induction false} PassedChain(s: StreamSetting, ids: seq<string>, k: nat, last: Option<RouterError>)
    requires forall i: nat :: i < |ids| ==> PassedStream(s, s.world(k + i), ids[i])
    ensures var run := StreamChain(s, ids, k, last);
            run.ending.Threw? && Chunks(run.log) == [] && Openings(run.log) == ExpectedStreams(s, ids, k)
    decreases |ids|
  {
    if ids != [] {
      var w, m := s.world(k), Lookup(s.p.rows, ids[0]);
      assert PassedStream(s, s.world(k + 0), ids[0]);
      PassedVisit(s, w, ids[0], last);
      var v := StreamVisit(s, w, ids[0], last);
      if m.Some? {
        StreamHopOpening(s, w, m.value, RouteFor(s.o, s.p, m.value, w.provider), last);
      }
      forall i: nat | i < |ids| - 1 ensures PassedStream(s, s.world(k + 1 + i), ids[1..][i]) {
        assert PassedStream(s, s.world(k + (i + 1)), ids[i + 1]);
      }
      PassedChain(s, ids[1..], k + 1, v.last);
      ChunksAppend(v.log, StreamChain(s, ids[1..], k + 1, v.last).log);
      OpeningsAppend(v.log, StreamChain(s, ids[1..], k + 1, v.last).log);
    }
  }

  /** A streaming run without any output has been to every candidate. */
  lemma SilentRunsVisitEveryone(s: StreamSetting, m: Model)
    requires Select(s.p, s.o.envelope) == Ok(m)
    requires var ids := CandidateIds(s.p, m); forall i: nat :: i < |ids| ==> PassedStream(s, s.world(i), ids[i])
    ensures StreamExecute(s).ending.Threw? && Chunks(StreamExecute(s).log) == []
    ensures Openings(StreamExecute(s).log) == ExpectedStreams(s, CandidateIds(s.p, m), 0)
  {
    var ids := CandidateIds(s.p, m);
    forall i: nat | i < |ids| ensures PassedStream(s, s.world(0 + i), ids[i]) {
      assert PassedStream(s, s.world(i), ids[i]);
    }
    PassedChain(s, ids, 0, None);
  }

  // ---------------------------------------------------------------- who is blamed

  /**
   * A stream counts for its provider exactly when it completes, and against it exactly when it
   * fails or ends empty with neither an abort nor a stall to explain it.
   */
  lemma StreamsAreRecorded(route: Route, sent: Request, w: StreamHop, stopOn: Option<nat>, last: Option<RouterError>)
    ensures var log := Relay(route, sent, w, stopOn, last).log;
            var left := Produces(w.chunks) && stopOn.Some? && stopOn.value < |w.chunks|;
            && (Recorded(route.provider, true) in log <==> Produces(w.chunks) && w.thrown.None? && !left)
            && (Recorded(route.provider, false) in log <==>
                  (w.thrown.Some? || !Produces(w.chunks)) && !left && !w.abortedAfter && !w.idleFired)
  {
    ProducingIsContent(w.chunks);
    var out := Relayed(w.chunks);
    if WalksAway(stopOn, out) {
      FramedHolds(route, sent, Taken(stopOn, out), [Released(route.provider)]);
    } else if Fault(w).None? {
      FramedHolds(route, sent, out, [Recorded(route.provider, true), Released(route.provider)]);
    } else {
      FramedHolds(route, sent, out, FaultTail(route, Fault(w).value, !w.abortedAfter && !w.idleFired));
    }
  }

  lemma FramedHolds(route: Route, sent: Request, taken: seq<Chunk>, tail: seq<Event>)
    ensures forall ok :: Recorded(route.provider, ok) in Framed(route, sent, taken, tail) <==>
                         Recorded(route.provider, ok) in tail
  {
  }
}

/**
 * The frames the gateway writes to its clients, and the SDK that reads them back.
 * Heartbeats fall between frames; a socket may cut the text anywhere.
 */
module SseRelay {
  import opened Common
  import opened Text
  import opened Sse

  datatype Frame = Data(payload: string) | Heartbeat

  const DONE := "[DONE]"

  /** A frame without its closing blank line. */
  function Body(f: Frame): string {
    match f
    case Data(p) => "data: " + p
    case Heartbeat => ": heartbeat"
  }

  function Wire(frames: seq<Frame>): string {
    if frames == [] then "" else Body(frames[0]) + "\n\n" + Wire(frames[1..])
  }

  function Bodies(frames: seq<Frame>): seq<string> {
    if frames == [] then [] else [Body(frames[0])] + Bodies(frames[1..])
  }

  function PayloadsOf(frames: seq<Frame>): seq<string> {
    if frames == [] then []
    else (if frames[0].Data? then [frames[0].payload] else []) + PayloadsOf(frames[1..])
  }

  /** JSON.stringify output: one line that neither starts nor ends with white space. */
  predicate OneLine(p: string) {
    && (forall i :: 0 <= i < |p| ==> p[i] != '\n' && p[i] != '\r')
    && (p != "" ==> !IsSpace(p[0]) && !IsSpace(p[|p| - 1]))
  }

  predicate Writable(frames: seq<Frame>) {
    forall i :: 0 <= i < |frames| && frames[i].Data? ==> OneLine(frames[i].payload)
  }

  // ---------------------------------------------------------------- the relay

  /** One turn of the relay loop: the objects of a chunk, or a heartbeat tick. */
  datatype Turn = Chunk(objects: seq<string>, aborted: bool) | Tick

  function FramesOf(objects: seq<string>): seq<Frame> {
    if objects == [] then [] else [Data(objects[0])] + FramesOf(objects[1..])
  }

  /** The frames written before the client goes away. */
  function Written(turns: seq<Turn>): seq<Frame> {
    if turns == [] || (turns[0].Chunk? && turns[0].aborted) then []
    else (if turns[0].Tick? then [Heartbeat] else FramesOf(turns[0].objects)) + Written(turns[1..])
  }

  predicate Gone(turns: seq<Turn>) {
    exists i :: 0 <= i < |turns| && turns[i].Chunk? && turns[i].aborted
  }

  lemma {:induction false} WireAppend(a: seq<Frame>, b: seq<Frame>)
    ensures Wire(a + b) == Wire(a) + Wire(b)
  {
    if a == [] {
      assert a + b == b;
    } else {
      assert (a + b)[1..] == a[1..] + b;
      WireAppend(a[1..], b);
      Regroup(Body(a[0]) + "\n\n", Wire(a[1..]), Wire(b));
    }
  }

  /** How the loop over chunks ends: normally or by a fault, with the client gone by then or not. */
  datatype RelayEnd = Ended(clientGone: bool) | Faulted(body: string, closed: bool)

  /** The error frame of a fault, if the response is still open. */
  function ErrorFrames(turns: seq<Turn>, end: RelayEnd): seq<Frame> {
    if !Gone(turns) && end.Faulted? && !end.closed then [Data(end.body)] else []
  }

  predicate SaysDone(turns: seq<Turn>, end: RelayEnd) {
    !Gone(turns) && (match end case Ended(clientGone) => !clientGone case Faulted(_, closed) => !closed)
  }

  /** Every frame of a relayed stream but the closing one. */
  function Sent(turns: seq<Turn>, end: RelayEnd): seq<Frame> {
    Written(turns) + ErrorFrames(turns, end)
  }

  /**
   * The relay writes every frame in order, then the error of a fault, and `[DONE]` last unless the
   * client has left.
   */
  method Relay(turns: seq<Turn>, end: RelayEnd) returns (wire: string)
    ensures wire == Wire(Sent(turns, end)) + (if SaysDone(turns, end) then Wire([Data(DONE)]) else "")
  {
    var gone;
    wire, gone := RelayTurns(turns);
    NoPrefix(Written(turns));
    WireAppend(Written(turns), ErrorFrames(turns, end));
    NoPrefix(wire);
    if gone { return; }
    match end
    case Ended(clientGone) =>
      if !clientGone { wire := wire + Wire([Data(DONE)]); }
    case Faulted(body, closed) =>
      if !closed {
        wire := wire + Wire([Data(body)]);
        wire := wire + Wire([Data(DONE)]);
      }
  }

  method RelayTurns(turns: seq<Turn>) returns (wire: string, gone: bool)
    ensures wire == Wire(Written(turns)) && gone == Gone(turns)
  {
    wire := "";
    assert turns[0..] == turns;
    for i := 0 to |turns|
      invariant wire + Wire(Written(turns[i..])) == Wire(Written(turns))
      invariant forall j :: 0 <= j < i ==> !(turns[j].Chunk? && turns[j].aborted)
    {
      WrittenStep(turns, i, wire);
      match turns[i]
      case Tick => wire := wire + Wire([Heartbeat]);
      case Chunk(objects, aborted) =>
        if aborted { return wire, true; }
        wire := wire + Wire(FramesOf(objects));
    }
    assert turns[|turns|..] == [];
    NoPrefix(wire);
    return wire, false;
  }

  lemma WrittenStep(turns: seq<Turn>, i: nat, wire: string)
    requires i < |turns|
    ensures wire + Wire(Written(turns[i..])) ==
            match turns[i]
            case Tick => (wire + Wire([Heartbeat])) + Wire(Written(turns[i + 1..]))
            case Chunk(objects, aborted) =>
              if aborted then wire else (wire + Wire(FramesOf(objects))) + Wire(Written(turns[i + 1..]))
  {
    var rest := Written(turns[i + 1..]);
    assert turns[i..][0] == turns[i] && turns[i..][1..] == turns[i + 1..];
    match turns[i]
    case Tick =>
      WireAppend([Heartbeat], rest);
      Regroup(wire, Wire([Heartbeat]), Wire(rest));
    case Chunk(objects, aborted) =>
      NoPrefix(wire);
      WireAppend(FramesOf(objects), rest);
      Regroup(wire, Wire(FramesOf(objects)), Wire(rest));
  }

  // ---------------------------------------------------------------- reading frames back

  predicate NoBreaks(s: string) {
    forall i :: 0 <= i < |s| ==> s[i] != '\n' && s[i] != '\r'
  }

  lemma FrameIsOneEvent(body: string, tail: string)
    requires NoBreaks(body)
    ensures Events(body + "\n\n" + tail) == [body] + Events(tail)
    ensures Rest(body + "\n\n" + tail) == Rest(tail)
  {
    var s := body + "\n\n" + tail;
    var n := |body|;
    assert s[n] == '\n' && s[n + 1] == '\n';
    assert BlankLineAt(s, n) == 2;
    SearchIsLeftmost(s, 0, n);
    assert forall k :: 0 <= k < n ==> s[k] == body[k];
    assert Search(s, 0) == Some(n);
    assert s[..n] == body && s[n + 2..] == tail;
    assert Cut(s) == Some(Piece(body, tail));
  }

  lemma BodyHasNoBreaks(f: Frame)
    requires f.Data? ==> OneLine(f.payload)
    ensures NoBreaks(Body(f))
  {
  }

  lemma {:induction false} FramesAreEvents(frames: seq<Frame>, tail: string)
    requires Writable(frames)
    ensures Events(Wire(frames) + tail) == Bodies(frames) + Events(tail)
    ensures Rest(Wire(frames) + tail) == Rest(tail)
  {
    if frames == [] {
      assert Wire(frames) + tail == tail;
    } else {
      var body, next := Body(frames[0]), Wire(frames[1..]);
      FramesAreEvents(frames[1..], tail);
      BodyHasNoBreaks(frames[0]);
      FrameIsOneEvent(body, next + tail);
      Regroup(body + "\n\n", next, tail);
      Regroup([body], Bodies(frames[1..]), Events(tail));
    }
  }

  lemma OneLineEvent(body: string)
    requires NoBreaks(body)
    ensures DataLines(Lines(body)) == if DATA <= body then [body[5..]] else []
  {
    assert FirstNewline(body) == |body|;
    assert Lines(body) == [body] && [body][1..] == [];
  }

  /** The SDK's reading of one event block: every data line, trimmed. */
  function SdkData(event: string): seq<string> {
    Trims(DataLines(Lines(event)))
  }

  lemma DataFrameReads(p: string)
    requires OneLine(p)
    ensures SdkData(Body(Data(p))) == [p] && Payload(Body(Data(p))) == [p]
  {
    var body := Body(Data(p));
    BodyHasNoBreaks(Data(p));
    OneLineEvent(body);
    assert body[..5] == DATA && body[5..] == " " + p;
    SpacedTrims(p);
    assert [" " + p][1..] == [];
    assert TrimStarts([" " + p]) == [p] && Trims([" " + p]) == [p];
  }

  lemma SpacedTrims(p: string)
    requires OneLine(p)
    ensures TrimStart(" " + p) == p && Trim(" " + p) == p
  {
    assert (" " + p)[1..] == p;
    assert TrimStart(p) == p;
  }

  lemma HeartbeatReads()
    ensures SdkData(Body(Heartbeat)) == [] && Payload(Body(Heartbeat)) == []
  {
    OneLineEvent(Body(Heartbeat));
    assert Body(Heartbeat)[0] == ':' && DATA[0] == 'd';
  }

  lemma {:induction false} FramesRead(frames: seq<Frame>)
    requires Writable(frames)
    ensures Yielded(SdkData, Bodies(frames)) == PayloadsOf(frames)
    ensures Yielded(Payload, Bodies(frames)) == PayloadsOf(frames)
  {
    if frames != [] {
      var f := frames[0];
      if f.Data? { DataFrameReads(f.payload); } else { HeartbeatReads(); }
      FramesRead(frames[1..]);
      YieldedCons(SdkData, Body(f), Bodies(frames[1..]));
      YieldedCons(Payload, Body(f), Bodies(frames[1..]));
    }
  }

  /** The data lines before `[DONE]`. */
  function UntilDone(data: seq<string>): seq<string> {
    if data == [] || data[0] == DONE then [] else [data[0]] + UntilDone(data[1..])
  }

  lemma {:induction false} UntilDoneAppend(a: seq<string>, b: seq<string>)
    ensures UntilDone(a + b) == if DONE in a then UntilDone(a) else a + UntilDone(b)
  {
    if a == [] {
      assert a + b == b;
    } else {
      assert (a + b)[1..] == a[1..] + b;
      UntilDoneAppend(a[1..], b);
    }
  }

  /** What the SDK hands to its caller, given the text it received in `cuts`. */
  function SdkStream(cuts: seq<string>): seq<string> {
    UntilDone(Yielded(SdkData, WholeEvents(Concat(cuts))))
  }

  /** The SDK's reading loop; it returns as soon as it meets `[DONE]`. */
  method SdkRead(cuts: seq<string>) returns (out: seq<string>)
    ensures out == SdkStream(cuts)
  {
    out := ReadUntilDone(cuts, SdkData);
    CutsDoNotMatter("", cuts);
    assert "" + Concat(cuts) == Concat(cuts);
  }

  method ReadUntilDone(cuts: seq<string>, parse: string -> seq<string>) returns (out: seq<string>)
    ensures out == UntilDone(Yielded(parse, IncrementalEvents("", cuts)))
  {
    out := [];
    var buffer, done := "", false;
    assert cuts[0..] == cuts;
    ghost var all := UntilDone(Yielded(parse, IncrementalEvents("", cuts)));
    for i := 0 to |cuts|
      invariant all == out + UntilDone(Yielded(parse, IncrementalEvents(buffer, cuts[i..])))
    {
      ReadOneUntilDone(parse, buffer, cuts[i..]);
      assert cuts[i..][1..] == cuts[i + 1..];
      var more;
      more, buffer, done := DrainUntilDone(buffer + cuts[i], parse);
      Regroup(out, more, UntilDone(Yielded(parse, IncrementalEvents(buffer, cuts[i + 1..]))));
      out := out + more;
      if done { return; }
    }
    FlushUntilDone(parse, buffer);
    if Trim(buffer) != "" {
      out := out + UntilDone(parse(buffer));
    }
  }

  lemma ReadOneUntilDone(parse: string -> seq<string>, buffer: string, cuts: seq<string>)
    requires cuts != []
    ensures var now := Yielded(parse, Events(buffer + cuts[0]));
            UntilDone(Yielded(parse, IncrementalEvents(buffer, cuts))) ==
            if DONE in now then UntilDone(now)
            else now + UntilDone(Yielded(parse, IncrementalEvents(Rest(buffer + cuts[0]), cuts[1..])))
  {
    ReadOne(parse, buffer, cuts);
    UntilDoneAppend(Yielded(parse, Events(buffer + cuts[0])),
                    Yielded(parse, IncrementalEvents(Rest(buffer + cuts[0]), cuts[1..])));
  }

  lemma FlushUntilDone(parse: string -> seq<string>, buffer: string)
    ensures UntilDone(Yielded(parse, IncrementalEvents(buffer, []))) ==
            if Trim(buffer) != "" then UntilDone(parse(buffer)) else []
  {
    YieldedCons(parse, buffer, []);
    assert [buffer] + [] == [buffer] && parse(buffer) + [] == parse(buffer);
  }

  method DrainUntilDone(start: string, parse: string -> seq<string>)
    returns (out: seq<string>, buffer: string, done: bool)
    ensures out == UntilDone(Yielded(parse, Events(start)))
    ensures done <==> DONE in Yielded(parse, Events(start))
    ensures !done ==> buffer == Rest(start) && out == Yielded(parse, Events(start))
  {
    buffer, out, done := start, [], false;
    while Cut(buffer).Some?
      invariant Yielded(parse, Events(start)) == out + Yielded(parse, Events(buffer))
      invariant Rest(start) == Rest(buffer) && DONE !in out
      decreases |buffer|
    {
      var Piece(event, next) := Cut(buffer).value;
      YieldedCons(parse, event, Events(next));
      var data := parse(event);
      ghost var rest := Yielded(parse, Events(next));
      UntilDoneAppend(out, data + rest);
      UntilDoneAppend(data, rest);
      if DONE in data {
        out, done := out + UntilDone(data), true;
        return;
      }
      Regroup(out, data, rest);
      out, buffer := out + data, next;
    }
    UntilDoneAppend(out, []);
    assert out + [] == out;
  }

  /**
   * Round trip: frames written by the relay, with heartbeats anywhere between them and the
   * text cut anywhere, come back from the SDK in order, up to `[DONE]`.
   */
  lemma RelayRoundTrip(frames: seq<Frame>, tail: string, cuts: seq<string>)
    requires Writable(frames) && DONE !in PayloadsOf(frames)
    requires Concat(cuts) == Wire(frames + [Data(DONE)]) + tail
    ensures SdkStream(cuts) == PayloadsOf(frames)
  {
    var all := frames + [Data(DONE)];
    assert OneLine(DONE);
    var more := WholeEvents(tail);
    FramesAreEvents(all, tail);
    Regroup(Bodies(all), Events(tail), Unterminated(Rest(tail)));
    assert WholeEvents(Concat(cuts)) == Bodies(all) + more;
    YieldedAppend(SdkData, Bodies(all), more);
    FramesRead(all);
    PayloadsAppendOne(frames, Data(DONE));
    StopsAtDone(PayloadsOf(frames), Yielded(SdkData, more));
  }

  /** A stream cut off before `[DONE]` hands over what was written. */
  lemma CutShortRoundTrip(frames: seq<Frame>, cuts: seq<string>)
    requires Writable(frames) && DONE !in PayloadsOf(frames) && Concat(cuts) == Wire(frames)
    ensures SdkStream(cuts) == PayloadsOf(frames)
  {
    FramesAreEvents(frames, "");
    NoPrefix(Wire(frames));
    FramesRead(frames);
    assert Events("") == [] && Rest("") == "";
    assert WholeEvents(Wire(frames)) == Bodies(frames);
    UntilDoneAppend(PayloadsOf(frames), []);
    NoPrefix(PayloadsOf(frames));
  }

  /** The client is found gone at turn `k`, or never when `k` is past the last turn. */
  predicate GoneAt(turns: seq<Turn>, k: nat) {
    && k <= |turns|
    && (forall i :: 0 <= i < k ==> !(turns[i].Chunk? && turns[i].aborted))
    && (k < |turns| ==> turns[k].Chunk? && turns[k].aborted)
  }

  /** The objects of a turn. */
  function ObjectsOf(t: Turn): seq<string> {
    match t
    case Chunk(objects, _) => objects
    case Tick => []
  }

  /** The objects of the first `k` turns, in order. */
  function Relayed(turns: seq<Turn>, k: nat): seq<string>
    requires k <= |turns|
  {
    Concat(seq(k, i requires 0 <= i < k => ObjectsOf(turns[i])))
  }

  lemma RelayedUnfolds(turns: seq<Turn>, k: nat)
    requires 0 < k <= |turns|
    ensures Relayed(turns, k) == ObjectsOf(turns[0]) + Relayed(turns[1..], k - 1)
  {
    var all := seq(k, i requires 0 <= i < k => ObjectsOf(turns[i]));
    assert all[1..] == seq(k - 1, i requires 0 <= i < k - 1 => ObjectsOf(turns[1..][i]));
  }

  lemma {:induction false} FramesHold(objects: seq<string>, more: seq<Frame>)
    ensures PayloadsOf(FramesOf(objects) + more) == objects + PayloadsOf(more)
  {
    if objects == [] {
      NoPrefix(more);
      NoPrefix(PayloadsOf(more));
    } else {
      FramesHold(objects[1..], more);
      Regroup([Data(objects[0])], FramesOf(objects[1..]), more);
      assert ([Data(objects[0])] + (FramesOf(objects[1..]) + more))[1..] == FramesOf(objects[1..]) + more;
      Regroup([objects[0]], objects[1..], PayloadsOf(more));
      assert objects == [objects[0]] + objects[1..];
    }
  }

  /** What is written is the objects of every turn before the client is found gone. */
  lemma {:induction false} WrittenAre(turns: seq<Turn>, k: nat)
    requires GoneAt(turns, k)
    ensures PayloadsOf(Written(turns)) == Relayed(turns, k)
    ensures Gone(turns) <==> k < |turns|
    decreases k
  {
    if k > 0 {
      WrittenAre(turns[1..], k - 1);
      RelayedUnfolds(turns, k);
      assert Gone(turns) <==> Gone(turns[1..]) by {
        assert forall i :: 1 <= i < |turns| ==> turns[i] == turns[1..][i - 1];
        assert forall i :: 0 <= i < |turns| - 1 ==> turns[1..][i] == turns[i + 1];
      }
      var rest := Written(turns[1..]);
      if turns[0].Tick? {
        assert ([Heartbeat] + rest)[1..] == rest;
      } else {
        FramesHold(turns[0].objects, rest);
      }
    }
  }

  /** The fault, if it is told: the client was there to the end and the response still open. */
  function Told(turns: seq<Turn>, k: nat, end: RelayEnd): seq<string> {
    if k == |turns| && end.Faulted? && !end.closed then [end.body] else []
  }

  /** `[DONE]` closes the text exactly when the client is there to the end and the response is open. */
  lemma DoneExactlyWhen(turns: seq<Turn>, k: nat, end: RelayEnd)
    requires GoneAt(turns, k)
    ensures SaysDone(turns, end) <==> k == |turns| && (end == Ended(false) || (end.Faulted? && !end.closed))
    ensures Wire([Data(DONE)]) == "data: [DONE]\n\n"
  {
    WrittenAre(turns, k);
    assert [Data(DONE)][1..] == [];
    NoPrefix("data: [DONE]\n\n");
    assert "data: " + DONE + "\n\n" == "data: [DONE]\n\n";
  }

  /**
   * Relay and SDK composed: however the turns go, whoever leaves and however the text is cut, the
   * SDK hands over exactly the objects of the turns before the client left, then the error of a fault.
   */
  lemma RelayToSdk(turns: seq<Turn>, k: nat, end: RelayEnd, cuts: seq<string>)
    requires GoneAt(turns, k) && Writable(Sent(turns, end)) && DONE !in PayloadsOf(Sent(turns, end))
    requires Concat(cuts) == Wire(Sent(turns, end)) + (if SaysDone(turns, end) then Wire([Data(DONE)]) else "")
    ensures SdkStream(cuts) == Relayed(turns, k) + Told(turns, k, end)
  {
    var frames := Sent(turns, end);
    if SaysDone(turns, end) {
      WireAppend(frames, [Data(DONE)]);
      NoPrefix(Wire(frames + [Data(DONE)]));
      RelayRoundTrip(frames, "", cuts);
    } else {
      NoPrefix(Wire(frames));
      CutShortRoundTrip(frames, cuts);
    }
    SentPayloads(turns, end);
    WrittenAre(turns, k);
  }

  lemma SentPayloads(turns: seq<Turn>, end: RelayEnd)
    ensures PayloadsOf(Sent(turns, end)) ==
            PayloadsOf(Written(turns)) + (if ErrorFrames(turns, end) != [] then [end.body] else [])
  {
    if ErrorFrames(turns, end) != [] {
      PayloadsAppendOne(Written(turns), Data(end.body));
    } else {
      NoPrefix(Written(turns));
      NoPrefix(PayloadsOf(Written(turns)));
    }
  }

  // ---------------------------------------------------------------- what the caller of the SDK gets

  /** One data line decoded: not JSON, an error object the SDK throws, or the events it yields. */
  datatype Decoded = Unreadable | Thrown(error: string) | Yields(events: seq<string>)

  datatype Delivery = Delivery(events: seq<string>, error: Option<string>)

  /** Lines in order: unreadable ones are passed over, an error object ends it. */
  function Delivered(decode: string -> Decoded, data: seq<string>): Delivery {
    if data == [] then Delivery([], None)
    else
      match decode(data[0])
      case Thrown(error) => Delivery([], Some(error))
      case Unreadable => Delivered(decode, data[1..])
      case Yields(events) =>
        var rest := Delivered(decode, data[1..]);
        Delivery(events + rest.events, rest.error)
  }

  /** The SDK's generator as its caller sees it. */
  method SdkDeliver(cuts: seq<string>, decode: string -> Decoded) returns (events: seq<string>, error: Option<string>)
    ensures Delivery(events, error) == Delivered(decode, SdkStream(cuts))
  {
    var data := SdkRead(cuts);
    ghost var whole := Delivered(decode, data);
    events, error := [], None;
    assert data[0..] == data;
    NoPrefix(whole.events);
    for i := 0 to |data|
      invariant error == None
      invariant events + Delivered(decode, data[i..]).events == whole.events
      invariant Delivered(decode, data[i..]).error == whole.error
    {
      assert data[i..][0] == data[i] && data[i..][1..] == data[i + 1..];
      match decode(data[i]) {
        case Thrown(e) =>
          NoPrefix(events);
          return events, Some(e);
        case Unreadable =>
        case Yields(more) =>
          Regroup(events, more, Delivered(decode, data[i + 1..]).events);
          events := events + more;
      }
    }
    assert data[|data|..] == [];
    NoPrefix(events);
  }

  function EventsIn(decode: string -> Decoded, data: seq<string>): seq<string> {
    if data == [] then []
    else (match decode(data[0]) case Yields(events) => events case _ => []) + EventsIn(decode, data[1..])
  }

  lemma {:induction false} DeliveredInFull(decode: string -> Decoded, data: seq<string>, last: seq<string>)
    requires forall i :: 0 <= i < |data| ==> !decode(data[i]).Thrown?
    ensures Delivered(decode, data + last) ==
            Delivery(EventsIn(decode, data) + Delivered(decode, last).events, Delivered(decode, last).error)
  {
    if data == [] {
      NoPrefix(last);
      NoPrefix(Delivered(decode, last).events);
    } else {
      assert (data + last)[1..] == data[1..] + last;
      DeliveredInFull(decode, data[1..], last);
      Regroup(match decode(data[0]) case Yields(events) => events case _ => [], EventsIn(decode, data[1..]),
              Delivered(decode, last).events);
    }
  }

  /**
   * End to end: the caller gets the events of every relayed object in order, and the relay's error
   * object as a thrown error, whatever the heartbeats and the cuts.
   */
  lemma RelayToCaller(turns: seq<Turn>, k: nat, end: RelayEnd, cuts: seq<string>, decode: string -> Decoded)
    requires GoneAt(turns, k) && Writable(Sent(turns, end)) && DONE !in PayloadsOf(Sent(turns, end))
    requires Concat(cuts) == Wire(Sent(turns, end)) + (if SaysDone(turns, end) then Wire([Data(DONE)]) else "")
    requires var objects := Relayed(turns, k); forall i :: 0 <= i < |objects| ==> !decode(objects[i]).Thrown?
    requires end.Faulted? ==> decode(end.body).Thrown?
    ensures Delivered(decode, SdkStream(cuts)) ==
            Delivery(EventsIn(decode, Relayed(turns, k)),
                     if Told(turns, k, end) != [] then Some(decode(end.body).error) else None)
  {
    var objects := Relayed(turns, k);
    RelayToSdk(turns, k, end, cuts);
    DeliveredInFull(decode, objects, Told(turns, k, end));
    NoPrefix(EventsIn(decode, objects));
  }

  lemma StopsAtDone(data: seq<string>, more: seq<string>)
    requires DONE !in data
    ensures UntilDone((data + [DONE]) + more) == data
  {
    UntilDoneAppend(data + [DONE], more);
    UntilDoneAppend(data, [DONE]);
  }

  /** The provider-side reader sees the same payloads, `[DONE]` included. */
  lemma ProviderReaderRoundTrip(frames: seq<Frame>, cuts: seq<string>)
    requires Writable(frames) && Concat(cuts) == Wire(frames)
    ensures Yielded(Payload, WholeEvents(Concat(cuts))) == PayloadsOf(frames)
  {
    FramesAreEvents(frames, "");
    assert Wire(frames) + "" == Wire(frames);
    FramesRead(frames);
    assert Events("") == [] && Rest("") == "";
    assert WholeEvents(Wire(frames)) == Bodies(frames);
  }

  lemma {:induction false} PayloadsAppendOne(frames: seq<Frame>, f: Frame)
    ensures PayloadsOf(frames + [f]) == PayloadsOf(frames) + (if f.Data? then [f.payload] else [])
  {
    if frames == [] {
      assert frames + [f] == [f];
    } else {
      assert (frames + [f])[1..] == frames[1..] + [f];
      PayloadsAppendOne(frames[1..], f);
      Regroup(if frames[0].Data? then [frames[0].payload] else [], PayloadsOf(frames[1..]),
              if f.Data? then [f.payload] else []);
    }
  }
}

/**
 * What a provider's event stream means: blocks of lines ended by LF or CRLF, closed by a blank
 * line, the last one possibly left open (the reader of src/adapters/http.ts, the SDK's line reader).
 */
module SseBlocks {
  import opened Common
  import opened Text
  import opened Sse
  import opened SseRelay

  datatype Eol = Lf | CrLf

  function Break(e: Eol): string {
    match e
    case Lf => "\n"
    case CrLf => "\r\n"
  }

  /** A line of an event: data behind some white space, or anything else (comments, event names, ids). */
  datatype Line = DataLine(pad: string, text: string, end: Eol) | OtherLine(text: string, end: Eol)

  function LineText(l: Line): string {
    match l
    case DataLine(pad, text, _) => DATA + pad + text
    case OtherLine(text, _) => text
  }

  predicate WellFormed(l: Line) {
    && NoBreaks(LineText(l)) && LineText(l) != ""
    && (l.DataLine? ==> (forall i :: 0 <= i < |l.pad| ==> IsSpace(l.pad[i])) && (l.text == "" || !IsSpace(l.text[0])))
    && (l.OtherLine? ==> !(DATA <= l.text))
  }

  predicate AllWellFormed(lines: seq<Line>) {
    lines != [] && forall i :: 0 <= i < |lines| ==> WellFormed(lines[i])
  }

  /** The lines without the break of the last one. */
  function Inner(lines: seq<Line>): string
    requires lines != []
  {
    if |lines| == 1 then LineText(lines[0])
    else LineText(lines[0]) + Break(lines[0].end) + Inner(lines[1..])
  }

  function LastBreak(lines: seq<Line>): string
    requires lines != []
  {
    Break(lines[|lines| - 1].end)
  }

  /** The texts of the data lines, in order. */
  function DataTexts(lines: seq<Line>): seq<string> {
    if lines == [] then []
    else (if lines[0].DataLine? then [lines[0].text] else []) + DataTexts(lines[1..])
  }

  /** Texts with a line feed between each and the next. */
  function OnLines(texts: seq<string>): string
    requires texts != []
  {
    if |texts| == 1 then texts[0] else OnLines(texts[..|texts| - 1]) + ['\n'] + texts[|texts| - 1]
  }

  lemma {:induction false} JoinPutsOnLines(texts: seq<string>)
    requires texts != []
    ensures Join(texts) == OnLines(texts)
  {
    if |texts| > 1 {
      var n := |texts| - 1;
      JoinPutsOnLines(texts[..n]);
      JoinEndsIn(texts[..n], texts[n]);
      assert texts[..n] + [texts[n]] == texts;
    }
  }

  lemma {:induction false} JoinEndsIn(texts: seq<string>, last: string)
    requires texts != []
    ensures Join(texts + [last]) == Join(texts) + ['\n'] + last
  {
    assert (texts + [last])[1..] == texts[1..] + [last];
    if |texts| == 1 {
      assert texts[1..] + [last] == [last];
    } else {
      JoinEndsIn(texts[1..], last);
    }
  }

  /** What an event says: its data texts, one a line; nothing without data lines. */
  function Says(lines: seq<Line>): seq<string> {
    if DataTexts(lines) == [] then [] else [OnLines(DataTexts(lines))]
  }

  /** An event with the break that makes its blank line. */
  datatype Block = Block(lines: seq<Line>, close: Eol)

  function BlockText(b: Block): string
    requires b.lines != []
  {
    Inner(b.lines) + (LastBreak(b.lines) + Break(b.close))
  }

  /** How a stream ends: after a blank line, or inside an event, with or without its last break. */
  datatype Ending = Clean | Open(lines: seq<Line>, broken: bool)

  function EndingText(e: Ending): string
    requires e.Open? ==> e.lines != []
  {
    match e
    case Clean => ""
    case Open(lines, broken) => Inner(lines) + (if broken then LastBreak(lines) else "")
  }

  function StreamText(blocks: seq<Block>, end: Ending): string
    requires forall i :: 0 <= i < |blocks| ==> blocks[i].lines != []
    requires end.Open? ==> end.lines != []
  {
    if blocks == [] then EndingText(end) else BlockText(blocks[0]) + StreamText(blocks[1..], end)
  }

  function StreamSays(blocks: seq<Block>, end: Ending): seq<string> {
    if blocks == [] then (if end.Open? then Says(end.lines) else [])
    else Says(blocks[0].lines) + StreamSays(blocks[1..], end)
  }

  // ---------------------------------------------------------------- separators

  lemma BlankLineShifts(p: string, s: string, k: nat)
    requires k <= |s|
    ensures BlankLineAt(p + s, |p| + k) == BlankLineAt(s, k)
  {
    assert forall i :: 0 <= i < |s| ==> (p + s)[|p| + i] == s[i];
  }

  lemma {:induction false} SearchShifts(p: string, s: string, k: nat)
    requires k <= |s|
    ensures var r := Search(s, k); Search(p + s, |p| + k) == if r.Some? then Some(|p| + r.value) else None
    decreases |s| - k
  {
    BlankLineShifts(p, s, k);
    if BlankLineAt(s, k) == 0 && k < |s| {
      SearchShifts(p, s, k + 1);
    }
  }

  lemma {:induction false} SearchSkips(s: string, i: nat, j: nat)
    requires i <= j <= |s| && forall k :: i <= k < j ==> BlankLineAt(s, k) == 0
    ensures Search(s, i) == Search(s, j)
    decreases j - i
  {
    if i < j {
      SearchSkips(s, i + 1, j);
    }
  }

  lemma SlicesShift(p: string, s: string, i: nat, j: nat)
    requires i <= |s| && j <= |s|
    ensures (p + s)[..|p| + i] == p + s[..i]
    ensures (p + s)[|p| + j..] == s[j..]
  {
  }

  lemma CutAt(s: string, i: nat, n: nat, c: Piece)
    requires i <= |s| && Search(s, 0) == Some(i) && BlankLineAt(s, i) == n && c == Piece(s[..i], s[i + n..])
    ensures Cut(s) == Some(c)
  {
  }

  lemma FoundAfter(p: string, s: string, t: string, i: nat)
    requires t == p + s && Search(s, 0) == Some(i) && Search(t, 0) == Some(|p| + i)
    ensures Cut(s).Some? && Cut(t) == Some(Piece(p + Cut(s).value.event, Cut(s).value.rest))
  {
    var n := BlankLineAt(s, i);
    BlankLineShifts(p, s, i);
    SlicesShift(p, s, i, i + n);
    CutAt(s, i, n, Piece(s[..i], s[i + n..]));
    CutAt(t, |p| + i, n, Piece(p + s[..i], s[i + n..]));
  }

  /** A text without a blank line in it, even before whatever may follow, moves into the event. */
  lemma CutSkips(p: string, s: string, t: string)
    requires t == p + s && forall k :: 0 <= k < |p| ==> BlankLineAt(t, k) == 0
    ensures Cut(t) == match Cut(s) case None => None case Some(c) => Some(Piece(p + c.event, c.rest))
  {
    SearchSkips(t, 0, |p|);
    SearchShifts(p, s, 0);
    if Search(s, 0).Some? {
      FoundAfter(p, s, t, Search(s, 0).value);
    }
  }

  /** Text that does not begin with a break. */
  predicate Begins(s: string) {
    s != "" && s[0] != '\n' && s[0] != '\r'
  }

  lemma LineIsNoSeparator(line: string, e: Eol, s: string)
    requires NoBreaks(line) && Begins(s)
    ensures forall k :: 0 <= k < |line + Break(e)| ==> BlankLineAt((line + Break(e)) + s, k) == 0
  {
    var p := line + Break(e);
    var t := p + s;
    assert forall i :: 0 <= i < |line| ==> t[i] == line[i];
    assert t[|p|] == s[0];
    assert e == Lf ==> t[|line|] == '\n';
    assert e == CrLf ==> t[|line|] == '\r' && t[|line| + 1] == '\n';
  }

  lemma LastLineCuts(line: string, e: Eol, close: Eol, tail: string)
    requires NoBreaks(line)
    ensures Cut(line + (Break(e) + Break(close)) + tail) == Some(Piece(line, tail))
  {
    var sep := Break(e) + Break(close);
    var s := sep + tail;
    Regroup(line, sep, tail);
    assert BlankLineAt(s, 0) == |sep|;
    assert s[..0] == "" && s[|sep|..] == tail;
    assert Cut(s) == Some(Piece("", tail));
    assert forall i :: 0 <= i < |line| ==> (line + s)[i] == line[i];
    CutSkips(line, s, line + s);
    NoPrefix(line);
  }

  lemma InnerBegins(lines: seq<Line>)
    requires AllWellFormed(lines)
    ensures Begins(Inner(lines)) && Inner(lines)[0] == LineText(lines[0])[0]
  {
    assert WellFormed(lines[0]);
  }

  /** One more line in front of a text that is cut, or not. */
  lemma LineCuts(line: string, e: Eol, s: string)
    requires NoBreaks(line) && Begins(s)
    ensures Cut(line + Break(e) + s) ==
            match Cut(s) case None => None case Some(c) => Some(Piece(line + Break(e) + c.event, c.rest))
  {
    LineIsNoSeparator(line, e, s);
    CutSkips(line + Break(e), s, line + Break(e) + s);
  }

  lemma Unfolded(lines: seq<Line>)
    requires |lines| > 1
    ensures Inner(lines) == LineText(lines[0]) + Break(lines[0].end) + Inner(lines[1..])
    ensures LastBreak(lines) == LastBreak(lines[1..])
  {
  }

  lemma {:induction false} BlockIsOneEvent(lines: seq<Line>, close: Eol, tail: string)
    requires AllWellFormed(lines)
    ensures Cut(Inner(lines) + (LastBreak(lines) + Break(close)) + tail) == Some(Piece(Inner(lines), tail))
  {
    assert WellFormed(lines[0]);
    if |lines| == 1 {
      LastLineCuts(LineText(lines[0]), lines[0].end, close, tail);
    } else {
      BlockIsOneEvent(lines[1..], close, tail);
      InnerBegins(lines[1..]);
      Unfolded(lines);
      LineBeforeBlock(LineText(lines[0]), lines[0].end, Inner(lines[1..]), LastBreak(lines) + Break(close), tail);
    }
  }

  lemma LineBeforeBlock(line: string, e: Eol, inner: string, sep: string, tail: string)
    requires NoBreaks(line) && Begins(inner) && Cut(inner + sep + tail) == Some(Piece(inner, tail))
    ensures Cut((line + Break(e) + inner) + sep + tail) == Some(Piece(line + Break(e) + inner, tail))
  {
    LineCuts(line, e, inner + sep + tail);
    Regroup3(line + Break(e), inner, sep, tail);
  }

  lemma Regroup3(a: string, b: string, c: string, d: string)
    ensures (a + b) + c + d == a + (b + c + d)
  {
  }

  lemma NowhereCut(s: string)
    requires forall k :: 0 <= k <= |s| ==> BlankLineAt(s, k) == 0
    ensures Cut(s) == None
  {
    SearchSkips(s, 0, |s|);
  }

  lemma ShortHasNoSeparator(line: string, tail: string)
    requires NoBreaks(line) && (tail == "" || tail == "\n" || tail == "\r\n")
    ensures Cut(line + tail) == None
  {
    var s := line + tail;
    assert forall i :: 0 <= i < |line| ==> s[i] == line[i];
    forall k | 0 <= k <= |s| ensures BlankLineAt(s, k) == 0 {
      if k >= |line| {
        BlankLineShifts(line, tail, k - |line|);
      }
    }
    NowhereCut(s);
  }

  /** The text of an event left open, one line at a time. */
  lemma OpenUnfolds(lines: seq<Line>, broken: bool)
    requires |lines| > 1
    ensures EndingText(Open(lines, broken)) ==
            LineText(lines[0]) + Break(lines[0].end) + EndingText(Open(lines[1..], broken))
  {
    Unfolded(lines);
    Regroup(LineText(lines[0]) + Break(lines[0].end), Inner(lines[1..]), if broken then LastBreak(lines) else "");
  }

  lemma OpenBegins(lines: seq<Line>, broken: bool)
    requires AllWellFormed(lines)
    ensures Begins(EndingText(Open(lines, broken)))
    ensures EndingText(Open(lines, broken))[0] == LineText(lines[0])[0]
  {
    InnerBegins(lines);
  }

  /** An event left open is not cut. */
  lemma {:induction false} OpenIsNotCut(lines: seq<Line>, broken: bool)
    requires AllWellFormed(lines)
    ensures Cut(EndingText(Open(lines, broken))) == None
  {
    assert WellFormed(lines[0]);
    if |lines| == 1 {
      ShortHasNoSeparator(LineText(lines[0]), if broken then LastBreak(lines) else "");
    } else {
      OpenUnfolds(lines, broken);
      OpenIsNotCut(lines[1..], broken);
      OpenBegins(lines[1..], broken);
      LineCuts(LineText(lines[0]), lines[0].end, EndingText(Open(lines[1..], broken)));
    }
  }

  // ---------------------------------------------------------------- lines

  function Texts(lines: seq<Line>): seq<string> {
    if lines == [] then [] else [LineText(lines[0])] + Texts(lines[1..])
  }

  lemma LinesAt(t: string, n: nat, line: string, s: string)
    requires n < |t| && FirstNewline(t) == n && t[n + 1..] == s
    requires line == if n > 0 && t[n - 1] == '\r' then t[..n - 1] else t[..n]
    ensures Lines(t) == [line] + Lines(s)
  {
  }

  lemma FirstLine(line: string, e: Eol, s: string)
    requires NoBreaks(line)
    ensures Lines(line + Break(e) + s) == [line] + Lines(s)
  {
    var t := line + Break(e) + s;
    var n := |line| + |Break(e)| - 1;
    assert t[n] == '\n' && forall i :: 0 <= i < |line| ==> t[i] == line[i];
    assert e == CrLf ==> t[|line|] == '\r';
    LinesAt(t, n, line, s);
  }

  lemma OneLineOnly(line: string)
    requires NoBreaks(line)
    ensures Lines(line) == [line]
  {
    assert FirstNewline(line) == |line|;
  }

  lemma LastLine(line: string, e: Eol, broken: bool)
    requires NoBreaks(line)
    ensures Lines(line + if broken then Break(e) else "") == [line] + if broken then [""] else []
  {
    OneLineOnly("");
    OneLineOnly(line);
    FirstLine(line, e, "");
    NoPrefix(line);
    NoPrefix(line + Break(e));
  }

  /** Splitting finds the lines; a last break adds an empty one. */
  lemma {:induction false} LinesAre(lines: seq<Line>, broken: bool)
    requires AllWellFormed(lines)
    ensures Lines(EndingText(Open(lines, broken))) == Texts(lines) + if broken then [""] else []
  {
    assert WellFormed(lines[0]);
    if |lines| == 1 {
      LastLine(LineText(lines[0]), lines[0].end, broken);
      assert Texts(lines) == [LineText(lines[0])];
    } else {
      OpenUnfolds(lines, broken);
      LinesAre(lines[1..], broken);
      FirstLine(LineText(lines[0]), lines[0].end, EndingText(Open(lines[1..], broken)));
      Regroup([LineText(lines[0])], Texts(lines[1..]), if broken then [""] else []);
    }
  }

  lemma DataLinesOfOneMore(texts: seq<string>)
    ensures DataLines(texts + [""]) == DataLines(texts)
  {
    if texts == [] {
      assert texts + [""] == [""] && [""][1..] == [];
    } else {
      assert (texts + [""])[1..] == texts[1..] + [""];
    }
  }

  lemma {:induction false} PadTrims(pad: string, text: string)
    requires forall i :: 0 <= i < |pad| ==> IsSpace(pad[i])
    requires text == "" || !IsSpace(text[0])
    ensures TrimStart(pad + text) == text
  {
    if pad == "" {
      NoPrefix(text);
    } else {
      PadTrims(pad[1..], text);
      assert (pad + text)[1..] == pad[1..] + text;
    }
  }

  lemma {:induction false} DataTextsAre(lines: seq<Line>)
    requires forall i :: 0 <= i < |lines| ==> WellFormed(lines[i])
    ensures TrimStarts(DataLines(Texts(lines))) == DataTexts(lines)
  {
    if lines != [] {
      DataTextsAre(lines[1..]);
      var first := lines[0];
      assert WellFormed(first);
      var rest := DataLines(Texts(lines[1..]));
      if first.DataLine? {
        PadTrims(first.pad, first.text);
        Regroup(DATA, first.pad, first.text);
        assert LineText(first)[5..] == first.pad + first.text;
        assert DataLines(Texts(lines)) == [first.pad + first.text] + rest;
      } else {
        assert DataLines(Texts(lines)) == rest;
      }
    }
  }

  /** The adapters get what the event says, whether or not its last line is broken off. */
  lemma EventSays(lines: seq<Line>, broken: bool)
    requires AllWellFormed(lines)
    ensures Payload(EndingText(Open(lines, broken))) == Says(lines)
  {
    LinesAre(lines, broken);
    DataTextsAre(lines);
    DataLinesOfOneMore(Texts(lines));
    NoPrefix(Texts(lines));
    if DataTexts(lines) != [] {
      JoinPutsOnLines(DataTexts(lines));
    }
  }

  // ---------------------------------------------------------------- whole streams

  predicate Sound(blocks: seq<Block>, end: Ending) {
    && (forall i :: 0 <= i < |blocks| ==> AllWellFormed(blocks[i].lines))
    && (end.Open? ==> AllWellFormed(end.lines))
  }

  lemma {:induction false} WhiteSpaceSaysNothing(text: string, lines: seq<Line>, broken: bool)
    requires AllWellFormed(lines) && text == EndingText(Open(lines, broken)) && Trim(text) == ""
    ensures Says(lines) == []
  {
    TrimsAway(text);
    NoDataIn(lines, broken);
  }

  lemma {:induction false} NoDataIn(lines: seq<Line>, broken: bool)
    requires AllWellFormed(lines)
    requires Blank(EndingText(Open(lines, broken)))
    ensures DataTexts(lines) == []
  {
    OpenBegins(lines, broken);
    assert !lines[0].DataLine?;
    if |lines| > 1 {
      OpenUnfolds(lines, broken);
      BlankEnd(LineText(lines[0]) + Break(lines[0].end), EndingText(Open(lines[1..], broken)));
      NoDataIn(lines[1..], broken);
    }
  }

  predicate Blank(s: string) {
    forall i :: 0 <= i < |s| ==> IsSpace(s[i])
  }

  lemma BlankEnd(a: string, b: string)
    requires Blank(a + b)
    ensures Blank(b)
  {
    assert forall i :: 0 <= i < |b| ==> b[i] == (a + b)[|a| + i];
  }

  lemma EndingSays(end: Ending)
    requires end.Open? ==> AllWellFormed(end.lines)
    ensures Yielded(Payload, WholeEvents(EndingText(end))) == StreamSays([], end)
  {
    var text := EndingText(end);
    match end
    case Clean =>
      assert WholeEvents("") == [];
    case Open(lines, broken) =>
      OpenIsNotCut(lines, broken);
      NoPrefix(Unterminated(text));
      assert WholeEvents(text) == Unterminated(text);
      EventSays(lines, broken);
      if Trim(text) == "" {
        WhiteSpaceSaysNothing(text, lines, broken);
      } else {
        NoPrefix([text]);
        YieldedCons(Payload, text, []);
        NoPrefix(Payload(text));
      }
  }

  /**
   * A provider's stream is read as written, with LF or CRLF, several data lines to an event and a
   * last event left open: the adapters get what each event says, in order.
   */
  lemma {:induction false} StreamIsRead(blocks: seq<Block>, end: Ending)
    requires Sound(blocks, end)
    ensures Yielded(Payload, WholeEvents(StreamText(blocks, end))) == StreamSays(blocks, end)
  {
    if blocks == [] {
      EndingSays(end);
    } else {
      var b, tail := blocks[0], StreamText(blocks[1..], end);
      assert AllWellFormed(b.lines);
      BlockIsOneEvent(b.lines, b.close, tail);
      StreamIsRead(blocks[1..], end);
      Regroup([Inner(b.lines)], Events(tail), Unterminated(Rest(tail)));
      assert WholeEvents(StreamText(blocks, end)) == [Inner(b.lines)] + WholeEvents(tail);
      YieldedCons(Payload, Inner(b.lines), WholeEvents(tail));
      EventSays(b.lines, false);
      NoPrefix(Inner(b.lines));
    }
  }

  /** The SDK hands on each data line of an event by itself, without white space around it. */
  lemma SdkReadsLines(lines: seq<Line>, broken: bool)
    requires AllWellFormed(lines)
    requires forall i :: 0 <= i < |lines| ==> lines[i].text != "" && !IsSpace(lines[i].text[|lines[i].text| - 1])
    ensures SdkData(EndingText(Open(lines, broken))) == DataTexts(lines)
  {
    LinesAre(lines, broken);
    DataLinesOfOneMore(Texts(lines));
    NoPrefix(Texts(lines));
    TrimmedTextsAre(lines);
  }

  lemma {:induction false} TrimmedTextsAre(lines: seq<Line>)
    requires forall i :: 0 <= i < |lines| ==> WellFormed(lines[i])
    requires forall i :: 0 <= i < |lines| ==> lines[i].text != "" && !IsSpace(lines[i].text[|lines[i].text| - 1])
    ensures Trims(DataLines(Texts(lines))) == DataTexts(lines)
  {
    if lines != [] {
      TrimmedTextsAre(lines[1..]);
      var first := lines[0];
      assert WellFormed(first);
      var rest := DataLines(Texts(lines[1..]));
      if first.DataLine? {
        PadTrims(first.pad, first.text);
        Regroup(DATA, first.pad, first.text);
        assert LineText(first)[5..] == first.pad + first.text;
        assert DataLines(Texts(lines)) == [first.pad + first.text] + rest;
      } else {
        assert DataLines(Texts(lines)) == rest;
      }
    }
  }
}

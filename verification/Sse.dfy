/**
 * Server-sent events: the incremental readers of src/adapters/http.ts and
 * packages/sdk/src/index.ts, and the frames src/gateway/routes.ts writes.
 * Input is text already decoded from UTF-8.
 */
module Sse {
  import opened Common
  import opened Text

  // ---------------------------------------------------------------- splitting into events

  /** Length of a match of `\r?\n\r?\n` that starts at `i`, 0 when there is none. */
  function BlankLineAt(s: string, i: nat): (n: nat)
    requires i <= |s|
    ensures i + n <= |s|
  {
    var j := if i < |s| && s[i] == '\r' then i + 1 else i;
    if j >= |s| || s[j] != '\n' then 0
    else
      var k := if j + 1 < |s| && s[j + 1] == '\r' then j + 2 else j + 1;
      if k < |s| && s[k] == '\n' then k + 1 - i else 0
  }

  /** The leftmost match at or after `i`. */
  function Search(s: string, i: nat): (r: Option<nat>)
    requires i <= |s|
    ensures r.Some? ==> i <= r.value < |s| && BlankLineAt(s, r.value) > 0
    decreases |s| - i
  {
    if BlankLineAt(s, i) > 0 then Some(i)
    else if i == |s| then None
    else Search(s, i + 1)
  }

  lemma {:induction false} SearchIsLeftmost(s: string, i: nat, j: nat)
    requires i <= j <= |s| && BlankLineAt(s, j) > 0
    ensures Search(s, i).Some? && Search(s, i).value <= j
    decreases |s| - i
  {
    if BlankLineAt(s, i) == 0 {
      SearchIsLeftmost(s, i + 1, j);
    }
  }

  datatype Piece = Piece(event: string, rest: string)

  /** The first complete event and the text after its blank line. */
  function Cut(s: string): (r: Option<Piece>)
    ensures r.Some? ==> |r.value.rest| < |s|
  {
    match Search(s, 0)
    case None => None
    case Some(i) => Some(Piece(s[..i], s[i + BlankLineAt(s, i)..]))
  }

  /** The complete events of a text, and what is left after the last blank line. */
  function Events(s: string): seq<string>
    decreases |s|
  {
    match Cut(s)
    case None => []
    case Some(p) => [p.event] + Events(p.rest)
  }

  function Rest(s: string): string
    decreases |s|
  {
    match Cut(s)
    case None => s
    case Some(p) => Rest(p.rest)
  }

  /** The simple form: the events of the whole text, with an unterminated last one. */
  function WholeEvents(s: string): seq<string> {
    Events(s) + Unterminated(Rest(s))
  }

  function Unterminated(rest: string): seq<string> {
    if Trim(rest) != "" then [rest] else []
  }

  /** A separator that only more text completes cannot lie before one that is complete. */
  lemma SeparatorIsWithin(a: string, b: string, k: nat, i: nat)
    requires k < i <= |a| && BlankLineAt(a, i) > 0 && BlankLineAt(a + b, k) > 0
    ensures BlankLineAt(a, k) > 0
  {
  }

  /** More text never changes the leftmost separator. */
  lemma SearchStable(a: string, b: string)
    requires Search(a, 0).Some?
    ensures Search(a + b, 0) == Search(a, 0)
    ensures var i := Search(a, 0).value; BlankLineAt(a + b, i) == BlankLineAt(a, i)
  {
    var i := Search(a, 0).value;
    var s := a + b;
    assert BlankLineAt(s, i) == BlankLineAt(a, i) >= 2;
    SearchIsLeftmost(s, 0, i);
    var k := Search(s, 0).value;
    if k < i {
      SeparatorIsWithin(a, b, k, i);
      SearchIsLeftmost(a, 0, k);
    }
  }

  lemma CutStable(a: string, b: string)
    requires Cut(a).Some?
    ensures Cut(a + b) == Some(Piece(Cut(a).value.event, Cut(a).value.rest + b))
  {
    SearchStable(a, b);
    var i := Search(a, 0).value;
    assert (a + b)[..i] == a[..i];
    assert (a + b)[i + BlankLineAt(a, i)..] == a[i + BlankLineAt(a, i)..] + b;
  }

  /** Reading `a` and then `b` finds the events of `a + b`. */
  lemma {:induction false} EventsOfTwoReads(a: string, b: string)
    ensures Events(a + b) == Events(a) + Events(Rest(a) + b)
    ensures Rest(a + b) == Rest(Rest(a) + b)
    decreases |a|
  {
    match Cut(a)
    case None =>
      NoPrefix(Events(a + b));
    case Some(p) =>
      CutStable(a, b);
      EventsOfTwoReads(p.rest, b);
      Regroup([p.event], Events(p.rest), Events(Rest(a) + b));
  }

  /** What a reader that starts with `buffer` and receives `cuts` extracts. */
  function IncrementalEvents(buffer: string, cuts: seq<string>): seq<string>
    decreases |cuts|
  {
    if cuts == [] then Unterminated(buffer)
    else Events(buffer + cuts[0]) + IncrementalEvents(Rest(buffer + cuts[0]), cuts[1..])
  }

  /** However the text is cut into cuts, the reader extracts the events of the whole text. */
  lemma {:induction false} CutsDoNotMatter(buffer: string, cuts: seq<string>)
    requires Events(buffer) == []
    ensures IncrementalEvents(buffer, cuts) == WholeEvents(buffer + Concat(cuts))
    decreases |cuts|
  {
    if cuts == [] {
      assert buffer + Concat(cuts) == buffer;
      NothingLeft(buffer);
    } else {
      var a := buffer + cuts[0];
      var b := Concat(cuts[1..]);
      assert buffer + Concat(cuts) == a + b;
      WholeAfterPrefix(a, b);
      NothingLeft(a);
      CutsDoNotMatter(Rest(a), cuts[1..]);
    }
  }

  lemma WholeAfterPrefix(a: string, b: string)
    ensures WholeEvents(a + b) == Events(a) + WholeEvents(Rest(a) + b)
  {
    EventsOfTwoReads(a, b);
    Regroup(Events(a), Events(Rest(a) + b), Unterminated(Rest(a + b)));
  }

  lemma {:induction false} NothingLeft(s: string)
    ensures Events(Rest(s)) == []
    ensures Events(s) == [] ==> Rest(s) == s
    decreases |s|
  {
    match Cut(s)
    case None =>
    case Some(p) => NothingLeft(p.rest);
  }

  // ---------------------------------------------------------------- lines and payloads

  /** Index of the first '\n', |s| when there is none. */
  function FirstNewline(s: string): (n: nat)
    ensures n <= |s| && (n < |s| ==> s[n] == '\n') && forall i :: 0 <= i < n ==> s[i] != '\n'
  {
    if s == "" || s[0] == '\n' then 0 else 1 + FirstNewline(s[1..])
  }

  /** `s.split(/\r?\n/)` */
  function Lines(s: string): seq<string>
    decreases |s|
  {
    var n := FirstNewline(s);
    if n == |s| then [s]
    else [if n > 0 && s[n - 1] == '\r' then s[..n - 1] else s[..n]] + Lines(s[n + 1..])
  }

  const DATA := "data:"

  function DataLines(lines: seq<string>): seq<string> {
    if lines == [] then []
    else (if DATA <= lines[0] then [lines[0][5..]] else []) + DataLines(lines[1..])
  }

  function TrimStarts(lines: seq<string>): seq<string> {
    if lines == [] then [] else [TrimStart(lines[0])] + TrimStarts(lines[1..])
  }

  function Trims(lines: seq<string>): seq<string> {
    if lines == [] then [] else [Trim(lines[0])] + Trims(lines[1..])
  }

  function Join(lines: seq<string>): string
    requires lines != []
  {
    if |lines| == 1 then lines[0] else lines[0] + "\n" + Join(lines[1..])
  }

  /** What one event block yields to the provider adapters (`emit`). */
  function Payload(event: string): seq<string> {
    var data := TrimStarts(DataLines(Lines(event)));
    if data == [] then [] else [Join(data)]
  }

  /** What `emit` yields over a list of events. */
  function Yielded(emit: string -> seq<string>, events: seq<string>): seq<string> {
    if events == [] then [] else emit(events[0]) + Yielded(emit, events[1..])
  }

  lemma {:induction false} YieldedAppend(emit: string -> seq<string>, a: seq<string>, b: seq<string>)
    ensures Yielded(emit, a + b) == Yielded(emit, a) + Yielded(emit, b)
  {
    if a == [] {
      assert a + b == b;
    } else {
      assert (a + b)[1..] == a[1..] + b;
      YieldedAppend(emit, a[1..], b);
      Regroup(emit(a[0]), Yielded(emit, a[1..]), Yielded(emit, b));
    }
  }

  lemma YieldedCons(emit: string -> seq<string>, event: string, more: seq<string>)
    ensures Yielded(emit, [event] + more) == emit(event) + Yielded(emit, more)
  {
    assert ([event] + more)[1..] == more;
  }

  /** `postSse`: the payload list depends on the text received, not on how it was cut. */
  method PostSse(cuts: seq<string>) returns (out: seq<string>)
    ensures out == Yielded(Payload, WholeEvents(Concat(cuts)))
  {
    out := ReadAll(cuts, Payload);
  }

  method ReadAll(cuts: seq<string>, emit: string -> seq<string>) returns (out: seq<string>)
    ensures out == Yielded(emit, WholeEvents(Concat(cuts)))
  {
    out := [];
    var buffer := "";
    assert cuts[0..] == cuts;
    for i := 0 to |cuts|
      invariant out + Yielded(emit, IncrementalEvents(buffer, cuts[i..])) == Yielded(emit, IncrementalEvents("", cuts))
    {
      ReadOne(emit, buffer, cuts[i..]);
      assert cuts[i..][1..] == cuts[i + 1..];
      var more;
      more, buffer := Drain(buffer + cuts[i], emit);
      Regroup(out, more, Yielded(emit, IncrementalEvents(buffer, cuts[i + 1..])));
      out := out + more;
    }
    YieldedCons(emit, buffer, []);
    assert [buffer] + [] == [buffer];
    if Trim(buffer) != "" {
      out := out + emit(buffer);
    }
    CutsDoNotMatter("", cuts);
    assert "" + Concat(cuts) == Concat(cuts);
  }

  lemma ReadOne(emit: string -> seq<string>, buffer: string, cuts: seq<string>)
    requires cuts != []
    ensures var grown := buffer + cuts[0];
            Yielded(emit, IncrementalEvents(buffer, cuts)) ==
            Yielded(emit, Events(grown)) + Yielded(emit, IncrementalEvents(Rest(grown), cuts[1..]))
  {
    var grown := buffer + cuts[0];
    YieldedAppend(emit, Events(grown), IncrementalEvents(Rest(grown), cuts[1..]));
  }

  /** The inner loop: take complete events off the front of the buffer. */
  method Drain(start: string, emit: string -> seq<string>) returns (out: seq<string>, buffer: string)
    ensures out == Yielded(emit, Events(start)) && buffer == Rest(start)
  {
    buffer := start;
    out := [];
    while Cut(buffer).Some?
      invariant Yielded(emit, Events(start)) == out + Yielded(emit, Events(buffer)) && Rest(start) == Rest(buffer)
      decreases |buffer|
    {
      var Piece(event, rest) := Cut(buffer).value;
      YieldedCons(emit, event, Events(rest));
      Regroup(out, emit(event), Yielded(emit, Events(rest)));
      out := out + emit(event);
      buffer := rest;
    }
  }
}

/**
 * Envelope-level scrubbing: `scanEnvelope` counts, `redactEnvelope` rewrites and counts.
 * Both walk the same text fields; the walks are stated for any rewriting `g` and counting `k`
 * of one text, and then used with the scrubber's.
 */
module Redaction {
  import opened Text
  import opened Envelope
  import opened Scrub

  /** Occurrences per kind; the total is the cardinality. */
  type Counts = multiset<Kind>
  type Rewrite = string -> string
  type Count = string -> Counts

  // ---------------------------------------------------------------- one text

  /** The regular-expression layer: the candidates of any text. */
  type Finder = f: string -> Candidates | forall t :: WellFormed(f(t), |t|)
    witness (t: string) => Candidates([], [], [], [], [], [])

  function Spans(f: Finder, text: string): (ms: seq<Match>)
    ensures Tiles(text, ms, 0) && Within(text, ms)
  {
    ScanTiles(f(text), text);
    TilesPairwise(text, Scan(f(text)), 0);
    Scan(f(text))
  }

  function Kinds(ms: seq<Match>): Counts {
    if ms == [] then multiset{} else multiset{ms[0].kind} + Kinds(ms[1..])
  }

  function RedactString(f: Finder, text: string): string {
    var ms := Spans(f, text);
    if ms == [] then text else RedactFrom(text, ms, 0)
  }

  /** What the envelope walks need of one text: its rewriting and its count. */
  datatype Scrubber = Scrubber(rewrite: Rewrite, count: Count)

  function ScrubberOf(f: Finder): Scrubber {
    Scrubber(t => RedactString(f, t), t => Kinds(Spans(f, t)))
  }

  // ---------------------------------------------------------------- rewriting messages

  function MapPart(g: Rewrite, p: Part): Part {
    if p.TextPart? then TextPart(g(p.text)) else p
  }

  function MapParts(g: Rewrite, ps: seq<Part>): (r: seq<Part>)
    ensures |r| == |ps|
    ensures forall i :: 0 <= i < |ps| ==> r[i] == MapPart(g, ps[i])
  {
    if ps == [] then [] else [MapPart(g, ps[0])] + MapParts(g, ps[1..])
  }

  function MapContent(g: Rewrite, c: Content): Content {
    match c
    case Plain(t) => Plain(g(t))
    case Parts(ps) => Parts(MapParts(g, ps))
  }

  function MapCalls(g: Rewrite, cs: seq<ToolCall>): (r: seq<ToolCall>)
    ensures |r| == |cs|
    ensures forall i :: 0 <= i < |cs| ==> r[i] == cs[i].(arguments := g(cs[i].arguments))
  {
    if cs == [] then [] else [cs[0].(arguments := g(cs[0].arguments))] + MapCalls(g, cs[1..])
  }

  function MapMessage(g: Rewrite, m: Message): Message {
    m.(content := MapContent(g, m.content), toolCalls := MapCalls(g, m.toolCalls))
  }

  function MapMessages(g: Rewrite, ms: seq<Message>): (r: seq<Message>)
    ensures |r| == |ms|
    ensures forall i :: 0 <= i < |ms| ==> r[i] == MapMessage(g, ms[i])
  {
    if ms == [] then [] else [MapMessage(g, ms[0])] + MapMessages(g, ms[1..])
  }

  /** The outbound copy: nothing but message text changes. */
  function Redacted(sc: Scrubber, env: Request): Request {
    env.(messages := MapMessages(sc.rewrite, env.messages))
  }

  // ---------------------------------------------------------------- counting

  function PartTexts(ps: seq<Part>): seq<string> {
    if ps == [] then [] else (if ps[0].TextPart? then [ps[0].text] else []) + PartTexts(ps[1..])
  }

  function CallTexts(cs: seq<ToolCall>): seq<string> {
    if cs == [] then [] else [cs[0].arguments] + CallTexts(cs[1..])
  }

  function ContentTexts(c: Content): seq<string> {
    match c case Plain(t) => [t] case Parts(ps) => PartTexts(ps)
  }

  function MessageTexts(m: Message): seq<string> {
    ContentTexts(m.content) + CallTexts(m.toolCalls)
  }

  /** Every text field of the request, in the order the scanner visits them. */
  function TextFields(ms: seq<Message>): seq<string> {
    if ms == [] then [] else MessageTexts(ms[0]) + TextFields(ms[1..])
  }

  function CountTexts(k: Count, texts: seq<string>): Counts {
    if texts == [] then multiset{} else k(texts[0]) + CountTexts(k, texts[1..])
  }

  /** What `scanEnvelope` reports. */
  function Report(sc: Scrubber, env: Request): Counts {
    CountTexts(sc.count, TextFields(env.messages))
  }

  lemma {:induction false} CountAppend(k: Count, a: seq<string>, b: seq<string>)
    ensures CountTexts(k, a + b) == CountTexts(k, a) + CountTexts(k, b)
  {
    if a == [] {
      NoPrefix(b);
    } else {
      assert (a + b)[1..] == a[1..] + b;
      CountAppend(k, a[1..], b);
    }
  }

  lemma CountCons(k: Count, t: string, more: seq<string>)
    ensures CountTexts(k, [t] + more) == k(t) + CountTexts(k, more)
  {
    assert ([t] + more)[1..] == more;
  }

  method ScanEnvelope(sc: Scrubber, env: Request) returns (counts: Counts, total: nat)
    ensures counts == Report(sc, env) && total == |Report(sc, env)|
  {
    counts := CountAll(sc.count, TextFields(env.messages));
    total := |counts|;
  }

  method CountAll(k: Count, texts: seq<string>) returns (counts: Counts)
    ensures counts == CountTexts(k, texts)
  {
    counts := multiset{};
    assert texts[0..] == texts;
    for i := 0 to |texts|
      invariant counts + CountTexts(k, texts[i..]) == CountTexts(k, texts)
    {
      assert texts[i..] == [texts[i]] + texts[i + 1..];
      CountCons(k, texts[i], texts[i + 1..]);
      counts := counts + k(texts[i]);
    }
  }

  // ---------------------------------------------------------------- rewriting and counting at once

  method ScrubParts(g: Rewrite, k: Count, ps: seq<Part>, counts: Counts) returns (out: seq<Part>, more: Counts)
    ensures out == MapParts(g, ps) && more == counts + CountTexts(k, PartTexts(ps))
  {
    out, more := [], counts;
    assert ps[0..] == ps;
    for i := 0 to |ps|
      invariant |out| == i && forall j :: 0 <= j < i ==> out[j] == MapPart(g, ps[j])
      invariant more + CountTexts(k, PartTexts(ps[i..])) == counts + CountTexts(k, PartTexts(ps))
    {
      assert ps[i..] == [ps[i]] + ps[i + 1..];
      CountPart(k, ps[i], ps[i + 1..]);
      if ps[i].TextPart? {
        more := more + k(ps[i].text);
      }
      out := out + [MapPart(g, ps[i])];
    }
  }

  lemma CountPart(k: Count, p: Part, rest: seq<Part>)
    ensures CountTexts(k, PartTexts([p] + rest)) ==
            (if p.TextPart? then k(p.text) else multiset{}) + CountTexts(k, PartTexts(rest))
  {
    assert ([p] + rest)[1..] == rest;
    if p.TextPart? {
      CountCons(k, p.text, PartTexts(rest));
    } else {
      NoPrefix(PartTexts(rest));
    }
  }

  method ScrubCalls(g: Rewrite, k: Count, cs: seq<ToolCall>, counts: Counts) returns (out: seq<ToolCall>, more: Counts)
    ensures out == MapCalls(g, cs) && more == counts + CountTexts(k, CallTexts(cs))
  {
    out, more := [], counts;
    assert cs[0..] == cs;
    for i := 0 to |cs|
      invariant |out| == i && forall j :: 0 <= j < i ==> out[j] == cs[j].(arguments := g(cs[j].arguments))
      invariant more + CountTexts(k, CallTexts(cs[i..])) == counts + CountTexts(k, CallTexts(cs))
    {
      assert cs[i..] == [cs[i]] + cs[i + 1..];
      CountCall(k, cs[i], cs[i + 1..]);
      more := more + k(cs[i].arguments);
      out := out + [cs[i].(arguments := g(cs[i].arguments))];
    }
  }

  lemma CountCall(k: Count, c: ToolCall, rest: seq<ToolCall>)
    ensures CountTexts(k, CallTexts([c] + rest)) == k(c.arguments) + CountTexts(k, CallTexts(rest))
  {
    assert ([c] + rest)[1..] == rest;
    CountCons(k, c.arguments, CallTexts(rest));
  }

  method ScrubMessage(g: Rewrite, k: Count, m: Message, counts: Counts) returns (out: Message, more: Counts)
    ensures out == MapMessage(g, m)
    ensures more == counts + CountTexts(k, MessageTexts(m))
  {
    var content;
    match m.content {
      case Plain(t) =>
        CountCons(k, t, []);
        NoPrefix([t]);
        more, content := counts + k(t), Plain(g(t));
      case Parts(ps) =>
        var s;
        s, more := ScrubParts(g, k, ps, counts);
        content := Parts(s);
    }
    CountAppend(k, ContentTexts(m.content), CallTexts(m.toolCalls));
    var calls;
    calls, more := ScrubCalls(g, k, m.toolCalls, more);
    out := m.(content := content, toolCalls := calls);
  }

  lemma CountMessage(k: Count, m: Message, rest: seq<Message>)
    ensures CountTexts(k, TextFields([m] + rest)) == CountTexts(k, MessageTexts(m)) + CountTexts(k, TextFields(rest))
  {
    assert ([m] + rest)[1..] == rest;
    CountAppend(k, MessageTexts(m), TextFields(rest));
  }

  lemma CountFrom(k: Count, ms: seq<Message>, i: nat)
    requires i < |ms|
    ensures CountTexts(k, TextFields(ms[i..])) ==
            CountTexts(k, MessageTexts(ms[i])) + CountTexts(k, TextFields(ms[i + 1..]))
  {
    assert ms[i..] == [ms[i]] + ms[i + 1..];
    CountMessage(k, ms[i], ms[i + 1..]);
  }

  /** What each message still to come counts for; the first entry is the whole. */
  ghost function LeftToCount(k: Count, ms: seq<Message>): (left: seq<Counts>)
    ensures |left| == |ms| + 1 && forall i :: 0 <= i <= |ms| ==> left[i] == CountTexts(k, TextFields(ms[i..]))
  {
    seq(|ms| + 1, i requires 0 <= i <= |ms| => CountTexts(k, TextFields(ms[i..])))
  }

  method ScrubMessages(g: Rewrite, k: Count, ms: seq<Message>) returns (out: seq<Message>, counts: Counts)
    ensures out == MapMessages(g, ms) && counts == CountTexts(k, TextFields(ms))
  {
    ghost var left := LeftToCount(k, ms);
    ghost var here := seq(|ms|, i requires 0 <= i < |ms| => CountTexts(k, MessageTexts(ms[i])));
    forall i | 0 <= i < |ms| ensures left[i] == here[i] + left[i + 1] {
      CountFrom(k, ms, i);
    }
    assert ms[0..] == ms && ms[|ms|..] == [];
    out, counts := ScrubEach(g, k, ms, here, left);
  }

  method ScrubEach(g: Rewrite, k: Count, ms: seq<Message>, ghost here: seq<Counts>, ghost left: seq<Counts>)
    returns (out: seq<Message>, counts: Counts)
    requires |here| == |ms| && |left| == |ms| + 1 && left[|ms|] == multiset{}
    requires forall i :: 0 <= i < |ms| ==> here[i] == CountTexts(k, MessageTexts(ms[i]))
    requires forall i :: 0 <= i < |ms| ==> left[i] == here[i] + left[i + 1]
    ensures |out| == |ms| && forall j :: 0 <= j < |ms| ==> out[j] == MapMessage(g, ms[j])
    ensures counts == left[0]
  {
    out, counts := [], multiset{};
    for i := 0 to |ms|
      invariant |out| == i && forall j :: 0 <= j < i ==> out[j] == MapMessage(g, ms[j])
      invariant counts + left[i] == left[0]
    {
      var m;
      Rebalance(counts, here[i], left[i + 1]);
      m, counts := ScrubMessage(g, k, ms[i], counts);
      out := out + [m];
    }
  }

  lemma Rebalance(a: Counts, b: Counts, c: Counts)
    ensures a + (b + c) == (a + b) + c
  {
  }

  /** Redaction and scanning agree on what was found. */
  method RedactEnvelope(sc: Scrubber, env: Request) returns (copy: Request, counts: Counts, total: nat)
    ensures copy == Redacted(sc, env)
    ensures counts == Report(sc, env) && total == |Report(sc, env)|
  {
    var messages;
    messages, counts := ScrubMessages(sc.rewrite, sc.count, env.messages);
    copy, total := env.(messages := messages), |counts|;
  }

  // ---------------------------------------------------------------- what redaction preserves

  /** A text in which nothing is counted is not rewritten. */
  ghost predicate Quiet(g: Rewrite, k: Count) {
    forall t :: k(t) == multiset{} ==> g(t) == t
  }

  /** The scrubber over any regular-expression layer is quiet. */
  lemma ScrubberIsQuiet(f: Finder)
    ensures Quiet(ScrubberOf(f).rewrite, ScrubberOf(f).count)
  {
    forall t | ScrubberOf(f).count(t) == multiset{} ensures ScrubberOf(f).rewrite(t) == t {
      assert Kinds(Spans(f, t)) == multiset{};
      KindsEmpty(Spans(f, t));
    }
  }

  /** A request without matches is its own redaction. */
  lemma NothingFoundNothingChanged(sc: Scrubber, env: Request)
    requires Quiet(sc.rewrite, sc.count) && Report(sc, env) == multiset{}
    ensures Redacted(sc, env) == env
  {
    MessagesUnchanged(sc.rewrite, sc.count, env.messages);
  }

  lemma KindsEmpty(ms: seq<Match>)
    ensures Kinds(ms) == multiset{} <==> ms == []
  {
  }

  lemma {:induction false} MessagesUnchanged(g: Rewrite, k: Count, ms: seq<Message>)
    requires Quiet(g, k) && CountTexts(k, TextFields(ms)) == multiset{}
    ensures MapMessages(g, ms) == ms
  {
    if ms != [] {
      var m := ms[0];
      assert ms == [m] + ms[1..];
      CountMessage(k, m, ms[1..]);
      MessageUnchanged(g, k, m);
      MessagesUnchanged(g, k, ms[1..]);
    }
  }

  lemma MessageUnchanged(g: Rewrite, k: Count, m: Message)
    requires Quiet(g, k) && CountTexts(k, MessageTexts(m)) == multiset{}
    ensures MapMessage(g, m) == m
  {
    CountAppend(k, ContentTexts(m.content), CallTexts(m.toolCalls));
    CallsUnchanged(g, k, m.toolCalls);
    match m.content {
      case Plain(t) =>
        CountCons(k, t, []);
        NoPrefix([t]);
      case Parts(ps) => PartsUnchanged(g, k, ps);
    }
  }

  lemma {:induction false} CallsUnchanged(g: Rewrite, k: Count, cs: seq<ToolCall>)
    requires Quiet(g, k) && CountTexts(k, CallTexts(cs)) == multiset{}
    ensures MapCalls(g, cs) == cs
  {
    if cs != [] {
      assert cs == [cs[0]] + cs[1..];
      CountCall(k, cs[0], cs[1..]);
      CallsUnchanged(g, k, cs[1..]);
    }
  }

  lemma {:induction false} PartsUnchanged(g: Rewrite, k: Count, ps: seq<Part>)
    requires Quiet(g, k) && CountTexts(k, PartTexts(ps)) == multiset{}
    ensures MapParts(g, ps) == ps
  {
    if ps != [] {
      assert ps == [ps[0]] + ps[1..];
      CountPart(k, ps[0], ps[1..]);
      PartsUnchanged(g, k, ps[1..]);
    }
  }

  /** Redaction never adds or removes an image. */
  lemma RewritingKeepsImages(g: Rewrite, ms: seq<Message>)
    ensures AnyImage(MapMessages(g, ms)) <==> AnyImage(ms)
  {
    var r := MapMessages(g, ms);
    forall i | 0 <= i < |ms| ensures HasImage(r[i]) <==> HasImage(ms[i]) {
      MessageKeepsImages(g, ms[i]);
    }
  }

  lemma MessageKeepsImages(g: Rewrite, m: Message)
    ensures HasImage(MapMessage(g, m)) <==> HasImage(m)
  {
    if m.content.Parts? {
      var ps, qs := m.content.parts, MapParts(g, m.content.parts);
      assert forall j :: 0 <= j < |ps| ==> qs[j].ImagePart? == ps[j].ImagePart?;
    }
  }
}

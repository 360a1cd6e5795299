/** What redaction does to a request, text by text, and which texts the scan counts. */
module RedactionLaws {
  import opened Envelope
  import opened Scrub
  import opened Redaction
  import ScrubLaws

  // ---------------------------------------------------------------- one text

  function KindOfEach(ms: seq<Match>): seq<Kind> {
    seq(|ms|, i requires 0 <= i < |ms| => ms[i].kind)
  }

  /** The kinds of a list of spans, each as often as it occurs. */
  lemma {:induction false} KindsAre(ms: seq<Match>)
    ensures Kinds(ms) == multiset(KindOfEach(ms))
  {
    if ms != [] {
      KindsAre(ms[1..]);
      assert KindOfEach(ms) == [ms[0].kind] + KindOfEach(ms[1..]);
    }
  }

  /** A text's spans are exactly what the scan keeps. */
  lemma SpansAreExactly(f: Finder, text: string, m: Match)
    ensures m in Spans(f, text) <==> ScrubLaws.IsFound(f(text), m) || ScrubLaws.IsAccount(f(text), m)
  {
    ScrubLaws.ScanIsExactly(f(text), |text|, m);
  }

  /** The text is its gaps woven with its spans, and `copy` the same gaps woven with their tags. */
  ghost predicate TagsItsSpans(text: string, ms: seq<Match>, copy: string)
    requires Tiles(text, ms, 0)
  {
    && text == Weave(Gaps(text, ms, 0), Originals(text, ms, 0))
    && copy == Weave(Gaps(text, ms, 0), Tags(ms))
  }

  lemma RedactingTags(text: string, ms: seq<Match>)
    requires Tiles(text, ms, 0) && Within(text, ms)
    ensures TagsItsSpans(text, ms, RedactFrom(text, ms, 0))
    ensures ms == [] ==> RedactFrom(text, ms, 0) == text
  {
    RedactionReplacesSpans(text, ms, 0);
    assert text[0..] == text;
  }

  lemma ScrubberUses(f: Finder, text: string, ms: seq<Match>)
    requires ms == Spans(f, text)
    ensures Tiles(text, ms, 0) && Within(text, ms)
    ensures ScrubberOf(f).rewrite(text) == (if ms == [] then text else RedactFrom(text, ms, 0))
    ensures ScrubberOf(f).count(text) == Kinds(ms)
  {
  }

  /** The scrubber puts a tag in place of every span of a text and copies the rest. */
  lemma ScrubberTags(f: Finder, text: string, ms: seq<Match>)
    requires ms == Spans(f, text)
    ensures Tiles(text, ms, 0) && TagsItsSpans(text, ms, ScrubberOf(f).rewrite(text))
  {
    ScrubberUses(f, text, ms);
    RedactingTags(text, ms);
  }

  /** It counts the kind of each span. */
  lemma ScrubberCounts(f: Finder, text: string, ms: seq<Match>)
    requires ms == Spans(f, text)
    ensures ScrubberOf(f).count(text) == multiset(KindOfEach(ms))
  {
    ScrubberUses(f, text, ms);
    KindsAre(ms);
  }

  /** A tag names its kind and carries no digit of what it stands for. */
  lemma TagsCarryNoDigit(kind: Kind, i: nat)
    requires i < |Tag(kind)|
    ensures !('0' <= Tag(kind)[i] <= '9')
    ensures forall other :: Tag(other) == Tag(kind) ==> other == kind
  {
    forall other | Tag(other) == Tag(kind) ensures other == kind {
      assert Tag(other)[1] == Tag(kind)[1];
      assert Tag(other)[2] == Tag(kind)[2];
    }
  }

  // ---------------------------------------------------------------- every text is rewritten

  predicate PartRewritten(g: Rewrite, p: Part, q: Part) {
    match p
    case TextPart(text) => q == TextPart(g(text))
    case ImagePart(_) => q == p
  }

  /** `n` is `m` with every text rewritten and everything else as it was. */
  predicate MessageRewritten(g: Rewrite, m: Message, n: Message) {
    && n.role == m.role && n.toolCallId == m.toolCallId
    && (m.content.Plain? ==> n.content == Plain(g(m.content.text)))
    && (m.content.Parts? ==>
          && n.content.Parts? && |n.content.parts| == |m.content.parts|
          && forall j :: 0 <= j < |m.content.parts| ==> PartRewritten(g, m.content.parts[j], n.content.parts[j]))
    && |n.toolCalls| == |m.toolCalls|
    && forall j :: 0 <= j < |m.toolCalls| ==>
         n.toolCalls[j] == ToolCall(m.toolCalls[j].id, m.toolCalls[j].name, g(m.toolCalls[j].arguments))
  }

  predicate AllRewritten(g: Rewrite, ms: seq<Message>, ns: seq<Message>) {
    |ns| == |ms| && forall i :: 0 <= i < |ms| ==> MessageRewritten(g, ms[i], ns[i])
  }

  /** The redacted copy: every plain content, text part and tool argument rewritten, nothing else touched. */
  lemma RedactionRewritesEveryText(sc: Scrubber, env: Request)
    ensures AllRewritten(sc.rewrite, env.messages, Redacted(sc, env).messages)
    ensures Redacted(sc, env) == env.(messages := Redacted(sc, env).messages)
  {
    MessagesAreRewritten(sc.rewrite, env.messages);
  }

  lemma MessagesAreRewritten(g: Rewrite, ms: seq<Message>)
    ensures AllRewritten(g, ms, MapMessages(g, ms))
  {
    forall i | 0 <= i < |ms| ensures MessageRewritten(g, ms[i], MapMessages(g, ms)[i]) {
      MessageIsRewritten(g, ms[i]);
    }
  }

  lemma MessageIsRewritten(g: Rewrite, m: Message)
    ensures MessageRewritten(g, m, MapMessage(g, m))
  {
    if m.content.Parts? {
      var ps := m.content.parts;
      assert forall j :: 0 <= j < |ps| ==> PartRewritten(g, ps[j], MapParts(g, ps)[j]);
    }
  }

  // ---------------------------------------------------------------- field by field

  /** Texts that are, one by one, the rewritings of others. */
  predicate Rewritten(g: Rewrite, texts: seq<string>, copies: seq<string>) {
    |copies| == |texts| && forall i :: 0 <= i < |texts| ==> copies[i] == g(texts[i])
  }

  lemma RewrittenTogether(g: Rewrite, a: seq<string>, a': seq<string>, b: seq<string>, b': seq<string>)
    requires Rewritten(g, a, a') && Rewritten(g, b, b')
    ensures Rewritten(g, a + b, a' + b')
  {
  }

  lemma {:induction false} PartFields(g: Rewrite, ps: seq<Part>)
    ensures Rewritten(g, PartTexts(ps), PartTexts(MapParts(g, ps)))
  {
    if ps != [] {
      PartFields(g, ps[1..]);
      assert MapParts(g, ps)[1..] == MapParts(g, ps[1..]);
    }
  }

  lemma {:induction false} CallFields(g: Rewrite, cs: seq<ToolCall>)
    ensures Rewritten(g, CallTexts(cs), CallTexts(MapCalls(g, cs)))
  {
    if cs != [] {
      CallFields(g, cs[1..]);
      assert MapCalls(g, cs)[1..] == MapCalls(g, cs[1..]);
    }
  }

  lemma MessageFields(g: Rewrite, m: Message)
    ensures Rewritten(g, MessageTexts(m), MessageTexts(MapMessage(g, m)))
  {
    CallFields(g, m.toolCalls);
    if m.content.Parts? { PartFields(g, m.content.parts); }
    RewrittenTogether(g, ContentTexts(m.content), ContentTexts(MapContent(g, m.content)),
                      CallTexts(m.toolCalls), CallTexts(MapCalls(g, m.toolCalls)));
  }

  /** The fields the scanner visits in the copy are the rewritings of the original's, one by one. */
  lemma {:induction false} FieldsAreRewritten(g: Rewrite, ms: seq<Message>)
    ensures Rewritten(g, TextFields(ms), TextFields(MapMessages(g, ms)))
  {
    if ms != [] {
      FieldsAreRewritten(g, ms[1..]);
      MessageFields(g, ms[0]);
      assert MapMessages(g, ms)[1..] == MapMessages(g, ms[1..]);
      RewrittenTogether(g, MessageTexts(ms[0]), MessageTexts(MapMessage(g, ms[0])),
                        TextFields(ms[1..]), TextFields(MapMessages(g, ms[1..])));
    }
  }

  // ---------------------------------------------------------------- which texts are counted

  /** A text of a message: its plain content, one of its text parts, or a tool call's arguments. */
  predicate TextOf(m: Message, t: string) {
    || m.content == Plain(t)
    || (m.content.Parts? && TextPart(t) in m.content.parts)
    || exists j :: 0 <= j < |m.toolCalls| && m.toolCalls[j].arguments == t
  }

  lemma {:induction false} PartTextsAre(ps: seq<Part>, t: string)
    ensures t in PartTexts(ps) <==> TextPart(t) in ps
  {
    if ps != [] {
      assert ps == [ps[0]] + ps[1..];
      PartTextsAre(ps[1..], t);
    }
  }

  lemma {:induction false} CallTextsAre(cs: seq<ToolCall>, t: string)
    ensures t in CallTexts(cs) <==> exists j :: 0 <= j < |cs| && cs[j].arguments == t
  {
    if cs != [] {
      assert cs == [cs[0]] + cs[1..];
      CallTextsAre(cs[1..], t);
      assert forall j :: 1 <= j < |cs| ==> cs[j] == cs[1..][j - 1];
      assert forall j :: 0 <= j < |cs| - 1 ==> cs[1..][j] == cs[j + 1];
    }
  }

  lemma MessageTextsAre(m: Message, t: string)
    ensures t in MessageTexts(m) <==> TextOf(m, t)
  {
    CallTextsAre(m.toolCalls, t);
    if m.content.Parts? { PartTextsAre(m.content.parts, t); }
  }

  /** The scanner visits exactly the texts of the messages. */
  lemma {:induction false} FieldsAreTheTexts(ms: seq<Message>, t: string)
    ensures t in TextFields(ms) <==> exists i :: 0 <= i < |ms| && TextOf(ms[i], t)
  {
    if ms != [] {
      FieldsAreTheTexts(ms[1..], t);
      MessageTextsAre(ms[0], t);
      assert forall i :: 1 <= i < |ms| ==> ms[i] == ms[1..][i - 1];
      assert forall i :: 0 <= i < |ms| - 1 ==> ms[1..][i] == ms[i + 1];
    }
  }

  lemma {:induction false} CountedExactly(k: Count, texts: seq<string>)
    ensures CountTexts(k, texts) == multiset{} <==> forall t :: t in texts ==> k(t) == multiset{}
    ensures forall t :: t in texts ==> k(t) <= CountTexts(k, texts)
  {
    if texts != [] {
      assert texts == [texts[0]] + texts[1..];
      CountedExactly(k, texts[1..]);
    }
  }

  /** Nothing is reported exactly when no text of the request holds a match. */
  lemma ReportsNothingExactlyWhen(sc: Scrubber, env: Request)
    ensures Report(sc, env) == multiset{} <==>
            forall i, t :: 0 <= i < |env.messages| && TextOf(env.messages[i], t) ==> sc.count(t) == multiset{}
  {
    var fields := TextFields(env.messages);
    CountedExactly(sc.count, fields);
    forall t ensures t in fields <==> exists i :: 0 <= i < |env.messages| && TextOf(env.messages[i], t) {
      FieldsAreTheTexts(env.messages, t);
    }
  }

  /** The matches of every text are in the report. */
  lemma ReportHoldsEach(sc: Scrubber, env: Request, i: nat, t: string)
    requires i < |env.messages| && TextOf(env.messages[i], t)
    ensures sc.count(t) <= Report(sc, env)
  {
    FieldsAreTheTexts(env.messages, t);
    CountedExactly(sc.count, TextFields(env.messages));
  }
}

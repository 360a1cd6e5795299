/**
 * The response verifier as the executor's judge, and what it means for the answers a run returns
 * (src/gateway/verify.ts inside src/resilience/executor.ts).
 */
module Answers {
  import opened Common
  import opened Envelope
  import opened Pipeline
  import opened Text
  import opened SchemaLaws
  import opened SchemaMeaning
  import opened ErasureLaws
  import opened Executor
  import opened ExecutorLaws
  import V = VerifyResponse

  /** What a deployment fixes: how a request's format reads, the default mode and the JSON reader. */
  datatype Verifier = Verifier(formatOf: Request -> V.Format, default: V.Mode, reader: V.Reader)

  /** A finding as the reason of the error it becomes. */
  function ReasonFor(finding: V.Reason): ErrorReason {
    match finding
    case JsonTruncated => Truncated
    case EmptyResponse => NoContent
    case ProviderErrorFinish => Other("provider_error_finish")
    case ToolArgumentsNotJson => Other("tool_arguments_not_json")
    case ResponseNotJson => Other("response_not_json")
    case SchemaViolation(_) => Other("schema_violation")
  }

  function Finding(v: Verifier, res: V.Response, sent: Request): Option<V.Reason> {
    V.Verify(res, v.formatOf(sent), v.default, v.reader).finding
  }

  /** The judge of a deployment that verifies responses. */
  function JudgeWith(v: Verifier): Judge {
    (res, sent) => var f := Finding(v, res, sent); if f.Some? then Some(ReasonFor(f.value)) else None
  }

  /** Some character of the text is not white space. */
  predicate Says(text: string) {
    exists i :: 0 <= i < |text| && !IsSpace(text[i])
  }

  lemma SaysIsNotBlank(text: string)
    ensures Says(text) <==> Trim(text) != ""
  {
    TrimsAway(text);
  }

  predicate ArgumentsParse(v: Verifier, res: V.Response) {
    forall i :: 0 <= i < |res.toolArguments| ==> v.reader.parse(res.toolArguments[i]).Some?
  }

  /** A reply that is there at all: not a declared failure, and with text, a tool call or a refusal. */
  predicate Answers(res: V.Response) {
    && res.finish != V.ErrorFinish
    && (Says(res.content) || res.toolArguments != [] || res.finish == V.ContentFilter)
  }

  /** The text a forced-JSON answer is read from. */
  function Answer(res: V.Response): string {
    if Says(res.content) then res.content else if res.toolArguments != [] then res.toolArguments[0] else ""
  }

  /** Strict validation is asked for: outright, by the hint, or by the deployment when neither speaks. */
  predicate AsksStrict(format: V.Format, default: V.Mode) {
    if format.JsonSchema? && format.validation != None then format.validation == Some(V.Strict)
    else (format.JsonSchema? && format.strictHint) || default == V.Strict
  }

  /** What an accepted answer to a request is. */
  ghost predicate Usable(v: Verifier, res: V.Response, sent: Request) {
    var format, read := v.formatOf(sent), v.reader.parseFenced(Answer(res));
    && Answers(res) && ArgumentsParse(v, res)
    && (!format.PlainText? ==> res.finish != V.Length && read.Some?)
    && (format.JsonSchema? && AsksStrict(format, v.default) ==> Conforms(read.value, format.schema))
    && (format.JsonSchema? && !AsksStrict(format, v.default) ==>
          Conforms(read.value, Erase(format.schema)) && Clear(read.value, format.schema, []))
  }

  /** The verifier finds nothing exactly in a usable answer. */
  lemma AcceptedExactlyWhen(v: Verifier, res: V.Response, sent: Request)
    ensures Finding(v, res, sent) == None <==> Usable(v, res, sent)
  {
    SaysIsNotBlank(res.content);
    var format := v.formatOf(sent);
    var read := v.reader.parseFenced(Answer(res));
    if format.JsonSchema? && read.Some? {
      StrictMeansConforms(read.value, format.schema, []);
      StrictMeansConforms(read.value, Erase(format.schema), []);
      ErasureIsExactlyClear(read.value, format.schema, [], false);
    }
  }

  /** Truncation is found exactly in a forced-JSON answer that is there and ended at its token limit. */
  lemma TruncatedExactlyWhen(v: Verifier, res: V.Response, sent: Request)
    ensures Finding(v, res, sent) == Some(V.JsonTruncated) <==>
            !v.formatOf(sent).PlainText? && res.finish == V.Length && Answers(res) && ArgumentsParse(v, res)
  {
    SaysIsNotBlank(res.content);
  }

  /** What a verifying run returns is usable for the envelope its hop was sent. */
  lemma ServedAnswersAreUsable(v: Verifier, s: Setting)
    requires s.judge == JudgeWith(v) && Execute(s).result.Ok?
    ensures LastRoute(Execute(s).log, None).Some?
    ensures Usable(v, Execute(s).result.value, HopEnvelope(s.o, LastRoute(Execute(s).log, None).value.model))
  {
    AnswerIsTheLastCalls(s);
    var run := Execute(s);
    var sent := HopEnvelope(s.o, LastRoute(run.log, None).value.model);
    assert JudgeWith(v)(run.result.value, sent) == None;
    AcceptedExactlyWhen(v, run.result.value, sent);
  }

  /** A forced-JSON reply cut off at its token limit is a failure that is not tried again. */
  lemma TruncationIsNotRetried(v: Verifier, res: V.Response, sent: Request)
    requires !v.formatOf(sent).PlainText? && res.finish == V.Length && Answers(res) && ArgumentsParse(v, res)
    ensures Judged(JudgeWith(v), Ok(res), sent) == Err(RouterError(InvalidResponse, Truncated))
    ensures !WorthRetrying(RouterError(InvalidResponse, Truncated))
  {
    TruncatedExactlyWhen(v, res, sent);
  }
}

/** The verdict on one hop's response (`verifyResponse`, `resolveValidationMode`). */
module VerifyResponse {
  import opened Common
  import opened Schema
  import opened Text
  import SchemaLaws
  import Validator

  datatype Mode = Structural | Strict
  datatype Format =
    | PlainText
    | JsonObject
    | JsonSchema(schema: Schema, strictHint: bool, validation: Option<Mode>)
  datatype Finish = Stop | Length | ToolCalls | ContentFilter | ErrorFinish
  datatype Response = Response(content: string, toolArguments: seq<string>, finish: Finish)

  datatype Reason =
    | EmptyResponse | ProviderErrorFinish | ToolArgumentsNotJson
    | ResponseNotJson | JsonTruncated | SchemaViolation(at: Path)

  datatype Verdict = Verdict(finding: Option<Reason>, soft: seq<Path>)

  function ResolveMode(format: Format, default: Mode): Mode {
    if !format.JsonSchema? then default
    else if format.validation.Some? then format.validation.value
    else if format.strictHint then Strict
    else default
  }

  /** JSON.parse (None when it throws), alone and after code fences are stripped. */
  datatype Reader = Reader(parse: string -> Option<Json>, parseFenced: string -> Option<Json>)

  function Verify(res: Response, format: Format, default: Mode, reader: Reader): Verdict {
    var before := BeforeSchema(res, format, reader);
    if before.Some? || !format.JsonSchema? then Verdict(before, [])
    else
      var value := reader.parseFenced(Source(res)).value;
      var o := Validate(value, format.schema, [], ResolveMode(format, default) == Structural);
      Verdict(if o.bad.Some? then Some(SchemaViolation(o.bad.value.path)) else None, o.soft)
  }

  function Source(res: Response): string {
    if Trim(res.content) != "" then res.content
    else if res.toolArguments != [] then res.toolArguments[0]
    else ""
  }

  /** The checks that precede the schema, in order. */
  function BeforeSchema(res: Response, format: Format, reader: Reader): (r: Option<Reason>)
    ensures r.None? && !format.PlainText? ==> reader.parseFenced(Source(res)).Some?
  {
    if res.finish == ErrorFinish then Some(ProviderErrorFinish)
    else if Trim(res.content) == "" && res.toolArguments == [] && res.finish != ContentFilter then Some(EmptyResponse)
    else if exists i :: 0 <= i < |res.toolArguments| && reader.parse(res.toolArguments[i]).None?
    then Some(ToolArgumentsNotJson)
    else if format.PlainText? then None
    else if res.finish == Length then Some(JsonTruncated)
    else if reader.parseFenced(Source(res)).None? then Some(ResponseNotJson)
    else None
  }

  /**
   * Asking for strict validation instead of structural turns exactly the soft findings into a
   * rejection: whatever structural mode rejects strict mode rejects, and strict mode accepts
   * exactly the responses structural mode accepts without a soft finding.
   */
  lemma StrictRejectsSoftFindings(res: Response, format: Format, reader: Reader)
    requires format.JsonSchema? ==> !format.strictHint && format.validation.None?
    ensures var soft, strict := Verify(res, format, Structural, reader), Verify(res, format, Strict, reader);
            strict.finding.None? <==> soft.finding.None? && soft.soft == []
    ensures Verify(res, format, Structural, reader).finding.Some? ==> Verify(res, format, Strict, reader).finding.Some?
  {
    if BeforeSchema(res, format, reader).None? && format.JsonSchema? {
      SchemaLaws.StrictIsCleanStructural(reader.parseFenced(Source(res)).value, format.schema, []);
    }
  }

  /** The schema step as the program runs it, collecting soft findings in `soft`. */
  method CheckSchema(value: Json, format: Format, default: Mode, soft: Validator.Collector)
    returns (bad: Option<Violation>)
    requires format.JsonSchema?
    modifies soft
    ensures var structural := ResolveMode(format, default) == Structural;
            var o := Validate(value, format.schema, [], structural);
            bad == o.bad && soft.soft == old(soft.soft) + (if structural then o.soft else [])
  {
    if ResolveMode(format, default) == Strict {
      bad := Validator.Check(value, format.schema, [], null);
    } else {
      bad := Validator.Check(value, format.schema, [], soft);
    }
  }
}

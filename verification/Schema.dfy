/**
 * The response verifier's JSON Schema subset (src/gateway/verify.ts).
 *
 * `Validate` is the evaluator as a function: it returns the first violation together with
 * what the call appended to the soft-finding collector and to the enum-hit counter.
 * `Validator.Check` is the evaluator as the program runs it, appending to a collector in place.
 */
module Schema {
  import opened Common

  /** A parsed JSON value; object fields stand in own-property order. */
  datatype Json =
    | Null
    | Bool(b: bool)
    | Num(n: real)
    | Str(s: string)
    | Arr(elems: seq<Json>)
    | Obj(fields: seq<(string, Json)>)

  /**
   * `Anything` is a schema that is not an object. In a `Node`, absent and empty `enum` lists
   * are the same (`members == []`), as are absent and empty `properties` and `required`, and
   * absent `items` and `items` that constrain nothing.
   */
  datatype Schema =
    | Anything
    | Node(
        members: seq<Json>,
        anyOf: Alternatives,
        oneOf: Alternatives,
        types: Option<seq<string>>,
        nullable: bool,
        properties: seq<Property>,
        required: seq<string>,
        items: Schema)

  datatype Alternatives = Absent | Present(branches: seq<Schema>)
  datatype Property = Property(name: string, schema: Schema)

  datatype PathStep = Key(key: string) | Index(index: nat)
  type Path = seq<PathStep>

  datatype Fault = EnumMiss | NoBranch | WrongType | MissingProperty
  datatype Violation = Violation(path: Path, fault: Fault)

  /** Violation found, soft findings appended and enum hits counted by one evaluation. */
  datatype Outcome = Outcome(bad: Option<Violation>, soft: seq<Path>, hits: nat) {
    predicate Accepts() { bad.None? }

    /** This evaluation succeeded and `next` ran after it on the same collector. */
    function Then(next: Outcome): Outcome {
      Outcome(next.bad, soft + next.soft, hits + next.hits)
    }
  }

  const CLEAN: Outcome := Outcome(None, [], 0)

  function Reject(path: Path, fault: Fault): Outcome {
    Outcome(Some(Violation(path, fault)), [], 0)
  }

  function TypeOf(v: Json): string {
    match v
    case Null => "null"
    case Bool(_) => "boolean"
    case Num(_) => "number"
    case Str(_) => "string"
    case Arr(_) => "array"
    case Obj(_) => "object"
  }

  predicate TypeMatches(v: Json, expected: string) {
    if expected == "integer" then v.Num? && v.n.Floor as real == v.n
    else TypeOf(v) == expected
  }

  predicate TypePermitted(v: Json, s: Schema)
    requires s.Node?
  {
    s.types.None? ||
    (exists i :: 0 <= i < |s.types.value| && TypeMatches(v, s.types.value[i])) ||
    (s.nullable && TypeMatches(v, "null"))
  }

  function Lookup(fields: seq<(string, Json)>, key: string): Option<Json> {
    if fields == [] then None
    else if fields[0].0 == key then Some(fields[0].1)
    else Lookup(fields[1..], key)
  }

  /** `anyOf ?? oneOf`: an `anyOf` that is present hides `oneOf` even when it is empty. */
  function Branches(s: Schema): (bs: seq<Schema>)
    requires s.Node?
    ensures bs != [] ==> (s decreases to bs)
  {
    if s.anyOf.Present? then s.anyOf.branches
    else if s.oneOf.Present? then s.oneOf.branches
    else []
  }

  // ---------------------------------------------------------------- the evaluator

  function Validate(v: Json, s: Schema, path: Path, structural: bool): Outcome
    decreases s, 1
  {
    if s.Anything? then CLEAN
    else if s.members != [] && v !in s.members && !structural then Reject(path, EnumMiss)
    else EnumStage(v, s, path, structural).Then(ShapeStage(v, s, path, structural))
  }

  /** What the `enum` keyword adds when it does not reject. */
  function EnumStage(v: Json, s: Schema, path: Path, structural: bool): Outcome
    requires s.Node?
  {
    if s.members == [] || !structural then CLEAN
    else if v in s.members then Outcome(None, [], 1)
    else Outcome(None, [path], 0)
  }

  function ShapeStage(v: Json, s: Schema, path: Path, structural: bool): Outcome
    requires s.Node?
    decreases s, 0
  {
    var bs := Branches(s);
    if bs != [] then Union(v, bs, path, structural)
    else if !TypePermitted(v, s) then Reject(path, WrongType)
    else
      var o := if v.Obj? then Properties(v.fields, s.properties, path, structural) else CLEAN;
      if !o.Accepts() then o
      else if v.Obj? && FirstMissing(v.fields, s.required).Some? then
        o.Then(Reject(path + [Key(FirstMissing(v.fields, s.required).value)], MissingProperty))
      else if v.Arr? then o.Then(Items(v.elems, 0, s.items, path, structural))
      else o
  }

  function Properties(fields: seq<(string, Json)>, props: seq<Property>, path: Path, structural: bool): Outcome
    decreases props
  {
    if props == [] then CLEAN
    else
      var rest := props[1..];
      match Lookup(fields, props[0].name)
      case None => Properties(fields, rest, path, structural)
      case Some(x) =>
        var o := Validate(x, props[0].schema, path + [Key(props[0].name)], structural);
        if o.Accepts() then o.Then(Properties(fields, rest, path, structural)) else o
  }

  function FirstMissing(fields: seq<(string, Json)>, required: seq<string>): Option<string> {
    if required == [] then None
    else if Lookup(fields, required[0]).None? then Some(required[0])
    else FirstMissing(fields, required[1..])
  }

  function Items(elems: seq<Json>, from: nat, item: Schema, path: Path, structural: bool): Outcome
    requires from <= |elems|
    decreases item, 2, |elems| - from
  {
    if from == |elems| then CLEAN
    else
      var o := Validate(elems[from], item, path + [Index(from)], structural);
      if o.Accepts() then o.Then(Items(elems, from + 1, item, path, structural)) else o
  }

  /** Pass 1 over every branch with enums hard, then pass 2 in structural mode only. */
  function Union(v: Json, bs: seq<Schema>, path: Path, structural: bool): Outcome
    decreases bs, 1
  {
    if AnyStrict(v, bs, path) then CLEAN
    else if structural then SoftPass(v, bs, path, None)
    else Reject(path, NoBranch)
  }

  predicate AnyStrict(v: Json, bs: seq<Schema>, path: Path)
    decreases bs, 0
  {
    bs != [] && (Validate(v, bs[0], path, false).Accepts() || AnyStrict(v, bs[1..], path))
  }

  /** The first branch that passes on structure wins unless an authoritative branch fails. */
  function SoftPass(v: Json, bs: seq<Schema>, path: Path, winner: Option<Outcome>): Outcome
    decreases bs, 0
  {
    if bs == [] then
      if winner.Some? then winner.value else Reject(path, NoBranch)
    else
      var o := Validate(v, bs[0], path, true);
      if o.Accepts() then SoftPass(v, bs[1..], path, if winner.None? then Some(o) else winner)
      else if o.hits > 0 && o.soft == [] then Outcome(o.bad, [], 0)
      else SoftPass(v, bs[1..], path, winner)
  }
}

/**
 * What the schema keywords mean, without the evaluator and its order of checks: sections 6.1.1,
 * 6.1.2 and 6.5.3 of JSON Schema Validation 2020-12 and `anyOf` of section 10.2.1.2 of Core, with
 * `oneOf` read as `anyOf`.
 */
module SchemaMeaning {
  import opened Common
  import opened Schema
  import opened SchemaLaws

  // ---------------------------------------------------------------- types

  predicate IsWholeNumber(v: Json, k: int) {
    v == Num(k as real)
  }

  /** The type names a value goes by. */
  ghost predicate GoesBy(v: Json, name: string) {
    match v
    case Null => name == "null"
    case Bool(_) => name == "boolean"
    case Str(_) => name == "string"
    case Arr(_) => name == "array"
    case Obj(_) => name == "object"
    case Num(_) => name == "number" || (name == "integer" && exists k: int :: IsWholeNumber(v, k))
  }

  /** `integer` takes exactly the whole numbers, every other name its own kind of value. */
  lemma TypeNamesMean(v: Json, name: string)
    ensures TypeMatches(v, name) <==> GoesBy(v, name)
  {
    if v.Num? && v.n.Floor as real == v.n {
      assert IsWholeNumber(v, v.n.Floor);
    }
  }

  ghost predicate TypeFits(v: Json, types: Option<seq<string>>, nullable: bool) {
    types.None? || (nullable && v.Null?) || exists i :: 0 <= i < |types.value| && GoesBy(v, types.value[i])
  }

  lemma TypesMean(v: Json, s: Schema)
    requires s.Node?
    ensures TypePermitted(v, s) <==> TypeFits(v, s.types, s.nullable)
  {
    TypeNamesMean(v, "null");
    if s.types.Some? {
      forall i | 0 <= i < |s.types.value| ensures TypeMatches(v, s.types.value[i]) <==> GoesBy(v, s.types.value[i]) {
        TypeNamesMean(v, s.types.value[i]);
      }
    }
  }

  // ---------------------------------------------------------------- keys

  predicate HasKey(fields: seq<(string, Json)>, name: string) {
    exists k :: 0 <= k < |fields| && fields[k].0 == name
  }

  /** Field k is the one a name refers to. */
  predicate Names(fields: seq<(string, Json)>, k: nat, name: string) {
    k < |fields| && fields[k].0 == name && forall l :: 0 <= l < k ==> fields[l].0 != name
  }

  lemma {:induction false} LookupMeans(fields: seq<(string, Json)>, name: string)
    ensures Lookup(fields, name).Some? <==> HasKey(fields, name)
    ensures Lookup(fields, name).Some? ==>
              exists k: nat :: Names(fields, k, name) && fields[k].1 == Lookup(fields, name).value
  {
    if fields != [] && fields[0].0 != name {
      var rest := fields[1..];
      LookupMeans(rest, name);
      assert forall k :: 1 <= k < |fields| ==> fields[k] == rest[k - 1];
      if Lookup(rest, name).Some? {
        var k: nat :| Names(rest, k, name) && rest[k].1 == Lookup(rest, name).value;
        assert Names(fields, k + 1, name) && fields[k + 1].1 == rest[k].1;
      }
    } else if fields != [] {
      assert Names(fields, 0, name);
    }
  }

  lemma NamesOneField(fields: seq<(string, Json)>, j: nat, k: nat, name: string)
    requires Names(fields, j, name) && Names(fields, k, name)
    ensures j == k
  {
  }

  lemma {:induction false} RequiredMeans(fields: seq<(string, Json)>, required: seq<string>)
    ensures FirstMissing(fields, required).None? <==> forall n :: n in required ==> HasKey(fields, n)
    ensures FirstMissing(fields, required).Some? ==>
              FirstMissing(fields, required).value in required && !HasKey(fields, FirstMissing(fields, required).value)
  {
    if required != [] {
      assert required == [required[0]] + required[1..];
      LookupMeans(fields, required[0]);
      RequiredMeans(fields, required[1..]);
    }
  }

  // ---------------------------------------------------------------- strict validation

  /** The branches of a node: `anyOf` when it is given, else `oneOf`, else none. */
  function Choices(s: Schema): (bs: seq<Schema>)
    requires s.Node?
    ensures bs != [] ==> (s decreases to bs)
  {
    match (s.anyOf, s.oneOf)
    case (Present(bs), _) => bs
    case (Absent, Present(bs)) => bs
    case (Absent, Absent) => []
  }

  lemma ChoicesAreBranches(s: Schema)
    requires s.Node?
    ensures Choices(s) == Branches(s)
  {
  }

  /** Keyword by keyword. */
  ghost predicate Conforms(v: Json, s: Schema)
    decreases s, 1
  {
    s.Node? ==>
      && (s.members == [] || v in s.members)
      && if Choices(s) != [] then SomeConforms(v, Choices(s))
         else
           && TypeFits(v, s.types, s.nullable)
           && (v.Obj? ==> forall n :: n in s.required ==> HasKey(v.fields, n))
           && (v.Obj? ==> PropertiesConform(v.fields, s.properties))
           && (v.Arr? ==> forall k :: 0 <= k < |v.elems| ==> Conforms(v.elems[k], s.items))
  }

  ghost predicate SomeConforms(v: Json, bs: seq<Schema>)
    decreases bs, 0
  {
    exists i :: 0 <= i < |bs| && Conforms(v, bs[i])
  }

  /** Every present property conforms to its schema. */
  ghost predicate PropertiesConform(fields: seq<(string, Json)>, ps: seq<Property>)
    decreases ps, 0
  {
    forall i, k: nat :: 0 <= i < |ps| && Names(fields, k, ps[i].name) ==> Conforms(fields[k].1, ps[i].schema)
  }

  /** Strict mode accepts exactly the values that conform. */
  lemma {:induction false} StrictMeansConforms(v: Json, s: Schema, path: Path)
    ensures Validate(v, s, path, false).Accepts() <==> Conforms(v, s)
    decreases s, 1
  {
    if s.Node? {
      ShapeMeans(v, s, path);
      assert Validate(v, s, path, false).Accepts() <==>
             (s.members == [] || v in s.members) && ShapeStage(v, s, path, false).Accepts();
    }
  }

  /** A node's conditions other than its enum. */
  ghost predicate Shaped(v: Json, s: Schema)
    requires s.Node?
  {
    if Choices(s) != [] then SomeConforms(v, Choices(s))
    else
      && TypeFits(v, s.types, s.nullable)
      && (v.Obj? ==> forall n :: n in s.required ==> HasKey(v.fields, n))
      && (v.Obj? ==> PropertiesConform(v.fields, s.properties))
      && (v.Arr? ==> forall k :: 0 <= k < |v.elems| ==> Conforms(v.elems[k], s.items))
  }

  lemma {:induction false} ShapeMeans(v: Json, s: Schema, path: Path)
    requires s.Node?
    ensures ShapeStage(v, s, path, false).Accepts() <==> Shaped(v, s)
    decreases s, 0
  {
    var bs := Choices(s);
    ChoicesAreBranches(s);
    if bs != [] {
      BranchesMean(v, bs, path);
    } else {
      TypesMean(v, s);
      if v.Obj? {
        PropertiesMean(v.fields, s.properties, path);
        RequiredMeans(v.fields, s.required);
      }
      if v.Arr? { ItemsMean(v.elems, 0, s.items, path); }
    }
  }

  lemma {:induction false} BranchesMean(v: Json, bs: seq<Schema>, path: Path)
    ensures Union(v, bs, path, false).Accepts() <==> SomeConforms(v, bs)
    decreases bs, 0
  {
    AnyStrictIsExists(v, bs, path);
    forall i | 0 <= i < |bs| ensures Validate(v, bs[i], path, false).Accepts() <==> Conforms(v, bs[i]) {
      StrictMeansConforms(v, bs[i], path);
    }
  }

  lemma {:induction false} PropertiesMean(fields: seq<(string, Json)>, ps: seq<Property>, path: Path)
    ensures Properties(fields, ps, path, false).Accepts() <==> PropertiesConform(fields, ps)
    decreases ps
  {
    if ps != [] {
      PropertiesMean(fields, ps[1..], path);
      FirstPropertyMeans(fields, ps[0], path);
      assert PropertiesConform(fields, ps) <==>
             PropertyConforms(fields, ps[0]) && PropertiesConform(fields, ps[1..]) by {
        assert forall i :: 1 <= i < |ps| ==> ps[i] == ps[1..][i - 1];
        assert forall i :: 0 <= i < |ps| - 1 ==> ps[1..][i] == ps[i + 1];
      }
    }
  }

  ghost predicate PropertyConforms(fields: seq<(string, Json)>, p: Property)
    decreases p, 2
  {
    forall k: nat :: Names(fields, k, p.name) ==> Conforms(fields[k].1, p.schema)
  }

  lemma {:induction false} FirstPropertyMeans(fields: seq<(string, Json)>, p: Property, path: Path)
    ensures var x := Lookup(fields, p.name);
            PropertyConforms(fields, p) <==>
            (x.None? || Validate(x.value, p.schema, path + [Key(p.name)], false).Accepts())
    decreases p, 2
  {
    LookupMeans(fields, p.name);
    var x := Lookup(fields, p.name);
    if x.Some? {
      StrictMeansConforms(x.value, p.schema, path + [Key(p.name)]);
      var k: nat :| Names(fields, k, p.name) && fields[k].1 == x.value;
      forall l: nat | Names(fields, l, p.name) ensures l == k { NamesOneField(fields, l, k, p.name); }
    }
  }

  lemma {:induction false} ItemsMean(elems: seq<Json>, lo: nat, item: Schema, path: Path)
    requires lo <= |elems|
    ensures Items(elems, lo, item, path, false).Accepts() <==>
            forall k :: lo <= k < |elems| ==> Conforms(elems[k], item)
    decreases item, 2, |elems| - lo
  {
    if lo < |elems| {
      StrictMeansConforms(elems[lo], item, path + [Index(lo)]);
      ItemsMean(elems, lo + 1, item, path);
    }
  }
}

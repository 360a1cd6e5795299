/**
 * Structural validation against validation with all enums erased, exactly: the two differ only at
 * unions, where a branch the value names through its enum may veto what its siblings would take.
 */
module ErasureLaws {
  import opened Schema
  import opened SchemaLaws

  // ---------------------------------------------------------------- erasing twice

  lemma {:induction false} EraseTwice(s: Schema)
    ensures Erase(Erase(s)) == Erase(s)
    decreases s, 1
  {
    if s.Node? {
      EraseAlternativesTwice(s.anyOf);
      EraseAlternativesTwice(s.oneOf);
      ErasePropertiesTwice(s.properties);
      EraseTwice(s.items);
    }
  }

  lemma {:induction false} EraseAlternativesTwice(a: Alternatives)
    ensures EraseAlternatives(EraseAlternatives(a)) == EraseAlternatives(a)
    decreases a
  {
    if a.Present? { EraseAllTwice(a.branches); }
  }

  lemma {:induction false} EraseAllTwice(bs: seq<Schema>)
    ensures EraseAll(EraseAll(bs)) == EraseAll(bs)
    decreases bs
  {
    if bs != [] {
      EraseTwice(bs[0]);
      EraseAllTwice(bs[1..]);
      assert EraseAll(bs)[1..] == EraseAll(bs[1..]);
    }
  }

  lemma {:induction false} ErasePropertiesTwice(ps: seq<Property>)
    ensures EraseProperties(EraseProperties(ps)) == EraseProperties(ps)
    decreases ps
  {
    if ps != [] {
      EraseTwice(ps[0].schema);
      ErasePropertiesTwice(ps[1..]);
      assert EraseProperties(ps)[1..] == EraseProperties(ps[1..]);
    }
  }

  /** Without enums the two modes agree. */
  lemma ErasedModesAgree(v: Json, s: Schema, path: Path)
    ensures Validate(v, Erase(s), path, true).Accepts() <==> Validate(v, Erase(s), path, false).Accepts()
  {
    EraseTwice(s);
    ErasureAccepts(v, Erase(s), path, false);
    StrictIsCleanStructural(v, Erase(s), path);
  }

  // ---------------------------------------------------------------- the exact condition

  /** The value has the shape of a schema, enums aside. */
  predicate Fits(v: Json, s: Schema, path: Path) {
    Validate(v, Erase(s), path, false).Accepts()
  }

  /**
   * No union the value reaches turns it away: there, some branch matches strictly, or no branch
   * that the value names through its enum fails and some branch it fits is clear in turn.
   */
  predicate Clear(v: Json, s: Schema, path: Path)
    decreases s, 1
  {
    s.Node? ==>
      if Branches(s) != [] then ClearUnion(v, Branches(s), path)
      else
        && (v.Obj? ==> ClearProperties(v.fields, s.properties, path))
        && (v.Arr? ==> ClearItems(v.elems, 0, s.items, path))
  }

  predicate ClearUnion(v: Json, bs: seq<Schema>, path: Path)
    decreases bs, 1
  {
    || AnyStrict(v, bs, path)
    || (&& (forall i :: 0 <= i < |bs| ==> !Authoritative(v, bs[i], path))
        && SomeFitIsClear(v, bs, path))
  }

  predicate SomeFitIsClear(v: Json, bs: seq<Schema>, path: Path)
    decreases bs, 0
  {
    bs != [] && ((Fits(v, bs[0], path) && Clear(v, bs[0], path)) || SomeFitIsClear(v, bs[1..], path))
  }

  predicate ClearProperties(fields: seq<(string, Json)>, ps: seq<Property>, path: Path)
    decreases ps
  {
    ps == [] ||
    (&& (Lookup(fields, ps[0].name).Some? ==>
           Clear(Lookup(fields, ps[0].name).value, ps[0].schema, path + [Key(ps[0].name)]))
     && ClearProperties(fields, ps[1..], path))
  }

  predicate ClearItems(elems: seq<Json>, lo: nat, item: Schema, path: Path)
    requires lo <= |elems|
    decreases item, 2, |elems| - lo
  {
    lo == |elems| || (Clear(elems[lo], item, path + [Index(lo)]) && ClearItems(elems, lo + 1, item, path))
  }

  /** Structural mode accepts exactly the values that fit and that no union turns away. */
  lemma {:induction false} StructuralIsFitAndClear(v: Json, s: Schema, path: Path)
    ensures Validate(v, s, path, true).Accepts() <==> Fits(v, s, path) && Clear(v, s, path)
    decreases s, 1
  {
    if s.Node? {
      ShapeIsFitAndClear(v, s, path);
      assert Validate(v, s, path, true) == EnumStage(v, s, path, true).Then(ShapeStage(v, s, path, true));
      assert Validate(v, Erase(s), path, false) == CLEAN.Then(ShapeStage(v, Erase(s), path, false));
    }
  }

  lemma {:induction false} ShapeIsFitAndClear(v: Json, s: Schema, path: Path)
    requires s.Node?
    ensures ShapeStage(v, s, path, true).Accepts() <==>
            ShapeStage(v, Erase(s), path, false).Accepts() && Clear(v, s, path)
    decreases s, 0
  {
    var bs := Branches(s);
    if bs != [] {
      assert Branches(Erase(s)) == EraseAll(bs);
      UnionIsClear(v, bs, path);
      ErasureUnionAccepts(v, bs, path, false);
    } else {
      assert Branches(Erase(s)) == [] && TypePermitted(v, Erase(s)) == TypePermitted(v, s);
      if v.Obj? { PropertiesFitAndClear(v.fields, s.properties, path); }
      if v.Arr? { ItemsFitAndClear(v.elems, 0, s.items, path); }
    }
  }

  lemma {:induction false} PropertiesFitAndClear(fields: seq<(string, Json)>, ps: seq<Property>, path: Path)
    ensures Properties(fields, ps, path, true).Accepts() <==>
            Properties(fields, EraseProperties(ps), path, false).Accepts() && ClearProperties(fields, ps, path)
    decreases ps
  {
    if ps != [] {
      assert EraseProperties(ps)[1..] == EraseProperties(ps[1..]);
      PropertiesFitAndClear(fields, ps[1..], path);
      var x := Lookup(fields, ps[0].name);
      if x.Some? {
        StructuralIsFitAndClear(x.value, ps[0].schema, path + [Key(ps[0].name)]);
      }
    }
  }

  lemma {:induction false} ItemsFitAndClear(elems: seq<Json>, lo: nat, item: Schema, path: Path)
    requires lo <= |elems|
    ensures Items(elems, lo, item, path, true).Accepts() <==>
            Items(elems, lo, Erase(item), path, false).Accepts() && ClearItems(elems, lo, item, path)
    decreases item, 2, |elems| - lo
  {
    if lo < |elems| {
      StructuralIsFitAndClear(elems[lo], item, path + [Index(lo)]);
      ItemsFitAndClear(elems, lo + 1, item, path);
    }
  }

  lemma {:induction false} UnionIsClear(v: Json, bs: seq<Schema>, path: Path)
    ensures Union(v, bs, path, true).Accepts() <==> ClearUnion(v, bs, path)
    decreases bs, 1
  {
    UnionVerdict(v, bs, path);
    AnyStrictIsExists(v, bs, path);
    SomePassIsSomeFit(v, bs, path);
  }

  lemma {:induction false} SomePassIsSomeFit(v: Json, bs: seq<Schema>, path: Path)
    ensures SomeFitIsClear(v, bs, path) <==> exists i :: 0 <= i < |bs| && PassesStructure(v, bs[i], path)
    decreases bs, 0
  {
    if bs != [] {
      StructuralIsFitAndClear(v, bs[0], path);
      SomePassIsSomeFit(v, bs[1..], path);
      assert bs == [bs[0]] + bs[1..];
      if i :| 0 <= i < |bs| && PassesStructure(v, bs[i], path) {
        assert i > 0 ==> bs[1..][i - 1] == bs[i];
      }
    }
  }

  /** In either mode of the erased schema: the exact distance between the two validations. */
  lemma ErasureIsExactlyClear(v: Json, s: Schema, path: Path, mode: bool)
    ensures Validate(v, s, path, true).Accepts() <==>
            Validate(v, Erase(s), path, mode).Accepts() && Clear(v, s, path)
  {
    StructuralIsFitAndClear(v, s, path);
    ErasedModesAgree(v, s, path);
  }

  // ---------------------------------------------------------------- flat unions

  lemma {:induction false} NoUnionIsClear(v: Json, s: Schema, path: Path)
    requires HasNoUnion(s)
    ensures Clear(v, s, path)
    decreases s, 1
  {
    if s.Node? {
      if v.Obj? { NoUnionPropertiesAreClear(v.fields, s.properties, path); }
      if v.Arr? { NoUnionItemsAreClear(v.elems, 0, s.items, path); }
    }
  }

  lemma {:induction false} NoUnionPropertiesAreClear(fields: seq<(string, Json)>, ps: seq<Property>, path: Path)
    requires forall i :: 0 <= i < |ps| ==> HasNoUnion(ps[i].schema)
    ensures ClearProperties(fields, ps, path)
    decreases ps
  {
    if ps != [] {
      NoUnionPropertiesAreClear(fields, ps[1..], path);
      var x := Lookup(fields, ps[0].name);
      if x.Some? { NoUnionIsClear(x.value, ps[0].schema, path + [Key(ps[0].name)]); }
    }
  }

  lemma {:induction false} NoUnionItemsAreClear(elems: seq<Json>, lo: nat, item: Schema, path: Path)
    requires lo <= |elems| && HasNoUnion(item)
    ensures ClearItems(elems, lo, item, path)
    decreases item, 2, |elems| - lo
  {
    if lo < |elems| {
      NoUnionIsClear(elems[lo], item, path + [Index(lo)]);
      NoUnionItemsAreClear(elems, lo + 1, item, path);
    }
  }

  /** For a union of union-free branches the condition is the guard of the second pass. */
  lemma FlatUnionErasure(v: Json, bs: seq<Schema>, path: Path, mode: bool)
    requires forall i :: 0 <= i < |bs| ==> HasNoUnion(bs[i])
    ensures Union(v, bs, path, true).Accepts() <==>
            && Union(v, EraseAll(bs), path, mode).Accepts()
            && (AnyStrict(v, bs, path) || forall i :: 0 <= i < |bs| ==> !Authoritative(v, bs[i], path))
  {
    UnionIsClear(v, bs, path);
    ErasureUnionAccepts(v, bs, path, mode);
    if Union(v, EraseAll(bs), path, mode).Accepts() {
      var k := ErasedUnionHasFit(v, bs, path, mode);
      NoUnionIsClear(v, bs[k], path);
      FitThere(v, bs, path, k);
    }
  }

  lemma ErasedUnionHasFit(v: Json, bs: seq<Schema>, path: Path, mode: bool) returns (k: nat)
    requires Union(v, EraseAll(bs), path, mode).Accepts()
    ensures k < |bs| && Fits(v, bs[k], path)
  {
    var es := EraseAll(bs);
    AnyStrictIsExists(v, es, path);
    UnionVerdict(v, es, path);
    k :| 0 <= k < |es| && (Validate(v, es[k], path, false).Accepts() || PassesStructure(v, es[k], path));
    EraseAllAt(bs, k);
    FitsOnceErased(v, bs[k], es[k], path);
  }

  lemma FitsOnceErased(v: Json, b: Schema, e: Schema, path: Path)
    requires e == Erase(b) && (Validate(v, e, path, false).Accepts() || PassesStructure(v, e, path))
    ensures Fits(v, b, path)
  {
    ErasedModesAgree(v, b, path);
  }

  lemma {:induction false} FitThere(v: Json, bs: seq<Schema>, path: Path, k: nat)
    requires k < |bs| && Fits(v, bs[k], path) && Clear(v, bs[k], path)
    ensures SomeFitIsClear(v, bs, path)
  {
    if k > 0 {
      FitThere(v, bs[1..], path, k - 1);
    }
  }
}

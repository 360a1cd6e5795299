/** What the schema evaluator guarantees, for every value and every schema. */
module SchemaLaws {
  import opened Common
  import opened Schema

  // ---------------------------------------------------------------- strict against structural

  /** Structural acceptance without a soft finding. */
  predicate CleanlyAccepts(o: Outcome) {
    o.Accepts() && o.soft == []
  }

  /** Strict mode accepts exactly what structural mode accepts without a soft finding. */
  lemma {:induction false} StrictIsCleanStructural(v: Json, s: Schema, path: Path)
    ensures Validate(v, s, path, false).Accepts() <==> CleanlyAccepts(Validate(v, s, path, true))
    decreases s, 1
  {
    if s.Node? && (s.members == [] || v in s.members) {
      var bs := Branches(s);
      if bs != [] {
        StrictUnionIsClean(v, bs, path);
      } else {
        if v.Obj? { StrictPropertiesAreClean(v.fields, s.properties, path); }
        if v.Arr? { StrictItemsAreClean(v.elems, 0, s.items, path); }
      }
    }
  }

  lemma {:induction false} StrictPropertiesAreClean(fields: seq<(string, Json)>, props: seq<Property>, path: Path)
    ensures Properties(fields, props, path, false).Accepts()
       <==> CleanlyAccepts(Properties(fields, props, path, true))
    decreases props
  {
    if props != [] {
      StrictPropertiesAreClean(fields, props[1..], path);
      var x := Lookup(fields, props[0].name);
      if x.Some? {
        StrictIsCleanStructural(x.value, props[0].schema, path + [Key(props[0].name)]);
      }
    }
  }

  lemma {:induction false} StrictItemsAreClean(elems: seq<Json>, from: nat, item: Schema, path: Path)
    requires from <= |elems|
    ensures Items(elems, from, item, path, false).Accepts()
       <==> CleanlyAccepts(Items(elems, from, item, path, true))
    decreases item, 2, |elems| - from
  {
    if from < |elems| {
      StrictIsCleanStructural(elems[from], item, path + [Index(from)]);
      StrictItemsAreClean(elems, from + 1, item, path);
    }
  }

  lemma {:induction false} StrictUnionIsClean(v: Json, bs: seq<Schema>, path: Path)
    ensures Union(v, bs, path, false).Accepts() <==> CleanlyAccepts(Union(v, bs, path, true))
    decreases bs, 1
  {
    if !AnyStrict(v, bs, path) {
      SoftPassIsDecisive(v, bs, path, None);
    }
  }

  /** Every branch's strict verdict is its clean structural verdict. */
  lemma {:induction false} BranchesStrictIsClean(v: Json, bs: seq<Schema>, path: Path, i: nat)
    requires i < |bs|
    ensures Validate(v, bs[i], path, false).Accepts() <==> CleanlyAccepts(Validate(v, bs[i], path, true))
    decreases bs, 0, i
  {
    if i == 0 {
      StrictIsCleanStructural(v, bs[0], path);
    } else {
      BranchesStrictIsClean(v, bs[1..], path, i - 1);
    }
  }

  lemma {:induction false} AnyStrictIsExists(v: Json, bs: seq<Schema>, path: Path)
    ensures AnyStrict(v, bs, path) <==> exists i :: 0 <= i < |bs| && Validate(v, bs[i], path, false).Accepts()
  {
    if bs != [] {
      AnyStrictIsExists(v, bs[1..], path);
      if AnyStrict(v, bs[1..], path) {
        var i :| 0 <= i < |bs[1..]| && Validate(v, bs[1..][i], path, false).Accepts();
        assert Validate(v, bs[i + 1], path, false).Accepts();
      }
      if i :| 0 <= i < |bs| && Validate(v, bs[i], path, false).Accepts() {
        assert i > 0 ==> bs[1..][i - 1] == bs[i];
      }
    }
  }

  /** An enum hit, no enum miss, and a structural failure: the value named this variant itself. */
  predicate Authoritative(v: Json, b: Schema, path: Path) {
    var o := Validate(v, b, path, true);
    !o.Accepts() && o.hits > 0 && o.soft == []
  }

  predicate PassesStructure(v: Json, b: Schema, path: Path) {
    Validate(v, b, path, true).Accepts()
  }

  /**
   * The second pass, without its order: it accepts exactly when some branch passes on structure
   * and no branch is authoritative, and whatever it accepts carries a soft finding.
   */
  lemma {:induction false} SoftPassIsDecisive(v: Json, bs: seq<Schema>, path: Path, winner: Option<Outcome>)
    requires !AnyStrict(v, bs, path)
    requires winner.Some? ==> winner.value.Accepts() && winner.value.soft != []
    ensures var o := SoftPass(v, bs, path, winner);
            && (o.Accepts() <==>
                 && (winner.Some? || exists i :: 0 <= i < |bs| && PassesStructure(v, bs[i], path))
                 && forall i :: 0 <= i < |bs| ==> !Authoritative(v, bs[i], path))
            && (o.Accepts() ==> o.soft != [])
            && (!o.Accepts() ==> o.soft == [] && o.hits == 0)
    decreases bs, 0
  {
    if bs != [] {
      StrictIsCleanStructural(v, bs[0], path);
      var o := Validate(v, bs[0], path, true);
      var tail := bs[1..];
      assert forall i :: 0 <= i < |tail| ==> tail[i] == bs[i + 1];
      assert forall i :: 1 <= i < |bs| ==> bs[i] == tail[i - 1];
      if o.Accepts() {
        assert PassesStructure(v, bs[0], path);
        SoftPassIsDecisive(v, tail, path, if winner.None? then Some(o) else winner);
      } else if !(o.hits > 0 && o.soft == []) {
        SoftPassIsDecisive(v, tail, path, winner);
      } else {
        assert Authoritative(v, bs[0], path);
      }
    }
  }

  /** The verdict of a union in structural mode, as a condition on its set of branches. */
  predicate UnionAccepts(v: Json, bs: seq<Schema>, path: Path) {
    || (exists i :: 0 <= i < |bs| && Validate(v, bs[i], path, false).Accepts())
    || (&& (exists i :: 0 <= i < |bs| && PassesStructure(v, bs[i], path))
        && (forall i :: 0 <= i < |bs| ==> !Authoritative(v, bs[i], path)))
  }

  lemma UnionVerdict(v: Json, bs: seq<Schema>, path: Path)
    ensures Union(v, bs, path, true).Accepts() <==> UnionAccepts(v, bs, path)
    ensures !Union(v, bs, path, true).Accepts() ==>
            Union(v, bs, path, true).soft == [] && Union(v, bs, path, true).hits == 0
  {
    AnyStrictIsExists(v, bs, path);
    if !AnyStrict(v, bs, path) {
      SoftPassIsDecisive(v, bs, path, None);
    }
  }

  /** A self-identified variant that fails is final, whatever the other branches accept. */
  lemma AuthoritativeBranchRejects(v: Json, s: Schema, path: Path, k: nat)
    requires s.Node? && k < |Branches(s)|
    requires forall i :: 0 <= i < |Branches(s)| ==> !Validate(v, Branches(s)[i], path, false).Accepts()
    requires Authoritative(v, Branches(s)[k], path)
    ensures !Validate(v, s, path, true).Accepts()
  {
    UnionVerdict(v, Branches(s), path);
  }

  // ---------------------------------------------------------------- branch order

  predicate IsPermutation(perm: seq<nat>, n: nat) {
    && |perm| == n
    && (forall i :: 0 <= i < n ==> perm[i] < n)
    && (forall j :: 0 <= j < n ==> j in perm)
  }

  /** `t` is `s` with the branches of every union, at any depth, listed in another order. */
  ghost predicate Reordered(s: Schema, t: Schema)
    decreases s, 1
  {
    if s.Anything? || t.Anything? then s == t
    else
      && s.members == t.members && s.types == t.types
      && s.nullable == t.nullable && s.required == t.required
      && AlternativesReordered(s.anyOf, t.anyOf)
      && AlternativesReordered(s.oneOf, t.oneOf)
      && |s.properties| == |t.properties|
      && (forall i :: 0 <= i < |s.properties| ==>
            && s.properties[i].name == t.properties[i].name
            && Reordered(s.properties[i].schema, t.properties[i].schema))
      && Reordered(s.items, t.items)
  }

  ghost predicate AlternativesReordered(a: Alternatives, b: Alternatives)
    decreases a, 1
  {
    if a.Absent? || b.Absent? then a == b
    else
      && |a.branches| == |b.branches|
      && exists perm :: IsPermutation(perm, |a.branches|)
           && forall i :: 0 <= i < |a.branches| ==> Reordered(a.branches[perm[i]], b.branches[i])
  }

  ghost predicate PermutedBy(bs: seq<Schema>, cs: seq<Schema>, perm: seq<nat>)
    requires |bs| == |cs|
  {
    && IsPermutation(perm, |bs|)
    && forall i :: 0 <= i < |bs| ==> Reordered(bs[perm[i]], cs[i])
  }

  ghost function Order(a: Alternatives, b: Alternatives): (perm: seq<nat>)
    requires AlternativesReordered(a, b) && a.Present?
    ensures b.Present? && |a.branches| == |b.branches| && PermutedBy(a.branches, b.branches, perm)
  {
    var perm :| IsPermutation(perm, |a.branches|)
      && forall i :: 0 <= i < |a.branches| ==> Reordered(a.branches[perm[i]], b.branches[i]);
    perm
  }

  lemma {:induction false} ReorderedReflexive(s: Schema)
    ensures Reordered(s, s)
    decreases s, 1
  {
    if s.Node? {
      AlternativesReflexive(s.anyOf);
      AlternativesReflexive(s.oneOf);
      forall i | 0 <= i < |s.properties| ensures Reordered(s.properties[i].schema, s.properties[i].schema) {
        ReorderedReflexive(s.properties[i].schema);
      }
      ReorderedReflexive(s.items);
    }
  }

  lemma {:induction false} AlternativesReflexive(a: Alternatives)
    ensures AlternativesReordered(a, a)
    decreases a, 0
  {
    if a.Present? {
      var n := |a.branches|;
      var id := seq(n, i requires 0 <= i < n => i);
      forall i | 0 <= i < n ensures Reordered(a.branches[id[i]], a.branches[i]) {
        ReorderedReflexive(a.branches[i]);
      }
      forall j | 0 <= j < n ensures j in id {
        assert id[j] == j;
      }
      assert PermutedBy(a.branches, a.branches, id);
    }
  }

  /** Permuting the branches of one `anyOf` list is a reordering. */
  lemma PermutedAnyOfIsReordered(s: Schema, perm: seq<nat>, bs: seq<Schema>)
    requires s.Node? && s.anyOf.Present? && |bs| == |s.anyOf.branches| && IsPermutation(perm, |bs|)
    requires forall i :: 0 <= i < |bs| ==> bs[i] == s.anyOf.branches[perm[i]]
    ensures Reordered(s, s.(anyOf := Present(bs)))
  {
    ReorderedReflexive(s);
    var a := s.anyOf.branches;
    forall i | 0 <= i < |bs| ensures Reordered(a[perm[i]], bs[i]) {
      ReorderedReflexive(bs[i]);
    }
    assert PermutedBy(a, bs, perm);
  }

  /**
   * What reordering preserves: the verdict, whether there is a soft finding, and the number of
   * enum hits when there is none.
   */
  predicate SameVerdict(a: Outcome, b: Outcome) {
    && a.Accepts() == b.Accepts()
    && (a.soft == [] <==> b.soft == [])
    && (a.soft == [] ==> a.hits == b.hits)
  }

  lemma {:induction false} OrderIrrelevant(v: Json, s: Schema, t: Schema, path: Path, structural: bool)
    requires Reordered(s, t)
    ensures SameVerdict(Validate(v, s, path, structural), Validate(v, t, path, structural))
    decreases s, 1
  {
    if s.Node? && !(s.members != [] && v !in s.members && !structural) {
      ShapeOrderIrrelevant(v, s, t, path, structural);
    }
  }

  lemma {:induction false} ShapeOrderIrrelevant(v: Json, s: Schema, t: Schema, path: Path, structural: bool)
    requires s.Node? && Reordered(s, t)
    ensures SameVerdict(ShapeStage(v, s, path, structural), ShapeStage(v, t, path, structural))
    decreases s, 0
  {
    var bs, cs := Branches(s), Branches(t);
    if bs != [] {
      var perm := if s.anyOf.Present? then Order(s.anyOf, t.anyOf) else Order(s.oneOf, t.oneOf);
      UnionOrderIrrelevant(v, bs, cs, path, structural, perm);
    } else {
      if v.Obj? {
        PropertiesOrderIrrelevant(v.fields, s.properties, t.properties, path, structural);
      }
      if v.Arr? {
        ItemsOrderIrrelevant(v.elems, 0, s.items, t.items, path, structural);
      }
    }
  }

  lemma {:induction false} PropertiesOrderIrrelevant(fields: seq<(string, Json)>, ps: seq<Property>,
                                                     qs: seq<Property>, path: Path, structural: bool)
    requires |ps| == |qs|
    requires forall i :: 0 <= i < |ps| ==> ps[i].name == qs[i].name && Reordered(ps[i].schema, qs[i].schema)
    ensures SameVerdict(Properties(fields, ps, path, structural), Properties(fields, qs, path, structural))
    decreases ps
  {
    if ps != [] {
      PropertiesOrderIrrelevant(fields, ps[1..], qs[1..], path, structural);
      var x := Lookup(fields, ps[0].name);
      if x.Some? {
        OrderIrrelevant(x.value, ps[0].schema, qs[0].schema, path + [Key(ps[0].name)], structural);
      }
    }
  }

  lemma {:induction false} ItemsOrderIrrelevant(elems: seq<Json>, from: nat, s: Schema, t: Schema, path: Path,
                                                structural: bool)
    requires from <= |elems| && Reordered(s, t)
    ensures SameVerdict(Items(elems, from, s, path, structural), Items(elems, from, t, path, structural))
    decreases s, 2, |elems| - from
  {
    if from < |elems| {
      OrderIrrelevant(elems[from], s, t, path + [Index(from)], structural);
      ItemsOrderIrrelevant(elems, from + 1, s, t, path, structural);
    }
  }

  lemma {:induction false} UnionOrderIrrelevant(v: Json, bs: seq<Schema>, cs: seq<Schema>, path: Path,
                                                structural: bool, perm: seq<nat>)
    requires |bs| == |cs| && PermutedBy(bs, cs, perm)
    ensures SameVerdict(Union(v, bs, path, structural), Union(v, cs, path, structural))
    decreases bs
  {
    forall i | 0 <= i < |bs| ensures SameBranch(v, bs[perm[i]], cs[i], path) {
      OrderIrrelevant(v, bs[perm[i]], cs[i], path, false);
      OrderIrrelevant(v, bs[perm[i]], cs[i], path, true);
    }
    SameBranchesSameUnion(v, bs, cs, path, structural, perm);
  }

  /** Two branch lists whose members match up in verdict give unions of the same verdict. */
  lemma SameBranchesSameUnion(v: Json, bs: seq<Schema>, cs: seq<Schema>, path: Path, structural: bool, perm: seq<nat>)
    requires |bs| == |cs| && IsPermutation(perm, |bs|)
    requires forall i :: 0 <= i < |bs| ==> SameBranch(v, bs[perm[i]], cs[i], path)
    ensures SameVerdict(Union(v, bs, path, structural), Union(v, cs, path, structural))
  {
    AnyStrictMatches(v, bs, cs, path, perm);
    if !AnyStrict(v, bs, path) {
      SoftPassIsDecisive(v, bs, path, None);
      SoftPassIsDecisive(v, cs, path, None);
      StructureMatches(v, bs, cs, path, perm);
    }
  }

  lemma AnyStrictMatches(v: Json, bs: seq<Schema>, cs: seq<Schema>, path: Path, perm: seq<nat>)
    requires |bs| == |cs| && IsPermutation(perm, |bs|)
    requires forall i :: 0 <= i < |bs| ==> SameBranch(v, bs[perm[i]], cs[i], path)
    ensures AnyStrict(v, bs, path) == AnyStrict(v, cs, path)
  {
    AnyStrictIsExists(v, bs, path);
    AnyStrictIsExists(v, cs, path);
    if AnyStrict(v, bs, path) {
      var j :| 0 <= j < |bs| && Validate(v, bs[j], path, false).Accepts();
      assert j in perm;
      var i :| 0 <= i < |perm| && perm[i] == j;
      assert SameBranch(v, bs[perm[i]], cs[i], path);
    }
    if AnyStrict(v, cs, path) {
      var i :| 0 <= i < |cs| && Validate(v, cs[i], path, false).Accepts();
      assert SameBranch(v, bs[perm[i]], cs[i], path);
    }
  }

  lemma StructureMatches(v: Json, bs: seq<Schema>, cs: seq<Schema>, path: Path, perm: seq<nat>)
    requires |bs| == |cs| && IsPermutation(perm, |bs|)
    requires forall i :: 0 <= i < |bs| ==> SameBranch(v, bs[perm[i]], cs[i], path)
    ensures (exists i :: 0 <= i < |bs| && PassesStructure(v, bs[i], path))
       <==> (exists i :: 0 <= i < |cs| && PassesStructure(v, cs[i], path))
    ensures (forall i :: 0 <= i < |bs| ==> !Authoritative(v, bs[i], path))
       <==> (forall i :: 0 <= i < |cs| ==> !Authoritative(v, cs[i], path))
  {
    forall i | 0 <= i < |cs|
      ensures PassesStructure(v, bs[perm[i]], path) == PassesStructure(v, cs[i], path)
      ensures Authoritative(v, bs[perm[i]], path) == Authoritative(v, cs[i], path)
    {
      assert SameBranch(v, bs[perm[i]], cs[i], path);
    }
    forall j | 0 <= j < |bs|
      ensures exists i :: 0 <= i < |cs| && PassesStructure(v, bs[j], path) == PassesStructure(v, cs[i], path)
                                        && Authoritative(v, bs[j], path) == Authoritative(v, cs[i], path)
    {
      assert j in perm;
      var i :| 0 <= i < |perm| && perm[i] == j;
      assert PassesStructure(v, bs[perm[i]], path) == PassesStructure(v, cs[i], path);
    }
  }

  predicate SameBranch(v: Json, b: Schema, c: Schema, path: Path) {
    && SameVerdict(Validate(v, b, path, false), Validate(v, c, path, false))
    && SameVerdict(Validate(v, b, path, true), Validate(v, c, path, true))
  }

  // ---------------------------------------------------------------- erasing enums

  /** The schema with every `enum`, at any depth, removed. */
  function Erase(s: Schema): Schema
    decreases s, 1
  {
    if s.Anything? then s
    else Node([], EraseAlternatives(s.anyOf), EraseAlternatives(s.oneOf), s.types, s.nullable,
              EraseProperties(s.properties), s.required, Erase(s.items))
  }

  function EraseAlternatives(a: Alternatives): Alternatives
    decreases a
  {
    if a.Absent? then a else Present(EraseAll(a.branches))
  }

  function EraseAll(bs: seq<Schema>): (r: seq<Schema>)
    ensures |r| == |bs|
    decreases bs
  {
    if bs == [] then [] else [Erase(bs[0])] + EraseAll(bs[1..])
  }

  function EraseProperties(ps: seq<Property>): (r: seq<Property>)
    ensures |r| == |ps|
    decreases ps
  {
    if ps == [] then [] else [Property(ps[0].name, Erase(ps[0].schema))] + EraseProperties(ps[1..])
  }

  predicate HasNoUnion(s: Schema)
    decreases s
  {
    s.Node? ==>
      && Branches(s) == []
      && (forall i :: 0 <= i < |s.properties| ==> HasNoUnion(s.properties[i].schema))
      && HasNoUnion(s.items)
  }

  /**
   * Structural acceptance survives the removal of every enum, in either mode; without unions
   * structural acceptance is acceptance of the erased schema.
   */
  lemma {:induction false} ErasureAccepts(v: Json, s: Schema, path: Path, mode: bool)
    ensures Validate(v, s, path, true).Accepts() ==> Validate(v, Erase(s), path, mode).Accepts()
    ensures HasNoUnion(s) ==> (Validate(v, Erase(s), path, mode).Accepts() ==> Validate(v, s, path, true).Accepts())
    decreases s, 1
  {
    if s.Node? {
      ErasureShapeAccepts(v, s, path, mode);
      assert Validate(v, s, path, true) == EnumStage(v, s, path, true).Then(ShapeStage(v, s, path, true));
      assert Validate(v, Erase(s), path, mode) == CLEAN.Then(ShapeStage(v, Erase(s), path, mode));
    }
  }

  lemma {:induction false} ErasureShapeAccepts(v: Json, s: Schema, path: Path, mode: bool)
    requires s.Node?
    ensures ShapeStage(v, s, path, true).Accepts() ==> ShapeStage(v, Erase(s), path, mode).Accepts()
    ensures HasNoUnion(s) ==> (ShapeStage(v, Erase(s), path, mode).Accepts() ==> ShapeStage(v, s, path, true).Accepts())
    decreases s, 0
  {
    var bs := Branches(s);
    if bs != [] {
      assert Branches(Erase(s)) == EraseAll(bs);
      ErasureUnionAccepts(v, bs, path, mode);
    } else {
      assert Branches(Erase(s)) == [] && TypePermitted(v, Erase(s)) == TypePermitted(v, s);
      if v.Obj? { ErasurePropertiesAccept(v.fields, s.properties, path, mode); }
      if v.Arr? { ErasureItemsAccept(v.elems, 0, s.items, path, mode); }
    }
  }

  lemma {:induction false} ErasurePropertiesAccept(fields: seq<(string, Json)>, ps: seq<Property>, path: Path,
                                                   mode: bool)
    ensures Properties(fields, ps, path, true).Accepts() ==>
            Properties(fields, EraseProperties(ps), path, mode).Accepts()
    ensures (forall i :: 0 <= i < |ps| ==> HasNoUnion(ps[i].schema)) ==>
              (Properties(fields, EraseProperties(ps), path, mode).Accepts() ==>
               Properties(fields, ps, path, true).Accepts())
    decreases ps
  {
    if ps != [] {
      var es := EraseProperties(ps);
      assert es[1..] == EraseProperties(ps[1..]);
      ErasurePropertiesAccept(fields, ps[1..], path, mode);
      var x := Lookup(fields, ps[0].name);
      if x.Some? {
        ErasureAccepts(x.value, ps[0].schema, path + [Key(ps[0].name)], mode);
      }
    }
  }

  lemma {:induction false} ErasureItemsAccept(elems: seq<Json>, from: nat, item: Schema, path: Path, mode: bool)
    requires from <= |elems|
    ensures Items(elems, from, item, path, true).Accepts() ==> Items(elems, from, Erase(item), path, mode).Accepts()
    ensures HasNoUnion(item) ==>
              (Items(elems, from, Erase(item), path, mode).Accepts() ==> Items(elems, from, item, path, true).Accepts())
    decreases item, 2, |elems| - from
  {
    if from < |elems| {
      ErasureAccepts(elems[from], item, path + [Index(from)], mode);
      ErasureItemsAccept(elems, from + 1, item, path, mode);
    }
  }

  lemma {:induction false} ErasureUnionAccepts(v: Json, bs: seq<Schema>, path: Path, mode: bool)
    ensures Union(v, bs, path, true).Accepts() ==> Union(v, EraseAll(bs), path, mode).Accepts()
    decreases bs, 1
  {
    UnionVerdict(v, bs, path);
    if Union(v, bs, path, true).Accepts() {
      var k :| 0 <= k < |bs| && (Validate(v, bs[k], path, false).Accepts() || PassesStructure(v, bs[k], path));
      ErasedBranchAccepts(v, bs, path, k);
    }
  }

  /** A branch that passes on structure passes strictly once erased. */
  lemma {:induction false} ErasedBranchAccepts(v: Json, bs: seq<Schema>, path: Path, k: nat)
    requires k < |bs|
    requires Validate(v, bs[k], path, false).Accepts() || PassesStructure(v, bs[k], path)
    ensures AnyStrict(v, EraseAll(bs), path)
    decreases bs, 0
  {
    var es := EraseAll(bs);
    assert es[1..] == EraseAll(bs[1..]);
    if k == 0 {
      StrictIsCleanStructural(v, bs[0], path);
      ErasureAccepts(v, bs[0], path, false);
    } else {
      ErasedBranchAccepts(v, bs[1..], path, k - 1);
    }
  }

  // ---------------------------------------------------------------- erasure and unions

  /** `{ enum: [member], type }` */
  function Leaf(members: seq<Json>, t: string): Schema {
    Node(members, Absent, Absent, Some([t]), false, [], [], Anything)
  }

  function AnyOf(bs: seq<Schema>): Schema {
    Node([], Present(bs), Absent, None, false, [], [], Anything)
  }

  /**
   * With unions the converse of erasure fails: `null` names the first variant through its enum
   * and fails its type, so the union rejects it, although the second variant would take it
   * once enums are gone.
   */
  lemma ErasureIsNotExactOnUnions(v: Json, other: Json, wrong: string, right: string)
    requires v.Null? && other != v && !TypeMatches(v, wrong) && TypeMatches(v, right)
    ensures var s := AnyOf([Leaf([v], wrong), Leaf([other], right)]);
            !Validate(v, s, [], true).Accepts() && Validate(v, Erase(s), [], true).Accepts()
  {
    var a, b := Leaf([v], wrong), Leaf([other], right);
    assert !Validate(v, a, [], false).Accepts() && Authoritative(v, a, []) by { LeafVerdict(v, [v], wrong); }
    assert !Validate(v, b, [], false).Accepts() by { LeafVerdict(v, [other], right); }
    assert Validate(v, Erase(b), [], false).Accepts() by { EraseLeaf([other], right); LeafVerdict(v, [], right); }
    AnyOfVetoed(v, [a, b]);
    ErasedAnyOfAccepts(v, [a, b], 1);
  }

  lemma AnyOfVetoed(v: Json, bs: seq<Schema>)
    requires bs != [] && Authoritative(v, bs[0], [])
    requires forall i :: 0 <= i < |bs| ==> !Validate(v, bs[i], [], false).Accepts()
    ensures !Validate(v, AnyOf(bs), [], true).Accepts()
  {
    UnionVetoed(v, bs);
    AnyOfIsUnion(v, bs);
  }

  lemma UnionVetoed(v: Json, bs: seq<Schema>)
    requires bs != [] && Authoritative(v, bs[0], [])
    requires forall i :: 0 <= i < |bs| ==> !Validate(v, bs[i], [], false).Accepts()
    ensures !Union(v, bs, [], true).Accepts()
  {
    UnionVerdict(v, bs, []);
  }

  lemma AnyOfIsUnion(v: Json, bs: seq<Schema>)
    requires bs != []
    ensures Validate(v, AnyOf(bs), [], true).Accepts() <==> Union(v, bs, [], true).Accepts()
  {
    var s := AnyOf(bs);
    assert Branches(s) == bs;
    assert Validate(v, s, [], true) == CLEAN.Then(ShapeStage(v, s, [], true));
  }

  lemma LeafVerdict(v: Json, members: seq<Json>, t: string)
    requires v.Null?
    ensures Validate(v, Leaf(members, t), [], false).Accepts() <==> (members == [] || v in members) && TypeMatches(v, t)
    ensures Authoritative(v, Leaf(members, t), []) <==> v in members && !TypeMatches(v, t)
  {
    var s := Leaf(members, t);
    assert s.types.value == [t] && (TypePermitted(v, s) <==> TypeMatches(v, s.types.value[0]));
    assert ShapeStage(v, s, [], true).Accepts() <==> TypeMatches(v, t);
  }

  lemma EraseLeaf(members: seq<Json>, t: string)
    ensures Erase(Leaf(members, t)) == Leaf([], t)
  {
    assert EraseAlternatives(Absent) == Absent && EraseProperties([]) == [] && Erase(Anything) == Anything;
  }

  lemma ErasedAnyOfAccepts(v: Json, bs: seq<Schema>, k: nat)
    requires k < |bs| && Validate(v, Erase(bs[k]), [], false).Accepts()
    ensures Validate(v, Erase(AnyOf(bs)), [], true).Accepts()
  {
    var e := Erase(AnyOf(bs));
    var es := EraseAll(bs);
    assert EraseAlternatives(Present(bs)) == Present(es);
    assert Branches(e) == es;
    EraseAllAt(bs, k);
    AnyStrictIsExists(v, es, []);
    assert Validate(v, e, [], true) == CLEAN.Then(ShapeStage(v, e, [], true));
  }

  lemma {:induction false} EraseAllAt(bs: seq<Schema>, k: nat)
    requires k < |bs|
    ensures EraseAll(bs)[k] == Erase(bs[k])
  {
    if k > 0 {
      EraseAllAt(bs[1..], k - 1);
    }
  }
}

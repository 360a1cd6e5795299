/** What structural validation reports: soft findings, hits, and the violation it stops at. */
module SchemaFindings {
  import opened Common
  import opened Schema
  import opened SchemaLaws
  import opened SchemaMeaning

  // ---------------------------------------------------------------- soft findings and hits

  /** Some node the value reaches, at path q, lists members and the value is none of them. */
  ghost predicate MissAt(v: Json, s: Schema, path: Path, q: Path)
    decreases s, 1
  {
    s.Node? &&
    (|| (s.members != [] && v !in s.members && q == path)
     || (v.Obj? && MissInProperties(v.fields, s.properties, path, q))
     || (v.Arr? && exists k :: 0 <= k < |v.elems| && MissAt(v.elems[k], s.items, path + [Index(k)], q)))
  }

  ghost predicate MissInProperties(fields: seq<(string, Json)>, ps: seq<Property>, path: Path, q: Path)
    decreases ps
  {
    ps != [] && (MissInProperty(fields, ps[0], path, q) || MissInProperties(fields, ps[1..], path, q))
  }

  ghost predicate MissInProperty(fields: seq<(string, Json)>, p: Property, path: Path, q: Path)
    decreases p, 2
  {
    exists k: nat :: Names(fields, k, p.name) && MissAt(fields[k].1, p.schema, path + [Key(p.name)], q)
  }

  /** In an accepted value without unions the soft findings are exactly the enum misses, by path. */
  lemma {:induction false} FindingsAreMisses(v: Json, s: Schema, path: Path, q: Path)
    requires HasNoUnion(s) && Validate(v, s, path, true).Accepts()
    ensures q in Validate(v, s, path, true).soft <==> MissAt(v, s, path, q)
    decreases s, 1
  {
    if s.Node? {
      var o := ShapeStage(v, s, path, true);
      assert Validate(v, s, path, true) == EnumStage(v, s, path, true).Then(o);
      if v.Obj? { PropertyFindings(v.fields, s.properties, path, q); }
      if v.Arr? { ItemFindings(v.elems, 0, s.items, path, q); }
    }
  }

  lemma {:induction false} PropertyFindings(fields: seq<(string, Json)>, ps: seq<Property>, path: Path, q: Path)
    requires (forall i :: 0 <= i < |ps| ==> HasNoUnion(ps[i].schema)) && Properties(fields, ps, path, true).Accepts()
    ensures q in Properties(fields, ps, path, true).soft <==> MissInProperties(fields, ps, path, q)
    decreases ps
  {
    if ps != [] {
      LookupMeans(fields, ps[0].name);
      var x := Lookup(fields, ps[0].name);
      PropertyFindings(fields, ps[1..], path, q);
      if x.Some? {
        FindingsAreMisses(x.value, ps[0].schema, path + [Key(ps[0].name)], q);
        var k: nat :| Names(fields, k, ps[0].name) && fields[k].1 == x.value;
        forall l: nat | Names(fields, l, ps[0].name) ensures l == k { NamesOneField(fields, l, k, ps[0].name); }
      }
    }
  }

  lemma {:induction false} ItemFindings(elems: seq<Json>, lo: nat, item: Schema, path: Path, q: Path)
    requires lo <= |elems| && HasNoUnion(item) && Items(elems, lo, item, path, true).Accepts()
    ensures q in Items(elems, lo, item, path, true).soft <==>
            exists k :: lo <= k < |elems| && MissAt(elems[k], item, path + [Index(k)], q)
    decreases item, 2, |elems| - lo
  {
    if lo < |elems| {
      FindingsAreMisses(elems[lo], item, path + [Index(lo)], q);
      ItemFindings(elems, lo + 1, item, path, q);
    }
  }

  /** A union that no branch matches strictly reports what its first structural match reports. */
  lemma {:induction false} UnionFindings(v: Json, bs: seq<Schema>, path: Path, winner: Option<Outcome>)
    requires SoftPass(v, bs, path, winner).Accepts()
    ensures winner.Some? ==> SoftPass(v, bs, path, winner) == winner.value
    ensures winner.None? ==>
              exists i :: 0 <= i < |bs| && FirstPass(v, bs, path, i)
                       && SoftPass(v, bs, path, None) == Validate(v, bs[i], path, true)
    decreases bs
  {
    if bs != [] {
      var o, tail := Validate(v, bs[0], path, true), bs[1..];
      assert forall i :: 1 <= i < |bs| ==> bs[i] == tail[i - 1];
      if o.Accepts() {
        UnionFindings(v, tail, path, if winner.None? then Some(o) else winner);
        assert FirstPass(v, bs, path, 0);
      } else {
        UnionFindings(v, tail, path, winner);
        if winner.None? {
          var i :| 0 <= i < |tail| && FirstPass(v, tail, path, i)
                && SoftPass(v, tail, path, None) == Validate(v, tail[i], path, true);
          assert FirstPass(v, bs, path, i + 1);
        }
      }
    }
  }

  predicate FirstPass(v: Json, bs: seq<Schema>, path: Path, i: nat)
    requires i < |bs|
  {
    PassesStructure(v, bs[i], path) && forall j :: 0 <= j < i ==> !PassesStructure(v, bs[j], path)
  }

  // ---------------------------------------------------------------- naming a variant

  /** The object names this variant: a present property lists members and holds one of them. */
  predicate NamesVariant(fields: seq<(string, Json)>, ps: seq<Property>) {
    exists i :: 0 <= i < |ps| && Lookup(fields, ps[i].name).Some? && ps[i].schema.Node?
             && ps[i].schema.members != [] && Lookup(fields, ps[i].name).value in ps[i].schema.members
  }

  lemma {:induction false} CleanPropertiesHit(fields: seq<(string, Json)>, ps: seq<Property>, path: Path)
    requires Properties(fields, ps, path, false).Accepts()
    ensures var o := Properties(fields, ps, path, true); o.Accepts() && o.soft == []
    ensures NamesVariant(fields, ps) ==> Properties(fields, ps, path, true).hits > 0
    decreases ps
  {
    StrictPropertiesAreClean(fields, ps, path);
    if ps != [] {
      CleanPropertiesHit(fields, ps[1..], path);
      var x := Lookup(fields, ps[0].name);
      assert forall i :: 1 <= i < |ps| ==> ps[i] == ps[1..][i - 1];
      if x.Some? {
        StrictIsCleanStructural(x.value, ps[0].schema, path + [Key(ps[0].name)]);
      }
    }
  }

  /**
   * The discriminated union the two passes are for: an object whose present properties conform, one
   * of them a matching discriminator, and that lacks a required key, is held to that variant.
   */
  lemma DiscriminatorIsAuthoritative(fields: seq<(string, Json)>, b: Schema, path: Path)
    requires b.Node? && b.members == [] && Branches(b) == [] && TypePermitted(Obj(fields), b)
    requires PropertiesConform(fields, b.properties) && NamesVariant(fields, b.properties)
    requires exists n :: n in b.required && !HasKey(fields, n)
    ensures Authoritative(Obj(fields), b, path)
  {
    PropertiesMean(fields, b.properties, path);
    CleanPropertiesHit(fields, b.properties, path);
    RequiredMeans(fields, b.required);
    var o := Properties(fields, b.properties, path, true);
    var n := FirstMissing(fields, b.required).value;
    assert ShapeStage(Obj(fields), b, path, true) == o.Then(Reject(path + [Key(n)], MissingProperty));
    assert Validate(Obj(fields), b, path, true) == CLEAN.Then(ShapeStage(Obj(fields), b, path, true));
  }

  // ---------------------------------------------------------------- the violation it stops at

  /** The violation names a fault that is there. */
  ghost predicate FaultThere(v: Json, s: Schema, path: Path, structural: bool, bad: Violation)
    decreases s, 1
  {
    s.Node? &&
    (|| (bad == Violation(path, EnumMiss) && !structural && s.members != [] && v !in s.members)
     || (bad == Violation(path, NoBranch) && Branches(s) != [] && !SomeConforms(v, Branches(s)))
     || (structural && Branches(s) != [] && FaultInBranch(v, Branches(s), path, bad))
     || (bad == Violation(path, WrongType) && !TypeFits(v, s.types, s.nullable))
     || (v.Obj? && exists n :: n in s.required && !HasKey(v.fields, n)
                          && bad == Violation(path + [Key(n)], MissingProperty))
     || (v.Obj? && FaultInProperties(v.fields, s.properties, path, structural, bad))
     || (v.Arr? && exists k :: 0 <= k < |v.elems|
                          && FaultThere(v.elems[k], s.items, path + [Index(k)], structural, bad)))
  }

  ghost predicate FaultInBranch(v: Json, bs: seq<Schema>, path: Path, bad: Violation)
    decreases bs, 0
  {
    exists i :: 0 <= i < |bs| && FaultThere(v, bs[i], path, true, bad)
  }

  ghost predicate FaultInProperties(fields: seq<(string, Json)>, ps: seq<Property>, path: Path, structural: bool,
                                    bad: Violation)
    decreases ps, 0
  {
    exists i, k: nat :: 0 <= i < |ps| && Names(fields, k, ps[i].name)
                     && FaultThere(fields[k].1, ps[i].schema, path + [Key(ps[i].name)], structural, bad)
  }

  /** Whatever is rejected is rejected for a fault at the reported place. */
  lemma {:induction false} RejectionsAreReal(v: Json, s: Schema, path: Path, structural: bool)
    requires !Validate(v, s, path, structural).Accepts()
    ensures FaultThere(v, s, path, structural, Validate(v, s, path, structural).bad.value)
    decreases s, 1
  {
    if s.members == [] || v in s.members || structural {
      ShapeRejectionsAreReal(v, s, path, structural);
    }
  }

  lemma {:induction false} ShapeRejectionsAreReal(v: Json, s: Schema, path: Path, structural: bool)
    requires s.Node? && !ShapeStage(v, s, path, structural).Accepts()
    ensures FaultThere(v, s, path, structural, ShapeStage(v, s, path, structural).bad.value)
    decreases s, 0
  {
    var bs := Branches(s);
    if bs != [] {
      BranchesMean(v, bs, path);
      if structural { SoftRejectionsAreReal(v, bs, path, None); }
    } else {
      TypesMean(v, s);
      if TypePermitted(v, s) {
        if v.Obj? {
          if !Properties(v.fields, s.properties, path, structural).Accepts() {
            PropertyRejectionsAreReal(v.fields, s.properties, path, structural);
          } else {
            RequiredMeans(v.fields, s.required);
          }
        }
        if v.Arr? { ItemRejectionsAreReal(v.elems, 0, s.items, path, structural); }
      }
    }
  }

  lemma {:induction false} SoftRejectionsAreReal(v: Json, bs: seq<Schema>, path: Path, winner: Option<Outcome>)
    requires !SoftPass(v, bs, path, winner).Accepts() && (winner.Some? ==> winner.value.Accepts())
    ensures var bad := SoftPass(v, bs, path, winner).bad.value;
            bad == Violation(path, NoBranch) || FaultInBranch(v, bs, path, bad)
    decreases bs, 0
  {
    if bs != [] {
      var o, tail := Validate(v, bs[0], path, true), bs[1..];
      assert forall i :: 0 <= i < |tail| ==> tail[i] == bs[i + 1];
      if o.Accepts() {
        SoftRejectionsAreReal(v, tail, path, if winner.None? then Some(o) else winner);
      } else {
        RejectionsAreReal(v, bs[0], path, true);
        if !(o.hits > 0 && o.soft == []) { SoftRejectionsAreReal(v, tail, path, winner); }
      }
    }
  }

  lemma {:induction false} PropertyRejectionsAreReal(fields: seq<(string, Json)>, ps: seq<Property>, path: Path,
                                                     structural: bool)
    requires !Properties(fields, ps, path, structural).Accepts()
    ensures FaultInProperties(fields, ps, path, structural, Properties(fields, ps, path, structural).bad.value)
    decreases ps
  {
    LookupMeans(fields, ps[0].name);
    var x, tail := Lookup(fields, ps[0].name), ps[1..];
    if x.Some? && !Validate(x.value, ps[0].schema, path + [Key(ps[0].name)], structural).Accepts() {
      RejectionsAreReal(x.value, ps[0].schema, path + [Key(ps[0].name)], structural);
      var k: nat :| Names(fields, k, ps[0].name) && fields[k].1 == x.value;
    } else {
      PropertyRejectionsAreReal(fields, tail, path, structural);
      var bad := Properties(fields, ps, path, structural).bad.value;
      var i, k: nat :| 0 <= i < |tail| && Names(fields, k, tail[i].name)
                    && FaultThere(fields[k].1, tail[i].schema, path + [Key(tail[i].name)], structural, bad);
      assert tail[i] == ps[i + 1];
    }
  }

  lemma {:induction false} ItemRejectionsAreReal(elems: seq<Json>, lo: nat, item: Schema, path: Path, structural: bool)
    requires lo <= |elems| && !Items(elems, lo, item, path, structural).Accepts()
    ensures var bad := Items(elems, lo, item, path, structural).bad.value;
            exists k :: lo <= k < |elems| && FaultThere(elems[k], item, path + [Index(k)], structural, bad)
    decreases item, 2, |elems| - lo
  {
    if !Validate(elems[lo], item, path + [Index(lo)], structural).Accepts() {
      RejectionsAreReal(elems[lo], item, path + [Index(lo)], structural);
    } else {
      ItemRejectionsAreReal(elems, lo + 1, item, path, structural);
    }
  }
}

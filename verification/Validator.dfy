/**
 * The evaluator as the program runs it: one recursive procedure that appends soft findings to,
 * and counts enum hits in, a collector shared by the whole evaluation (none in strict mode).
 */
module Validator {
  import opened Common
  import opened Schema
  import SchemaLaws

  class Collector {
    var soft: seq<Path>
    var hits: nat

    constructor ()
      ensures soft == [] && hits == 0
    {
      soft, hits := [], 0;
    }
  }

  /** `opts` has gained exactly what outcome `o` says, starting from `soft` and `hits`. */
  ghost predicate Gained(opts: Collector?, soft: seq<Path>, hits: nat, o: Outcome)
    reads opts
  {
    opts != null ==> opts.soft == soft + o.soft && opts.hits == hits + o.hits
  }

  ghost function Soft(opts: Collector?): seq<Path> reads opts { if opts == null then [] else opts.soft }
  ghost function Hits(opts: Collector?): nat reads opts { if opts == null then 0 else opts.hits }

  method Check(v: Json, s: Schema, path: Path, opts: Collector?) returns (bad: Option<Violation>)
    modifies opts
    ensures bad == Validate(v, s, path, opts != null).bad
    ensures Gained(opts, old(Soft(opts)), old(Hits(opts)), Validate(v, s, path, opts != null))
    decreases s, 1
  {
    if s.Anything? { return None; }
    if s.members != [] {
      if v !in s.members {
        if opts == null { return Some(Violation(path, EnumMiss)); }
        opts.soft := opts.soft + [path];
      } else if opts != null {
        opts.hits := opts.hits + 1;
      }
    }
    bad := CheckShape(v, s, path, opts);
  }

  method CheckShape(v: Json, s: Schema, path: Path, opts: Collector?) returns (bad: Option<Violation>)
    requires s.Node?
    modifies opts
    ensures bad == ShapeStage(v, s, path, opts != null).bad
    ensures Gained(opts, old(Soft(opts)), old(Hits(opts)), ShapeStage(v, s, path, opts != null))
    decreases s, 0
  {
    var branches := Branches(s);
    if branches != [] {
      bad := CheckUnion(v, branches, path, opts);
      return;
    }
    if !TypePermitted(v, s) { return Some(Violation(path, WrongType)); }
    if v.Obj? {
      bad := CheckProperties(v.fields, s.properties, path, opts);
      if bad.Some? { return; }
      var missing := FirstMissing(v.fields, s.required);
      if missing.Some? { return Some(Violation(path + [Key(missing.value)], MissingProperty)); }
    }
    if v.Arr? {
      bad := CheckItems(v.elems, s.items, path, opts);
      return;
    }
    return None;
  }

  /** One more evaluation on a collector that has already gained `done`. */
  method CheckNext(v: Json, s: Schema, path: Path, opts: Collector?, ghost soft: seq<Path>, ghost hits: nat,
                   ghost done: Outcome)
    returns (bad: Option<Violation>, ghost o: Outcome)
    requires Gained(opts, soft, hits, done)
    modifies opts
    ensures o == Validate(v, s, path, opts != null) && bad == o.bad
    ensures Gained(opts, soft, hits, done.Then(o))
    decreases s, 2
  {
    bad := Check(v, s, path, opts);
    o := Validate(v, s, path, opts != null);
  }

  lemma ThenAssociates(a: Outcome, b: Outcome, c: Outcome)
    ensures a.Then(b.Then(c)) == a.Then(b).Then(c)
  {
  }

  lemma ThenClean(o: Outcome)
    ensures CLEAN.Then(o) == o && o.Then(CLEAN) == Outcome(None, o.soft, o.hits)
  {
    assert [] + o.soft == o.soft && o.soft + [] == o.soft;
  }

  /** What one property adds: nothing when the object lacks it. */
  function PropertyOutcome(fields: seq<(string, Json)>, p: Property, path: Path, structural: bool): Outcome {
    match Lookup(fields, p.name)
    case None => CLEAN
    case Some(x) => Validate(x, p.schema, path + [Key(p.name)], structural)
  }

  /** Outcomes one after the other, up to the first violation. */
  function InTurn(outs: seq<Outcome>, lo: nat): Outcome
    requires lo <= |outs|
    decreases |outs| - lo
  {
    if lo == |outs| then CLEAN
    else if outs[lo].Accepts() then outs[lo].Then(InTurn(outs, lo + 1))
    else outs[lo]
  }

  ghost function PropertyOutcomes(fields: seq<(string, Json)>, props: seq<Property>, path: Path,
                                  structural: bool): (outs: seq<Outcome>)
    ensures |outs| == |props|
    ensures forall i :: 0 <= i < |props| ==> outs[i] == PropertyOutcome(fields, props[i], path, structural)
  {
    seq(|props|, i requires 0 <= i < |props| => PropertyOutcome(fields, props[i], path, structural))
  }

  lemma {:induction false} PropertiesInTurn(fields: seq<(string, Json)>, props: seq<Property>, path: Path,
                                            structural: bool, outs: seq<Outcome>, lo: nat)
    requires lo <= |props| == |outs|
    requires forall i :: 0 <= i < |props| ==> outs[i] == PropertyOutcome(fields, props[i], path, structural)
    ensures Properties(fields, props[lo..], path, structural) == InTurn(outs, lo)
    decreases |props| - lo
  {
    if lo < |props| {
      PropertiesInTurn(fields, props, path, structural, outs, lo + 1);
      assert props[lo..][0] == props[lo] && props[lo..][1..] == props[lo + 1..];
      ThenClean(InTurn(outs, lo + 1));
    }
  }

  method CheckProperty(fields: seq<(string, Json)>, p: Property, path: Path, opts: Collector?,
                       ghost soft: seq<Path>, ghost hits: nat, ghost done: Outcome)
    returns (bad: Option<Violation>)
    requires Gained(opts, soft, hits, done)
    modifies opts
    ensures bad == PropertyOutcome(fields, p, path, opts != null).bad
    ensures Gained(opts, soft, hits, done.Then(PropertyOutcome(fields, p, path, opts != null)))
    decreases p, 3
  {
    var x := Lookup(fields, p.name);
    if x.None? {
      ThenClean(done);
      return None;
    }
    ghost var o;
    bad, o := CheckNext(x.value, p.schema, path + [Key(p.name)], opts, soft, hits, done);
  }

  method CheckProperties(fields: seq<(string, Json)>, props: seq<Property>, path: Path, opts: Collector?)
    returns (bad: Option<Violation>)
    modifies opts
    ensures bad == Properties(fields, props, path, opts != null).bad
    ensures Gained(opts, old(Soft(opts)), old(Hits(opts)), Properties(fields, props, path, opts != null))
    decreases props, 1
  {
    ghost var outs := PropertyOutcomes(fields, props, path, opts != null);
    PropertiesInTurn(fields, props, path, opts != null, outs, 0);
    assert props[0..] == props;
    bad := CheckEach(fields, props, path, opts, outs);
  }

  /** The loop over properties. */
  method CheckEach(fields: seq<(string, Json)>, props: seq<Property>, path: Path, opts: Collector?,
                   ghost outs: seq<Outcome>)
    returns (bad: Option<Violation>)
    requires |outs| == |props|
    requires forall i :: 0 <= i < |props| ==> outs[i] == PropertyOutcome(fields, props[i], path, opts != null)
    modifies opts
    ensures bad == InTurn(outs, 0).bad
    ensures Gained(opts, old(Soft(opts)), old(Hits(opts)), InTurn(outs, 0))
    decreases props, 0
  {
    ghost var soft0, hits0 := Soft(opts), Hits(opts);
    ghost var done := CLEAN;
    ThenClean(InTurn(outs, 0));
    for i := 0 to |props|
      invariant InTurn(outs, 0) == done.Then(InTurn(outs, i))
      invariant Gained(opts, soft0, hits0, done)
    {
      ThenAssociates(done, outs[i], InTurn(outs, i + 1));
      bad := CheckProperty(fields, props[i], path, opts, soft0, hits0, done);
      done := done.Then(outs[i]);
      if bad.Some? { return; }
    }
    ThenClean(done);
    return None;
  }

  method CheckItems(elems: seq<Json>, item: Schema, path: Path, opts: Collector?) returns (bad: Option<Violation>)
    modifies opts
    ensures bad == Items(elems, 0, item, path, opts != null).bad
    ensures Gained(opts, old(Soft(opts)), old(Hits(opts)), Items(elems, 0, item, path, opts != null))
    decreases item, 3
  {
    ghost var soft0, hits0, structural := Soft(opts), Hits(opts), opts != null;
    ghost var whole := Items(elems, 0, item, path, structural);
    ghost var done, rest := CLEAN, whole;
    for i := 0 to |elems|
      invariant whole == done.Then(rest) && rest == Items(elems, i, item, path, structural)
      invariant Gained(opts, soft0, hits0, done)
    {
      ghost var o;
      bad, o := CheckNext(elems[i], item, path + [Index(i)], opts, soft0, hits0, done);
      if bad.Some? { return; }
      rest := Items(elems, i + 1, item, path, structural);
      ThenAssociates(done, o, rest);
      done := done.Then(o);
    }
    return None;
  }

  method CheckUnion(v: Json, branches: seq<Schema>, path: Path, opts: Collector?) returns (bad: Option<Violation>)
    modifies opts
    ensures bad == Union(v, branches, path, opts != null).bad
    ensures Gained(opts, old(Soft(opts)), old(Hits(opts)), Union(v, branches, path, opts != null))
    decreases branches, 1
  {
    var strict := AnyBranchStrict(v, branches, path);
    if strict { return None; }
    if opts == null { return Some(Violation(path, NoBranch)); }
    var o := SecondPass(v, branches, path);
    if o.bad.None? {
      opts.soft := opts.soft + o.soft;
      opts.hits := opts.hits + o.hits;
    }
    assert !o.Accepts() ==> o.soft == [] && o.hits == 0 by {
      SchemaLaws.SoftPassIsDecisive(v, branches, path, None);
    }
    return o.bad;
  }

  method AnyBranchStrict(v: Json, branches: seq<Schema>, path: Path) returns (strict: bool)
    ensures strict == AnyStrict(v, branches, path)
    decreases branches, 0
  {
    assert branches[0..] == branches;
    for i := 0 to |branches|
      invariant AnyStrict(v, branches, path) == AnyStrict(v, branches[i..], path)
    {
      assert branches[i..][0] == branches[i] && branches[i..][1..] == branches[i + 1..];
      var bad := Check(v, branches[i], path, null);
      if bad.None? { return true; }
    }
    return false;
  }

  /** Each branch with a collector of its own. */
  method SecondPass(v: Json, branches: seq<Schema>, path: Path) returns (o: Outcome)
    ensures o == SoftPass(v, branches, path, None)
    decreases branches, 0
  {
    var winner: Option<Outcome> := None;
    assert branches[0..] == branches;
    for i := 0 to |branches|
      invariant SoftPass(v, branches, path, None) == SoftPass(v, branches[i..], path, winner)
    {
      assert branches[i..][0] == branches[i] && branches[i..][1..] == branches[i + 1..];
      var scratch := new Collector();
      var bad := Check(v, branches[i], path, scratch);
      assert Validate(v, branches[i], path, true) == Outcome(bad, scratch.soft, scratch.hits);
      if bad.None? {
        if winner.None? { winner := Some(Outcome(None, scratch.soft, scratch.hits)); }
      } else if scratch.hits > 0 && scratch.soft == [] {
        return Outcome(bad, [], 0);
      }
    }
    if winner.Some? { return winner.value; }
    return Reject(path, NoBranch);
  }
}

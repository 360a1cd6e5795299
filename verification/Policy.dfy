/**
 * Request-time policy (src/policy/engine.ts): which capabilities a request needs, whether one
 * model may serve it, and which model serves it first.
 */
module Policy {
  import opened Common
  import opened Text
  import opened Envelope
  import opened Redaction

  // ---------------------------------------------------------------- catalog rows

  datatype ProviderKind = OpenAiCompat | AnthropicApi | Local | DigitalOcean | LocalOcr

  /** The local tier: kinds whose endpoints live on the appliance network. */
  predicate IsLocal(kind: ProviderKind) {
    kind == Local || kind == LocalOcr
  }

  datatype Capability = Tools | JsonSchema | Vision | Caching | Reasoning
  datatype ModelStatus = Active | Deprecated | Sunset

  datatype Model = Model(
    id: string,
    canonicalId: string,
    kind: ProviderKind,
    status: ModelStatus,
    capabilities: map<Capability, bool>,
    overrides: map<Capability, bool>,
    maxOutput: Option<int>)

  predicate UnderCeiling(kind: ProviderKind, c: Capability) {
    kind == LocalOcr && (c == JsonSchema || c == Tools)
  }

  /** An override decides; else the kind's ceiling; else the catalog; else no. */
  predicate Has(m: Model, c: Capability) {
    if c in m.overrides then m.overrides[c]
    else !UnderCeiling(m.kind, c) && c in m.capabilities && m.capabilities[c]
  }

  method EffectiveCapabilities(m: Model) returns (out: map<Capability, bool>)
    ensures forall c: Capability :: c in out && (out[c] <==> Has(m, c))
  {
    var keys := [Tools, JsonSchema, Vision, Caching, Reasoning];
    out := map[];
    for i := 0 to |keys|
      invariant out.Keys == set j | 0 <= j < i :: keys[j]
      invariant forall c :: c in out ==> (out[c] <==> Has(m, c))
    {
      var c := keys[i];
      var value;
      if c in m.overrides {
        value := m.overrides[c];
      } else if UnderCeiling(m.kind, c) {
        value := false;
      } else {
        value := c in m.capabilities && m.capabilities[c];
      }
      out := out[c := value];
    }
    forall c: Capability ensures c in out {
      match c {
        case Tools => assert keys[0] == c;
        case JsonSchema => assert keys[1] == c;
        case Vision => assert keys[2] == c;
        case Caching => assert keys[3] == c;
        case Reasoning => assert keys[4] == c;
      }
    }
  }

  // ---------------------------------------------------------------- the effective policy

  datatype ScrubMode = Block | Redact | Warn

  /**
   * What resolution hands to the request path. `rows` are the catalog rows of the default, allowed
   * and fallback ids; `bannedModels` are the canonical ids that match a ban pattern.
   */
  datatype Effective = Effective(
    localOnly: bool,
    classNeeds: set<Capability>,
    defaultId: string,
    defaultModel: Model,
    allowedIds: seq<string>,
    fallbackChain: seq<string>,
    rows: seq<Model>,
    bannedKinds: set<ProviderKind>,
    bannedModels: set<string>,
    scrubMode: ScrubMode)
  {
    /** Resolution finds the default among the rows; ids and canonical ids are unique in the catalog. */
    predicate Resolved() {
      Lookup(rows, defaultId) == Some(defaultModel)
      && (forall i, j :: 0 <= i < j < |rows| ==> rows[i].id != rows[j].id)
      && (forall i, j :: 0 <= i < j < |rows| ==> rows[i].canonicalId != rows[j].canonicalId)
    }
  }

  function Lookup(rows: seq<Model>, id: string): (r: Option<Model>)
    ensures r.Some? ==> r.value in rows && r.value.id == id
    ensures r.None? ==> forall m :: m in rows ==> m.id != id
  {
    if rows == [] then None
    else if rows[0].id == id then Some(rows[0])
    else Lookup(rows[1..], id)
  }

  function RequestNeeds(env: Request): set<Capability> {
    (if env.toolCount > 0 then {Tools} else {})
    + (if env.format == JsonSchemaFormat then {JsonSchema} else {})
    + (if AnyImage(env.messages) then {Vision} else {})
  }

  /** The class may ask for tools, json_schema and vision. */
  function Needs(p: Effective, env: Request): set<Capability> {
    RequestNeeds(env) + p.classNeeds * {Tools, JsonSchema, Vision}
  }

  datatype Violation = Blocked | Lacks(missing: set<Capability>)

  function ViolationCode(v: Violation): ErrorCode {
    if v.Blocked? then PolicyBlocked else CapabilityMissing
  }

  function Missing(m: Model, needs: set<Capability>): set<Capability> {
    set c | c in needs && !Has(m, c)
  }

  /** Why a model may not serve, first reason first. */
  function ModelViolation(m: Model, p: Effective, needs: set<Capability>): Option<Violation> {
    if m.status == Sunset then Some(Blocked)
    else if p.localOnly && !IsLocal(m.kind) then Some(Blocked)
    else if m.kind in p.bannedKinds || m.canonicalId in p.bannedModels then Some(Blocked)
    else if Missing(m, needs) != {} then Some(Lacks(Missing(m, needs)))
    else None
  }

  /** What a violation-free model is, said without the order of the checks. */
  predicate MayServe(m: Model, p: Effective, env: Request) {
    && m.status != Sunset
    && (p.localOnly ==> IsLocal(m.kind))
    && m.kind !in p.bannedKinds && m.canonicalId !in p.bannedModels
    && forall c :: c in Needs(p, env) ==> Has(m, c)
  }

  lemma NoViolationIsMayServe(m: Model, p: Effective, env: Request)
    ensures ModelViolation(m, p, Needs(p, env)) == None <==> MayServe(m, p, env)
  {
    assert forall c :: c in Needs(p, env) && !Has(m, c) ==> c in Missing(m, Needs(p, env));
  }

  // ---------------------------------------------------------------- selection

  predicate Allowed(p: Effective, m: Model) {
    m.id == p.defaultId || m.id in p.allowedIds
  }

  predicate Asks(env: Request) {
    env.modelRequested.Some? && env.modelRequested.value != ""
  }

  /** The first row that is what the app asked for and that the policy allows. */
  function Requested(p: Effective, rows: seq<Model>, name: string): (r: Option<Model>)
    ensures r.Some? ==> r.value in rows && r.value.canonicalId == name && Allowed(p, r.value)
    ensures r.None? ==> forall m :: m in rows ==> !(m.canonicalId == name && Allowed(p, m))
  {
    if rows == [] then None
    else if rows[0].canonicalId == name && Allowed(p, rows[0]) then Some(rows[0])
    else Requested(p, rows[1..], name)
  }

  function Honoured(p: Effective, env: Request): Option<Model> {
    if !Asks(env) then None
    else
      var match_ := Requested(p, p.rows, env.modelRequested.value);
      if match_.Some? && ModelViolation(match_.value, p, Needs(p, env)) == None then match_ else None
  }

  /** Ids in order, each once, without the default. */
  function Distinct(ids: seq<string>, seen: seq<string>): seq<string>
    decreases |ids|
  {
    if ids == [] then []
    else if ids[0] in seen then Distinct(ids[1..], seen)
    else [ids[0]] + Distinct(ids[1..], seen + [ids[0]])
  }

  function RowsOf(p: Effective, ids: seq<string>): seq<Model> {
    if ids == [] then []
    else
      var row := Lookup(p.rows, ids[0]);
      (if row.Some? then [row.value] else []) + RowsOf(p, ids[1..])
  }

  function OfTier(ms: seq<Model>, local: bool): seq<Model> {
    if ms == [] then []
    else (if IsLocal(ms[0].kind) == local then [ms[0]] else []) + OfTier(ms[1..], local)
  }

  function Configured(p: Effective): seq<Model> {
    RowsOf(p, Distinct(p.allowedIds + p.fallbackChain, [p.defaultId]))
  }

  /** The scan order: local candidates first, then cloud ones. */
  function Ordered(p: Effective): seq<Model> {
    OfTier(Configured(p), true) + OfTier(Configured(p), false)
  }

  datatype Scanned = Found(model: Model) | Exhausted(unsatisfiable: set<Capability>)

  function ScanFrom(p: Effective, needs: set<Capability>, ms: seq<Model>, unsat: set<Capability>): Scanned
    decreases |ms|
  {
    if ms == [] then Exhausted(unsat)
    else
      match ModelViolation(ms[0], p, needs)
      case None => Found(ms[0])
      case Some(Blocked) => ScanFrom(p, needs, ms[1..], unsat)
      case Some(Lacks(missing)) => ScanFrom(p, needs, ms[1..], unsat * missing)
  }

  function Select(p: Effective, env: Request): Result<Model> {
    var needs := Needs(p, env);
    if Honoured(p, env).Some? then Ok(Honoured(p, env).value)
    else
      match ModelViolation(p.defaultModel, p, needs)
      case None => Ok(p.defaultModel)
      case Some(Blocked) => Err(RouterError(PolicyBlocked, Unstated))
      case Some(Lacks(missing)) =>
        match ScanFrom(p, needs, Ordered(p), missing)
        case Found(m) => Ok(m)
        case Exhausted(unsat) =>
          Err(RouterError(if Vision in unsat then NoVisionProvider else CapabilityMissing, Unstated))
  }

  // ---------------------------------------------------------------- selection as it runs

  method FindRequested(p: Effective, name: string) returns (r: Option<Model>)
    ensures r == Requested(p, p.rows, name)
  {
    assert p.rows[0..] == p.rows;
    for i := 0 to |p.rows|
      invariant Requested(p, p.rows[i..], name) == Requested(p, p.rows, name)
    {
      assert p.rows[i..][0] == p.rows[i] && p.rows[i..][1..] == p.rows[i + 1..];
      if p.rows[i].canonicalId == name && Allowed(p, p.rows[i]) {
        return Some(p.rows[i]);
      }
    }
    return None;
  }

  method ConfiguredRows(p: Effective) returns (out: seq<Model>)
    ensures out == Configured(p)
  {
    var ids := p.allowedIds + p.fallbackChain;
    var seen := [p.defaultId];
    out := [];
    assert ids[0..] == ids;
    for i := 0 to |ids|
      invariant out + RowsOf(p, Distinct(ids[i..], seen)) == Configured(p)
    {
      assert ids[i..][0] == ids[i] && ids[i..][1..] == ids[i + 1..];
      if ids[i] !in seen {
        var row := Lookup(p.rows, ids[i]);
        RowsCons(p, ids[i], Distinct(ids[i + 1..], seen + [ids[i]]));
        seen := seen + [ids[i]];
        if row.Some? {
          Regroup(out, [row.value], RowsOf(p, Distinct(ids[i + 1..], seen)));
          out := out + [row.value];
        } else {
          NoPrefix(RowsOf(p, Distinct(ids[i + 1..], seen)));
        }
      }
    }
  }

  lemma RowsCons(p: Effective, id: string, ids: seq<string>)
    ensures RowsOf(p, [id] + ids) ==
            (if Lookup(p.rows, id).Some? then [Lookup(p.rows, id).value] else []) + RowsOf(p, ids)
  {
    assert ([id] + ids)[1..] == ids;
  }

  method Tier(ms: seq<Model>, local: bool) returns (out: seq<Model>)
    ensures out == OfTier(ms, local)
  {
    out := [];
    assert ms[0..] == ms;
    NoPrefix(OfTier(ms, local));
    for i := 0 to |ms|
      invariant out + OfTier(ms[i..], local) == OfTier(ms, local)
    {
      TierStep(ms, local, i);
      if IsLocal(ms[i].kind) == local {
        Regroup(out, [ms[i]], OfTier(ms[i + 1..], local));
        out := out + [ms[i]];
      }
    }
    NoPrefix(out);
  }

  lemma TierStep(ms: seq<Model>, local: bool, i: nat)
    requires i < |ms|
    ensures OfTier(ms[i..], local) ==
            if IsLocal(ms[i].kind) == local then [ms[i]] + OfTier(ms[i + 1..], local) else OfTier(ms[i + 1..], local)
  {
    assert ms[i..][0] == ms[i] && ms[i..][1..] == ms[i + 1..];
    NoPrefix(OfTier(ms[i + 1..], local));
  }

  method ScanCandidates(p: Effective, needs: set<Capability>, ms: seq<Model>, missing: set<Capability>)
    returns (r: Scanned)
    ensures r == ScanFrom(p, needs, ms, missing)
  {
    var unsat := missing;
    assert ms[0..] == ms;
    for i := 0 to |ms|
      invariant ScanFrom(p, needs, ms[i..], unsat) == ScanFrom(p, needs, ms, missing)
    {
      assert ms[i..][0] == ms[i] && ms[i..][1..] == ms[i + 1..];
      match ModelViolation(ms[i], p, needs) {
        case None => return Found(ms[i]);
        case Some(Blocked) =>
        case Some(Lacks(more)) => unsat := unsat * more;
      }
    }
    return Exhausted(unsat);
  }

  method SelectModel(p: Effective, env: Request) returns (r: Result<Model>)
    ensures r == Select(p, env)
  {
    var needs := Needs(p, env);
    if Asks(env) {
      var m := FindRequested(p, env.modelRequested.value);
      if m.Some? && ModelViolation(m.value, p, needs) == None { return Ok(m.value); }
    }
    var violation := ModelViolation(p.defaultModel, p, needs);
    if violation == None { return Ok(p.defaultModel); }
    if violation.value.Lacks? {
      var configured := ConfiguredRows(p);
      var locals := Tier(configured, true);
      var clouds := Tier(configured, false);
      var found := ScanCandidates(p, needs, locals + clouds, violation.value.missing);
      if found.Found? { return Ok(found.model); }
      if Vision in found.unsatisfiable { return Err(RouterError(NoVisionProvider, Unstated)); }
    }
    return Err(RouterError(ViolationCode(violation.value), Unstated));
  }

  // ---------------------------------------------------------------- what selection guarantees

  /** A configured substitute for the default: an allowed or fallback id with a catalog row. */
  predicate Candidate(p: Effective, m: Model) {
    (m.id in p.allowedIds || m.id in p.fallbackChain) && m.id != p.defaultId && Lookup(p.rows, m.id) == Some(m)
  }

  lemma {:induction false} DistinctKeeps(ids: seq<string>, seen: seq<string>, id: string)
    ensures id in Distinct(ids, seen) <==> id in ids && id !in seen
    decreases |ids|
  {
    if ids != [] {
      assert ids == [ids[0]] + ids[1..];
      DistinctKeeps(ids[1..], seen, id);
      DistinctKeeps(ids[1..], seen + [ids[0]], id);
    }
  }

  lemma {:induction false} RowsAre(p: Effective, ids: seq<string>, m: Model)
    ensures m in RowsOf(p, ids) <==> m.id in ids && Lookup(p.rows, m.id) == Some(m)
  {
    if ids != [] {
      assert ids == [ids[0]] + ids[1..];
      RowsAre(p, ids[1..], m);
    }
  }

  lemma {:induction false} TierHolds(ms: seq<Model>, local: bool, m: Model)
    ensures m in OfTier(ms, local) <==> m in ms && IsLocal(m.kind) == local
  {
    if ms != [] {
      assert ms == [ms[0]] + ms[1..];
      TierHolds(ms[1..], local, m);
    }
  }

  lemma OrderedAreCandidates(p: Effective, m: Model)
    ensures m in OfTier(Configured(p), IsLocal(m.kind)) <==> Candidate(p, m)
    ensures m in Ordered(p) <==> Candidate(p, m)
  {
    DistinctKeeps(p.allowedIds + p.fallbackChain, [p.defaultId], m.id);
    RowsAre(p, Distinct(p.allowedIds + p.fallbackChain, [p.defaultId]), m);
    TierHolds(Configured(p), true, m);
    TierHolds(Configured(p), false, m);
  }

  /** The scan finds a valid model exactly when there is one, and narrows what is missing everywhere. */
  lemma {:induction false} ScanFinds(p: Effective, needs: set<Capability>, ms: seq<Model>, unsat: set<Capability>)
    ensures var r := ScanFrom(p, needs, ms, unsat);
            match r
            case Found(m) => m in ms && ModelViolation(m, p, needs) == None
            case Exhausted(left) =>
              (forall m :: m in ms ==> ModelViolation(m, p, needs) != None)
              && forall c :: c in left <==>
                   (c in unsat
                    && forall m :: m in ms && ModelViolation(m, p, needs).value.Lacks? ==> c in Missing(m, needs))
    decreases |ms|
  {
    if ms != [] {
      assert ms == [ms[0]] + ms[1..];
      match ModelViolation(ms[0], p, needs) {
        case None =>
        case Some(Blocked) => ScanFinds(p, needs, ms[1..], unsat);
        case Some(Lacks(missing)) => ScanFinds(p, needs, ms[1..], unsat * missing);
      }
    }
  }

  lemma {:induction false} ScanPrefersFirst(p: Effective, needs: set<Capability>, a: seq<Model>, b: seq<Model>,
                                            unsat: set<Capability>, m: Model)
    requires m in a && ModelViolation(m, p, needs) == None
    ensures ScanFrom(p, needs, a + b, unsat).Found? && ScanFrom(p, needs, a + b, unsat).model in a
    decreases |a|
  {
    assert a == [a[0]] + a[1..];
    assert (a + b)[1..] == a[1..] + b;
    match ModelViolation(a[0], p, needs) {
      case None =>
      case Some(Blocked) => ScanPrefersFirst(p, needs, a[1..], b, unsat, m);
      case Some(Lacks(missing)) => ScanPrefersFirst(p, needs, a[1..], b, unsat * missing, m);
    }
  }

  /** Only a violation-free catalog row is ever selected. */
  lemma SelectionIsValid(p: Effective, env: Request)
    requires p.Resolved() && Select(p, env).Ok?
    ensures MayServe(Select(p, env).value, p, env)
    ensures Select(p, env).value in p.rows
  {
    var needs := Needs(p, env);
    var m := Select(p, env).value;
    NoViolationIsMayServe(m, p, env);
    if Honoured(p, env).None? && ModelViolation(p.defaultModel, p, needs).Some? {
      var missing := ModelViolation(p.defaultModel, p, needs).value.missing;
      ScanFinds(p, needs, Ordered(p), missing);
      OrderedAreCandidates(p, m);
    }
  }

  /** A valid, allowed request is honoured; any other request changes nothing. */
  lemma RequestHonoured(p: Effective, env: Request, m: Model)
    requires p.Resolved() && m in p.rows && Asks(env) && env.modelRequested.value == m.canonicalId
    ensures var allowed := m.id == p.defaultId || m.id in p.allowedIds;
            if allowed && MayServe(m, p, env) then Select(p, env) == Ok(m)
            else Select(p, env) == Select(p, env.(modelRequested := None))
  {
    NoViolationIsMayServe(m, p, env);
    var r := Requested(p, p.rows, m.canonicalId);
    if r.Some? {
      var i :| 0 <= i < |p.rows| && p.rows[i] == m;
      var j :| 0 <= j < |p.rows| && p.rows[j] == r.value;
      assert i == j;
    }
    assert Needs(p, env.(modelRequested := None)) == Needs(p, env);
  }

  predicate NeedsSubstitute(p: Effective, env: Request) {
    Honoured(p, env) == None
    && ModelViolation(p.defaultModel, p, Needs(p, env)).Some?
    && ModelViolation(p.defaultModel, p, Needs(p, env)).value.Lacks?
  }

  /** A substitute is found exactly when a valid candidate exists. */
  lemma SubstituteFound(p: Effective, env: Request)
    requires NeedsSubstitute(p, env)
    ensures Select(p, env).Ok? <==> exists m :: Candidate(p, m) && MayServe(m, p, env)
    ensures Select(p, env).Ok? ==> Candidate(p, Select(p, env).value)
  {
    var needs := Needs(p, env);
    var missing := ModelViolation(p.defaultModel, p, needs).value.missing;
    ScanFinds(p, needs, Ordered(p), missing);
    if Select(p, env).Ok? {
      OrderedAreCandidates(p, Select(p, env).value);
      NoViolationIsMayServe(Select(p, env).value, p, env);
    } else {
      forall m | Candidate(p, m) ensures !MayServe(m, p, env) {
        OrderedAreCandidates(p, m);
        NoViolationIsMayServe(m, p, env);
      }
    }
  }

  /** A cloud substitute is never chosen while a local candidate would do. */
  lemma LocalSubstituteFirst(p: Effective, env: Request, m: Model)
    requires NeedsSubstitute(p, env)
    requires Candidate(p, m) && MayServe(m, p, env) && IsLocal(m.kind)
    ensures Select(p, env).Ok? && IsLocal(Select(p, env).value.kind)
  {
    var needs := Needs(p, env);
    var missing := ModelViolation(p.defaultModel, p, needs).value.missing;
    OrderedAreCandidates(p, m);
    NoViolationIsMayServe(m, p, env);
    ScanPrefersFirst(p, needs, OfTier(Configured(p), true), OfTier(Configured(p), false), missing, m);
    TierHolds(Configured(p), true, Select(p, env).value);
  }

  // ---------------------------------------------------------------- the operator's order

  /** Where an id first stands. */
  function Place(ids: seq<string>, id: string): (n: nat)
    ensures n <= |ids| && (n < |ids| <==> id in ids) && (n < |ids| ==> ids[n] == id)
    ensures forall i :: 0 <= i < n ==> ids[i] != id
  {
    if ids == [] then 0 else if ids[0] == id then 0 else
      assert ids == [ids[0]] + ids[1..];
      1 + Place(ids[1..], id)
  }

  /** Listed in the order of `ids`, by where each id first stands. */
  ghost predicate InOrderOf(ids: seq<string>, ms: seq<Model>) {
    forall i, j :: 0 <= i < j < |ms| ==> Place(ids, ms[i].id) < Place(ids, ms[j].id)
  }

  ghost predicate Rising(ids: seq<string>, d: seq<string>) {
    forall i, j :: 0 <= i < j < |d| ==> Place(ids, d[i]) < Place(ids, d[j])
  }

  lemma RisingWith(ids: seq<string>, lo: nat, rest: seq<string>)
    requires lo < |ids| && ids[lo] !in ids[..lo]
    requires Rising(ids, rest) && forall i :: 0 <= i < |rest| ==> lo < Place(ids, rest[i])
    ensures var d := [ids[lo]] + rest;
            Rising(ids, d) && forall i :: 0 <= i < |d| ==> lo <= Place(ids, d[i])
  {
    assert Place(ids, ids[lo]) >= lo;
    var d := [ids[lo]] + rest;
    forall j | 0 <= j < |d| ensures d[j] == if j == 0 then ids[lo] else rest[j - 1] {}
  }

  lemma {:induction false} DistinctInOrder(ids: seq<string>, lo: nat, seen: seq<string>)
    requires lo <= |ids| && forall i :: 0 <= i < lo ==> ids[i] in seen
    ensures var d := Distinct(ids[lo..], seen);
            Rising(ids, d) && forall i :: 0 <= i < |d| ==> lo <= Place(ids, d[i])
    decreases |ids| - lo
  {
    if lo < |ids| {
      assert ids[lo..][0] == ids[lo] && ids[lo..][1..] == ids[lo + 1..];
      if ids[lo] in seen {
        DistinctInOrder(ids, lo + 1, seen);
      } else {
        DistinctInOrder(ids, lo + 1, seen + [ids[lo]]);
        RisingWith(ids, lo, Distinct(ids[lo + 1..], seen + [ids[lo]]));
      }
    }
  }

  lemma {:induction false} RowsInOrder(p: Effective, ids: seq<string>, d: seq<string>)
    requires Rising(ids, d)
    ensures InOrderOf(ids, RowsOf(p, d))
  {
    if d != [] {
      RowsInOrder(p, ids, d[1..]);
      var rest := RowsOf(p, d[1..]);
      forall j | 0 <= j < |rest| ensures Place(ids, d[0]) < Place(ids, rest[j].id) {
        RowsAre(p, d[1..], rest[j]);
        var i :| 0 <= i < |d[1..]| && d[1..][i] == rest[j].id;
        assert d[i + 1] == rest[j].id;
      }
    }
  }

  lemma {:induction false} TierInOrder(ids: seq<string>, ms: seq<Model>, local: bool)
    requires InOrderOf(ids, ms)
    ensures InOrderOf(ids, OfTier(ms, local))
  {
    if ms != [] {
      assert InOrderOf(ids, ms[1..]);
      TierInOrder(ids, ms[1..], local);
      var rest := OfTier(ms[1..], local);
      forall j | 0 <= j < |rest| ensures Place(ids, ms[0].id) < Place(ids, rest[j].id) {
        TierHolds(ms[1..], local, rest[j]);
        var i :| 0 <= i < |ms[1..]| && ms[1..][i] == rest[j];
        assert ms[i + 1] == rest[j];
      }
    }
  }

  lemma {:induction false} ScanTakesFirst(p: Effective, needs: set<Capability>, a: seq<Model>, b: seq<Model>,
                                          unsat: set<Capability>, k: nat)
    requires k < |a| && ModelViolation(a[k], p, needs) == None
    requires forall i :: 0 <= i < k ==> ModelViolation(a[i], p, needs) != None
    ensures ScanFrom(p, needs, a + b, unsat) == Found(a[k])
    decreases |a|
  {
    assert (a + b)[1..] == a[1..] + b;
    if k > 0 {
      match ModelViolation(a[0], p, needs) {
        case Some(Blocked) => ScanTakesFirst(p, needs, a[1..], b, unsat, k - 1);
        case Some(Lacks(missing)) => ScanTakesFirst(p, needs, a[1..], b, unsat * missing, k - 1);
      }
    }
  }

  lemma {:induction false} ScanSkipsAll(p: Effective, needs: set<Capability>, a: seq<Model>, b: seq<Model>,
                                        unsat: set<Capability>) returns (left: set<Capability>)
    requires forall i :: 0 <= i < |a| ==> ModelViolation(a[i], p, needs) != None
    ensures ScanFrom(p, needs, a + b, unsat) == ScanFrom(p, needs, b, left)
    decreases |a|
  {
    if a == [] {
      NoPrefix(b);
      left := unsat;
    } else {
      assert (a + b)[1..] == a[1..] + b;
      match ModelViolation(a[0], p, needs) {
        case Some(Blocked) => left := ScanSkipsAll(p, needs, a[1..], b, unsat);
        case Some(Lacks(missing)) => left := ScanSkipsAll(p, needs, a[1..], b, unsat * missing);
      }
    }
  }

  lemma FirstValid(p: Effective, needs: set<Capability>, a: seq<Model>, m: Model) returns (k: nat)
    requires m in a && ModelViolation(m, p, needs) == None
    ensures k < |a| && ModelViolation(a[k], p, needs) == None
    ensures forall i :: 0 <= i < k ==> ModelViolation(a[i], p, needs) != None
  {
    k := 0;
    while ModelViolation(a[k], p, needs) != None
      invariant k < |a| && forall i :: 0 <= i < k ==> ModelViolation(a[i], p, needs) != None
      decreases |a| - k
    {
      assert exists j :: 0 <= j < |a| && a[j] == m;
      k := k + 1;
    }
  }

  /**
   * Among the candidates of its tier that may serve, the substitute stands first in the operator's
   * list: the allowed ids, then the fallback chain.
   */
  lemma SubstituteInOrder(p: Effective, env: Request, m: Model)
    requires NeedsSubstitute(p, env) && Candidate(p, m) && MayServe(m, p, env)
    requires Select(p, env).Ok? && IsLocal(Select(p, env).value.kind) == IsLocal(m.kind)
    ensures var ids := p.allowedIds + p.fallbackChain;
            Place(ids, Select(p, env).value.id) <= Place(ids, m.id)
  {
    var ids, needs := p.allowedIds + p.fallbackChain, Needs(p, env);
    var missing := ModelViolation(p.defaultModel, p, needs).value.missing;
    var tier := OfTier(Configured(p), IsLocal(m.kind));
    NoViolationIsMayServe(m, p, env);
    OrderedAreCandidates(p, m);
    ConfiguredInOrder(p);
    TierInOrder(ids, Configured(p), IsLocal(m.kind));
    var k := FirstValid(p, needs, tier, m);
    assert Select(p, env) == Ok(tier[k]) by { TierServes(p, env, IsLocal(m.kind), k); }
    var j :| 0 <= j < |tier| && tier[j] == m;
  }

  lemma ConfiguredInOrder(p: Effective)
    ensures InOrderOf(p.allowedIds + p.fallbackChain, Configured(p))
  {
    var ids := p.allowedIds + p.fallbackChain;
    assert ids[0..] == ids;
    DistinctInOrder(ids, 0, [p.defaultId]);
    RowsInOrder(p, ids, Distinct(ids, [p.defaultId]));
  }

  lemma TierServes(p: Effective, env: Request, local: bool, k: nat)
    requires NeedsSubstitute(p, env) && Select(p, env).Ok? && IsLocal(Select(p, env).value.kind) == local
    requires var tier := OfTier(Configured(p), local);
             && k < |tier| && ModelViolation(tier[k], p, Needs(p, env)) == None
             && forall i :: 0 <= i < k ==> ModelViolation(tier[i], p, Needs(p, env)) != None
    ensures Select(p, env) == Ok(OfTier(Configured(p), local)[k])
  {
    var needs := Needs(p, env);
    var missing := ModelViolation(p.defaultModel, p, needs).value.missing;
    var locals, clouds := OfTier(Configured(p), true), OfTier(Configured(p), false);
    if local {
      ScanTakesFirst(p, needs, locals, clouds, missing, k);
    } else {
      forall i | 0 <= i < |locals| ensures ModelViolation(locals[i], p, needs) != None {
        if ModelViolation(locals[i], p, needs) == None {
          ScanPrefersFirst(p, needs, locals, clouds, missing, locals[i]);
          TierHolds(Configured(p), true, Select(p, env).value);
        }
      }
      var left := ScanSkipsAll(p, needs, locals, clouds, missing);
      NoPrefix(clouds);
      ScanTakesFirst(p, needs, clouds, [], left, k);
    }
  }

  // ---------------------------------------------------------------- needs and capabilities

  /** What a request needs: what it holds, and what its class asks for of tools, json_schema and vision. */
  lemma NeedsAre(p: Effective, env: Request, c: Capability)
    ensures c in Needs(p, env) <==>
            || (c == Tools && (env.toolCount > 0 || Tools in p.classNeeds))
            || (c == JsonSchema && (env.format == JsonSchemaFormat || JsonSchema in p.classNeeds))
            || (c == Vision && (Vision in p.classNeeds || ShowsImage(env.messages)))
  {
  }

  predicate ShowsImage(messages: seq<Message>) {
    exists i :: 0 <= i < |messages| && messages[i].content.Parts?
             && exists j :: 0 <= j < |messages[i].content.parts| && messages[i].content.parts[j].ImagePart?
  }

  /** An override decides either way; without one, OCR kinds have no tools or schemas; else the catalog says. */
  lemma CapabilitiesAre(m: Model, c: Capability)
    ensures c in m.overrides ==> Has(m, c) == m.overrides[c]
    ensures c !in m.overrides && m.kind == LocalOcr && c in {JsonSchema, Tools} ==> !Has(m, c)
    ensures c !in m.overrides && !(m.kind == LocalOcr && c in {JsonSchema, Tools}) ==>
              (Has(m, c) <==> c in m.capabilities && m.capabilities[c])
  {
  }

  /** A candidate that passes every check but capabilities. */
  predicate FailsOnCapabilities(m: Model, p: Effective, env: Request) {
    ModelViolation(m, p, Needs(p, env)).Some? && ModelViolation(m, p, Needs(p, env)).value.Lacks?
  }

  /** `no_vision_provider`, exactly. */
  lemma NoVisionExactly(p: Effective, env: Request)
    ensures Select(p, env) == Err(RouterError(NoVisionProvider, Unstated)) <==>
              && NeedsSubstitute(p, env)
              && (forall m :: Candidate(p, m) ==> !MayServe(m, p, env))
              && Vision in Needs(p, env) && !Has(p.defaultModel, Vision)
              && (forall m :: Candidate(p, m) && FailsOnCapabilities(m, p, env) ==> !Has(m, Vision))
  {
    if NeedsSubstitute(p, env) {
      var needs := Needs(p, env);
      var missing := ModelViolation(p.defaultModel, p, needs).value.missing;
      ScanFinds(p, needs, Ordered(p), missing);
      SubstituteFound(p, env);
      forall m ensures m in Ordered(p) <==> Candidate(p, m) { OrderedAreCandidates(p, m); }
    }
  }

  /** A model the policy rules out whatever the request needs. */
  predicate Barred(m: Model, p: Effective) {
    || m.status == Sunset
    || (p.localOnly && !IsLocal(m.kind))
    || m.kind in p.bannedKinds || m.canonicalId in p.bannedModels
  }

  /**
   * When and how selection fails: never with an honoured request or a default that may serve; with
   * `policy_blocked` exactly when the default is barred; otherwise exactly when no configured model
   * may serve, as a missing capability or, if that is what is missing everywhere, missing vision.
   */
  lemma SelectionFailsExactlyWhen(p: Effective, env: Request)
    ensures Honoured(p, env) == None && MayServe(p.defaultModel, p, env) ==> Select(p, env) == Ok(p.defaultModel)
    ensures Select(p, env) == Err(RouterError(PolicyBlocked, Unstated)) <==>
              Honoured(p, env) == None && Barred(p.defaultModel, p)
    ensures Select(p, env).Err? <==>
              && Honoured(p, env) == None && !MayServe(p.defaultModel, p, env)
              && (Barred(p.defaultModel, p) || forall m :: Candidate(p, m) ==> !MayServe(m, p, env))
    ensures Select(p, env).Err? ==> Select(p, env).error.code in {PolicyBlocked, CapabilityMissing, NoVisionProvider}
  {
    NoViolationIsMayServe(p.defaultModel, p, env);
    if NeedsSubstitute(p, env) {
      SubstituteFound(p, env);
    }
  }

  /** Selection is the same on a request and on its redaction. */
  lemma RedactionKeepsSelection(sc: Scrubber, p: Effective, env: Request)
    ensures Needs(p, Redacted(sc, env)) == Needs(p, env)
    ensures Select(p, Redacted(sc, env)) == Select(p, env)
  {
    RewritingKeepsImages(sc.rewrite, env.messages);
    SelectionReads(p, env, Redacted(sc, env).messages);
  }

  /** Of the messages, selection sees only whether they hold an image. */
  lemma SelectionReads(p: Effective, env: Request, messages: seq<Message>)
    requires AnyImage(messages) <==> AnyImage(env.messages)
    ensures Needs(p, env.(messages := messages)) == Needs(p, env)
    ensures Select(p, env.(messages := messages)) == Select(p, env)
  {
  }

  // ---------------------------------------------------------------- output ceiling

  /** The envelope of one hop never asks a model for more output than it can give. */
  function ClampToModel(env: Request, m: Model): (r: Request)
    ensures r == env.(maxTokens := r.maxTokens)
    ensures m.maxOutput.Some? && m.maxOutput.value > 0 && env.maxTokens.Some? ==>
              r.maxTokens.Some? && r.maxTokens.value <= m.maxOutput.value && r.maxTokens.value <= env.maxTokens.value
    ensures r.maxTokens == env.maxTokens || r.maxTokens == m.maxOutput
    ensures (env.maxTokens.None? || m.maxOutput.None? || m.maxOutput.value <= 0 ||
             env.maxTokens.value <= m.maxOutput.value)
            <==> r == env
  {
    if m.maxOutput.None? || m.maxOutput.value <= 0 then env
    else if env.maxTokens.None? || env.maxTokens.value <= m.maxOutput.value then env
    else env.(maxTokens := m.maxOutput)
  }
}

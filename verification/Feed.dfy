/**
 * Reading a LiteLLM-shaped feed (src/catalog/sync.ts, parseFeed): one entry per canonical id, the
 * namespaced key winning over the bare one, and every dropped key reported.
 */
module Feed {
  import opened Common
  import opened Policy

  /** Dollars per million tokens, as exact numbers in the smallest stored unit. */
  datatype Prices = Prices(input: Option<int>, output: Option<int>, cacheRead: Option<int>, cacheWrite: Option<int>)

  /** One raw value of the feed; `Malformed` fails the entry schema. */
  datatype Raw =
    | Malformed
    | Raw(provider: string, mode: Option<string>, maxInput: Option<int>, maxTokens: Option<int>, maxOutput: Option<int>,
          capabilities: map<Capability, bool>, deprecationDate: Option<string>, prices: Prices)

  datatype Entry = Entry(
    canonicalId: string,
    kind: ProviderKind,
    displayName: string,
    contextWindow: Option<int>,
    maxOutput: Option<int>,
    capabilities: map<Capability, bool>,
    deprecationDate: Option<string>,
    prices: Prices)

  datatype Report =
    | Junk(key: string) | CloudHosted(key: string) | Duplicate(key: string) | Superseded(canonicalId: string)

  /** A kept entry and the key it came under. */
  datatype Slot = Slot(key: string, entry: Entry)

  datatype Verdict = Ignore | Skip(report: Report) | Use(slot: Slot)

  datatype State = State(slots: seq<Slot>, skipped: seq<Report>)

  // ---------------------------------------------------------------- one key

  /** What is read off an entry besides its shape: known providers and hosted names. */
  datatype Rules = Rules(kindOf: string -> Option<ProviderKind>, cloudHosted: (string, string) -> bool)

  predicate Namespaced(key: string) {
    '/' in key
  }

  function Canonical(provider: string, key: string): string {
    if Namespaced(key) then key else provider + "/" + key
  }

  function LastSegment(key: string): string
    decreases |key|
  {
    if '/' !in key then key else LastSegment(AfterSlash(key))
  }

  /** What follows the first slash. */
  function AfterSlash(s: string): (r: string)
    requires '/' in s
    ensures |r| < |s|
  {
    if s[0] == '/' then s[1..] else AfterSlash(s[1..])
  }

  predicate CarriesData(raw: Raw)
    requires raw.Raw?
  {
    raw.prices.input.Some? || raw.prices.output.Some? || raw.capabilities != map[]
  }

  function ContextWindow(raw: Raw): Option<int>
    requires raw.Raw?
  {
    if raw.maxInput.Some? then raw.maxInput else raw.maxTokens
  }

  function Classify(rules: Rules, key: string, raw: Raw): Verdict {
    if key == "sample_spec" then Ignore
    else if raw.Malformed? || (raw.mode.Some? && raw.mode.value != "chat") then Skip(Junk(key))
    else
      var kind := rules.kindOf(raw.provider);
      if kind.None? then Skip(Junk(key))
      else if rules.cloudHosted(raw.provider, key) then Skip(CloudHosted(key))
      else if ContextWindow(raw).None? && !CarriesData(raw) then Skip(Junk(key))
      else
        Use(Slot(key, Entry(Canonical(raw.provider, key), kind.value, LastSegment(key),
          ContextWindow(raw), raw.maxOutput, raw.capabilities, raw.deprecationDate, raw.prices)))
  }

  /** The router's own table. */
  function ProviderToKind(provider: string): Option<ProviderKind> {
    if provider == "openai" || provider == "azure" || provider == "groq" || provider == "deepseek"
    then Some(OpenAiCompat)
    else if provider == "anthropic" then Some(AnthropicApi)
    else if provider == "ollama" then Some(Local)
    else if provider == "digitalocean" then Some(DigitalOcean)
    else None
  }

  /** Ollama lists hosted models too; `cloudName` is the pattern they are told apart by. */
  function RouterRules(cloudName: string -> bool): Rules {
    Rules(ProviderToKind, (provider, key) => provider == "ollama" && cloudName(key))
  }

  // ---------------------------------------------------------------- the whole feed

  type Classifier = (string, Raw) -> Verdict

  function Classifying(rules: Rules): Classifier {
    (key, raw) => Classify(rules, key, raw)
  }

  function Find(slots: seq<Slot>, id: string): (r: Option<nat>)
    ensures r.Some? ==> r.value < |slots| && slots[r.value].entry.canonicalId == id
    ensures r.None? ==> forall t :: t in slots ==> t.entry.canonicalId != id
  {
    if slots == [] then None
    else if slots[0].entry.canonicalId == id then Some(0)
    else match Find(slots[1..], id) case None => None case Some(i) => Some(i + 1)
  }

  function Add(st: State, slot: Slot): State {
    match Find(st.slots, slot.entry.canonicalId)
    case None => State(st.slots + [slot], st.skipped)
    case Some(i) =>
      if Namespaced(slot.key) && !Namespaced(st.slots[i].key)
      then State(st.slots[i := slot], st.skipped + [Superseded(slot.entry.canonicalId)])
      else State(st.slots, st.skipped + [Duplicate(slot.key)])
  }

  function Step(st: State, v: Verdict): State {
    match v
    case Ignore => st
    case Skip(report) => State(st.slots, st.skipped + [report])
    case Use(slot) => Add(st, slot)
  }

  function Parsed(classify: Classifier, feed: seq<(string, Raw)>): State {
    if feed == [] then State([], [])
    else
      var last := feed[|feed| - 1];
      Step(Parsed(classify, feed[..|feed| - 1]), classify(last.0, last.1))
  }

  function Entries(slots: seq<Slot>): (r: seq<Entry>)
    ensures |r| == |slots| && forall i :: 0 <= i < |r| ==> r[i] == slots[i].entry
  {
    seq(|slots|, i requires 0 <= i < |slots| => slots[i].entry)
  }

  /** The loop, with the ordered map of entries by canonical id as `slots`. */
  method ParseFeed(classify: Classifier, feed: seq<(string, Raw)>) returns (entries: seq<Entry>, skipped: seq<Report>)
    ensures entries == Entries(Parsed(classify, feed).slots) && skipped == Parsed(classify, feed).skipped
  {
    var slots := [];
    skipped := [];
    for i := 0 to |feed|
      invariant State(slots, skipped) == Parsed(classify, feed[..i])
    {
      assert feed[..i + 1][..i] == feed[..i];
      match classify(feed[i].0, feed[i].1) {
        case Ignore =>
        case Skip(report) => skipped := skipped + [report];
        case Use(slot) =>
          var existing := Find(slots, slot.entry.canonicalId);
          if existing.None? {
            slots := slots + [slot];
          } else if Namespaced(slot.key) && !Namespaced(slots[existing.value].key) {
            skipped := skipped + [Superseded(slot.entry.canonicalId)];
            slots := slots[existing.value := slot];
          } else {
            skipped := skipped + [Duplicate(slot.key)];
          }
      }
    }
    assert feed[..|feed|] == feed;
    entries := Entries(slots);
  }

  // ---------------------------------------------------------------- what a classifier must keep

  /** An accepted key gives a slot whose id is the key itself or the key behind a slash-free prefix. */
  ghost predicate KeepsKeys(classify: Classifier) {
    forall key, raw ::
      match classify(key, raw)
      case Ignore => true
      case Skip(report) => (report.Junk? || report.CloudHosted?) && report.key == key
      case Use(slot) => slot.key == key && IdFits(key, slot.entry.canonicalId)
  }

  predicate IdFits(key: string, id: string) {
    if Namespaced(key) then id == key else '/' in id && AfterSlash(id) == key
  }

  lemma {:induction false} AfterFirstSlash(provider: string, key: string)
    requires '/' !in provider
    ensures '/' in provider + "/" + key && AfterSlash(provider + "/" + key) == key
  {
    var s := provider + "/" + key;
    assert s[|provider|] == '/';
    if provider == [] {
      assert s[1..] == key;
    } else {
      assert s[0] == provider[0] && provider[0] in provider;
      assert s[1..] == provider[1..] + "/" + key;
      AfterFirstSlash(provider[1..], key);
    }
  }

  lemma ClassifyKeepsKeys(rules: Rules)
    requires forall provider :: rules.kindOf(provider).Some? ==> '/' !in provider
    ensures KeepsKeys(Classifying(rules))
  {
    forall key, raw | Classify(rules, key, raw).Use? && !Namespaced(key)
      ensures IdFits(key, Canonical(raw.provider, key))
    {
      AfterFirstSlash(raw.provider, key);
    }
  }

  lemma RouterRulesKeepKeys(cloudName: string -> bool)
    ensures KeepsKeys(Classifying(RouterRules(cloudName)))
  {
    forall provider | ProviderToKind(provider).Some? ensures '/' !in provider {
    }
    ClassifyKeepsKeys(RouterRules(cloudName));
  }

  // ---------------------------------------------------------------- which slots survive

  predicate DistinctKeys(feed: seq<(string, Raw)>) {
    forall i, j :: 0 <= i < j < |feed| ==> feed[i].0 != feed[j].0
  }

  ghost predicate Offered(classify: Classifier, feed: seq<(string, Raw)>, slot: Slot) {
    exists i :: 0 <= i < |feed| && classify(feed[i].0, feed[i].1) == Use(slot)
  }

  /** Two offers for one id of the same style are the same offer. */
  lemma OffersOfOneStyle(classify: Classifier, feed: seq<(string, Raw)>, s: Slot, t: Slot)
    requires KeepsKeys(classify) && DistinctKeys(feed)
    requires Offered(classify, feed, s) && Offered(classify, feed, t)
    requires s.entry.canonicalId == t.entry.canonicalId && (Namespaced(s.key) <==> Namespaced(t.key))
    ensures s == t
  {
    var i :| 0 <= i < |feed| && classify(feed[i].0, feed[i].1) == Use(s);
    var j :| 0 <= j < |feed| && classify(feed[j].0, feed[j].1) == Use(t);
    assert feed[i].0 == s.key && feed[j].0 == t.key;
    assert s.key == t.key;
    assert i == j;
  }

  ghost predicate Outranks(slots: seq<Slot>, slot: Slot) {
    exists i :: 0 <= i < |slots| && slots[i].entry.canonicalId == slot.entry.canonicalId
             && (Namespaced(slot.key) ==> Namespaced(slots[i].key))
  }

  predicate UniqueIds(slots: seq<Slot>) {
    forall i, j :: 0 <= i < j < |slots| ==> slots[i].entry.canonicalId != slots[j].entry.canonicalId
  }

  lemma {:induction false} ParsedInvariant(classify: Classifier, feed: seq<(string, Raw)>)
    ensures var slots := Parsed(classify, feed).slots;
            && UniqueIds(slots)
            && (forall t :: t in slots ==> Offered(classify, feed, t))
            && (forall t :: Offered(classify, feed, t) ==> Outranks(slots, t))
  {
    if feed != [] {
      var n := |feed| - 1;
      var st := Parsed(classify, feed[..n]);
      var v := classify(feed[n].0, feed[n].1);
      ParsedInvariant(classify, feed[..n]);
      var slots := Step(st, v).slots;
      StepKeepsUnique(st, v);
      forall t | t in slots ensures Offered(classify, feed, t) {
        if t in st.slots { OfferedGrows(classify, feed, t); }
      }
      forall t | Offered(classify, feed, t) ensures Outranks(slots, t) {
        if Offered(classify, feed[..n], t) {
          StepKeepsRank(st, v, t);
        } else {
          OfferedLast(classify, feed, t);
          StepRanksNew(st, t);
        }
      }
    }
  }

  lemma OfferedGrows(classify: Classifier, feed: seq<(string, Raw)>, t: Slot)
    requires feed != [] && Offered(classify, feed[..|feed| - 1], t)
    ensures Offered(classify, feed, t)
  {
    var i :| 0 <= i < |feed| - 1 && classify(feed[..|feed| - 1][i].0, feed[..|feed| - 1][i].1) == Use(t);
    assert classify(feed[i].0, feed[i].1) == Use(t);
  }

  lemma OfferedLast(classify: Classifier, feed: seq<(string, Raw)>, t: Slot)
    requires feed != [] && Offered(classify, feed, t) && !Offered(classify, feed[..|feed| - 1], t)
    ensures classify(feed[|feed| - 1].0, feed[|feed| - 1].1) == Use(t)
  {
    assert forall j :: 0 <= j < |feed| - 1 ==> feed[..|feed| - 1][j] == feed[j];
  }

  lemma StepKeepsUnique(st: State, v: Verdict)
    requires UniqueIds(st.slots)
    ensures UniqueIds(Step(st, v).slots)
    ensures forall t :: t in Step(st, v).slots ==> t in st.slots || v == Use(t)
  {
  }

  lemma StepKeepsRank(st: State, v: Verdict, t: Slot)
    requires Outranks(st.slots, t)
    ensures Outranks(Step(st, v).slots, t)
  {
    var slots := Step(st, v).slots;
    var i :| 0 <= i < |st.slots| && st.slots[i].entry.canonicalId == t.entry.canonicalId
          && (Namespaced(t.key) ==> Namespaced(st.slots[i].key));
    assert slots[i].entry.canonicalId == t.entry.canonicalId && (Namespaced(t.key) ==> Namespaced(slots[i].key));
  }

  lemma StepRanksNew(st: State, t: Slot)
    ensures Outranks(Step(st, Use(t)).slots, t)
  {
    var slots := Step(st, Use(t)).slots;
    match Find(st.slots, t.entry.canonicalId) {
      case None => assert slots[|st.slots|] == t;
      case Some(i) =>
        assert slots[i].entry.canonicalId == t.entry.canonicalId && (Namespaced(t.key) ==> Namespaced(slots[i].key));
    }
  }

  /** A slot survives exactly when it was offered and no namespaced key outranks it. */
  lemma SurvivorsAre(classify: Classifier, feed: seq<(string, Raw)>, slot: Slot)
    requires KeepsKeys(classify) && DistinctKeys(feed)
    ensures slot in Parsed(classify, feed).slots <==>
              && Offered(classify, feed, slot)
              && (Namespaced(slot.key) ||
                  forall t :: Offered(classify, feed, t) && t.entry.canonicalId == slot.entry.canonicalId ==>
                    !Namespaced(t.key))
  {
    var slots := Parsed(classify, feed).slots;
    ParsedInvariant(classify, feed);
    if slot in slots && !Namespaced(slot.key) {
      forall t | Offered(classify, feed, t) && t.entry.canonicalId == slot.entry.canonicalId
        ensures !Namespaced(t.key)
      {
        assert Outranks(slots, t);
      }
    }
    if Offered(classify, feed, slot) {
      assert Outranks(slots, slot);
      var i :| 0 <= i < |slots| && slots[i].entry.canonicalId == slot.entry.canonicalId
            && (Namespaced(slot.key) ==> Namespaced(slots[i].key));
      assert slots[i] in slots;
      if Namespaced(slot.key) || !Namespaced(slots[i].key) {
        OffersOfOneStyle(classify, feed, slot, slots[i]);
      }
    }
  }

  /** No id is kept twice, and what is kept does not depend on the order of the keys. */
  lemma KeyOrderIrrelevant(classify: Classifier, feed: seq<(string, Raw)>, other: seq<(string, Raw)>)
    requires KeepsKeys(classify) && DistinctKeys(feed) && DistinctKeys(other)
    requires forall pair :: pair in feed <==> pair in other
    ensures UniqueIds(Parsed(classify, feed).slots) && UniqueIds(Parsed(classify, other).slots)
    ensures forall slot :: slot in Parsed(classify, feed).slots <==> slot in Parsed(classify, other).slots
  {
    ParsedInvariant(classify, feed);
    ParsedInvariant(classify, other);
    forall t ensures Offered(classify, feed, t) <==> Offered(classify, other, t) {
      OfferedIn(classify, feed, other, t);
      OfferedIn(classify, other, feed, t);
    }
    forall slot ensures slot in Parsed(classify, feed).slots <==> slot in Parsed(classify, other).slots {
      SurvivorsAre(classify, feed, slot);
      SurvivorsAre(classify, other, slot);
    }
  }

  lemma OfferedIn(classify: Classifier, feed: seq<(string, Raw)>, other: seq<(string, Raw)>, t: Slot)
    requires forall pair :: pair in feed ==> pair in other
    ensures Offered(classify, feed, t) ==> Offered(classify, other, t)
  {
    if Offered(classify, feed, t) {
      var i :| 0 <= i < |feed| && classify(feed[i].0, feed[i].1) == Use(t);
      assert feed[i] in other;
      var j :| 0 <= j < |other| && other[j] == feed[i];
      assert classify(other[j].0, other[j].1) == Use(t);
    }
  }

  // ---------------------------------------------------------------- every key is accounted for

  function KeyOf(report: Report): string {
    match report
    case Junk(key) => key
    case CloudHosted(key) => key
    case Duplicate(key) => key
    case Superseded(id) => if '/' in id then AfterSlash(id) else id
  }

  function Tick(same: bool): nat {
    if same then 1 else 0
  }

  /** How many kept slots came under a key. */
  function Kept(slots: seq<Slot>, key: string): nat {
    if slots == [] then 0 else Kept(slots[..|slots| - 1], key) + Tick(slots[|slots| - 1].key == key)
  }

  /** How many reports name it. */
  function Reported(reports: seq<Report>, key: string): nat {
    if reports == [] then 0 else Reported(reports[..|reports| - 1], key) + Tick(KeyOf(reports[|reports| - 1]) == key)
  }

  /** How often it occurs in the feed, ignored entries aside. */
  function Occurs(classify: Classifier, feed: seq<(string, Raw)>, key: string): nat {
    if feed == [] then 0
    else
      var last := feed[|feed| - 1];
      Occurs(classify, feed[..|feed| - 1], key) + Tick(last.0 == key && !classify(last.0, last.1).Ignore?)
  }

  lemma KeptGrows(slots: seq<Slot>, slot: Slot, key: string)
    ensures Kept(slots + [slot], key) == Kept(slots, key) + Tick(slot.key == key)
  {
    assert (slots + [slot])[..|slots|] == slots;
  }

  lemma ReportedGrows(reports: seq<Report>, report: Report, key: string)
    ensures Reported(reports + [report], key) == Reported(reports, key) + Tick(KeyOf(report) == key)
  {
    assert (reports + [report])[..|reports|] == reports;
  }

  lemma {:induction false} KeptReplaced(slots: seq<Slot>, i: nat, slot: Slot, key: string)
    requires i < |slots|
    ensures Kept(slots[i := slot], key) + Tick(slots[i].key == key) == Kept(slots, key) + Tick(slot.key == key)
    decreases |slots|
  {
    var n := |slots| - 1;
    if i == n {
      assert slots[i := slot][..n] == slots[..n];
    } else {
      KeptReplaced(slots[..n], i, slot, key);
      assert slots[i := slot][..n] == slots[..n][i := slot];
    }
  }

  lemma AddAccounts(st: State, slot: Slot, key: string)
    requires IdFits(slot.key, slot.entry.canonicalId)
    requires forall t :: t in st.slots ==> IdFits(t.key, t.entry.canonicalId)
    ensures Kept(Add(st, slot).slots, key) + Reported(Add(st, slot).skipped, key) ==
            Kept(st.slots, key) + Reported(st.skipped, key) + Tick(slot.key == key)
  {
    var id := slot.entry.canonicalId;
    match Find(st.slots, id) {
      case None => KeptGrows(st.slots, slot, key);
      case Some(i) =>
        ReportedGrows(st.skipped, Duplicate(slot.key), key);
        ReportedGrows(st.skipped, Superseded(id), key);
        KeptReplaced(st.slots, i, slot, key);
        assert st.slots[i] in st.slots;
    }
  }

  /** Kept entries and reports together account for every key, each as often as it occurs. */
  lemma {:induction false} EveryKeyAccounted(classify: Classifier, feed: seq<(string, Raw)>, key: string)
    requires KeepsKeys(classify)
    ensures var st := Parsed(classify, feed);
            Kept(st.slots, key) + Reported(st.skipped, key) == Occurs(classify, feed, key)
  {
    if feed != [] {
      var n := |feed| - 1;
      var st := Parsed(classify, feed[..n]);
      EveryKeyAccounted(classify, feed[..n], key);
      SlotsFit(classify, feed[..n]);
      match classify(feed[n].0, feed[n].1) {
        case Ignore =>
        case Skip(report) => ReportedGrows(st.skipped, report, key);
        case Use(slot) => AddAccounts(st, slot, key);
      }
    }
  }

  /** In a feed, where no key repeats, every key that is not ignored occurs once. */
  lemma {:induction false} OccursOnce(classify: Classifier, feed: seq<(string, Raw)>, key: string)
    requires DistinctKeys(feed)
    ensures Occurs(classify, feed, key) ==
            Tick(exists i :: 0 <= i < |feed| && feed[i].0 == key && !classify(feed[i].0, feed[i].1).Ignore?)
  {
    if feed != [] {
      var n := |feed| - 1;
      OccursOnce(classify, feed[..n], key);
      assert forall i :: 0 <= i < n ==> feed[..n][i] == feed[i];
    }
  }

  lemma SlotsFit(classify: Classifier, feed: seq<(string, Raw)>)
    requires KeepsKeys(classify)
    ensures forall t :: t in Parsed(classify, feed).slots ==> IdFits(t.key, t.entry.canonicalId)
  {
    ParsedInvariant(classify, feed);
    forall t | t in Parsed(classify, feed).slots ensures IdFits(t.key, t.entry.canonicalId) {
      var i :| 0 <= i < |feed| && classify(feed[i].0, feed[i].1) == Use(t);
    }
  }

  /**
   * The router's feed, accounted for: every key other than `sample_spec` is kept once or reported
   * once, and no other key is named.
   */
  lemma FeedIsAccounted(cloudName: string -> bool, feed: seq<(string, Raw)>, key: string)
    requires DistinctKeys(feed)
    ensures var st := Parsed(Classifying(RouterRules(cloudName)), feed);
            Kept(st.slots, key) + Reported(st.skipped, key) ==
            Tick(key != "sample_spec" && exists i :: 0 <= i < |feed| && feed[i].0 == key)
  {
    var classify := Classifying(RouterRules(cloudName));
    RouterRulesKeepKeys(cloudName);
    EveryKeyAccounted(classify, feed, key);
    OccursOnce(classify, feed, key);
    OnlySampleIgnored(classify, cloudName, feed, key);
  }

  lemma OnlySampleIgnored(classify: Classifier, cloudName: string -> bool, feed: seq<(string, Raw)>, key: string)
    requires classify == Classifying(RouterRules(cloudName))
    ensures (exists i :: 0 <= i < |feed| && feed[i].0 == key && !classify(feed[i].0, feed[i].1).Ignore?) <==>
            key != "sample_spec" && exists i :: 0 <= i < |feed| && feed[i].0 == key
  {
    forall i | 0 <= i < |feed| && feed[i].0 == key
      ensures classify(feed[i].0, feed[i].1).Ignore? <==> key == "sample_spec"
    {
      IgnoredExactly(RouterRules(cloudName), feed[i].0, feed[i].1);
    }
  }

  lemma IgnoredExactly(rules: Rules, key: string, raw: Raw)
    ensures Classifying(rules)(key, raw).Ignore? <==> key == "sample_spec"
  {
  }
}

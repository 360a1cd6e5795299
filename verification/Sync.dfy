/**
 * Catalog reconciliation (src/catalog/sync.ts): upsert every feed entry, append changed prices,
 * flag what vanished. A model is named by its canonical id, which the table keeps unique.
 */
module Sync {
  import opened Common
  import opened Policy
  import opened Feed

  datatype Source = Synced | Custom | Discovered
  datatype PriceRow = PriceRow(at: int, prices: Prices)

  /** A catalog row together with its append-only pricing history. */
  datatype Row = Row(
    kind: ProviderKind,
    displayName: string,
    contextWindow: int,
    maxOutput: Option<int>,
    capabilities: map<Capability, bool>,
    overrides: map<Capability, bool>,
    status: ModelStatus,
    deprecationDate: Option<string>,
    source: Source,
    history: seq<PriceRow>)

  type Catalog = map<string, Row>

  datatype Note = FromFeed(report: Feed.Report) | EnrichOnly(id: string) | Errored(id: string)

  datatype Diff = Diff(added: seq<string>, updated: seq<string>, priced: seq<string>, deprecated: seq<string>,
                       skipped: seq<Note>, untouched: nat)

  /** How the database serves one entry: a failure may strike before or after the upsert. */
  datatype Fate = Works | FailsAtOnce | FailsBeforePricing

  // ---------------------------------------------------------------- pricing history

  /** The row in force at a time: the latest that has taken effect. */
  function PricingAt(history: seq<PriceRow>, ts: int): Option<PriceRow> {
    if history == [] then None
    else
      var row := history[|history| - 1];
      var before := PricingAt(history[..|history| - 1], ts);
      if row.at <= ts && (before.None? || before.value.at < row.at) then Some(row) else before
  }

  function Latest(history: seq<PriceRow>): Option<PriceRow> {
    if history == [] then None
    else
      var row := history[|history| - 1];
      var before := Latest(history[..|history| - 1]);
      if before.None? || before.value.at < row.at then Some(row) else before
  }

  predicate AnyPrice(p: Prices) {
    p.input.Some? || p.output.Some? || p.cacheRead.Some? || p.cacheWrite.Some?
  }

  predicate Appends(history: seq<PriceRow>, p: Prices) {
    (Latest(history).None? || Latest(history).value.prices != p) && AnyPrice(p)
  }

  function WithPrice(history: seq<PriceRow>, p: Prices, now: int): seq<PriceRow> {
    if Appends(history, p) then history + [PriceRow(now, p)] else history
  }

  // ---------------------------------------------------------------- one entry

  function NewRow(e: Entry): Row
    requires e.contextWindow.Some?
  {
    Row(e.kind, e.displayName, e.contextWindow.value, e.maxOutput, e.capabilities, map[], Active, e.deprecationDate,
        Synced, [])
  }

  /** The specs an entry asserts; an entry without a context window leaves the stored ones alone. */
  function NextContext(current: Row, e: Entry): int {
    e.contextWindow.OrElse(current.contextWindow)
  }

  function NextMaxOutput(current: Row, e: Entry): Option<int> {
    if e.contextWindow.None? then current.maxOutput else e.maxOutput
  }

  predicate Changed(current: Row, e: Entry) {
    current.contextWindow != NextContext(current, e) || current.maxOutput != NextMaxOutput(current, e)
    || current.capabilities != e.capabilities || current.deprecationDate != e.deprecationDate
    || current.status == Deprecated
  }

  function Updated(row: Row, current: Row, e: Entry): Row {
    row.(contextWindow := NextContext(current, e), maxOutput := NextMaxOutput(current, e),
         capabilities := e.capabilities, deprecationDate := e.deprecationDate, status := Active)
  }

  datatype Progress = Progress(models: Catalog, diff: Diff)

  function Upserted(g: Progress, current: Option<Row>, e: Entry): Progress
    requires current.None? ==> e.contextWindow.Some?
  {
    var id := e.canonicalId;
    if current.None? then Progress(g.models[id := NewRow(e)], g.diff.(added := g.diff.added + [id]))
    else if Changed(current.value, e) && id in g.models then
      Progress(g.models[id := Updated(g.models[id], current.value, e)], g.diff.(updated := g.diff.updated + [id]))
    else g
  }

  function Priced(g: Progress, e: Entry, now: int, existed: bool): Progress {
    var id := e.canonicalId;
    if id !in g.models then g
    else if Appends(g.models[id].history, e.prices) then
      var row := g.models[id];
      Progress(g.models[id := row.(history := row.history + [PriceRow(now, e.prices)])],
               g.diff.(priced := g.diff.priced + [id]))
    else if existed && id !in g.diff.updated && id !in g.diff.added
    then g.(diff := g.diff.(untouched := g.diff.untouched + 1))
    else g
  }

  function Noted(g: Progress, note: Note): Progress {
    g.(diff := g.diff.(skipped := g.diff.skipped + [note]))
  }

  function SyncOne(g: Progress, current: Option<Row>, e: Entry, now: int, fate: Fate): Progress {
    if current.Some? && current.value.source == Custom then g.(diff := g.diff.(untouched := g.diff.untouched + 1))
    else if current.None? && e.contextWindow.None? then Noted(g, EnrichOnly(e.canonicalId))
    else
      match fate
      case FailsAtOnce => Noted(g, Errored(e.canonicalId))
      case FailsBeforePricing => Noted(Upserted(g, current, e), Errored(e.canonicalId))
      case Works => Priced(Upserted(g, current, e), e, now, current.Some?)
  }

  // ---------------------------------------------------------------- the whole run

  function Get(models: Catalog, id: string): Option<Row> {
    if id in models then Some(models[id]) else None
  }

  /** After the first n entries; `existing` is the snapshot read before the loop. */
  function Reconciled(existing: Catalog, entries: seq<Entry>, n: nat, now: int, fates: nat -> Fate,
                      start: Diff): Progress
    requires n <= |entries|
  {
    if n == 0 then Progress(existing, start)
    else
      var e := entries[n - 1];
      SyncOne(Reconciled(existing, entries, n - 1, now, fates, start), Get(existing, e.canonicalId), e, now,
              fates(n - 1))
  }

  predicate InFeed(entries: seq<Entry>, id: string) {
    exists i :: 0 <= i < |entries| && entries[i].canonicalId == id
  }

  predicate Vanished(existing: Catalog, entries: seq<Entry>, id: string) {
    id in existing && existing[id].source == Synced && existing[id].status == Active && !InFeed(entries, id)
  }

  /** Flag, never delete; the second look at the source guards operator rows once more. */
  function Flagged(existing: Catalog, entries: seq<Entry>, models: Catalog): Catalog {
    map id | id in models ::
      if Vanished(existing, entries, id) && models[id].source != Custom
      then models[id].(status := Deprecated)
      else models[id]
  }

  function FlagVanished(existing: Catalog, entries: seq<Entry>, g: Progress, gone: seq<string>): Progress {
    Progress(Flagged(existing, entries, g.models), g.diff.(deprecated := g.diff.deprecated + gone))
  }

  /** The vanished ids in the order of the snapshot read. */
  ghost predicate Lists(gone: seq<string>, existing: Catalog, entries: seq<Entry>) {
    forall id :: id in gone <==> Vanished(existing, entries, id)
  }

  class CatalogDb {
    var models: Catalog

    constructor (models: Catalog)
      ensures this.models == models
    {
      this.models := models;
    }

    method SyncOneModel(current: Option<Row>, e: Entry, now: int, fate: Fate, diff: Diff) returns (after: Diff)
      modifies this
      ensures Progress(models, after) == SyncOne(Progress(old(models), diff), current, e, now, fate)
    {
      var id := e.canonicalId;
      after := diff;
      if current.Some? && current.value.source == Custom {
        return after.(untouched := after.untouched + 1);
      }
      if current.None? && e.contextWindow.None? {
        return after.(skipped := after.skipped + [EnrichOnly(id)]);
      }
      if fate == FailsAtOnce { return after.(skipped := after.skipped + [Errored(id)]); }
      if current.None? {
        models := models[id := NewRow(e)];
        after := after.(added := after.added + [id]);
      } else if Changed(current.value, e) && id in models {
        models := models[id := Updated(models[id], current.value, e)];
        after := after.(updated := after.updated + [id]);
      }
      if fate == FailsBeforePricing { return after.(skipped := after.skipped + [Errored(id)]); }
      if id !in models { return; }
      if Appends(models[id].history, e.prices) {
        models := models[id := models[id].(history := models[id].history + [PriceRow(now, e.prices)])];
        after := after.(priced := after.priced + [id]);
      } else if current.Some? && id !in after.updated && id !in after.added {
        after := after.(untouched := after.untouched + 1);
      }
    }

    /** `order` lists the stored ids as the snapshot read returns them. */
    method SyncCatalog(classify: Classifier, feed: seq<(string, Raw)>, now: int, fates: nat -> Fate, order: seq<string>)
      returns (diff: Diff)
      requires forall id :: id in order <==> id in models
      modifies this
      ensures exists gone ::
                && Lists(gone, old(models), Entries(Parsed(classify, feed).slots))
                && Progress(models, diff) == SyncFeed(old(models), classify, feed, now, fates, gone)
    {
      var entries, skips := ParseFeed(classify, feed);
      var existing := models;
      ghost var start := StartOf(skips);
      diff := Diff([], [], [], [], Notes(skips), 0);
      for i := 0 to |entries|
        invariant Progress(models, diff) == Reconciled(existing, entries, i, now, fates, start)
      {
        diff := SyncOneModel(Get(existing, entries[i].canonicalId), entries[i], now, fates(i), diff);
      }
      var gone := VanishedOf(existing, entries, order);
      models := Flagged(existing, entries, models);
      diff := diff.(deprecated := diff.deprecated + gone);
    }
  }

  method VanishedOf(existing: Catalog, entries: seq<Entry>, order: seq<string>) returns (gone: seq<string>)
    requires forall id :: id in order <==> id in existing
    ensures Lists(gone, existing, entries)
  {
    gone := [];
    for i := 0 to |order|
      invariant forall id :: id in gone <==> id in order[..i] && Vanished(existing, entries, id)
    {
      assert order[..i + 1] == order[..i] + [order[i]];
      if Vanished(existing, entries, order[i]) { gone := gone + [order[i]]; }
    }
    assert order[..|order|] == order;
  }

  function Notes(skips: seq<Feed.Report>): seq<Note> {
    seq(|skips|, i requires 0 <= i < |skips| => FromFeed(skips[i]))
  }

  function StartOf(skips: seq<Feed.Report>): Diff {
    Diff([], [], [], [], Notes(skips), 0)
  }

  function SyncEntries(existing: Catalog, entries: seq<Entry>, now: int, fates: nat -> Fate, start: Diff,
                       gone: seq<string>): Progress {
    FlagVanished(existing, entries, Reconciled(existing, entries, |entries|, now, fates, start), gone)
  }

  function SyncFeed(existing: Catalog, classify: Classifier, feed: seq<(string, Raw)>, now: int, fates: nat -> Fate,
                    gone: seq<string>): Progress {
    var st := Parsed(classify, feed);
    SyncEntries(existing, Entries(st.slots), now, fates, StartOf(st.skipped), gone)
  }
}

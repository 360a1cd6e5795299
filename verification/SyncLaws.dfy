/** What every sync keeps, and that a second sync of the same feed is a fixpoint. */
module SyncLaws {
  import opened Common
  import opened Policy
  import opened Feed
  import opened Sync

  // ---------------------------------------------------------------- a run, one id at a time

  function UpsertedRow(current: Option<Row>, e: Entry): Row
    requires current.None? ==> e.contextWindow.Some?
  {
    if current.None? then NewRow(e)
    else if Changed(current.value, e) then Updated(current.value, current.value, e)
    else current.value
  }

  /** What one entry makes of the row with its id. */
  function RowAfter(current: Option<Row>, e: Entry, now: int, fate: Fate): Option<Row> {
    if current.Some? && current.value.source == Custom then current
    else if current.None? && e.contextWindow.None? then None
    else
      match fate
      case FailsAtOnce => current
      case FailsBeforePricing => Some(UpsertedRow(current, e))
      case Works =>
        var row := UpsertedRow(current, e);
        Some(row.(history := WithPrice(row.history, e.prices, now)))
  }

  lemma OneEntryOneRow(g: Progress, current: Option<Row>, e: Entry, now: int, fate: Fate, id: string)
    requires Get(g.models, e.canonicalId) == current
    ensures Get(SyncOne(g, current, e, now, fate).models, id) ==
            if id == e.canonicalId then RowAfter(current, e, now, fate) else Get(g.models, id)
  {
  }

  predicate UniqueEntries(entries: seq<Entry>) {
    forall i, j :: 0 <= i < j < |entries| ==> entries[i].canonicalId != entries[j].canonicalId
  }

  lemma {:induction false} NotYetReached(existing: Catalog, entries: seq<Entry>, n: nat, now: int,
                                         fates: nat -> Fate, start: Diff, id: string)
    requires n <= |entries| && UniqueEntries(entries)
    requires forall i :: 0 <= i < n ==> entries[i].canonicalId != id
    ensures Get(Reconciled(existing, entries, n, now, fates, start).models, id) == Get(existing, id)
  {
    if n > 0 {
      var e := entries[n - 1];
      NotYetReached(existing, entries, n - 1, now, fates, start, id);
      NotYetReached(existing, entries, n - 1, now, fates, start, e.canonicalId);
      OneEntryOneRow(Reconciled(existing, entries, n - 1, now, fates, start), Get(existing, e.canonicalId), e, now,
                     fates(n - 1), id);
    }
  }

  lemma {:induction false} Reached(existing: Catalog, entries: seq<Entry>, n: nat, now: int, fates: nat -> Fate,
                                   start: Diff, i: nat)
    requires i < n <= |entries| && UniqueEntries(entries)
    ensures Get(Reconciled(existing, entries, n, now, fates, start).models, entries[i].canonicalId) ==
            RowAfter(Get(existing, entries[i].canonicalId), entries[i], now, fates(i))
    decreases n
  {
    var e := entries[n - 1];
    var id := entries[i].canonicalId;
    NotYetReached(existing, entries, n - 1, now, fates, start, e.canonicalId);
    OneEntryOneRow(Reconciled(existing, entries, n - 1, now, fates, start), Get(existing, e.canonicalId), e, now,
                   fates(n - 1), id);
    if i < n - 1 {
      Reached(existing, entries, n - 1, now, fates, start, i);
    }
  }

  /** A run maps every id by its entry or, without one, flags it if it vanished. */
  lemma RunById(existing: Catalog, entries: seq<Entry>, now: int, fates: nat -> Fate, start: Diff,
                gone: seq<string>, id: string)
    requires UniqueEntries(entries)
    ensures var after := Get(SyncEntries(existing, entries, now, fates, start, gone).models, id);
            if InFeed(entries, id)
            then exists i :: 0 <= i < |entries| && entries[i].canonicalId == id
                          && after == RowAfter(Get(existing, id), entries[i], now, fates(i))
            else if Vanished(existing, entries, id) then after == Some(existing[id].(status := Deprecated))
            else after == Get(existing, id)
  {
    if InFeed(entries, id) {
      var i :| 0 <= i < |entries| && entries[i].canonicalId == id;
      Reached(existing, entries, |entries|, now, fates, start, i);
    } else {
      NotYetReached(existing, entries, |entries|, now, fates, start, id);
    }
  }

  // ---------------------------------------------------------------- history is left alone

  /** Rows are never deleted, operator rows and overrides never touched, past prices never changed. */
  ghost predicate Preserved(before: Option<Row>, after: Option<Row>, now: int) {
    before.Some? ==>
      && after.Some?
      && after.value.overrides == before.value.overrides && after.value.source == before.value.source
      && (before.value.source == Custom ==> after == before)
      && before.value.history <= after.value.history
      && forall ts :: ts < now ==> PricingAt(after.value.history, ts) == PricingAt(before.value.history, ts)
  }

  lemma PastPricesStay(history: seq<PriceRow>, p: Prices, now: int, ts: int)
    requires ts < now
    ensures PricingAt(WithPrice(history, p, now), ts) == PricingAt(history, ts)
  {
    assert (history + [PriceRow(now, p)])[..|history|] == history;
  }

  lemma EntryPreserves(current: Option<Row>, e: Entry, now: int, fate: Fate)
    ensures Preserved(current, RowAfter(current, e, now, fate), now)
  {
    if current.Some? {
      var history := current.value.history;
      forall ts | ts < now ensures PricingAt(WithPrice(history, e.prices, now), ts) == PricingAt(history, ts) {
        PastPricesStay(history, e.prices, now, ts);
      }
    }
  }

  /** Whatever the feed holds and wherever the database fails. */
  lemma SyncPreserves(existing: Catalog, classify: Classifier, feed: seq<(string, Raw)>, now: int,
                      fates: nat -> Fate, gone: seq<string>, id: string)
    ensures Preserved(Get(existing, id), Get(SyncFeed(existing, classify, feed, now, fates, gone).models, id), now)
  {
    var st := Parsed(classify, feed);
    var entries := Entries(st.slots);
    FeedEntriesUnique(classify, feed);
    RunById(existing, entries, now, fates, StartOf(st.skipped), gone, id);
    if InFeed(entries, id) {
      forall i | 0 <= i < |entries|
        ensures Preserved(Get(existing, id), RowAfter(Get(existing, id), entries[i], now, fates(i)), now)
      {
        EntryPreserves(Get(existing, id), entries[i], now, fates(i));
      }
    }
  }

  lemma FeedEntriesUnique(classify: Classifier, feed: seq<(string, Raw)>)
    ensures UniqueEntries(Entries(Parsed(classify, feed).slots))
  {
    ParsedInvariant(classify, feed);
  }

  // ---------------------------------------------------------------- the fixpoint

  /** No pricing row is dated at or after the run. */
  predicate NothingDatedFrom(history: seq<PriceRow>, now: int) {
    forall i :: 0 <= i < |history| ==> history[i].at < now
  }

  lemma {:induction false} LatestIsOld(history: seq<PriceRow>, now: int)
    requires NothingDatedFrom(history, now)
    ensures Latest(history).Some? ==> Latest(history).value.at < now
  {
    if history != [] {
      LatestIsOld(history[..|history| - 1], now);
    }
  }

  lemma PriceSettles(history: seq<PriceRow>, p: Prices, now: int)
    requires NothingDatedFrom(history, now)
    ensures !Appends(WithPrice(history, p, now), p)
  {
    if Appends(history, p) {
      LatestIsOld(history, now);
      assert (history + [PriceRow(now, p)])[..|history|] == history;
    }
  }

  /** An entry has nothing left to do to a row. */
  predicate Settled(row: Option<Row>, e: Entry) {
    match row
    case None => e.contextWindow.None?
    case Some(r) => r.source == Custom || (!Changed(r, e) && !Appends(r.history, e.prices))
  }

  lemma EntrySettles(current: Option<Row>, e: Entry, now: int)
    requires current.Some? ==> NothingDatedFrom(current.value.history, now)
    ensures Settled(RowAfter(current, e, now, Works), e)
  {
    if !(current.Some? && current.value.source == Custom) && (current.Some? || e.contextWindow.Some?) {
      PriceSettles(UpsertedRow(current, e).history, e.prices, now);
    }
  }

  predicate Quiet(d: Diff) {
    d.added == [] && d.updated == [] && d.priced == [] && d.deprecated == []
  }

  /** Over settled rows the loop changes nothing, whatever fails. */
  lemma {:induction false} SettledRunsQuietly(models: Catalog, entries: seq<Entry>, n: nat, now: int,
                                              fates: nat -> Fate, start: Diff)
    requires n <= |entries| && Quiet(start)
    requires forall i :: 0 <= i < |entries| ==> Settled(Get(models, entries[i].canonicalId), entries[i])
    ensures Reconciled(models, entries, n, now, fates, start).models == models
    ensures Quiet(Reconciled(models, entries, n, now, fates, start).diff)
  {
    if n > 0 {
      SettledRunsQuietly(models, entries, n - 1, now, fates, start);
      assert Settled(Get(models, entries[n - 1].canonicalId), entries[n - 1]);
    }
  }

  lemma AllSettled(existing: Catalog, entries: seq<Entry>, now: int, fates: nat -> Fate, start: Diff,
                   gone: seq<string>, i: nat)
    requires UniqueEntries(entries) && i < |entries| && fates(i) == Works
    requires forall id :: id in existing ==> NothingDatedFrom(existing[id].history, now)
    ensures Settled(Get(SyncEntries(existing, entries, now, fates, start, gone).models, entries[i].canonicalId),
                    entries[i])
  {
    var id := entries[i].canonicalId;
    Reached(existing, entries, |entries|, now, fates, start, i);
    EntrySettles(Get(existing, id), entries[i], now);
    assert InFeed(entries, id);
  }

  lemma NothingVanishesTwice(existing: Catalog, entries: seq<Entry>, now: int, fates: nat -> Fate, start: Diff,
                             gone: seq<string>, id: string)
    requires UniqueEntries(entries)
    ensures !Vanished(SyncEntries(existing, entries, now, fates, start, gone).models, entries, id)
  {
    RunById(existing, entries, now, fates, start, gone, id);
  }

  lemma SecondRunOfEntries(existing: Catalog, entries: seq<Entry>, t1: int, fates1: nat -> Fate, start1: Diff,
                           gone1: seq<string>, 
                           t2: int, fates2: nat -> Fate, start2: Diff, gone2: seq<string>)
    requires UniqueEntries(entries) && Quiet(start2)
    requires forall i: nat :: fates1(i) == Works
    requires forall id :: id in existing ==> NothingDatedFrom(existing[id].history, t1)
    requires Lists(gone2, SyncEntries(existing, entries, t1, fates1, start1, gone1).models, entries)
    ensures var once := SyncEntries(existing, entries, t1, fates1, start1, gone1).models;
            var twice := SyncEntries(once, entries, t2, fates2, start2, gone2);
            twice.models == once && Quiet(twice.diff)
  {
    var once := SyncEntries(existing, entries, t1, fates1, start1, gone1).models;
    forall i | 0 <= i < |entries| ensures Settled(Get(once, entries[i].canonicalId), entries[i]) {
      AllSettled(existing, entries, t1, fates1, start1, gone1, i);
    }
    forall id ensures !Vanished(once, entries, id) {
      NothingVanishesTwice(existing, entries, t1, fates1, start1, gone1, id);
    }
    SettledRunsQuietly(once, entries, |entries|, t2, fates2, start2);
    NobodyGone(gone2, once, entries);
    FlagsNobody(once, entries);
  }

  lemma NobodyGone(gone: seq<string>, models: Catalog, entries: seq<Entry>)
    requires Lists(gone, models, entries) && forall id :: !Vanished(models, entries, id)
    ensures gone == []
  {
    SomeElement(gone);
  }

  lemma SomeElement(ids: seq<string>)
    ensures ids == [] || exists id :: id in ids
  {
    if ids != [] {
      assert ids[0] in ids;
    }
  }

  lemma FlagsNobody(models: Catalog, entries: seq<Entry>)
    requires forall id :: !Vanished(models, entries, id)
    ensures Flagged(models, entries, models) == models
  {
  }

  /** Syncing the same feed again changes nothing and reports no change. */
  lemma SecondSyncIsFixpoint(existing: Catalog, classify: Classifier, feed: seq<(string, Raw)>,
                             t1: int, fates1: nat -> Fate, gone1: seq<string>, t2: int, fates2: nat -> Fate,
                             gone2: seq<string>)
    requires forall i: nat :: fates1(i) == Works
    requires forall id :: id in existing ==> NothingDatedFrom(existing[id].history, t1)
    requires Lists(gone2, SyncFeed(existing, classify, feed, t1, fates1, gone1).models,
                   Entries(Parsed(classify, feed).slots))
    ensures var once := SyncFeed(existing, classify, feed, t1, fates1, gone1).models;
            var twice := SyncFeed(once, classify, feed, t2, fates2, gone2);
            twice.models == once && Quiet(twice.diff)
  {
    var st := Parsed(classify, feed);
    FeedEntriesUnique(classify, feed);
    SecondRunOfEntries(existing, Entries(st.slots), t1, fates1, StartOf(st.skipped), gone1, t2, fates2,
                       StartOf(st.skipped), gone2);
  }
}

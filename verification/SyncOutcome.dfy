/** What a sync leaves in the catalog and says in its report, read off the feed (src/catalog/sync.ts). */
module SyncOutcome {
  import opened Common
  import opened Policy
  import opened Feed
  import opened Sync
  import opened SyncLaws

  // ---------------------------------------------------------------- which keys are used

  const KINDS: map<string, ProviderKind> :=
    map["openai" := OpenAiCompat, "azure" := OpenAiCompat, "groq" := OpenAiCompat, "deepseek" := OpenAiCompat,
        "anthropic" := AnthropicApi, "ollama" := Local, "digitalocean" := DigitalOcean]

  /** A key of the feed that describes a chat model of a known provider, with something to say about it. */
  predicate Offers(cloudName: string -> bool, key: string, raw: Raw) {
    && key != "sample_spec" && raw.Raw?
    && (raw.mode == None || raw.mode == Some("chat"))
    && raw.provider in KINDS && !(raw.provider == "ollama" && cloudName(key))
    && (raw.maxInput != None || raw.maxTokens != None || raw.prices.input != None || raw.prices.output != None
        || raw.capabilities != map[])
  }

  /** What follows the last slash, or the whole key. */
  predicate EndsIn(key: string, name: string) {
    '/' !in name && (key == name || (|key| > |name| && key[|key| - |name| - 1..] == "/" + name))
  }

  lemma {:induction false} AfterSlashIsSuffix(s: string)
    requires '/' in s
    ensures var r := AfterSlash(s); |r| < |s| && s[|s| - |r| - 1..] == "/" + r
  {
    if s[0] == '/' {
      assert s == "/" + s[1..];
    } else {
      AfterSlashIsSuffix(s[1..]);
      var r := AfterSlash(s[1..]);
      assert s[|s| - |r| - 1..] == s[1..][|s| - |r| - 2..];
    }
  }

  lemma {:induction false} LastSegmentEnds(key: string)
    ensures EndsIn(key, LastSegment(key))
    decreases |key|
  {
    if '/' in key {
      AfterSlashIsSuffix(key);
      var r := AfterSlash(key);
      LastSegmentEnds(r);
      var name := LastSegment(key);
      if |r| > |name| {
        assert key[|key| - |name| - 1..] == r[|r| - |name| - 1..];
      }
    }
  }

  /** A key is used exactly when it offers a model, and the entry says what the feed says. */
  lemma UsedExactlyWhen(cloudName: string -> bool, key: string, raw: Raw)
    ensures var v := Classify(RouterRules(cloudName), key, raw);
            && (v.Use? <==> Offers(cloudName, key, raw))
            && (v.Use? ==>
                  var e := v.slot.entry;
                  && v.slot.key == key
                  && e.canonicalId == (if '/' in key then key else raw.provider + "/" + key)
                  && e.kind == KINDS[raw.provider] && EndsIn(key, e.displayName)
                  && e.contextWindow == (if raw.maxInput == None then raw.maxTokens else raw.maxInput)
                  && e.maxOutput == raw.maxOutput && e.capabilities == raw.capabilities
                  && e.deprecationDate == raw.deprecationDate && e.prices == raw.prices)
  {
    LastSegmentEnds(key);
    if raw.Raw? {
      assert ProviderToKind(raw.provider).Some? <==> raw.provider in KINDS;
    }
  }

  // ---------------------------------------------------------------- the price in force

  /** The row in force is one that has taken effect, with none after it that has. */
  lemma {:induction false} PricingAtIs(history: seq<PriceRow>, ts: int)
    ensures PricingAt(history, ts).None? <==> forall i :: 0 <= i < |history| ==> history[i].at > ts
    ensures PricingAt(history, ts).Some? ==>
              var row := PricingAt(history, ts).value;
              && row in history && row.at <= ts
              && forall i :: 0 <= i < |history| && history[i].at <= ts ==> history[i].at <= row.at
  {
    if history != [] {
      PricingAtIs(history[..|history| - 1], ts);
    }
  }

  lemma {:induction false} LatestInForce(history: seq<PriceRow>, now: int, ts: int)
    requires NothingDatedFrom(history, now) && now <= ts
    ensures PricingAt(history, ts) == Latest(history)
  {
    if history != [] {
      LatestInForce(history[..|history| - 1], now, ts);
    }
  }

  predicate NoPrice(p: Prices) {
    p == Prices(None, None, None, None)
  }

  /** From the run on, the prices of an entry that has any are in force; an entry without leaves them alone. */
  lemma PricesTakeEffect(history: seq<PriceRow>, p: Prices, now: int, ts: int)
    requires NothingDatedFrom(history, now) && now <= ts
    ensures var row := PricingAt(WithPrice(history, p, now), ts);
            if NoPrice(p) then row == PricingAt(history, ts) else row.Some? && row.value.prices == p
  {
    LatestInForce(history, now, ts);
    LatestIsOld(history, now);
    assert (history + [PriceRow(now, p)])[..|history|] == history;
  }

  // ---------------------------------------------------------------- the rows

  /** A row as the feed describes it, with the stored specs where the feed publishes no context window. */
  predicate Describes(e: Entry, before: Option<Row>, row: Row) {
    && (e.contextWindow.Some? ==> row.contextWindow == e.contextWindow.value && row.maxOutput == e.maxOutput)
    && (e.contextWindow.None? && before.Some? ==>
          row.contextWindow == before.value.contextWindow && row.maxOutput == before.value.maxOutput)
    && row.capabilities == e.capabilities && row.deprecationDate == e.deprecationDate && row.status != Deprecated
  }

  /**
   * What a served entry leaves: the operator's row untouched, a new row only with a context window,
   * and otherwise a row it describes, with its prices in force.
   */
  predicate Follows(e: Entry, before: Option<Row>, after: Option<Row>, ts: int) {
    && (after.None? <==> before.None? && e.contextWindow == None)
    && (before.Some? && before.value.source == Custom ==> after == before)
    && (after.Some? && !(before.Some? && before.value.source == Custom) ==>
          Describes(e, before, after.value) && InForce(e, before, after.value, ts))
    && (before.None? && after.Some? ==> Fresh(e, after.value))
    && (before.Some? ==> after.value.kind == before.value.kind && after.value.displayName == before.value.displayName)
  }

  lemma RowAfterFollows(before: Option<Row>, e: Entry, now: int, ts: int)
    requires now <= ts && (before.Some? ==> NothingDatedFrom(before.value.history, now))
    ensures Follows(e, before, RowAfter(before, e, now, Works), ts)
  {
    PricesTakeEffect(if before.Some? then before.value.history else [], e.prices, now, ts);
  }

  /** Every served entry of a run is followed, from the time of the run on. */
  lemma RowsFollowTheFeed(existing: Catalog, entries: seq<Entry>, now: int, fates: nat -> Fate, start: Diff,
                          gone: seq<string>, i: nat, ts: int)
    requires UniqueEntries(entries) && i < |entries| && fates(i) == Works && now <= ts
    requires forall id :: id in existing ==> NothingDatedFrom(existing[id].history, now)
    ensures var id := entries[i].canonicalId;
            Follows(entries[i], Get(existing, id),
                    Get(SyncEntries(existing, entries, now, fates, start, gone).models, id), ts)
  {
    var id := entries[i].canonicalId;
    Reached(existing, entries, |entries|, now, fates, start, i);
    NotFlagged(existing, entries, Reconciled(existing, entries, |entries|, now, fates, start).models, i);
    RowAfterFollows(Get(existing, id), entries[i], now, ts);
  }

  lemma NotFlagged(existing: Catalog, entries: seq<Entry>, models: Catalog, i: nat)
    requires i < |entries|
    ensures Get(Flagged(existing, entries, models), entries[i].canonicalId) == Get(models, entries[i].canonicalId)
  {
    assert InFeed(entries, entries[i].canonicalId);
  }

  predicate InForce(e: Entry, before: Option<Row>, row: Row, ts: int) {
    var price := PricingAt(row.history, ts);
    if NoPrice(e.prices) then price == (if before.Some? then PricingAt(before.value.history, ts) else None)
    else price.Some? && price.value.prices == e.prices
  }

  /** A row the sync made: the feed's, active, without operator overrides. */
  predicate Fresh(e: Entry, row: Row) {
    row.kind == e.kind && row.displayName == e.displayName && row.source == Synced && row.status == Active
    && row.overrides == map[] && |row.history| <= 1
  }

  // ---------------------------------------------------------------- the report

  /** The entry reaches the database: not the operator's row, and something to make a row of. */
  predicate Reaches(existing: Catalog, e: Entry) {
    if e.canonicalId in existing then existing[e.canonicalId].source != Custom else e.contextWindow != None
  }

  predicate Adds(existing: Catalog, e: Entry, fate: Fate) {
    Reaches(existing, e) && fate != FailsAtOnce && e.canonicalId !in existing
  }

  /** The stored row does not say what the entry says, or is flagged. */
  predicate Updates(existing: Catalog, e: Entry, fate: Fate) {
    && Reaches(existing, e) && fate != FailsAtOnce && e.canonicalId in existing
    && !Describes(e, Some(existing[e.canonicalId]), existing[e.canonicalId])
  }

  predicate Reprices(existing: Catalog, e: Entry, fate: Fate) {
    var history := if e.canonicalId in existing then existing[e.canonicalId].history else [];
    && Reaches(existing, e) && fate == Works && !NoPrice(e.prices)
    && !(Latest(history).Some? && Latest(history).value.prices == e.prices)
  }

  /** Left as it was, with nothing to say about it. */
  predicate Leaves(existing: Catalog, e: Entry, fate: Fate) {
    && e.canonicalId in existing
    && (existing[e.canonicalId].source == Custom
        || (fate == Works && !Updates(existing, e, fate) && !Reprices(existing, e, fate)))
  }

  /** The report after `n` entries says of each of them what was done. */
  ghost predicate Tells(d: Diff, existing: Catalog, entries: seq<Entry>, n: nat, fates: nat -> Fate)
    requires n <= |entries|
  {
    && (forall id :: id in d.added <==>
          exists i :: 0 <= i < n && entries[i].canonicalId == id && Adds(existing, entries[i], fates(i)))
    && (forall id :: id in d.updated <==>
          exists i :: 0 <= i < n && entries[i].canonicalId == id && Updates(existing, entries[i], fates(i)))
    && (forall id :: id in d.priced <==>
          exists i :: 0 <= i < n && entries[i].canonicalId == id && Reprices(existing, entries[i], fates(i)))
    && d.untouched == |set i | 0 <= i < n && Leaves(existing, entries[i], fates(i))|
  }

  /** What one entry adds to the report. */
  lemma OneEntryTells(g: Progress, existing: Catalog, e: Entry, now: int, fate: Fate)
    requires Get(g.models, e.canonicalId) == Get(existing, e.canonicalId)
    requires e.canonicalId !in g.diff.added && e.canonicalId !in g.diff.updated
    ensures var d, d', id := g.diff, SyncOne(g, Get(existing, e.canonicalId), e, now, fate).diff, e.canonicalId;
            && d'.added == (if Adds(existing, e, fate) then d.added + [id] else d.added)
            && d'.updated == (if Updates(existing, e, fate) then d.updated + [id] else d.updated)
            && d'.priced == (if Reprices(existing, e, fate) then d.priced + [id] else d.priced)
            && d'.untouched == d.untouched + (if Leaves(existing, e, fate) then 1 else 0)
            && d'.deprecated == d.deprecated
  {
  }

  lemma CountGrows(existing: Catalog, entries: seq<Entry>, n: nat, fates: nat -> Fate)
    requires 0 < n <= |entries|
    ensures |set i | 0 <= i < n && Leaves(existing, entries[i], fates(i))| ==
            |set i | 0 <= i < n - 1 && Leaves(existing, entries[i], fates(i))|
            + (if Leaves(existing, entries[n - 1], fates(n - 1)) then 1 else 0)
  {
    var before := set i | 0 <= i < n - 1 && Leaves(existing, entries[i], fates(i));
    var after := set i | 0 <= i < n && Leaves(existing, entries[i], fates(i));
    assert after == if Leaves(existing, entries[n - 1], fates(n - 1)) then before + {n - 1} else before;
  }

  lemma {:induction false} LoopTells(existing: Catalog, entries: seq<Entry>, n: nat, now: int, fates: nat -> Fate,
                                     start: Diff)
    requires n <= |entries| && UniqueEntries(entries) && Quiet(start) && start.untouched == 0
    ensures Tells(Reconciled(existing, entries, n, now, fates, start).diff, existing, entries, n, fates)
    ensures Reconciled(existing, entries, n, now, fates, start).diff.deprecated == []
  {
    if n > 0 {
      var e, g := entries[n - 1], Reconciled(existing, entries, n - 1, now, fates, start);
      LoopTells(existing, entries, n - 1, now, fates, start);
      NotYetReached(existing, entries, n - 1, now, fates, start, e.canonicalId);
      OneEntryTells(g, existing, e, now, fates(n - 1));
      CountGrows(existing, entries, n, fates);
      TellsOneMore(g.diff, Reconciled(existing, entries, n, now, fates, start).diff, existing, entries, n, fates);
    }
  }

  lemma TellsOneMore(d: Diff, d': Diff, existing: Catalog, entries: seq<Entry>, n: nat, fates: nat -> Fate)
    requires 0 < n <= |entries| && Tells(d, existing, entries, n - 1, fates)
    requires var e, fate := entries[n - 1], fates(n - 1);
             && d'.added == (if Adds(existing, e, fate) then d.added + [e.canonicalId] else d.added)
             && d'.updated == (if Updates(existing, e, fate) then d.updated + [e.canonicalId] else d.updated)
             && d'.priced == (if Reprices(existing, e, fate) then d.priced + [e.canonicalId] else d.priced)
    requires d'.untouched == |set i | 0 <= i < n && Leaves(existing, entries[i], fates(i))|
    ensures Tells(d', existing, entries, n, fates)
  {
  }

  /** The report names exactly the rows added, updated, repriced and flagged, and counts those left as they were. */
  lemma ReportIsExact(existing: Catalog, entries: seq<Entry>, now: int, fates: nat -> Fate, start: Diff,
                      gone: seq<string>)
    requires UniqueEntries(entries) && Quiet(start) && start.untouched == 0 && Lists(gone, existing, entries)
    ensures var d := SyncEntries(existing, entries, now, fates, start, gone).diff;
            && Tells(d, existing, entries, |entries|, fates)
            && forall id :: id in d.deprecated <==>
                 && id in existing && existing[id].source == Synced && existing[id].status == Active
                 && forall i :: 0 <= i < |entries| ==> entries[i].canonicalId != id
  {
    LoopTells(existing, entries, |entries|, now, fates, start);
  }
}

/** When a breaker opens, closes and lets a request through, exactly, over every run in time order. */
module BreakerOpens {
  import opened Breaker
  import opened BreakerLaws

  // ---------------------------------------------------------------- counting

  /** Samples with this outcome at or after `since`. */
  function Recent(outcomes: seq<Sample>, since: int, ok: bool): nat {
    if outcomes == [] then 0
    else (if outcomes[0].ok == ok && outcomes[0].at >= since then 1 else 0) + Recent(outcomes[1..], since, ok)
  }

  /** Records with this outcome among events `lo .. hi`, at or after `since`. */
  function RecordsIn(es: seq<Event>, lo: nat, hi: nat, since: int, ok: bool): nat
    requires lo <= hi <= |es|
  {
    if lo == hi then 0
    else
      var e := es[hi - 1];
      RecordsIn(es, lo, hi - 1, since, ok) + (if e.Record? && e.ok == ok && e.now >= since then 1 else 0)
  }

  lemma {:induction false} RecentAppend(a: seq<Sample>, s: Sample, since: int, ok: bool)
    ensures Recent(a + [s], since, ok) == Recent(a, since, ok) + (if s.ok == ok && s.at >= since then 1 else 0)
  {
    if a == [] {
      assert a + [s] == [s] && [s][1..] == [];
    } else {
      assert (a + [s])[1..] == a[1..] + [s];
      RecentAppend(a[1..], s, since, ok);
    }
  }

  /** Pruning never drops what still counts. */
  lemma {:induction false} PruneKeepsCounted(outcomes: seq<Sample>, cutoff: int, since: int, ok: bool)
    requires cutoff <= since
    ensures Recent(Prune(outcomes, cutoff), since, ok) == Recent(outcomes, since, ok)
  {
    if outcomes != [] && outcomes[0].at < cutoff {
      PruneKeepsCounted(outcomes[1..], cutoff, since, ok);
    }
  }

  lemma {:induction false} AllCounted(outcomes: seq<Sample>, since: int)
    requires forall i :: 0 <= i < |outcomes| ==> outcomes[i].at >= since
    ensures |outcomes| == Recent(outcomes, since, true) + Recent(outcomes, since, false)
    ensures Failures(outcomes) == Recent(outcomes, since, false)
  {
    if outcomes != [] { AllCounted(outcomes[1..], since); }
  }

  /** Of samples in order, pruning leaves only those that count. */
  lemma {:induction false} PrunedIsRecent(outcomes: seq<Sample>, cutoff: int, now: int)
    requires InOrder(outcomes, now)
    ensures forall i :: 0 <= i < |Prune(outcomes, cutoff)| ==> Prune(outcomes, cutoff)[i].at >= cutoff
  {
    if outcomes != [] && outcomes[0].at < cutoff {
      PrunedIsRecent(outcomes[1..], cutoff, now);
    }
  }

  /** Through a closed episode the window counts what it began with and what was recorded since. */
  lemma {:induction false} EpisodeCounts(cfg: Config, es: seq<Event>, start: nat, k: nat, since: int, ok: bool)
    requires Ordered(es) && start <= k <= |es| && ClosedSince(cfg, es, start, k)
    requires k > start ==> es[k - 1].now - cfg.windowMs <= since
    ensures Recent(At(cfg, es, k).outcomes, since, ok) ==
            Recent(At(cfg, es, start).outcomes, since, ok) + RecordsIn(es, start, k, since, ok)
    decreases k
  {
    if k > start {
      assert k - 1 > start ==> es[k - 2].now <= es[k - 1].now;
      EpisodeCounts(cfg, es, start, k - 1, since, ok);
      var w, e := At(cfg, es, k - 1), es[k - 1];
      assert w.phase == Closed && At(cfg, es, k).phase == Closed;
      if e.Record? {
        RecordCounts(cfg, w, e.ok, e.now, since, ok);
      }
    }
  }

  lemma RecordCounts(cfg: Config, w: Window, recorded: bool, now: int, since: int, ok: bool)
    requires now - cfg.windowMs <= since
    ensures Recent(Prune(w.outcomes + [Sample(recorded, now)], now - cfg.windowMs), since, ok) ==
            Recent(w.outcomes, since, ok) + (if recorded == ok && now >= since then 1 else 0)
  {
    RecentAppend(w.outcomes, Sample(recorded, now), since, ok);
    PruneKeepsCounted(w.outcomes + [Sample(recorded, now)], now - cfg.windowMs, since, ok);
  }

  // ---------------------------------------------------------------- opening

  /** Outcomes of one kind that count at event k of an episode: those it began with and its records. */
  function Counted(cfg: Config, es: seq<Event>, start: nat, k: nat, ok: bool): nat
    requires start <= k < |es|
  {
    Recent(At(cfg, es, start).outcomes, es[k].now - cfg.windowMs, ok)
    + RecordsIn(es, start, k + 1, es[k].now - cfg.windowMs, ok)
  }

  /** `failed` of `total` outcomes are enough to open the circuit. */
  predicate Enough(cfg: Config, failed: nat, total: nat) {
    total >= cfg.minSamples && failed as real >= cfg.openThreshold * total as real
  }

  /**
   * A failure recorded in a closed episode opens the circuit, at that moment, exactly when the
   * outcomes of the last `windowMs` number at least `minSamples` and the failed among them are at
   * least `openThreshold` times as many; otherwise the circuit stays closed.
   */
  lemma OpensExactlyWhen(cfg: Config, es: seq<Event>, start: nat, k: nat)
    requires Ordered(es) && start <= k < |es| && ClosedSince(cfg, es, start, k) && cfg.windowMs >= 0
    requires es[k].Record? && !es[k].ok
    ensures var failed, succeeded := Counted(cfg, es, start, k, false), Counted(cfg, es, start, k, true);
            At(cfg, es, k + 1).phase == if Enough(cfg, failed, failed + succeeded) then Open else Closed
    ensures At(cfg, es, k + 1).phase == Open ==> At(cfg, es, k + 1).openedAt == es[k].now
  {
    CountedInWindow(cfg, es, start, k);
    WindowInOrder(cfg, es, k);
    FailureInClosed(cfg, At(cfg, es, k), es[k].now, Counted(cfg, es, start, k, false),
                    Counted(cfg, es, start, k, true));
  }

  lemma CountedInWindow(cfg: Config, es: seq<Event>, start: nat, k: nat)
    requires Ordered(es) && start <= k < |es| && ClosedSince(cfg, es, start, k) && cfg.windowMs >= 0
    requires es[k].Record? && !es[k].ok
    ensures var w, cutoff := At(cfg, es, k), es[k].now - cfg.windowMs;
            && Counted(cfg, es, start, k, false) == Recent(w.outcomes, cutoff, false) + 1
            && Counted(cfg, es, start, k, true) == Recent(w.outcomes, cutoff, true)
  {
    assert k > start ==> es[k - 1].now <= es[k].now;
    EpisodeCounts(cfg, es, start, k, es[k].now - cfg.windowMs, true);
    EpisodeCounts(cfg, es, start, k, es[k].now - cfg.windowMs, false);
  }

  lemma FailureInClosed(cfg: Config, w: Window, now: int, failed: nat, succeeded: nat)
    requires w.phase == Closed && InOrder(w.outcomes, now) && cfg.windowMs >= 0
    requires failed == Recent(w.outcomes, now - cfg.windowMs, false) + 1
    requires succeeded == Recent(w.outcomes, now - cfg.windowMs, true)
    ensures var next := AfterRecord(cfg, w, false, now);
            && next.phase == (if Enough(cfg, failed, failed + succeeded) then Open else Closed)
            && (next.phase == Open ==> next.openedAt == now)
  {
    var cutoff, grown := now - cfg.windowMs, w.outcomes + [Sample(false, now)];
    GrowsInOrder(w.outcomes, Sample(false, now), now);
    PrunedIsRecent(grown, cutoff, now);
    KeptCounts(cfg, w, now, failed, succeeded, Prune(grown, cutoff));
    RuleMeans(cfg, Prune(grown, cutoff), failed, failed + succeeded);
  }

  lemma KeptCounts(cfg: Config, w: Window, now: int, failed: nat, succeeded: nat, kept: seq<Sample>)
    requires cfg.windowMs >= 0 && failed == Recent(w.outcomes, now - cfg.windowMs, false) + 1
    requires succeeded == Recent(w.outcomes, now - cfg.windowMs, true)
    requires kept == Prune(w.outcomes + [Sample(false, now)], now - cfg.windowMs)
    requires forall i :: 0 <= i < |kept| ==> kept[i].at >= now - cfg.windowMs
    ensures |kept| == failed + succeeded && Failures(kept) == failed
  {
    RecordCounts(cfg, w, false, now, now - cfg.windowMs, true);
    RecordCounts(cfg, w, false, now, now - cfg.windowMs, false);
    AllCounted(kept, now - cfg.windowMs);
  }

  lemma GrowsInOrder(outcomes: seq<Sample>, s: Sample, now: int)
    requires InOrder(outcomes, now) && s.at == now
    ensures InOrder(outcomes + [s], now)
  {
  }

  lemma RuleMeans(cfg: Config, kept: seq<Sample>, failed: nat, total: nat)
    requires |kept| == total > 0 && Failures(kept) == failed
    ensures |kept| >= cfg.minSamples && ErrorRate(kept) >= cfg.openThreshold <==> Enough(cfg, failed, total)
  {
    RateMeans(failed as real, total as real, cfg.openThreshold);
  }

  lemma RateMeans(failed: real, total: real, threshold: real)
    requires total > 0.0
    ensures failed / total >= threshold <==> failed >= threshold * total
  {
    assert failed / total * total == failed;
    if failed / total >= threshold {
      assert (failed / total - threshold) * total >= 0.0;
    } else {
      assert (threshold - failed / total) * total > 0.0;
    }
  }

  /** The first episode begins with nothing counted. */
  lemma FirstEpisodeCounts(cfg: Config, es: seq<Event>, k: nat, ok: bool)
    requires k < |es|
    ensures Counted(cfg, es, 0, k, ok) == RecordsIn(es, 0, k + 1, es[k].now - cfg.windowMs, ok)
  {
  }

  /** A success never opens the circuit. */
  lemma SuccessesNeverOpen(cfg: Config, es: seq<Event>, k: nat)
    requires k < |es| && At(cfg, es, k).phase == Closed && (es[k].Allow? || es[k].ok)
    ensures At(cfg, es, k + 1).phase == Closed
  {
  }

  // ---------------------------------------------------------------- half-open and closing

  lemma {:induction false} SuccessesCount(outcomes: seq<Sample>, since: int)
    ensures Recent(Successes(outcomes), since, true) == Recent(outcomes, since, true)
    ensures Recent(Successes(outcomes), since, false) == 0
  {
    if outcomes != [] {
      SuccessesCount(outcomes[1..], since);
      var kept := Successes(outcomes[1..]);
      if outcomes[0].ok {
        assert Successes(outcomes) == [outcomes[0]] + kept && Successes(outcomes)[1..] == kept;
      } else {
        assert Successes(outcomes) == kept;
      }
    }
  }

  /**
   * In half-open a recorded failure reopens the circuit at that moment; a success closes it, and the
   * new episode begins with the successes that still count and without any failure.
   */
  lemma HalfOpenEnds(cfg: Config, es: seq<Event>, k: nat, since: int)
    requires k < |es| && At(cfg, es, k).phase == HalfOpen && es[k].Record? && es[k].now - cfg.windowMs <= since
    ensures var w, next := At(cfg, es, k), At(cfg, es, k + 1);
            if !es[k].ok then next.phase == Open && next.openedAt == es[k].now
            else
              && next.phase == Closed && Recent(next.outcomes, since, false) == 0
              && Recent(next.outcomes, since, true) ==
                 Recent(w.outcomes, since, true) + (if es[k].now >= since then 1 else 0)
  {
    var w, e := At(cfg, es, k), es[k];
    RecordCounts(cfg, w, e.ok, e.now, since, true);
    SuccessesCount(Prune(w.outcomes + [Sample(e.ok, e.now)], e.now - cfg.windowMs), since);
  }

  // ---------------------------------------------------------------- letting requests through

  /** A closed circuit lets every request through and stays closed. */
  lemma ClosedAdmitsAll(cfg: Config, es: seq<Event>, k: nat)
    requires k < |es| && At(cfg, es, k).phase == Closed && es[k].Allow?
    ensures Admitted(cfg, At(cfg, es, k), es[k]) && At(cfg, es, k + 1) == At(cfg, es, k)
  {
  }

  /** The first request once the open duration is over is let through as the probe. */
  lemma OpenAdmitsWhenDue(cfg: Config, es: seq<Event>, i: nat, k: nat)
    requires Ordered(es) && i < k < |es| && Opens(cfg, es, i) && es[k].Allow?
    requires es[k].now >= es[i].now + cfg.openDurationMs
    requires forall j :: i < j < k ==> es[j].now < es[i].now + cfg.openDurationMs
    ensures Admitted(cfg, At(cfg, es, k), es[k]) && At(cfg, es, k + 1).phase == HalfOpen
  {
    StaysOpen(cfg, es, i, k);
  }
}

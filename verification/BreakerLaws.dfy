/** Every run of one provider's breaker, for any calls at non-decreasing times. */
module BreakerLaws {
  import opened Breaker

  datatype Event = Allow(now: int) | Record(ok: bool, now: int)

  function After(cfg: Config, w: Window, e: Event): Window {
    match e
    case Allow(now) => AfterAllow(cfg, w, now)
    case Record(ok, now) => AfterRecord(cfg, w, ok, now)
  }

  predicate Admitted(cfg: Config, w: Window, e: Event) {
    e.Allow? && Allows(cfg, w, e.now)
  }

  /** The window before event `k` of a run (after the run when `k == |es|`). */
  function At(cfg: Config, es: seq<Event>, k: nat): Window
    requires k <= |es|
  {
    if k == 0 then FRESH else After(cfg, At(cfg, es, k - 1), es[k - 1])
  }

  predicate Ordered(es: seq<Event>) {
    forall i, j :: 0 <= i <= j < |es| ==> es[i].now <= es[j].now
  }

  // ---------------------------------------------------------------- the probe

  /** The probe flag is set exactly in the half-open phase. */
  lemma {:induction false} ProbeFlagIsHalfOpen(cfg: Config, es: seq<Event>, k: nat)
    requires k <= |es|
    ensures At(cfg, es, k).probeInFlight <==> At(cfg, es, k).phase == HalfOpen
  {
    if k > 0 {
      ProbeFlagIsHalfOpen(cfg, es, k - 1);
    }
  }

  /** The half-open episode that event `i` begins is still on before event `j`. */
  predicate HalfOpenEpisode(cfg: Config, es: seq<Event>, i: nat, j: nat)
    requires i < j <= |es|
  {
    && At(cfg, es, i).phase != HalfOpen
    && forall k :: i < k <= j ==> At(cfg, es, k).phase == HalfOpen
  }

  /** Each half-open episode admits exactly one request: the one that begins it. */
  lemma HalfOpenAdmitsOne(cfg: Config, es: seq<Event>, i: nat, j: nat)
    requires i < j <= |es| && HalfOpenEpisode(cfg, es, i, j)
    ensures Admitted(cfg, At(cfg, es, i), es[i])
    ensures forall k :: i < k < |es| && k <= j ==> !Admitted(cfg, At(cfg, es, k), es[k])
  {
    assert At(cfg, es, i + 1).phase == HalfOpen;
    forall k | i < k < |es| && k <= j ensures !Admitted(cfg, At(cfg, es, k), es[k]) {
      assert At(cfg, es, k).phase == HalfOpen;
      ProbeFlagIsHalfOpen(cfg, es, k);
    }
  }

  // ---------------------------------------------------------------- staying open

  /** Event `i` opens the circuit. */
  predicate Opens(cfg: Config, es: seq<Event>, i: nat)
    requires i < |es|
  {
    At(cfg, es, i).phase != Open && At(cfg, es, i + 1).phase == Open
  }

  lemma {:induction false} StaysOpen(cfg: Config, es: seq<Event>, i: nat, j: nat)
    requires i < j <= |es| && Opens(cfg, es, i)
    requires forall k :: i <= k < j ==> es[k].now < es[i].now + cfg.openDurationMs || k == i
    ensures At(cfg, es, j).phase == Open && At(cfg, es, j).openedAt == es[i].now
    decreases j
  {
    if j == i + 1 {
      assert At(cfg, es, i + 1) == After(cfg, At(cfg, es, i), es[i]);
    } else {
      StaysOpen(cfg, es, i, j - 1);
      assert At(cfg, es, j) == After(cfg, At(cfg, es, j - 1), es[j - 1]);
    }
  }

  /** Nothing is admitted within `openDurationMs` of opening. */
  lemma NothingAdmittedWhileOpen(cfg: Config, es: seq<Event>, i: nat, j: nat)
    requires Ordered(es) && i < j < |es| && Opens(cfg, es, i)
    requires es[j].now < es[i].now + cfg.openDurationMs
    ensures !Admitted(cfg, At(cfg, es, j), es[j])
  {
    forall k | i <= k < j ensures es[k].now < es[i].now + cfg.openDurationMs || k == i {
      assert es[k].now <= es[j].now;
    }
    StaysOpen(cfg, es, i, j);
  }

  // ---------------------------------------------------------------- why it opens

  /** Failures recorded by events `lo .. hi` at or after `since`. */
  function FailuresIn(es: seq<Event>, lo: nat, hi: nat, since: int): nat
    requires lo <= hi <= |es|
  {
    if lo == hi then 0
    else
      var e := es[hi - 1];
      FailuresIn(es, lo, hi - 1, since) + (if e.Record? && !e.ok && e.now >= since then 1 else 0)
  }

  /** Failing samples of a window at or after `since`. */
  function RecentFailures(outcomes: seq<Sample>, since: int): nat {
    if outcomes == [] then 0
    else (if !outcomes[0].ok && outcomes[0].at >= since then 1 else 0) + RecentFailures(outcomes[1..], since)
  }

  lemma {:induction false} RecentFailuresAppend(a: seq<Sample>, s: Sample, since: int)
    ensures RecentFailures(a + [s], since) == RecentFailures(a, since) + (if !s.ok && s.at >= since then 1 else 0)
  {
    if a == [] {
      assert a + [s] == [s] && [s][1..] == [];
    } else {
      assert (a + [s])[1..] == a[1..] + [s];
      RecentFailuresAppend(a[1..], s, since);
    }
  }

  lemma {:induction false} PruneOnlyDrops(outcomes: seq<Sample>, cutoff: int, since: int)
    ensures RecentFailures(Prune(outcomes, cutoff), since) <= RecentFailures(outcomes, since)
  {
    if outcomes != [] && outcomes[0].at < cutoff {
      PruneOnlyDrops(outcomes[1..], cutoff, since);
    }
  }

  lemma {:induction false} SuccessesHaveNoFailures(outcomes: seq<Sample>, since: int)
    ensures RecentFailures(Successes(outcomes), since) == 0
  {
    if outcomes != [] {
      SuccessesHaveNoFailures(outcomes[1..], since);
      if outcomes[0].ok {
        assert Successes(outcomes)[1..] == Successes(outcomes[1..]);
      } else {
        assert Successes(outcomes) == Successes(outcomes[1..]);
      }
    }
  }

  /** Samples stand in time order and none is later than `now`. */
  predicate InOrder(outcomes: seq<Sample>, now: int) {
    && (forall i, j :: 0 <= i <= j < |outcomes| ==> outcomes[i].at <= outcomes[j].at)
    && (forall i :: 0 <= i < |outcomes| ==> outcomes[i].at <= now)
  }

  lemma {:induction false} PruneKeepsRecent(outcomes: seq<Sample>, cutoff: int, now: int)
    requires InOrder(outcomes, now)
    ensures InOrder(Prune(outcomes, cutoff), now)
    ensures RecentFailures(Prune(outcomes, cutoff), cutoff) == Failures(Prune(outcomes, cutoff))
  {
    if outcomes != [] && outcomes[0].at < cutoff {
      PruneKeepsRecent(outcomes[1..], cutoff, now);
    } else {
      AllRecent(outcomes, cutoff);
    }
  }

  lemma {:induction false} AllRecent(outcomes: seq<Sample>, cutoff: int)
    requires forall i :: 0 <= i < |outcomes| ==> outcomes[i].at >= cutoff
    ensures RecentFailures(outcomes, cutoff) == Failures(outcomes)
  {
    if outcomes != [] {
      AllRecent(outcomes[1..], cutoff);
    }
  }

  lemma {:induction false} SuccessesInOrder(outcomes: seq<Sample>, now: int)
    requires InOrder(outcomes, now)
    ensures InOrder(Successes(outcomes), now)
    ensures forall s :: s in Successes(outcomes) ==> s in outcomes
  {
    if outcomes != [] {
      var rest := outcomes[1..];
      SuccessesInOrder(rest, now);
      var kept := Successes(rest);
      forall i | 0 <= i < |kept| ensures outcomes[0].at <= kept[i].at {
        assert kept[i] in rest;
        var k :| 0 <= k < |rest| && rest[k] == kept[i];
        assert outcomes[k + 1] == rest[k];
      }
    }
  }

  lemma {:induction false} WindowInOrder(cfg: Config, es: seq<Event>, k: nat)
    requires Ordered(es) && k < |es|
    ensures InOrder(At(cfg, es, k).outcomes, es[k].now)
  {
    if k > 0 {
      WindowInOrder(cfg, es, k - 1);
      var w := At(cfg, es, k - 1);
      if es[k - 1].Record? {
        RecordInOrder(cfg, w, es[k - 1].ok, es[k - 1].now);
      }
      assert es[k - 1].now <= es[k].now;
    }
  }

  lemma RecordInOrder(cfg: Config, w: Window, ok: bool, now: int)
    requires InOrder(w.outcomes, now)
    ensures InOrder(AfterRecord(cfg, w, ok, now).outcomes, now)
  {
    var grown := w.outcomes + [Sample(ok, now)];
    assert InOrder(grown, now);
    PruneKeepsRecent(grown, now - cfg.windowMs, now);
    SuccessesInOrder(Prune(grown, now - cfg.windowMs), now);
  }

  /** Events `start .. k` all happen in one closed episode. */
  predicate ClosedSince(cfg: Config, es: seq<Event>, start: nat, k: nat)
    requires start <= k <= |es|
  {
    && (start == 0 || At(cfg, es, start - 1).phase != Closed)
    && forall i :: start <= i <= k ==> At(cfg, es, i).phase == Closed
  }

  /** In a closed episode the window holds no failure older than the episode. */
  lemma {:induction false} EpisodeFailures(cfg: Config, es: seq<Event>, start: nat, k: nat, since: int)
    requires start <= k <= |es| && ClosedSince(cfg, es, start, k)
    ensures RecentFailures(At(cfg, es, k).outcomes, since) <= FailuresIn(es, start, k, since)
    decreases k
  {
    if k == start {
      if start > 0 {
        var w := At(cfg, es, start - 1);
        assert At(cfg, es, start).phase == Closed;
        assert At(cfg, es, start) == After(cfg, w, es[start - 1]);
        var now := es[start - 1].now;
        assert es[start - 1].Record?;
        SuccessesHaveNoFailures(Prune(w.outcomes + [Sample(es[start - 1].ok, now)], now - cfg.windowMs), since);
      }
    } else {
      EpisodeFailures(cfg, es, start, k - 1, since);
      var w, e := At(cfg, es, k - 1), es[k - 1];
      assert w.phase == Closed && At(cfg, es, k) == After(cfg, w, e);
      if e.Record? {
        RecordedFailures(cfg, w, e, since);
      }
    }
  }

  lemma RecordedFailures(cfg: Config, w: Window, e: Event, since: int)
    requires e.Record?
    ensures RecentFailures(Prune(w.outcomes + [Sample(e.ok, e.now)], e.now - cfg.windowMs), since)
         <= RecentFailures(w.outcomes, since) + (if !e.ok && e.now >= since then 1 else 0)
  {
    RecentFailuresAppend(w.outcomes, Sample(e.ok, e.now), since);
    PruneOnlyDrops(w.outcomes + [Sample(e.ok, e.now)], e.now - cfg.windowMs, since);
  }

  /**
   * The circuit leaves the closed phase only for the open one, only on a recorded failure, and
   * only when the current closed episode has seen, within the last `windowMs`, at least
   * `openThreshold * minSamples` failures.
   */
  lemma OpensOnlyOnEnoughFailures(cfg: Config, es: seq<Event>, start: nat, k: nat)
    requires Ordered(es) && start <= k < |es| && ClosedSince(cfg, es, start, k)
    requires At(cfg, es, k + 1).phase != Closed
    ensures At(cfg, es, k + 1).phase == Open
    ensures es[k].Record? && !es[k].ok
    ensures FailuresIn(es, start, k + 1, es[k].now - cfg.windowMs) as real >= cfg.openThreshold * cfg.minSamples as real
  {
    var w, e := At(cfg, es, k), es[k];
    assert w.phase == Closed && At(cfg, es, k + 1) == After(cfg, w, e);
    var since := e.now - cfg.windowMs;
    WindowInOrder(cfg, es, k);
    var grown := w.outcomes + [Sample(e.ok, e.now)];
    assert InOrder(grown, e.now);
    PruneKeepsRecent(grown, since, e.now);
    EpisodeFailures(cfg, es, start, k, since);
    RecordedFailures(cfg, w, e, since);
    var kept := Prune(grown, since);
    assert FailuresIn(es, start, k + 1, since) >= Failures(kept);
    EnoughFailures(cfg, kept);
  }

  lemma EnoughFailures(cfg: Config, kept: seq<Sample>)
    requires |kept| >= cfg.minSamples && ErrorRate(kept) >= cfg.openThreshold
    ensures Failures(kept) as real >= cfg.openThreshold * cfg.minSamples as real
  {
    var n, f, m, t := |kept| as real, Failures(kept) as real, cfg.minSamples as real, cfg.openThreshold;
    if kept == [] {
      assert cfg.minSamples == 0 && t * 0.0 == 0.0;
    } else {
      assert f / n >= t && n > 0.0 && f >= 0.0;
      EnoughByRate(f, n, t, m);
    }
  }

  lemma EnoughByRate(f: real, n: real, t: real, m: real)
    requires f >= 0.0 && n > 0.0 && f / n >= t && 0.0 <= m <= n
    ensures f >= t * m
  {
    Rate(f, n, t);
    Monotone(t, m, n);
  }

  lemma Monotone(t: real, m: real, n: real)
    requires 0.0 <= m <= n
    ensures t * n >= t * m || t * m <= 0.0
  {
    if t >= 0.0 {
      assert t * (n - m) >= 0.0;
    } else {
      assert (-t) * m >= 0.0;
    }
  }

  lemma Rate(f: real, n: real, t: real)
    requires n > 0.0 && f / n >= t
    ensures f >= t * n
  {
    assert f == (f / n) * n;
  }
}

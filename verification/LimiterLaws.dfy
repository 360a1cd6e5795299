/** What the limiter promises for one key, over every run at non-decreasing times. */
module LimiterLaws {
  import opened Common
  import opened Limiter

  datatype Event = Take(now: int) | Prune(now: int)

  function After(cfg: Config, b: Option<Bucket>, e: Event, maxIdleMs: nat): Option<Bucket> {
    match e
    case Take(now) => AfterTake(cfg, b, now)
    case Prune(now) => AfterPrune(b, maxIdleMs, now)
  }

  /** The bucket before event `k` of a run that starts without one. */
  function At(cfg: Config, es: seq<Event>, maxIdleMs: nat, k: nat): Option<Bucket>
    requires k <= |es|
  {
    if k == 0 then None else After(cfg, At(cfg, es, maxIdleMs, k - 1), es[k - 1], maxIdleMs)
  }

  /** The same run when nothing is ever pruned. */
  function Kept(cfg: Config, es: seq<Event>, k: nat): Option<Bucket>
    requires k <= |es|
  {
    if k == 0 then None
    else if es[k - 1].Take? then AfterTake(cfg, Kept(cfg, es, k - 1), es[k - 1].now)
    else Kept(cfg, es, k - 1)
  }

  predicate Ordered(es: seq<Event>) {
    forall i, j :: 0 <= i <= j < |es| ==> es[i].now <= es[j].now
  }

  /** Being idle longer than `maxIdleMs`, a whole number of milliseconds, refills any bucket. */
  predicate IdleRefills(cfg: Config, maxIdleMs: nat) {
    cfg.rpm > 0 ==> Refill(cfg, maxIdleMs + 1) >= cfg.burst
  }

  // ---------------------------------------------------------------- refill arithmetic

  function Refill(cfg: Config, ms: int): real {
    ms as real * RefillPerMs(cfg)
  }

  lemma RefillGrows(cfg: Config, ms: int, more: int)
    requires cfg.rpm >= 0 && ms <= more
    ensures Refill(cfg, ms) <= Refill(cfg, more)
  {
    var r := RefillPerMs(cfg);
    assert (more - ms) as real * r >= 0.0;
    assert more as real * r == ms as real * r + (more - ms) as real * r;
  }

  lemma RefillAdds(cfg: Config, a: int, b: int)
    ensures Refill(cfg, a + b) == Refill(cfg, a) + Refill(cfg, b)
    ensures Refill(cfg, 0) == 0.0
  {
    assert (a + b) as real == a as real + b as real;
  }

  lemma LevelLater(cfg: Config, b: Option<Bucket>, before: int, now: int)
    requires cfg.rpm > 0 && before <= now
    ensures Level(cfg, b, before) <= Level(cfg, b, now) <= Level(cfg, b, before) + Refill(cfg, now - before)
    ensures Level(cfg, b, now) <= cfg.burst
  {
    RefillGrows(cfg, 0, now - before);
    RefillAdds(cfg, 0, 0);
    if b.Some? {
      RefillAdds(cfg, before - b.value.updatedAt, now - before);
    }
  }

  /** A take turns the level into at most one admission plus what remains. */
  lemma TakeSettles(cfg: Config, b: Option<Bucket>, now: int)
    requires cfg.rpm > 0
    ensures Level(cfg, AfterTake(cfg, b, now), now) + (if Admits(cfg, b, now) then 1.0 else 0.0) == Level(cfg, b, now)
    ensures Level(cfg, b, now) <= cfg.burst
  {
    assert now - now == 0;
    RefillAdds(cfg, 0, 0);
  }

  // ---------------------------------------------------------------- admissions in a window

  lemma {:induction false} TokensNeverNegative(cfg: Config, es: seq<Event>, k: nat)
    requires Ordered(es) && k <= |es| && cfg.rpm > 0 && cfg.burst >= 0.0
    ensures var b := Kept(cfg, es, k); b.Some? ==> b.value.tokens >= 0.0 && k > 0 && b.value.updatedAt <= es[k - 1].now
  {
    if k > 0 {
      TokensNeverNegative(cfg, es, k - 1);
      var b, now := Kept(cfg, es, k - 1), es[k - 1].now;
      if b.Some? {
        assert es[k - 2].now <= now;
        RefillGrows(cfg, 0, now - b.value.updatedAt);
        RefillAdds(cfg, 0, 0);
      }
    }
  }

  /** Requests admitted by events `lo .. hi`. */
  function Admissions(cfg: Config, es: seq<Event>, maxIdleMs: nat, lo: nat, hi: nat): nat
    requires lo <= hi <= |es|
  {
    if lo == hi then 0
    else
      Admissions(cfg, es, maxIdleMs, lo, hi - 1)
      + (if es[hi - 1].Take? && Admits(cfg, At(cfg, es, maxIdleMs, hi - 1), es[hi - 1].now) then 1 else 0)
  }

  /** The same count in the run without pruning. */
  function KeptAdmissions(cfg: Config, es: seq<Event>, lo: nat, hi: nat): nat
    requires lo <= hi <= |es|
  {
    if lo == hi then 0
    else
      KeptAdmissions(cfg, es, lo, hi - 1)
      + (if es[hi - 1].Take? && Admits(cfg, Kept(cfg, es, hi - 1), es[hi - 1].now) then 1 else 0)
  }

  /** Admissions plus what is left in the bucket never exceed the burst plus the refill. */
  lemma {:induction false} AdmissionsAndTokens(cfg: Config, es: seq<Event>, lo: nat, hi: nat)
    requires Ordered(es) && lo < hi <= |es| && cfg.rpm > 0
    ensures KeptAdmissions(cfg, es, lo, hi) as real + Level(cfg, Kept(cfg, es, hi), es[hi - 1].now)
         <= cfg.burst + Refill(cfg, es[hi - 1].now - es[lo].now)
    decreases hi
  {
    EventSettles(cfg, es, lo, hi);
    if hi == lo + 1 {
      RefillAdds(cfg, 0, 0);
    } else {
      AdmissionsAndTokens(cfg, es, lo, hi - 1);
      var before, now := es[hi - 2].now, es[hi - 1].now;
      LevelLater(cfg, Kept(cfg, es, hi - 1), before, now);
      RefillAdds(cfg, before - es[lo].now, now - before);
    }
  }

  lemma EventSettles(cfg: Config, es: seq<Event>, lo: nat, hi: nat)
    requires lo < hi <= |es| && cfg.rpm > 0
    ensures KeptAdmissions(cfg, es, lo, hi) as real + Level(cfg, Kept(cfg, es, hi), es[hi - 1].now)
         == KeptAdmissions(cfg, es, lo, hi - 1) as real + Level(cfg, Kept(cfg, es, hi - 1), es[hi - 1].now)
    ensures Level(cfg, Kept(cfg, es, hi - 1), es[hi - 1].now) <= cfg.burst
  {
    TakeSettles(cfg, Kept(cfg, es, hi - 1), es[hi - 1].now);
  }

  lemma KeptAdmissionsAreBounded(cfg: Config, es: seq<Event>, lo: nat, hi: nat)
    requires Ordered(es) && lo < hi <= |es| && cfg.rpm > 0 && cfg.burst >= 0.0
    ensures KeptAdmissions(cfg, es, lo, hi) as real <= cfg.burst + Refill(cfg, es[hi - 1].now - es[lo].now)
  {
    AdmissionsAndTokens(cfg, es, lo, hi);
    TokensNeverNegative(cfg, es, hi);
    LevelNeverNegative(cfg, Kept(cfg, es, hi), es[hi - 1].now);
  }

  lemma LevelNeverNegative(cfg: Config, b: Option<Bucket>, now: int)
    requires cfg.rpm > 0 && cfg.burst >= 0.0
    requires b.Some? ==> b.value.tokens >= 0.0 && b.value.updatedAt <= now
    ensures Level(cfg, b, now) >= 0.0
  {
    if b.Some? {
      RefillGrows(cfg, 0, now - b.value.updatedAt);
      RefillAdds(cfg, 0, 0);
    }
  }

  lemma Rescale(x: real, y: real)
    ensures x * (y / 60_000.0) == x * y / 60_000.0
  {
  }

  // ---------------------------------------------------------------- pruning

  /** `b` is `kept`, or was pruned at a time when `kept` had refilled completely. */
  predicate PrunedLate(cfg: Config, b: Option<Bucket>, kept: Option<Bucket>, now: int) {
    || b == kept
    || (b.None? && kept.Some? && kept.value.tokens + Refill(cfg, now - kept.value.updatedAt) >= cfg.burst)
  }

  lemma {:induction false} PruneIsInvisible(cfg: Config, es: seq<Event>, maxIdleMs: nat, k: nat)
    requires Ordered(es) && k <= |es| && cfg.rpm > 0 && cfg.burst >= 0.0 && IdleRefills(cfg, maxIdleMs)
    ensures k == 0 || PrunedLate(cfg, At(cfg, es, maxIdleMs, k), Kept(cfg, es, k), es[k - 1].now)
    ensures k == 0 ==> At(cfg, es, maxIdleMs, k) == Kept(cfg, es, k)
  {
    if k > 0 {
      PruneIsInvisible(cfg, es, maxIdleMs, k - 1);
      TokensNeverNegative(cfg, es, k - 1);
      var b, kept, now := At(cfg, es, maxIdleMs, k - 1), Kept(cfg, es, k - 1), es[k - 1].now;
      var before := if k > 1 then es[k - 2].now else now;
      assert before <= now;
      StaysLate(cfg, b, kept, before, now);
      if es[k - 1].Take? {
        TakeSeesNoPrune(cfg, b, kept, now);
      } else {
        PruneIsLate(cfg, b, kept, maxIdleMs, now);
      }
    }
  }

  lemma StaysLate(cfg: Config, b: Option<Bucket>, kept: Option<Bucket>, before: int, now: int)
    requires cfg.rpm > 0 && before <= now && PrunedLate(cfg, b, kept, before)
    ensures PrunedLate(cfg, b, kept, now)
  {
    if b != kept {
      StillRefilled(cfg, kept.value, before, now);
    }
  }

  /** A full bucket and a missing one are the same to a take. */
  lemma TakeSeesNoPrune(cfg: Config, b: Option<Bucket>, kept: Option<Bucket>, now: int)
    requires cfg.rpm > 0 && PrunedLate(cfg, b, kept, now)
    ensures Level(cfg, b, now) == Level(cfg, kept, now)
    ensures AfterTake(cfg, b, now) == AfterTake(cfg, kept, now)
  {
  }

  /** What is pruned had refilled. */
  lemma PruneIsLate(cfg: Config, b: Option<Bucket>, kept: Option<Bucket>, maxIdleMs: nat, now: int)
    requires cfg.rpm > 0 && IdleRefills(cfg, maxIdleMs) && PrunedLate(cfg, b, kept, now)
    requires kept.Some? ==> kept.value.tokens >= 0.0
    ensures PrunedLate(cfg, AfterPrune(b, maxIdleMs, now), kept, now)
  {
    if b == kept && b.Some? && now - b.value.updatedAt > maxIdleMs {
      RefillGrows(cfg, maxIdleMs + 1, now - b.value.updatedAt);
    }
  }

  lemma StillRefilled(cfg: Config, b: Bucket, before: int, now: int)
    requires cfg.rpm > 0 && before <= now && b.tokens + Refill(cfg, before - b.updatedAt) >= cfg.burst
    ensures b.tokens + Refill(cfg, now - b.updatedAt) >= cfg.burst
    ensures Level(cfg, Some(b), now) == cfg.burst
  {
    RefillGrows(cfg, before - b.updatedAt, now - b.updatedAt);
  }

  /** Pruning never changes the answer to any take. */
  lemma PruneChangesNoAnswer(cfg: Config, es: seq<Event>, maxIdleMs: nat, k: nat)
    requires Ordered(es) && k < |es| && es[k].Take? && cfg.burst >= 0.0 && IdleRefills(cfg, maxIdleMs)
    ensures Answer(cfg, At(cfg, es, maxIdleMs, k), es[k].now) == Answer(cfg, Kept(cfg, es, k), es[k].now)
  {
    if cfg.rpm > 0 {
      PruneIsInvisible(cfg, es, maxIdleMs, k);
      var before := if k > 0 then es[k - 1].now else es[k].now;
      assert before <= es[k].now;
      StaysLate(cfg, At(cfg, es, maxIdleMs, k), Kept(cfg, es, k), before, es[k].now);
      TakeSeesNoPrune(cfg, At(cfg, es, maxIdleMs, k), Kept(cfg, es, k), es[k].now);
    }
  }

  lemma AnswerTellsAdmission(cfg: Config, b: Option<Bucket>, now: int)
    ensures Answer(cfg, b, now) == None <==> Admits(cfg, b, now)
  {
  }

  lemma {:induction false} PruneAdmitsNoMore(cfg: Config, es: seq<Event>, maxIdleMs: nat, lo: nat, hi: nat)
    requires Ordered(es) && lo <= hi <= |es| && cfg.burst >= 0.0 && IdleRefills(cfg, maxIdleMs)
    ensures Admissions(cfg, es, maxIdleMs, lo, hi) == KeptAdmissions(cfg, es, lo, hi)
    decreases hi
  {
    if lo < hi {
      PruneAdmitsNoMore(cfg, es, maxIdleMs, lo, hi - 1);
      if es[hi - 1].Take? {
        PruneChangesNoAnswer(cfg, es, maxIdleMs, hi - 1);
        AnswerTellsAdmission(cfg, At(cfg, es, maxIdleMs, hi - 1), es[hi - 1].now);
        AnswerTellsAdmission(cfg, Kept(cfg, es, hi - 1), es[hi - 1].now);
      }
    }
  }

  /** What a stretch of `ms` milliseconds may admit: burst + rpm * ms / 60000. */
  function Allowance(rpm: int, burst: real, ms: int): real {
    burst + rpm as real * ms as real / 60_000.0
  }

  lemma AllowanceIs(cfg: Config, ms: int)
    ensures Allowance(cfg.rpm, cfg.burst, ms) == cfg.burst + Refill(cfg, ms)
  {
    Rescale(ms as real, cfg.rpm as real);
    assert ms as real * cfg.rpm as real == cfg.rpm as real * ms as real;
  }

  /** In any stretch of a run, admissions are at most burst + rpm * T / 60000 for its length T. */
  lemma AdmissionsAreBounded(cfg: Config, es: seq<Event>, maxIdleMs: nat, lo: nat, hi: nat)
    requires Ordered(es) && lo < hi <= |es| && cfg.rpm > 0 && cfg.burst >= 0.0 && IdleRefills(cfg, maxIdleMs)
    ensures Admissions(cfg, es, maxIdleMs, lo, hi) as real
            <= Allowance(cfg.rpm, cfg.burst, es[hi - 1].now - es[lo].now)
  {
    PruneAdmitsNoMore(cfg, es, maxIdleMs, lo, hi);
    KeptAdmissionsAreBounded(cfg, es, lo, hi);
    AllowanceIs(cfg, es[hi - 1].now - es[lo].now);
  }

  /** The bound for the limiter as the router builds and prunes it. */
  lemma DefaultAdmissionsAreBounded(rpm: int, es: seq<Event>, lo: nat, hi: nat)
    requires Ordered(es) && lo < hi <= |es| && rpm > 0
    ensures var burst := if rpm >= 24 then (rpm / 4) as real else 5.0;
            Admissions(Config(rpm, DefaultBurst(rpm)), es, DEFAULT_MAX_IDLE_MS, lo, hi) as real
            <= Allowance(rpm, burst, es[hi - 1].now - es[lo].now)
  {
    DefaultsRefill(rpm);
    AdmissionsAreBounded(Config(rpm, DefaultBurst(rpm)), es, DEFAULT_MAX_IDLE_MS, lo, hi);
  }

  // ---------------------------------------------------------------- no request is refused without need

  /** The level before a take is what some stretch up to it still allows. */
  lemma {:induction false} LevelIsSomeAllowance(cfg: Config, es: seq<Event>, k: nat) returns (lo: nat)
    requires Ordered(es) && k < |es| && cfg.rpm > 0
    ensures lo <= k
    ensures KeptAdmissions(cfg, es, lo, k) as real + Level(cfg, Kept(cfg, es, k), es[k].now)
         == cfg.burst + Refill(cfg, es[k].now - es[lo].now)
  {
    RefillAdds(cfg, 0, 0);
    if Level(cfg, Kept(cfg, es, k), es[k].now) == cfg.burst {
      lo := k;
    } else {
      lo := LevelIsSomeAllowance(cfg, es, k - 1);
      var before, now := es[k - 1].now, es[k].now;
      EventSettles(cfg, es, lo, k);
      Unclipped(cfg, Kept(cfg, es, k), before, now);
      RefillAdds(cfg, before - es[lo].now, now - before);
    }
  }

  lemma Unclipped(cfg: Config, b: Option<Bucket>, before: int, now: int)
    requires cfg.rpm > 0 && before <= now && Level(cfg, b, now) != cfg.burst
    ensures Level(cfg, b, now) == Level(cfg, b, before) + Refill(cfg, now - before)
  {
    RefillGrows(cfg, before - b.value.updatedAt, now - b.value.updatedAt);
    RefillAdds(cfg, before - b.value.updatedAt, now - before);
  }

  /** One more admission would put the stretch from event `lo` over its allowance. */
  predicate OverAllowance(cfg: Config, es: seq<Event>, maxIdleMs: nat, lo: nat, k: nat)
    requires lo <= k < |es|
  {
    (Admissions(cfg, es, maxIdleMs, lo, k) + 1) as real > Allowance(cfg.rpm, cfg.burst, es[k].now - es[lo].now)
  }

  lemma OverMeans(cfg: Config, es: seq<Event>, maxIdleMs: nat, lo: nat, k: nat)
    requires Ordered(es) && lo <= k < |es| && cfg.rpm > 0 && cfg.burst >= 0.0 && IdleRefills(cfg, maxIdleMs)
    ensures OverAllowance(cfg, es, maxIdleMs, lo, k) <==>
            KeptAdmissions(cfg, es, lo, k) as real + 1.0 > cfg.burst + Refill(cfg, es[k].now - es[lo].now)
  {
    AllowanceIs(cfg, es[k].now - es[lo].now);
    PruneAdmitsNoMore(cfg, es, maxIdleMs, lo, k);
  }

  lemma OverIsRefused(cfg: Config, es: seq<Event>, maxIdleMs: nat, lo: nat, k: nat)
    requires Ordered(es) && lo <= k < |es| && cfg.rpm > 0 && cfg.burst >= 0.0 && IdleRefills(cfg, maxIdleMs)
    requires OverAllowance(cfg, es, maxIdleMs, lo, k)
    ensures !Admits(cfg, Kept(cfg, es, k), es[k].now)
  {
    OverMeans(cfg, es, maxIdleMs, lo, k);
    EventSettles(cfg, es, lo, k + 1);
    AdmissionsAndTokens(cfg, es, lo, k + 1);
  }

  lemma RefusedIsOver(cfg: Config, es: seq<Event>, maxIdleMs: nat, k: nat) returns (lo: nat)
    requires Ordered(es) && k < |es| && cfg.rpm > 0 && cfg.burst >= 0.0 && IdleRefills(cfg, maxIdleMs)
    requires !Admits(cfg, Kept(cfg, es, k), es[k].now)
    ensures lo <= k && OverAllowance(cfg, es, maxIdleMs, lo, k)
  {
    lo := LevelIsSomeAllowance(cfg, es, k);
    OverMeans(cfg, es, maxIdleMs, lo, k);
  }

  /** A request is refused exactly when admitting it would put some stretch that ends with it over its allowance. */
  lemma RefusedExactlyWhen(cfg: Config, es: seq<Event>, maxIdleMs: nat, k: nat)
    requires Ordered(es) && k < |es| && es[k].Take?
    requires cfg.rpm > 0 && cfg.burst >= 0.0 && IdleRefills(cfg, maxIdleMs)
    ensures Answer(cfg, At(cfg, es, maxIdleMs, k), es[k].now).Some? <==>
            exists lo :: 0 <= lo <= k && OverAllowance(cfg, es, maxIdleMs, lo, k)
  {
    PruneChangesNoAnswer(cfg, es, maxIdleMs, k);
    AnswerTellsAdmission(cfg, Kept(cfg, es, k), es[k].now);
    if Admits(cfg, Kept(cfg, es, k), es[k].now) {
      forall lo | 0 <= lo <= k ensures !OverAllowance(cfg, es, maxIdleMs, lo, k) {
        if OverAllowance(cfg, es, maxIdleMs, lo, k) {
          OverIsRefused(cfg, es, maxIdleMs, lo, k);
        }
      }
    } else {
      var lo := RefusedIsOver(cfg, es, maxIdleMs, k);
    }
  }

  /** The same for the limiter as the router builds it: a quarter of the rate, at least five, at once. */
  lemma DefaultRefusedExactlyWhen(rpm: int, es: seq<Event>, k: nat)
    requires Ordered(es) && k < |es| && es[k].Take? && rpm > 0
    ensures var cfg := Config(rpm, if rpm >= 24 then (rpm / 4) as real else 5.0);
            Answer(Config(rpm, DefaultBurst(rpm)), At(Config(rpm, DefaultBurst(rpm)), es, DEFAULT_MAX_IDLE_MS, k),
                   es[k].now).Some? <==>
            exists lo :: 0 <= lo <= k && OverAllowance(cfg, es, DEFAULT_MAX_IDLE_MS, lo, k)
  {
    DefaultsRefill(rpm);
    assert DefaultBurst(rpm) == if rpm >= 24 then (rpm / 4) as real else 5.0;
    RefusedExactlyWhen(Config(rpm, DefaultBurst(rpm)), es, DEFAULT_MAX_IDLE_MS, k);
  }

  /** With the default burst and the default idle limit the refill is always long enough. */
  lemma DefaultsRefill(rpm: int)
    ensures IdleRefills(Config(rpm, DefaultBurst(rpm)), DEFAULT_MAX_IDLE_MS)
  {
    if rpm > 0 {
      var cfg, r := Config(rpm, DefaultBurst(rpm)), rpm as real;
      Rescale(600_000.0, r);
      assert Refill(cfg, DEFAULT_MAX_IDLE_MS) == 10.0 * r;
      RefillGrows(cfg, DEFAULT_MAX_IDLE_MS, DEFAULT_MAX_IDLE_MS + 1);
      assert (rpm / 4) as real <= r;
    }
  }

  lemma DefaultPruneChangesNoAnswer(rpm: int, es: seq<Event>, k: nat)
    requires Ordered(es) && k < |es| && es[k].Take?
    ensures var cfg := Config(rpm, DefaultBurst(rpm));
            Answer(cfg, At(cfg, es, DEFAULT_MAX_IDLE_MS, k), es[k].now) == Answer(cfg, Kept(cfg, es, k), es[k].now)
  {
    DefaultsRefill(rpm);
    PruneChangesNoAnswer(Config(rpm, DefaultBurst(rpm)), es, DEFAULT_MAX_IDLE_MS, k);
  }

  // ---------------------------------------------------------------- pruning too soon

  /** A whole burst at once, a prune as soon as it is due, and a whole burst again. */
  function TwoBursts(burst: nat, maxIdleMs: nat): (es: seq<Event>)
    ensures |es| == 2 * burst + 1
    ensures forall i :: 0 <= i < |es| ==>
              es[i] == if i < burst then Take(0) else if i == burst then Prune(maxIdleMs + 1) else Take(maxIdleMs + 1)
  {
    seq(2 * burst + 1, i =>
      if i < burst then Take(0) else if i == burst then Prune(maxIdleMs + 1) else Take(maxIdleMs + 1))
  }

  /** Takes at one moment empty a full bucket one token at a time. */
  lemma {:induction false} BurstEmpties(cfg: Config, burst: nat, es: seq<Event>, maxIdleMs: nat, lo: nat, n: nat,
                                        now: int)
    requires cfg.rpm > 0 && cfg.burst == burst as real && n <= burst && lo + n <= |es|
    requires At(cfg, es, maxIdleMs, lo) == None && forall i :: lo <= i < lo + n ==> es[i] == Take(now)
    ensures n == 0 || At(cfg, es, maxIdleMs, lo + n) == Some(Bucket((burst - n) as real, now))
    ensures Admissions(cfg, es, maxIdleMs, lo, lo + n) == n
  {
    if n > 0 {
      BurstEmpties(cfg, burst, es, maxIdleMs, lo, n - 1, now);
      RefillAdds(cfg, 0, 0);
      assert now - now == 0;
      assert Level(cfg, At(cfg, es, maxIdleMs, lo + n - 1), now) == (burst - (n - 1)) as real;
    }
  }

  lemma {:induction false} AdmissionsSplit(cfg: Config, es: seq<Event>, maxIdleMs: nat, lo: nat, mid: nat, hi: nat)
    requires lo <= mid <= hi <= |es|
    ensures Admissions(cfg, es, maxIdleMs, lo, hi) ==
            Admissions(cfg, es, maxIdleMs, lo, mid) + Admissions(cfg, es, maxIdleMs, mid, hi)
    decreases hi
  {
    if mid < hi {
      AdmissionsSplit(cfg, es, maxIdleMs, lo, mid, hi - 1);
    }
  }

  lemma TwoBurstsAdmitted(cfg: Config, burst: nat, maxIdleMs: nat)
    requires cfg.rpm > 0 && cfg.burst == burst as real && burst > 0
    ensures Admissions(cfg, TwoBursts(burst, maxIdleMs), maxIdleMs, 0, 2 * burst + 1) == 2 * burst
  {
    var es := TwoBursts(burst, maxIdleMs);
    BurstEmpties(cfg, burst, es, maxIdleMs, 0, burst, 0);
    assert At(cfg, es, maxIdleMs, burst + 1) == None;
    BurstEmpties(cfg, burst, es, maxIdleMs, burst + 1, burst, maxIdleMs + 1);
    AdmissionsSplit(cfg, es, maxIdleMs, 0, burst + 1, 2 * burst + 1);
    assert Admissions(cfg, es, maxIdleMs, 0, burst + 1) == Admissions(cfg, es, maxIdleMs, 0, burst);
  }

  ghost predicate AlwaysBounded(cfg: Config, maxIdleMs: nat) {
    forall es: seq<Event>, lo: nat, hi: nat {:trigger Admissions(cfg, es, maxIdleMs, lo, hi)} ::
      Ordered(es) && lo < hi <= |es| ==>
        Admissions(cfg, es, maxIdleMs, lo, hi) as real
        <= Allowance(cfg.rpm, cfg.burst, es[hi - 1].now - es[lo].now)
  }

  /** For a whole-number burst the bound survives pruning exactly when idling that long refills a bucket. */
  lemma BoundSurvivesPruningExactlyWhen(cfg: Config, burst: nat, maxIdleMs: nat)
    requires cfg.rpm > 0 && cfg.burst == burst as real && burst > 0
    ensures AlwaysBounded(cfg, maxIdleMs) <==> IdleRefills(cfg, maxIdleMs)
  {
    if IdleRefills(cfg, maxIdleMs) {
      forall es: seq<Event>, lo: nat, hi: nat | Ordered(es) && lo < hi <= |es|
        ensures Admissions(cfg, es, maxIdleMs, lo, hi) as real
                <= Allowance(cfg.rpm, cfg.burst, es[hi - 1].now - es[lo].now)
      {
        AdmissionsAreBounded(cfg, es, maxIdleMs, lo, hi);
      }
    } else {
      var es := TwoBursts(burst, maxIdleMs);
      TwoBurstsAdmitted(cfg, burst, maxIdleMs);
      assert Ordered(es) && es[2 * burst].now - es[0].now == maxIdleMs + 1;
      AllowanceIs(cfg, maxIdleMs + 1);
      assert !(Admissions(cfg, es, maxIdleMs, 0, 2 * burst + 1) as real
               <= Allowance(cfg.rpm, cfg.burst, es[2 * burst].now - es[0].now));
    }
  }

  // ---------------------------------------------------------------- the returned wait

  lemma CeilIsLeast(x: real, k: int)
    ensures k >= Ceil(x) <==> k as real >= x
  {
    var f := (-x).Floor;
    assert f as real <= -x < f as real + 1.0;
  }

  /**
   * The wait handed to a refused caller is the least whole number of seconds after which an
   * undisturbed retry is admitted; every later retry is admitted too.
   */
  lemma WaitIsLeast(cfg: Config, b: Option<Bucket>, now: int, seconds: nat)
    requires cfg.rpm > 0 && cfg.burst >= 1.0 && !Admits(cfg, b, now)
    ensures var refused := AfterTake(cfg, b, now);
            Admits(cfg, refused, now + 1000 * seconds) <==> seconds >= Answer(cfg, b, now).value
  {
    var level, r := Level(cfg, b, now), RefillPerMs(cfg);
    var refused := AfterTake(cfg, b, now);
    assert refused == Some(Bucket(level, now));
    assert now + 1000 * seconds - now == 1000 * seconds;
    CeilIsLeast((1.0 - level) / r / 1000.0, seconds);
    Enough(level, r, seconds as real);
    assert (1000 * seconds) as real == 1000.0 * seconds as real;
  }

  lemma Enough(level: real, r: real, s: real)
    requires r > 0.0
    ensures s >= (1.0 - level) / r / 1000.0 <==> level + (1000.0 * s) * r >= 1.0
  {
    var need := 1.0 - level;
    var q := need / r;
    assert q * r == need;
    if s >= q / 1000.0 {
      assert 1000.0 * s >= q;
      assert (1000.0 * s - q) * r >= 0.0;
    } else {
      assert 1000.0 * s < q;
      assert (q - 1000.0 * s) * r > 0.0;
    }
  }
}

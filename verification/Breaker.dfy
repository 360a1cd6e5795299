/**
 * The circuit breaker (src/resilience/breaker.ts). Times are milliseconds; rates are exact.
 */
module Breaker {

  datatype Phase = Closed | Open | HalfOpen
  datatype Sample = Sample(ok: bool, at: int)

  datatype Window = Window(outcomes: seq<Sample>, phase: Phase, openedAt: int, probeInFlight: bool)

  datatype Config = Config(windowMs: int, minSamples: nat, openThreshold: real, openDurationMs: int)

  const FRESH := Window([], Closed, 0, false)

  /** Drop samples from the front while they are older than the window. */
  function Prune(outcomes: seq<Sample>, cutoff: int): seq<Sample> {
    if outcomes != [] && outcomes[0].at < cutoff then Prune(outcomes[1..], cutoff) else outcomes
  }

  function Failures(outcomes: seq<Sample>): nat {
    if outcomes == [] then 0 else (if outcomes[0].ok then 0 else 1) + Failures(outcomes[1..])
  }

  function Successes(outcomes: seq<Sample>): seq<Sample> {
    if outcomes == [] then [] else (if outcomes[0].ok then [outcomes[0]] else []) + Successes(outcomes[1..])
  }

  function ErrorRate(outcomes: seq<Sample>): real {
    if outcomes == [] then 0.0 else Failures(outcomes) as real / |outcomes| as real
  }

  predicate Allows(cfg: Config, w: Window, now: int) {
    match w.phase
    case Closed => true
    case Open => now - w.openedAt >= cfg.openDurationMs
    case HalfOpen => !w.probeInFlight
  }

  function AfterAllow(cfg: Config, w: Window, now: int): Window {
    if !Allows(cfg, w, now) || w.phase == Closed then w
    else w.(phase := HalfOpen, probeInFlight := true)
  }

  function AfterRecord(cfg: Config, w: Window, ok: bool, now: int): Window {
    var outcomes := Prune(w.outcomes + [Sample(ok, now)], now - cfg.windowMs);
    match w.phase
    case HalfOpen =>
      if ok then Window(Successes(outcomes), Closed, w.openedAt, false)
      else Window(outcomes, Open, now, false)
    case Closed =>
      if !ok && |outcomes| >= cfg.minSamples && ErrorRate(outcomes) >= cfg.openThreshold
      then Window(outcomes, Open, now, w.probeInFlight)
      else w.(outcomes := outcomes)
    case Open => w.(outcomes := outcomes)
  }

  class CircuitBreaker {
    var windows: map<string, Window>
    const cfg: Config

    constructor (cfg: Config)
      ensures this.cfg == cfg && forall p :: WindowOf(p) == FRESH
    {
      this.cfg := cfg;
      windows := map[];
    }

    function WindowOf(p: string): Window
      reads this
    {
      if p in windows then windows[p] else FRESH
    }

    method Allow(p: string, now: int) returns (admitted: bool)
      modifies this
      ensures admitted == Allows(cfg, old(WindowOf(p)), now)
      ensures WindowOf(p) == AfterAllow(cfg, old(WindowOf(p)), now)
      ensures forall q :: q != p ==> WindowOf(q) == old(WindowOf(q))
    {
      var w := WindowOf(p);
      if w.phase == Closed { return true; }
      if w.phase == Open {
        if now - w.openedAt >= cfg.openDurationMs {
          windows := windows[p := w.(phase := HalfOpen, probeInFlight := true)];
          return true;
        }
        return false;
      }
      if !w.probeInFlight {
        windows := windows[p := w.(probeInFlight := true)];
        return true;
      }
      return false;
    }

    method Record(p: string, ok: bool, now: int)
      modifies this
      ensures WindowOf(p) == AfterRecord(cfg, old(WindowOf(p)), ok, now)
      ensures forall q :: q != p ==> WindowOf(q) == old(WindowOf(q))
    {
      var w := WindowOf(p);
      var outcomes := w.outcomes + [Sample(ok, now)];
      ghost var all := outcomes;
      while outcomes != [] && outcomes[0].at < now - cfg.windowMs
        invariant Prune(all, now - cfg.windowMs) == Prune(outcomes, now - cfg.windowMs)
      {
        outcomes := outcomes[1..];
      }
      if w.phase == HalfOpen {
        if ok {
          windows := windows[p := Window(Successes(outcomes), Closed, w.openedAt, false)];
        } else {
          windows := windows[p := Window(outcomes, Open, now, false)];
        }
        return;
      }
      w := w.(outcomes := outcomes);
      if w.phase == Closed && !ok {
        if |outcomes| >= cfg.minSamples && ErrorRate(outcomes) >= cfg.openThreshold {
          w := w.(openedAt := now, phase := Open);
        }
      }
      windows := windows[p := w];
    }
  }
}

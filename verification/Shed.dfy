/**
 * The load-shed guard (src/resilience/shed.ts): per provider a counting semaphore with a
 * bounded first-in-first-out queue of waiters that may give up.
 */
module Shed {
  import opened Common

  datatype Config = Config(maxConcurrent: nat, queueCap: nat)

  /** One provider's share of the guard. Waiters are named; a name is used once. */
  datatype Slot = Slot(inFlight: int, queue: seq<nat>)

  datatype Answer = Granted | Refused | Waiting

  function AnswerTo(cfg: Config, s: Slot): Answer {
    if s.inFlight < cfg.maxConcurrent then Granted
    else if |s.queue| >= cfg.queueCap then Refused
    else Waiting
  }

  function AfterAcquire(cfg: Config, s: Slot, w: nat): Slot {
    match AnswerTo(cfg, s)
    case Granted => s.(inFlight := s.inFlight + 1)
    case Refused => s
    case Waiting => s.(queue := s.queue + [w])
  }

  function IndexOf(q: seq<nat>, w: nat): (r: Option<nat>)
    ensures r.Some? ==> r.value < |q| && q[r.value] == w
    ensures r.None? ==> w !in q
  {
    if q == [] then None
    else if q[0] == w then Some(0)
    else match IndexOf(q[1..], w) case None => None case Some(i) => Some(i + 1)
  }

  function AfterAbort(s: Slot, w: nat): Slot {
    match IndexOf(s.queue, w)
    case None => s
    case Some(i) => s.(queue := s.queue[..i] + s.queue[i + 1..])
  }

  /** The waiter a release hands the slot to, if any. */
  function Served(cfg: Config, s: Slot): Option<nat> {
    if s.queue != [] && s.inFlight - 1 < cfg.maxConcurrent then Some(s.queue[0]) else None
  }

  function AfterRelease(cfg: Config, s: Slot): Slot {
    if Served(cfg, s).Some? then s.(queue := s.queue[1..]) else s.(inFlight := s.inFlight - 1)
  }

  class LoadShedGuard {
    var inFlight: map<string, int>
    var queues: map<string, seq<nat>>
    const cfg: Config

    constructor (cfg: Config)
      ensures this.cfg == cfg && forall p :: SlotOf(p) == Slot(0, [])
    {
      this.cfg := cfg;
      inFlight, queues := map[], map[];
    }

    ghost function SlotOf(p: string): Slot
      reads this
    {
      Slot(if p in inFlight then inFlight[p] else 0, if p in queues then queues[p] else [])
    }

    method Acquire(p: string, waiter: nat) returns (a: Answer)
      modifies this
      ensures a == AnswerTo(cfg, old(SlotOf(p)))
      ensures SlotOf(p) == AfterAcquire(cfg, old(SlotOf(p)), waiter)
      ensures forall q :: q != p ==> SlotOf(q) == old(SlotOf(q))
    {
      var current := if p in inFlight then inFlight[p] else 0;
      if current < cfg.maxConcurrent {
        inFlight := inFlight[p := current + 1];
        return Granted;
      }
      var queue := if p in queues then queues[p] else [];
      if |queue| >= cfg.queueCap { return Refused; }
      queues := queues[p := queue + [waiter]];
      return Waiting;
    }

    /** The abort listener of a waiter: true when it resolves the waiter with a refusal. */
    method Abort(p: string, waiter: nat) returns (refused: bool)
      modifies this
      ensures refused <==> waiter in old(SlotOf(p)).queue
      ensures SlotOf(p) == AfterAbort(old(SlotOf(p)), waiter)
      ensures forall q :: q != p ==> SlotOf(q) == old(SlotOf(q))
    {
      if p !in queues { return false; }
      var queue := queues[p];
      var idx := IndexOf(queue, waiter);
      if idx.None? { return false; }
      queues := queues[p := queue[..idx.value] + queue[idx.value + 1..]];
      return true;
    }

    /** Called by the holder of a grant; hands the slot to the head of the queue. */
    method Release(p: string) returns (next: Option<nat>)
      requires p in inFlight
      modifies this
      ensures next == Served(cfg, old(SlotOf(p)))
      ensures SlotOf(p) == AfterRelease(cfg, old(SlotOf(p)))
      ensures forall q :: q != p ==> SlotOf(q) == old(SlotOf(q))
    {
      var current := inFlight[p] - 1;
      inFlight := inFlight[p := current];
      if p in queues && queues[p] != [] && current < cfg.maxConcurrent {
        next := Some(queues[p][0]);
        queues := queues[p := queues[p][1..]];
        inFlight := inFlight[p := inFlight[p] + 1];
        return;
      }
      return None;
    }
  }

  // ---------------------------------------------------------------- runs

  /** What happens at one provider, in any interleaving. */
  datatype Event = Arrive(w: nat) | GiveUp(w: nat) | Done(w: nat)

  /** The slot with the history of the waiters that came to it. */
  datatype History = History(
    slot: Slot,
    arrived: seq<nat>,
    granted: seq<nat>,
    refused: set<nat>,
    released: set<nat>)

  const START := History(Slot(0, []), [], [], {}, {})

  /** A waiter arrives once; a grant is released once, and only by its holder. */
  predicate Legal(h: History, e: Event) {
    match e
    case Arrive(w) => w !in h.arrived
    case GiveUp(_) => true
    case Done(w) => w in h.granted && w !in h.released
  }

  function Step(cfg: Config, h: History, e: Event): History {
    match e
    case Arrive(w) =>
      var a := AnswerTo(cfg, h.slot);
      History(AfterAcquire(cfg, h.slot, w), h.arrived + [w],
              if a == Granted then h.granted + [w] else h.granted,
              if a == Refused then h.refused + {w} else h.refused, h.released)
    case GiveUp(w) =>
      h.(slot := AfterAbort(h.slot, w), refused := if w in h.slot.queue then h.refused + {w} else h.refused)
    case Done(w) =>
      var next := Served(cfg, h.slot);
      h.(slot := AfterRelease(cfg, h.slot),
         granted := if next.Some? then h.granted + [next.value] else h.granted,
         released := h.released + {w})
  }

  function Play(cfg: Config, h: History, events: seq<Event>): History
    decreases |events|
  {
    if events == [] then h else Play(cfg, Step(cfg, h, events[0]), events[1..])
  }

  predicate AllLegal(cfg: Config, h: History, events: seq<Event>)
    decreases |events|
  {
    events == [] || (Legal(h, events[0]) && AllLegal(cfg, Step(cfg, h, events[0]), events[1..]))
  }

  /** `xs` without the members of `gone`, in order. */
  function Without(xs: seq<nat>, gone: set<nat>): seq<nat> {
    if xs == [] then [] else (if xs[0] in gone then [] else [xs[0]]) + Without(xs[1..], gone)
  }

  predicate NoDuplicates(xs: seq<nat>) {
    forall i, j :: 0 <= i < j < |xs| ==> xs[i] != xs[j]
  }

  /**
   * What every run keeps: the limits, a queue only when the provider is full, in-flight counts
   * the unreleased grants, and the waiters that were not refused are exactly the granted ones
   * followed by the queue, in order of arrival.
   */
  ghost predicate Inv(cfg: Config, h: History) {
    && 0 <= h.slot.inFlight <= cfg.maxConcurrent
    && |h.slot.queue| <= cfg.queueCap
    && (h.slot.queue != [] ==> h.slot.inFlight == cfg.maxConcurrent)
    && h.slot.inFlight == |h.granted| - |h.released|
    && (forall w :: w in h.released ==> w in h.granted)
    && Without(h.arrived, h.refused) == h.granted + h.slot.queue
    && NoDuplicates(h.arrived)
    && (forall w :: w in h.refused ==> w in h.arrived)
  }
}

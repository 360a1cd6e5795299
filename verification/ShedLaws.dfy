/** Safety of the load-shed guard over every interleaving of arrivals, give-ups and releases. */
module ShedLaws {
  import opened Text
  import opened Shed

  // ---------------------------------------------------------------- sequences without refusals

  lemma {:induction false} WithoutAppend(a: seq<nat>, b: seq<nat>, gone: set<nat>)
    ensures Without(a + b, gone) == Without(a, gone) + Without(b, gone)
  {
    if a == [] {
      NoPrefix(b);
      NoPrefix(Without(b, gone));
    } else {
      assert (a + b)[1..] == a[1..] + b;
      WithoutAppend(a[1..], b, gone);
      Regroup(if a[0] in gone then [] else [a[0]], Without(a[1..], gone), Without(b, gone));
    }
  }

  lemma {:induction false} WithoutOneMore(xs: seq<nat>, gone: set<nat>, w: nat)
    ensures Without(xs, gone + {w}) == Without(Without(xs, gone), {w})
  {
    if xs != [] {
      WithoutOneMore(xs[1..], gone, w);
      var head: seq<nat> := if xs[0] in gone then [] else [xs[0]];
      WithoutAppend(head, Without(xs[1..], gone), {w});
      if xs[0] !in gone {
        assert head[1..] == [];
      }
    }
  }

  lemma {:induction false} WithoutStranger(xs: seq<nat>, w: nat)
    requires w !in xs
    ensures Without(xs, {w}) == xs
  {
    if xs != [] {
      WithoutStranger(xs[1..], w);
    }
  }

  lemma {:induction false} WithoutMembers(xs: seq<nat>, gone: set<nat>, w: nat)
    ensures w in Without(xs, gone) <==> w in xs && w !in gone
  {
    if xs != [] {
      WithoutMembers(xs[1..], gone, w);
    }
  }

  lemma {:induction false} WithoutNoDuplicates(xs: seq<nat>, gone: set<nat>)
    requires NoDuplicates(xs)
    ensures NoDuplicates(Without(xs, gone))
  {
    if xs != [] {
      var rest := Without(xs[1..], gone);
      WithoutNoDuplicates(xs[1..], gone);
      WithoutMembers(xs[1..], gone, xs[0]);
    }
  }

  /** Splicing the waiter out of a queue without repeats leaves the rest in order. */
  lemma {:induction false} RemoveOne(q: seq<nat>, i: nat)
    requires i < |q| && NoDuplicates(q)
    ensures Without(q, {q[i]}) == q[..i] + q[i + 1..]
  {
    if i == 0 {
      WithoutStranger(q[1..], q[0]);
    } else {
      RemoveOne(q[1..], i - 1);
      assert [q[0]] + (q[1..][..i - 1] + q[1..][i..]) == q[..i] + q[i + 1..];
    }
  }

  // ---------------------------------------------------------------- every step keeps Inv

  lemma ArriveKeeps(cfg: Config, h: History, w: nat)
    requires Inv(cfg, h) && w !in h.arrived
    ensures Inv(cfg, Step(cfg, h, Arrive(w)))
  {
    var h' := Step(cfg, h, Arrive(w));
    assert [w][1..] == [];
    match AnswerTo(cfg, h.slot)
    case Granted =>
      WithoutAppend(h.arrived, [w], h.refused);
      NoPrefix(h.granted);
      NoPrefix(h'.granted);
    case Waiting =>
      WithoutAppend(h.arrived, [w], h.refused);
      Regroup(h.granted, h.slot.queue, [w]);
    case Refused =>
      WithoutAppend(h.arrived, [w], h'.refused);
      WithoutOneMore(h.arrived, h.refused, w);
      WithoutMembers(h.arrived, h.refused, w);
      WithoutStranger(Without(h.arrived, h.refused), w);
      NoPrefix(Without(h.arrived, h.refused));
  }

  lemma GiveUpKeeps(cfg: Config, h: History, w: nat)
    requires Inv(cfg, h)
    ensures Inv(cfg, Step(cfg, h, GiveUp(w)))
  {
    var q := h.slot.queue;
    if w in q {
      var i := IndexOf(q, w).value;
      var all := h.granted + q;
      WithoutNoDuplicates(h.arrived, h.refused);
      QueueApart(h.granted, q, i);
      RemoveOne(q, i);
      WithoutOneMore(h.arrived, h.refused, w);
      WithoutAppend(h.granted, q, {w});
      WithoutStranger(h.granted, w);
      WithoutMembers(h.arrived, h.refused, w);
      assert w in all;
    }
  }

  lemma QueueApart(granted: seq<nat>, queue: seq<nat>, i: nat)
    requires NoDuplicates(granted + queue) && i < |queue|
    ensures NoDuplicates(queue) && queue[i] !in granted
  {
    var all := granted + queue;
    assert forall k :: 0 <= k < |queue| ==> queue[k] == all[|granted| + k];
    assert forall k :: 0 <= k < |granted| ==> granted[k] == all[k];
  }

  lemma DoneKeeps(cfg: Config, h: History, w: nat)
    requires Inv(cfg, h) && w in h.granted && w !in h.released
    ensures Inv(cfg, Step(cfg, h, Done(w)))
  {
    assert |h.released + {w}| == |h.released| + 1;
    ReleasedBound(cfg, h, w);
    var q := h.slot.queue;
    if q != [] {
      assert q == [q[0]] + q[1..];
      Regroup(h.granted, [q[0]], q[1..]);
    }
  }

  /** A holder that has not released counts in `inFlight`. */
  lemma ReleasedBound(cfg: Config, h: History, w: nat)
    requires Inv(cfg, h) && w in h.granted && w !in h.released
    ensures h.slot.inFlight >= 1
  {
    WithoutNoDuplicates(h.arrived, h.refused);
    var all := h.granted + h.slot.queue;
    assert forall k :: 0 <= k < |h.granted| ==> h.granted[k] == all[k];
    DistinctCount(h.granted, h.released + {w});
  }

  lemma {:induction false} DistinctCount(xs: seq<nat>, part: set<nat>)
    requires NoDuplicates(xs) && forall w :: w in part ==> w in xs
    ensures |part| <= |xs|
  {
    if xs == [] {
      assert part == {};
    } else {
      var rest := part - {xs[0]};
      forall w | w in rest ensures w in xs[1..] {
      }
      DistinctCount(xs[1..], rest);
      assert |part| <= |rest| + 1;
    }
  }

  lemma {:induction false} RunsKeepInv(cfg: Config, h: History, events: seq<Event>)
    requires Inv(cfg, h) && AllLegal(cfg, h, events)
    ensures Inv(cfg, Play(cfg, h, events))
    decreases |events|
  {
    if events != [] {
      match events[0] {
        case Arrive(w) => ArriveKeeps(cfg, h, w);
        case GiveUp(w) => GiveUpKeeps(cfg, h, w);
        case Done(w) => DoneKeeps(cfg, h, w);
      }
      RunsKeepInv(cfg, Step(cfg, h, events[0]), events[1..]);
    }
  }

  // ---------------------------------------------------------------- what that means for waiters

  lemma {:induction false} PositionsKeepOrder(xs: seq<nat>, gone: set<nat>, i: nat, j: nat) returns (p: nat, q: nat)
    requires i < j < |xs| && xs[i] !in gone && xs[j] !in gone
    ensures p < q < |Without(xs, gone)| && Without(xs, gone)[p] == xs[i] && Without(xs, gone)[q] == xs[j]
  {
    var head: seq<nat> := if xs[0] in gone then [] else [xs[0]];
    var rest := Without(xs[1..], gone);
    if i == 0 {
      WithoutMembers(xs[1..], gone, xs[j]);
      assert xs[1..][j - 1] == xs[j];
      var k :| 0 <= k < |rest| && rest[k] == xs[j];
      p, q := 0, k + 1;
    } else {
      p, q := PositionsKeepOrder(xs[1..], gone, i - 1, j - 1);
      p, q := p + |head|, q + |head|;
    }
  }

  /** No overtaking: whoever came before a served waiter was served before it, or had been refused. */
  lemma NoOvertaking(cfg: Config, events: seq<Event>, i: nat, j: nat) returns (p: nat, q: nat)
    requires AllLegal(cfg, START, events)
    requires var h := Play(cfg, START, events);
             i < j < |h.arrived| && h.arrived[j] in h.granted && h.arrived[i] !in h.refused
    ensures var h := Play(cfg, START, events);
            p < q < |h.granted| && h.granted[p] == h.arrived[i] && h.granted[q] == h.arrived[j]
  {
    RunsKeepInv(cfg, START, events);
    var h := Play(cfg, START, events);
    var all := h.granted + h.slot.queue;
    WithoutMembers(h.arrived, h.refused, h.arrived[j]);
    assert h.arrived[j] in all;
    p, q := PositionsKeepOrder(h.arrived, h.refused, i, j);
    WithoutNoDuplicates(h.arrived, h.refused);
    var k :| 0 <= k < |h.granted| && h.granted[k] == h.arrived[j];
    assert all[k] == all[q];
    assert all[p] == h.granted[p];
  }

  /** At every point each waiter is in exactly one place: granted once, refused, or queued. */
  lemma ResolvedExactlyOnce(cfg: Config, events: seq<Event>, w: nat)
    requires AllLegal(cfg, START, events)
    requires w in Play(cfg, START, events).arrived
    ensures var h := Play(cfg, START, events);
            var places := (if w in h.granted then 1 else 0) + (if w in h.refused then 1 else 0) +
              (if w in h.slot.queue then 1 else 0);
            places == 1 && NoDuplicates(h.granted) && NoDuplicates(h.slot.queue)
  {
    RunsKeepInv(cfg, START, events);
    var h := Play(cfg, START, events);
    var all := h.granted + h.slot.queue;
    WithoutMembers(h.arrived, h.refused, w);
    WithoutNoDuplicates(h.arrived, h.refused);
    assert w in all <==> w in h.granted || w in h.slot.queue;
    assert forall k :: 0 <= k < |h.granted| ==> h.granted[k] == all[k];
    assert forall k :: 0 <= k < |h.slot.queue| ==> h.slot.queue[k] == all[|h.granted| + k];
  }

  /** The limits, on every run. */
  lemma LimitsHold(cfg: Config, events: seq<Event>)
    requires AllLegal(cfg, START, events)
    ensures var h := Play(cfg, START, events);
            && 0 <= h.slot.inFlight <= cfg.maxConcurrent && |h.slot.queue| <= cfg.queueCap
            && (h.slot.queue != [] ==> h.slot.inFlight == cfg.maxConcurrent)
            && h.slot.inFlight == |h.granted| - |h.released|
  {
    RunsKeepInv(cfg, START, events);
  }

  /** Granted and not yet released. */
  function Holding(h: History): int {
    |h.granted| - |h.released|
  }

  /**
   * On every run a newcomer is granted exactly while fewer than `maxConcurrent` grants are out,
   * refused exactly when all are out and the queue is full, and otherwise waits last in line.
   */
  lemma AnsweredExactlyWhen(cfg: Config, events: seq<Event>, w: nat)
    requires AllLegal(cfg, START, events) && w !in Play(cfg, START, events).arrived
    ensures var h, h' := Play(cfg, START, events), Step(cfg, Play(cfg, START, events), Arrive(w));
            && (w in h'.granted <==> Holding(h) < cfg.maxConcurrent)
            && (w in h'.refused <==> Holding(h) == cfg.maxConcurrent && |h.slot.queue| == cfg.queueCap)
            && (w in h'.slot.queue <==> Holding(h) == cfg.maxConcurrent && |h.slot.queue| < cfg.queueCap)
            && (w in h'.slot.queue ==> h'.slot.queue == h.slot.queue + [w])
            && h'.arrived == h.arrived + [w] && h'.released == h.released
  {
    var h := Play(cfg, START, events);
    RunsKeepInv(cfg, START, events);
    ArriveKeeps(cfg, h, w);
    WithoutMembers(h.arrived, h.refused, w);
    assert w !in h.granted + h.slot.queue;
    assert w !in h.granted && w !in h.slot.queue by { Apart(h.granted, h.slot.queue, w); }
  }

  lemma Apart(a: seq<nat>, b: seq<nat>, w: nat)
    requires w !in a + b
    ensures w !in a && w !in b
  {
  }

  /** A release hands the slot to whoever waits longest; with nobody waiting it frees the slot. */
  lemma ReleaseServesLongestWaiting(cfg: Config, events: seq<Event>, w: nat)
    requires var h := Play(cfg, START, events);
             AllLegal(cfg, START, events) && w in h.granted && w !in h.released
    ensures var h, h' := Play(cfg, START, events), Step(cfg, Play(cfg, START, events), Done(w));
            && h'.released == h.released + {w} && h'.refused == h.refused && h'.arrived == h.arrived
            && (h.slot.queue == [] ==> h'.granted == h.granted && Holding(h') == Holding(h) - 1)
            && (h.slot.queue != [] ==>
                  && h'.granted == h.granted + [h.slot.queue[0]] && h'.slot.queue == h.slot.queue[1..]
                  && Holding(h') == Holding(h))
  {
    RunsKeepInv(cfg, START, events);
  }

  /** Giving up takes a waiter out of the line with a refusal, and changes nothing for anyone else. */
  lemma GivingUpLeavesTheLine(cfg: Config, events: seq<Event>, w: nat)
    requires AllLegal(cfg, START, events)
    ensures var h, h' := Play(cfg, START, events), Step(cfg, Play(cfg, START, events), GiveUp(w));
            && h'.granted == h.granted && h'.released == h.released && h'.arrived == h.arrived
            && h'.refused == (if w in h.slot.queue then h.refused + {w} else h.refused)
            && h'.slot.inFlight == h.slot.inFlight && h'.slot.queue == Without(h.slot.queue, {w})
  {
    var h := Play(cfg, START, events);
    RunsKeepInv(cfg, START, events);
    WithoutNoDuplicates(h.arrived, h.refused);
    if w in h.slot.queue {
      var i := IndexOf(h.slot.queue, w).value;
      QueueApart(h.granted, h.slot.queue, i);
      RemoveOne(h.slot.queue, i);
    } else {
      WithoutStranger(h.slot.queue, w);
    }
  }

  /** Nobody is left waiting once every grant has been released. */
  lemma EveryoneIsAnswered(cfg: Config, events: seq<Event>, w: nat)
    requires AllLegal(cfg, START, events) && cfg.maxConcurrent > 0
    requires var h := Play(cfg, START, events); Holding(h) == 0 && w in h.arrived
    ensures var h := Play(cfg, START, events); w in h.granted || w in h.refused
  {
    RunsKeepInv(cfg, START, events);
    ResolvedExactlyOnce(cfg, events, w);
  }
}

/**
 * Who writes the ledger row of a request: the pipeline's runner on success, its catch on any
 * failure, and the stream relay's `finally` (src/gateway/pipeline.ts, src/gateway/routes.ts).
 * How each stage ends is an input; storage is taken not to fail.
 */
module Runner {
  import opened Common
  import opened Ledger
  import opened LedgerLaws

  datatype Stage =
    | Authenticate | RateLimit | ResolveTaskClass | ApplyPolicy | CheckBudget
    | ScrubRequest | ChooseRoute | CallProvider

  /**
   * How one request fares. `failsAt` is the stage that throws, if one does; `cost` is what the
   * response in the context comes to, `relayCost` what the one the relay builds comes to. The
   * periods are those of the arrival, the runner's write, the catch's write and the relay's.
   */
  datatype Conduct = Conduct(
    who: Who,
    failsAt: Option<Stage>,
    stream: bool,
    cost: nat,
    auditThrows: bool,
    handoffThrows: bool,
    relayCost: nat,
    arrival: int,
    written: int,
    caught: int,
    relayed: int)

  /** Only a request past authentication has a firm to book to. */
  predicate Authenticated(c: Conduct) {
    c.failsAt != Some(Authenticate)
  }

  /** Before the provider has answered there is nothing to pay for; a stream leaves that to the relay. */
  function HeldCost(c: Conduct): nat {
    if c.stream || (c.failsAt.Some? && c.failsAt.value != CallProvider) then 0 else c.cost
  }

  predicate Succeeds(c: Conduct) {
    c.failsAt.None?
  }

  /** The runner hands a stream over without writing, and throws after any failure. */
  predicate RunnerThrows(c: Conduct) {
    !Succeeds(c) || (!c.stream && c.auditThrows)
  }

  /** The relay is entered unless something between the runner and its `try` throws. */
  predicate RelayRuns(c: Conduct) {
    Succeeds(c) && c.stream && !c.handoffThrows
  }

  // ---------------------------------------------------------------- as it runs

  method WriteContext(ledger: DbLedger, id: nat, c: Conduct, cost: nat, period: int)
    modifies ledger
    ensures ledger.State() ==
            if Authenticated(c) then Written(old(ledger.State()), Row(id, c.who, cost, period)) else old(ledger.State())
  {
    if !Authenticated(c) { return; }
    var inserted := ledger.Write(Row(id, c.who, cost, period));
  }

  /** `runPipeline`: the stages, the success write, the terminal audit, and the catch around them. */
  method RunPipeline(ledger: DbLedger, id: nat, c: Conduct) returns (threw: bool)
    modifies ledger
    ensures threw == RunnerThrows(c)
    ensures ledger.State() == AfterPipeline(old(ledger.State()), id, c)
  {
    var failed := c.failsAt.Some?;
    if !failed && !c.stream {
      WriteContext(ledger, id, c, HeldCost(c), c.written);
      failed := c.auditThrows;
    }
    if failed {
      WriteContext(ledger, id, c, HeldCost(c), c.caught);
    }
    return failed;
  }

  /** The route handler: the runner, then for a stream the relay with its `finally`. */
  method HandleRequest(ledger: DbLedger, id: nat, c: Conduct)
    modifies ledger
    ensures ledger.State() == AfterRequest(old(ledger.State()), id, c)
  {
    var threw := RunPipeline(ledger, id, c);
    if threw || !c.stream || c.handoffThrows { return; }
    WriteContext(ledger, id, c, c.relayCost, c.relayed);
  }

  /** The ledger writes of a request past authentication, in order. */
  function Writes(id: nat, c: Conduct): seq<Row> {
    (if Succeeds(c) && !c.stream then [Row(id, c.who, HeldCost(c), c.written)] else [])
    + (if RunnerThrows(c) then [Row(id, c.who, HeldCost(c), c.caught)] else [])
    + (if RelayRuns(c) then [Row(id, c.who, c.relayCost, c.relayed)] else [])
  }

  function AfterPipeline(b: Books, id: nat, c: Conduct): Books {
    if !Authenticated(c) then b
    else
      var b1 := if Succeeds(c) && !c.stream then Written(b, Row(id, c.who, HeldCost(c), c.written)) else b;
      if RunnerThrows(c) then Written(b1, Row(id, c.who, HeldCost(c), c.caught)) else b1
  }

  function AfterRequest(b: Books, id: nat, c: Conduct): Books {
    var b1 := AfterPipeline(b, id, c);
    if RelayRuns(c) then Written(b1, Row(id, c.who, c.relayCost, c.relayed)) else b1
  }

  // ---------------------------------------------------------------- exactly one row

  function RowsOf(rows: seq<Row>, id: nat): nat {
    if rows == [] then 0 else RowsOf(rows[..|rows| - 1], id) + (if rows[|rows| - 1].id == id then 1 else 0)
  }

  lemma {:induction false} NoRows(rows: seq<Row>, id: nat)
    ensures RowsOf(rows, id) == 0 <==> !HasId(rows, id)
  {
    if rows != [] {
      var n := |rows| - 1;
      NoRows(rows[..n], id);
      assert HasId(rows, id) <==> HasId(rows[..n], id) || rows[n].id == id by {
        assert forall i :: 0 <= i < n ==> rows[..n][i] == rows[i];
      }
    }
  }

  lemma FirstWrite(b: Books, r: Row)
    requires !HasId(b.rows, r.id)
    ensures Written(b, r) == Books(b.rows + [r], Recorded(b.spent, r.who, r.cost, r.period))
    ensures HasId(Written(b, r).rows, r.id) && RowsOf(Written(b, r).rows, r.id) == 1
  {
    var rows := b.rows + [r];
    assert rows[|b.rows|] == r && rows[..|b.rows|] == b.rows;
    NoRows(b.rows, r.id);
  }

  /** The write that books the request. */
  function Booking(id: nat, c: Conduct): Row
    requires Writes(id, c) != []
  {
    Writes(id, c)[0]
  }

  /** A request past authentication is written unless its stream is lost between runner and relay. */
  predicate Lost(c: Conduct) {
    Succeeds(c) && c.stream && c.handoffThrows
  }

  lemma WritesUnlessLost(id: nat, c: Conduct)
    ensures Writes(id, c) == [] <==> Lost(c)
    ensures forall i :: 0 <= i < |Writes(id, c)| ==> Writes(id, c)[i].id == id && Writes(id, c)[i].who == c.who
    ensures |Writes(id, c)| <= 2
  {
  }

  /**
   * However the stages, the audit and the relay end, a request past authentication has exactly one
   * row, the first write's, and its cost is added once; the exact exception is a stream lost on the
   * way to the relay. Before authentication nothing is written.
   */
  lemma ExactlyOneRow(b: Books, id: nat, c: Conduct)
    requires !HasId(b.rows, id)
    ensures RowsOf(AfterRequest(b, id, c).rows, id) == if Authenticated(c) && !Lost(c) then 1 else 0
    ensures !Authenticated(c) || Lost(c) ==> AfterRequest(b, id, c) == b
    ensures Authenticated(c) && !Lost(c) ==>
              var r := Booking(id, c);
              AfterRequest(b, id, c) == Books(b.rows + [r], Recorded(b.spent, r.who, r.cost, r.period))
  {
    NoRows(b.rows, id);
    if Authenticated(c) && !Lost(c) {
      var r := Booking(id, c);
      FirstWrite(b, r);
      var booked := Written(b, r);
      if Succeeds(c) && !c.stream && c.auditThrows {
        SecondWriteChangesNothing(booked, Row(id, c.who, HeldCost(c), c.caught));
      }
    }
  }

  /** Such a stream, in full: nothing throws in the pipeline, and nothing is ever booked. */
  lemma LostStreamLeavesNoRow(b: Books, id: nat, who: Who, cost: nat, period: int)
    requires !HasId(b.rows, id)
    ensures var c := Conduct(who, None, true, 0, false, true, cost, period, period, period, period);
            Authenticated(c) && !RunnerThrows(c) && RowsOf(AfterRequest(b, id, c).rows, id) == 0
  {
    NoRows(b.rows, id);
  }

  /** Without the request id the audit's failure would book an answer twice. */
  lemma TwoWritesAreMade(id: nat, c: Conduct)
    requires Succeeds(c) && !c.stream && c.auditThrows
    ensures |Writes(id, c)| == 2
  {
  }

  /** What a request past authentication costs in the end. */
  lemma CostOfTheRow(id: nat, c: Conduct)
    requires !Lost(c)
    ensures Booking(id, c).cost ==
            if Succeeds(c) then (if c.stream then c.relayCost else c.cost)
            else if c.failsAt == Some(CallProvider) && !c.stream then c.cost else 0
  {
  }

  // ---------------------------------------------------------------- the runner makes legal runs

  /** Refused before the budgets are looked at. */
  predicate RefusedEarly(c: Conduct) {
    c.failsAt in {Some(RateLimit), Some(ResolveTaskClass), Some(ApplyPolicy)}
  }

  /** The request as the ledger sees it: an arrival and one event per write. */
  function EventsOf(id: nat, c: Conduct): seq<Event> {
    [Arrive(id, c.who, RefusedEarly(c), c.arrival)] + FinishesOf(Writes(id, c))
  }

  function FinishesOf(rows: seq<Row>): seq<Event> {
    if rows == [] then [] else [Finish(rows[0].id, rows[0].who, rows[0].period)] + FinishesOf(rows[1..])
  }

  /** The stages end as the books say, at times in order. */
  predicate Plausible(limits: Limits, s: State, id: nat, c: Conduct) {
    && Authenticated(c) && PlainFirm(c.who.firm)
    && s.clock <= c.arrival <= c.written <= c.caught && c.arrival <= c.relayed
    && (!RefusedEarly(c) ==> (c.failsAt == Some(CheckBudget) <==> Refuses(s.books, limits, c.who, c.arrival)))
  }

  lemma FinishesOfOne(r: Row)
    ensures FinishesOf([r]) == [Finish(r.id, r.who, r.period)]
  {
    assert [r][1..] == [];
  }

  /** After the arrival, the request is the last pending one, admitted unless it was refused. */
  lemma ArrivalIsPending(limits: Limits, cost: nat -> nat, s: State, id: nat, c: Conduct)
    requires Inv(s) && !Known(s, id) && Plausible(limits, s, id, c)
    ensures var e := Arrive(id, c.who, RefusedEarly(c), c.arrival);
            var next := Step(limits, cost, s, e);
            && Legal(s, e) && next.books == s.books && next.clock == c.arrival
            && IndexOf(next.pending, id) == Some(|s.pending|)
            && next.pending == s.pending + [Pending(id, c.who, !RefusedEarly(c) && c.failsAt != Some(CheckBudget))]
  {
  }

  lemma FirstFinish(limits: Limits, cost: nat -> nat, s: State, r: Row, i: nat)
    requires IndexOf(s.pending, r.id) == Some(i) && i == |s.pending| - 1 && s.pending[i].who == r.who
    requires r.cost == CostOf(s.pending[i], cost) && s.clock <= r.period
    ensures Legal(s, Finish(r.id, r.who, r.period))
    ensures Step(limits, cost, s, Finish(r.id, r.who, r.period)) == State(Written(s.books, r), s.pending[..i], r.period)
  {
    assert s.pending[..i] + s.pending[i + 1..] == s.pending[..i];
  }

  lemma SecondFinish(limits: Limits, cost: nat -> nat, s: State, r: Row)
    requires HasId(s.books.rows, r.id) && IndexOf(s.pending, r.id) == None && s.clock <= r.period
    ensures Legal(s, Finish(r.id, r.who, r.period))
    ensures Step(limits, cost, s, Finish(r.id, r.who, r.period)) == State(s.books, s.pending, r.period)
  {
    SecondWriteChangesNothing(s.books, Row(r.id, r.who, cost(r.id), r.period));
  }

  lemma PlayOne(limits: Limits, cost: nat -> nat, s: State, e: Event, rest: seq<Event>)
    ensures Play(limits, cost, s, [e] + rest) == Play(limits, cost, Step(limits, cost, s, e), rest)
    ensures AllLegal(limits, cost, s, [e] + rest) <==>
            Legal(s, e) && AllLegal(limits, cost, Step(limits, cost, s, e), rest)
  {
    assert ([e] + rest)[1..] == rest;
  }

  /**
   * What the runner does to the books is a legal run of the ledger's events, so every law about
   * those runs is one about requests the runner carries through.
   */
  lemma RunnerIsARun(limits: Limits, cost: nat -> nat, s: State, id: nat, c: Conduct)
    requires Inv(s) && !Known(s, id) && Plausible(limits, s, id, c)
    requires !Lost(c) && !RefusedEarly(c) && c.failsAt != Some(CheckBudget) ==> cost(id) == Booking(id, c).cost
    ensures AllLegal(limits, cost, s, EventsOf(id, c))
    ensures Play(limits, cost, s, EventsOf(id, c)).books == AfterRequest(s.books, id, c)
  {
    var arrive := Arrive(id, c.who, RefusedEarly(c), c.arrival);
    var writes := Writes(id, c);
    ArrivalIsPending(limits, cost, s, id, c);
    PlayOne(limits, cost, s, arrive, FinishesOf(writes));
    ExactlyOneRow(s.books, id, c);
    WritesUnlessLost(id, c);
    if writes != [] {
      WritesPlay(limits, cost, Step(limits, cost, s, arrive), id, writes);
    }
  }

  lemma WritesPlay(limits: Limits, cost: nat -> nat, s: State, id: nat, writes: seq<Row>)
    requires 1 <= |writes| <= 2 && !HasId(s.books.rows, id)
    requires |s.pending| > 0 && IndexOf(s.pending, id) == Some(|s.pending| - 1)
    requires IndexOf(s.pending[..|s.pending| - 1], id) == None
    requires forall i :: 0 <= i < |writes| ==> writes[i].id == id && writes[i].who == s.pending[|s.pending| - 1].who
    requires writes[0].cost == CostOf(s.pending[|s.pending| - 1], cost)
    requires s.clock <= writes[0].period && (|writes| == 2 ==> writes[0].period <= writes[1].period)
    ensures AllLegal(limits, cost, s, FinishesOf(writes))
    ensures Play(limits, cost, s, FinishesOf(writes)).books == Written(s.books, writes[0])
  {
    var r := writes[0];
    var e := Finish(r.id, r.who, r.period);
    var next := Step(limits, cost, s, e);
    FirstFinish(limits, cost, s, r, |s.pending| - 1);
    FirstWrite(s.books, r);
    PlayOne(limits, cost, s, e, FinishesOf(writes[1..]));
    if |writes| == 2 {
      var q := writes[1];
      assert writes[1..] == [q];
      FinishesOfOne(q);
      SecondFinish(limits, cost, next, q);
      PlayOne(limits, cost, next, Finish(q.id, q.who, q.period), []);
      assert [Finish(q.id, q.who, q.period)] + [] == [Finish(q.id, q.who, q.period)];
    }
  }
}

/** Conservation of spend, and how far a budget can be overshot. */
module LedgerLaws {
  import opened Common
  import opened Text
  import opened Ledger

  // ---------------------------------------------------------------- scope keys do not collide

  predicate PlainFirm(firm: string) {
    ':' !in firm
  }

  lemma StartsPlain(firm: string)
    requires PlainFirm(firm)
    ensures firm == [] || firm[0] != ':'
  {
    if firm != [] {
      assert firm[0] in firm;
    }
  }

  lemma {:induction false} KeysSplit(a: string, x: string, b: string, y: string)
    requires PlainFirm(a) && PlainFirm(b) && a + ":" + x == b + ":" + y
    ensures a == b && x == y
  {
    var s, t := a + ":" + x, b + ":" + y;
    assert s[|a|] == ':' && t[|b|] == ':';
    StartsPlain(a);
    StartsPlain(b);
    if a == [] || b == [] {
      assert a == [] && b == [];
      assert s[1..] == x && t[1..] == y;
    } else {
      assert s[0] == a[0] && t[0] == b[0];
      assert s[1..] == a[1..] + ":" + x && t[1..] == b[1..] + ":" + y;
      KeysSplit(a[1..], x, b[1..], y);
      assert a == [a[0]] + a[1..] && b == [b[0]] + b[1..];
    }
  }

  /** Two scopes of different firms, apps or users never share a stored total. */
  lemma ScopeKeyInjective(s: Scope, t: Scope, p: int, q: int)
    requires !s.TaskClass? && !t.TaskClass? && PlainFirm(s.firm) && PlainFirm(t.firm)
    ensures ScopeKey(s, p) == ScopeKey(t, q) <==> s == t && p == q
  {
    if s.App? && t.App? && ScopeKey(s, p) == ScopeKey(t, q) {
      KeysSplit(s.firm, s.app, t.firm, t.app);
    }
    if s.User? && t.User? && ScopeKey(s, p) == ScopeKey(t, q) {
      KeysSplit(s.firm, s.user, t.firm, t.user);
    }
  }

  // ---------------------------------------------------------------- conservation

  function Times(scopes: seq<Scope>, scope: Scope): nat {
    if scopes == [] then 0 else Times(scopes[..|scopes| - 1], scope) + (if scopes[|scopes| - 1] == scope then 1 else 0)
  }

  lemma {:induction false} AddToCounts(spent: map<Key, nat>, scopes: seq<Scope>, cost: nat, period: int,
                                       scope: Scope, p: int)
    requires forall i :: 0 <= i < |scopes| ==> !scopes[i].TaskClass? && PlainFirm(scopes[i].firm)
    requires !scope.TaskClass? && PlainFirm(scope.firm)
    ensures At(AddTo(spent, scopes, cost, period), ScopeKey(scope, p)) ==
            At(spent, ScopeKey(scope, p)) + (if p == period then Times(scopes, scope) * cost else 0)
  {
    if scopes != [] {
      var n := |scopes| - 1;
      AddToCounts(spent, scopes[..n], cost, period, scope, p);
      ScopeKeyInjective(scope, scopes[n], p, period);
      Distributes(Times(scopes[..n], scope), cost);
    }
  }

  lemma Distributes(k: nat, cost: nat)
    ensures (k + 1) * cost == k * cost + cost
  {
  }

  lemma TimesAppend(scopes: seq<Scope>, last: Scope, scope: Scope)
    ensures Times(scopes + [last], scope) == Times(scopes, scope) + (if last == scope then 1 else 0)
  {
    assert (scopes + [last])[..|scopes|] == scopes;
  }

  lemma TimesOfTwo(a: Scope, b: Scope, scope: Scope)
    ensures Times([a, b], scope) == (if a == scope then 1 else 0) + (if b == scope then 1 else 0)
  {
    TimesAppend([], a, scope);
    NoPrefix([a]);
    TimesAppend([a], b, scope);
    assert [a] + [b] == [a, b];
  }

  lemma BookedOnce(who: Who, scope: Scope)
    requires !scope.TaskClass?
    ensures Times(BookedScopes(who), scope) == if Covers(scope, who) then 1 else 0
  {
    var booked := [Firm(who.firm), App(who.firm, who.app)];
    TimesOfTwo(Firm(who.firm), App(who.firm, who.app), scope);
    if HasUser(who) {
      TimesAppend(booked, User(who.firm, who.user.value), scope);
    } else {
      NoPrefix(booked);
    }
  }

  lemma RecordedShare(spent: map<Key, nat>, who: Who, cost: nat, period: int, scope: Scope, p: int)
    requires PlainFirm(who.firm) && !scope.TaskClass? && PlainFirm(scope.firm)
    ensures At(Recorded(spent, who, cost, period), ScopeKey(scope, p)) ==
            At(spent, ScopeKey(scope, p)) + (if Covers(scope, who) && p == period then cost else 0)
  {
    if cost > 0 {
      AddToCounts(spent, BookedScopes(who), cost, period, scope, p);
      BookedOnce(who, scope);
    }
  }

  /** Every stored total is the sum of the rows it stands for. */
  ghost predicate Conserved(b: Books) {
    forall scope: Scope, p :: !scope.TaskClass? && PlainFirm(scope.firm) ==>
      At(b.spent, ScopeKey(scope, p)) == RowSum(b.rows, scope, p)
  }

  lemma RowSumGrows(rows: seq<Row>, r: Row, scope: Scope, p: int)
    ensures RowSum(rows + [r], scope, p) == RowSum(rows, scope, p) + RowShare(r, scope, p)
  {
    assert (rows + [r])[..|rows|] == rows;
  }

  lemma WriteConserves(b: Books, r: Row)
    requires Conserved(b) && PlainFirm(r.who.firm)
    ensures Conserved(Written(b, r))
  {
    if !HasId(b.rows, r.id) {
      var after := Written(b, r);
      forall scope: Scope, p | !scope.TaskClass? && PlainFirm(scope.firm)
        ensures At(after.spent, ScopeKey(scope, p)) == RowSum(after.rows, scope, p)
      {
        RowSumGrows(b.rows, r, scope, p);
        RecordedShare(b.spent, r.who, r.cost, r.period, scope, p);
      }
    }
  }

  function AppsSum(rows: seq<Row>, firm: string, apps: seq<string>, p: int): nat {
    if apps == [] then 0 else AppsSum(rows, firm, apps[1..], p) + RowSum(rows, App(firm, apps[0]), p)
  }

  function AppsSpent(b: Books, firm: string, apps: seq<string>, p: int): nat {
    if apps == [] then 0 else AppsSpent(b, firm, apps[1..], p) + At(b.spent, ScopeKey(App(firm, apps[0]), p))
  }

  predicate DistinctApps(apps: seq<string>) {
    forall i, j :: 0 <= i < j < |apps| ==> apps[i] != apps[j]
  }

  function AppsShare(r: Row, firm: string, apps: seq<string>, p: int): nat {
    if r.who.app in apps then RowShare(r, Firm(firm), p) else 0
  }

  lemma {:induction false} AppsSumGrows(rows: seq<Row>, r: Row, firm: string, apps: seq<string>, p: int)
    requires DistinctApps(apps)
    ensures AppsSum(rows + [r], firm, apps, p) == AppsSum(rows, firm, apps, p) + AppsShare(r, firm, apps, p)
  {
    if apps != [] {
      assert DistinctApps(apps[1..]);
      AppsSumGrows(rows, r, firm, apps[1..], p);
      RowSumGrows(rows, r, App(firm, apps[0]), p);
      assert apps == [apps[0]] + apps[1..];
    }
  }

  lemma {:induction false} AppsSumEmpty(firm: string, apps: seq<string>, p: int)
    ensures AppsSum([], firm, apps, p) == 0
  {
    if apps != [] { AppsSumEmpty(firm, apps[1..], p); }
  }

  lemma {:induction false} AppsMakeTheFirm(rows: seq<Row>, firm: string, apps: seq<string>, p: int)
    requires DistinctApps(apps)
    requires forall i :: 0 <= i < |rows| ==> rows[i].who.app in apps
    ensures AppsSum(rows, firm, apps, p) == RowSum(rows, Firm(firm), p)
  {
    if rows == [] {
      AppsSumEmpty(firm, apps, p);
    } else {
      var n := |rows| - 1;
      AppsMakeTheFirm(rows[..n], firm, apps, p);
      AppsSumGrows(rows[..n], rows[n], firm, apps, p);
      assert rows[..n] + [rows[n]] == rows;
    }
  }

  lemma {:induction false} AppsSpentIsSum(b: Books, firm: string, apps: seq<string>, p: int)
    requires Conserved(b) && PlainFirm(firm)
    ensures AppsSpent(b, firm, apps, p) == AppsSum(b.rows, firm, apps, p)
  {
    if apps != [] { AppsSpentIsSum(b, firm, apps[1..], p); }
  }

  /** A firm's month is the sum of its apps' months and of its first-written rows. */
  lemma FirmSpendIsConserved(b: Books, firm: string, apps: seq<string>, p: int)
    requires Conserved(b) && PlainFirm(firm) && DistinctApps(apps)
    requires forall i :: 0 <= i < |b.rows| ==> b.rows[i].who.app in apps
    ensures At(b.spent, ScopeKey(Firm(firm), p)) == RowSum(b.rows, Firm(firm), p) == AppsSpent(b, firm, apps, p)
  {
    AppsMakeTheFirm(b.rows, firm, apps, p);
    AppsSpentIsSum(b, firm, apps, p);
  }

  // ---------------------------------------------------------------- runs

  /** A request on its way; one that was not admitted is only waiting for its row. */
  datatype Pending = Pending(id: nat, who: Who, admitted: bool)

  datatype State = State(books: Books, pending: seq<Pending>, clock: int)

  /** A request arrives (`refused` for a reason other than budget), or the ledger write of one is made. */
  datatype Event = Arrive(id: nat, who: Who, refused: bool, period: int) | Finish(id: nat, who: Who, period: int)

  function IndexOf(pending: seq<Pending>, id: nat): (r: Option<nat>)
    ensures r.Some? ==> r.value < |pending| && pending[r.value].id == id
    ensures r.None? ==> forall i :: 0 <= i < |pending| ==> pending[i].id != id
  {
    if pending == [] then None
    else if pending[|pending| - 1].id == id then Some(|pending| - 1)
    else IndexOf(pending[..|pending| - 1], id)
  }

  predicate Admits(limits: Limits, s: State, who: Who, refused: bool, period: int) {
    !refused && !Refuses(s.books, limits, who, period)
  }

  /** `cost` is what each admitted request will come to; any other comes to nothing. */
  function CostOf(q: Pending, cost: nat -> nat): nat {
    if q.admitted then cost(q.id) else 0
  }

  /** A request that is no longer pending may still be written again. */
  function Step(limits: Limits, cost: nat -> nat, s: State, e: Event): State {
    match e
    case Arrive(id, who, refused, period) =>
      State(s.books, s.pending + [Pending(id, who, Admits(limits, s, who, refused, period))], period)
    case Finish(id, who, period) =>
      match IndexOf(s.pending, id)
      case None => State(Written(s.books, Row(id, who, cost(id), period)), s.pending, period)
      case Some(i) =>
        State(Written(s.books, Row(id, who, CostOf(s.pending[i], cost), period)),
              s.pending[..i] + s.pending[i + 1..], period)
  }

  /** The clock does not go back, ids are fresh and firm ids carry no colon. */
  predicate Legal(s: State, e: Event) {
    match e
    case Arrive(id, who, _, period) =>
      period >= s.clock && PlainFirm(who.firm) && !HasId(s.books.rows, id) && IndexOf(s.pending, id) == None
    case Finish(id, who, period) =>
      && period >= s.clock
      && (HasId(s.books.rows, id) ||
          (IndexOf(s.pending, id).Some? && s.pending[IndexOf(s.pending, id).value].who == who))
  }

  function Play(limits: Limits, cost: nat -> nat, s: State, events: seq<Event>): State
    decreases |events|
  {
    if events == [] then s else Play(limits, cost, Step(limits, cost, s, events[0]), events[1..])
  }

  predicate AllLegal(limits: Limits, cost: nat -> nat, s: State, events: seq<Event>)
    decreases |events|
  {
    events == [] || (Legal(s, events[0]) && AllLegal(limits, cost, Step(limits, cost, s, events[0]), events[1..]))
  }

  predicate UniqueRows(rows: seq<Row>) {
    forall i, j :: 0 <= i < j < |rows| ==> rows[i].id != rows[j].id
  }

  predicate Booked(rows: seq<Row>, clock: int) {
    forall i :: 0 <= i < |rows| ==> rows[i].period <= clock
  }

  predicate PendingOk(pending: seq<Pending>, rows: seq<Row>) {
    forall i :: 0 <= i < |pending| ==> PlainFirm(pending[i].who.firm) && !HasId(rows, pending[i].id)
  }

  predicate PendingUnique(pending: seq<Pending>) {
    forall i, j :: 0 <= i < j < |pending| ==> pending[i].id != pending[j].id
  }

  ghost predicate Inv(s: State) {
    && Conserved(s.books) && UniqueRows(s.books.rows) && Booked(s.books.rows, s.clock)
    && PendingOk(s.pending, s.books.rows) && PendingUnique(s.pending)
  }

  lemma WriteKeepsRows(b: Books, r: Row, clock: int, now: int)
    requires UniqueRows(b.rows) && Booked(b.rows, clock) && clock <= now && r.period == now
    ensures UniqueRows(Written(b, r).rows) && Booked(Written(b, r).rows, now)
    ensures forall id :: HasId(Written(b, r).rows, id) <==> HasId(b.rows, id) || id == r.id
  {
    var rows := Written(b, r).rows;
    if !HasId(b.rows, r.id) {
      assert rows[|b.rows|] == r;
      forall id | HasId(b.rows, id) ensures HasId(rows, id) {
        var i :| 0 <= i < |b.rows| && b.rows[i].id == id;
        assert rows[i].id == id;
      }
    }
  }

  lemma DropKeepsPending(pending: seq<Pending>, i: nat, rows: seq<Row>, more: seq<Row>)
    requires i < |pending| && PendingOk(pending, rows) && PendingUnique(pending)
    requires forall id :: HasId(more, id) <==> HasId(rows, id) || id == pending[i].id
    ensures var rest := pending[..i] + pending[i + 1..]; PendingOk(rest, more) && PendingUnique(rest)
  {
    var rest := pending[..i] + pending[i + 1..];
    forall j | 0 <= j < |rest| ensures rest[j] == pending[if j < i then j else j + 1] {
    }
  }

  /** A write for a request that has its row changes nothing, whatever it says. */
  lemma SecondWriteChangesNothing(b: Books, r: Row)
    requires HasId(b.rows, r.id)
    ensures Written(b, r) == b
  {
  }

  lemma StepKeepsInv(limits: Limits, cost: nat -> nat, s: State, e: Event)
    requires Inv(s) && Legal(s, e)
    ensures Inv(Step(limits, cost, s, e))
  {
    if e.Finish? {
      FinishKeepsInv(limits, cost, s, e);
    }
  }

  lemma FinishKeepsInv(limits: Limits, cost: nat -> nat, s: State, e: Event)
    requires Inv(s) && Legal(s, e) && e.Finish?
    ensures Inv(Step(limits, cost, s, e))
  {
    var i := IndexOf(s.pending, e.id);
    if i.None? {
      SecondWriteChangesNothing(s.books, Row(e.id, e.who, cost(e.id), e.period));
    } else {
      var r := Row(e.id, e.who, CostOf(s.pending[i.value], cost), e.period);
      WriteConserves(s.books, r);
      WriteKeepsRows(s.books, r, s.clock, e.period);
      DropKeepsPending(s.pending, i.value, s.books.rows, Written(s.books, r).rows);
    }
  }

  /** Empty books with nothing under way satisfy the invariant, whatever the month. */
  lemma StartIsInv(clock: int)
    ensures Inv(State(Books([], map[]), [], clock))
  {
  }

  /** Every run keeps one row per request and every total equal to its rows. */
  lemma {:induction false} RunsKeepInv(limits: Limits, cost: nat -> nat, s: State, events: seq<Event>)
    requires Inv(s) && AllLegal(limits, cost, s, events)
    ensures Inv(Play(limits, cost, s, events))
    decreases |events|
  {
    if events != [] {
      StepKeepsInv(limits, cost, s, events[0]);
      RunsKeepInv(limits, cost, Step(limits, cost, s, events[0]), events[1..]);
    }
  }

  predicate Known(s: State, id: nat) {
    HasId(s.books.rows, id) || IndexOf(s.pending, id).Some?
  }

  /**
   * Once arrived, a request is pending or booked for good; its first write books it, and every
   * further write leaves the books as they are.
   */
  lemma NeverLost(limits: Limits, cost: nat -> nat, s: State, e: Event, id: nat)
    requires Inv(s) && Legal(s, e) && (Known(s, id) || (e.Arrive? && e.id == id))
    ensures Known(Step(limits, cost, s, e), id)
    ensures e.Finish? && e.id == id ==> HasId(Step(limits, cost, s, e).books.rows, id)
    ensures HasId(s.books.rows, id) && e.Finish? && e.id == id ==> Step(limits, cost, s, e).books == s.books
  {
    var after := Step(limits, cost, s, e);
    if e.Arrive? {
      assert after.pending[..|s.pending|] == s.pending;
    } else {
      var i := IndexOf(s.pending, e.id);
      var r := Row(e.id, e.who, if i.None? then cost(e.id) else CostOf(s.pending[i.value], cost), e.period);
      WriteKeepsRows(s.books, r, s.clock, e.period);
      if i.Some? && id != e.id && IndexOf(s.pending, id).Some? {
        StillPending(s.pending, i.value, id);
      }
    }
  }

  lemma StillPending(pending: seq<Pending>, i: nat, id: nat)
    requires i < |pending| && pending[i].id != id && IndexOf(pending, id).Some?
    ensures IndexOf(pending[..i] + pending[i + 1..], id).Some?
  {
    var j := IndexOf(pending, id).value;
    var rest := pending[..i] + pending[i + 1..];
    assert rest[if j < i then j else j - 1] == pending[j];
  }

  // ---------------------------------------------------------------- the limit holds

  lemma {:induction false} SumSinceIsMonth(rows: seq<Row>, scope: Scope, period: int)
    requires Booked(rows, period)
    ensures SumSince(rows, scope, period) == RowSum(rows, scope, period)
  {
    if rows != [] {
      SumSinceIsMonth(rows[..|rows| - 1], scope, period);
    }
  }

  /** What the check reads is what the month has cost. */
  lemma SpentIsMonth(s: State, scope: Scope, period: int)
    requires Inv(s) && period >= s.clock && PlainFirm(scope.firm)
    ensures Spent(s.books, scope, period) == RowSum(s.books.rows, scope, period)
  {
    if scope.TaskClass? {
      SumSinceIsMonth(s.books.rows, scope, period);
    }
  }

  lemma CoveredIsChecked(scope: Scope, who: Who) returns (i: nat)
    requires Covers(scope, who)
    ensures i < |CheckedScopes(who)| && CheckedScopes(who)[i] == scope
  {
    match scope {
      case Firm(_) => i := 0;
      case App(_, _) => i := 1;
      case User(_, _) => i := 2;
      case TaskClass(_, _) => i := |BookedScopes(who)|;
    }
  }

  lemma CheckedIsCovered(scope: Scope, who: Who)
    requires scope in CheckedScopes(who)
    ensures Covers(scope, who) && scope.firm == who.firm
  {
  }

  /** A scope of the requester whose rows of the month come to its limit. */
  ghost predicate UsedUp(limits: Limits, rows: seq<Row>, scope: Scope, who: Who, period: int) {
    Covers(scope, who) && limits(scope).Some? && RowSum(rows, scope, period) >= limits(scope).value
  }

  /** In every reachable state a request is refused exactly when the month's rows have used up a limit it is under. */
  lemma RefusedExactlyWhen(limits: Limits, s: State, who: Who, period: int)
    requires Inv(s) && s.clock <= period && PlainFirm(who.firm)
    ensures Refuses(s.books, limits, who, period) <==> exists scope :: UsedUp(limits, s.books.rows, scope, who, period)
  {
    if Refuses(s.books, limits, who, period) {
      var i :| 0 <= i < |CheckedScopes(who)| && Exhausted(s.books, limits, CheckedScopes(who)[i], period);
      var scope := CheckedScopes(who)[i];
      CheckedIsCovered(scope, who);
      SpentIsMonth(s, scope, period);
      assert UsedUp(limits, s.books.rows, scope, who, period);
    }
    forall scope | UsedUp(limits, s.books.rows, scope, who, period) ensures Refuses(s.books, limits, who, period) {
      var i := CoveredIsChecked(scope, who);
      CheckedIsCovered(scope, who);
      SpentIsMonth(s, scope, period);
    }
  }

  lemma {:induction false} FutureIsEmpty(rows: seq<Row>, scope: Scope, clock: int, p: int)
    requires Booked(rows, clock) && clock < p
    ensures RowSum(rows, scope, p) == 0
  {
    if rows != [] {
      FutureIsEmpty(rows[..|rows| - 1], scope, clock, p);
    }
  }

  predicate LimitReached(limits: Limits, s: State, scope: Scope, p: int) {
    limits(scope).Some? && RowSum(s.books.rows, scope, p) >= limits(scope).value
  }

  /** While a month's limit is reached, the scope admits nobody up to the end of that month. */
  lemma ReachedAdmitsNobody(limits: Limits, s: State, scope: Scope, p: int, who: Who, refused: bool, period: int)
    requires Inv(s) && LimitReached(limits, s, scope, p) && s.clock <= period <= p
    requires Covers(scope, who) && PlainFirm(who.firm)
    ensures !Admits(limits, s, who, refused, period)
  {
    SpentIsMonth(s, scope, period);
    if period < p {
      FutureIsEmpty(s.books.rows, scope, period, p);
    }
    var i := CoveredIsChecked(scope, who);
    assert Exhausted(s.books, limits, CheckedScopes(who)[i], period);
  }

  function PendingSum(pending: seq<Pending>, scope: Scope, cost: nat -> nat): nat {
    if pending == [] then 0
    else PendingSum(pending[..|pending| - 1], scope, cost) + PendingShare(pending[|pending| - 1], scope, cost)
  }

  function PendingShare(q: Pending, scope: Scope, cost: nat -> nat): nat {
    if Covers(scope, q.who) then CostOf(q, cost) else 0
  }

  lemma {:induction false} PendingDrop(pending: seq<Pending>, i: nat, scope: Scope, cost: nat -> nat)
    requires i < |pending|
    ensures PendingSum(pending[..i] + pending[i + 1..], scope, cost) + PendingShare(pending[i], scope, cost) ==
            PendingSum(pending, scope, cost)
    decreases |pending|
  {
    var n := |pending| - 1;
    if i == n {
      assert pending[..i] + pending[i + 1..] == pending[..n];
    } else {
      PendingDrop(pending[..n], i, scope, cost);
      var rest := pending[..i] + pending[i + 1..];
      assert rest[..n - 1] == pending[..n][..i] + pending[..n][i + 1..];
      assert rest[n - 1] == pending[n];
    }
  }

  /** What a month can still come to: what it has cost and what is under way. */
  function Exposure(s: State, scope: Scope, p: int, cost: nat -> nat): nat {
    RowSum(s.books.rows, scope, p) + (if s.clock <= p then PendingSum(s.pending, scope, cost) else 0)
  }

  lemma WriteGrows(b: Books, r: Row, scope: Scope, p: int)
    ensures RowSum(b.rows, scope, p) <= RowSum(Written(b, r).rows, scope, p)
    ensures RowSum(Written(b, r).rows, scope, p) <= RowSum(b.rows, scope, p) + RowShare(r, scope, p)
  {
    RowSumGrows(b.rows, r, scope, p);
  }

  /** Spend never shrinks, and booking a pending request never raises the exposure. */
  lemma FinishKeepsExposure(limits: Limits, cost: nat -> nat, s: State, e: Event, scope: Scope, p: int)
    requires Legal(s, e) && e.Finish?
    ensures Exposure(Step(limits, cost, s, e), scope, p, cost) <= Exposure(s, scope, p, cost)
    ensures RowSum(Step(limits, cost, s, e).books.rows, scope, p) >= RowSum(s.books.rows, scope, p)
  {
    var i := IndexOf(s.pending, e.id);
    if i.None? {
      SecondWriteChangesNothing(s.books, Row(e.id, e.who, cost(e.id), e.period));
    } else {
      BookingGrows(s, e, CostOf(s.pending[i.value], cost), i.value, scope, p);
      PendingDrop(s.pending, i.value, scope, cost);
    }
  }

  lemma BookingGrows(s: State, e: Event, cost: nat, i: nat, scope: Scope, p: int)
    requires Legal(s, e) && e.Finish? && IndexOf(s.pending, e.id) == Some(i)
    ensures var after := Written(s.books, Row(e.id, e.who, cost, e.period)).rows;
            && RowSum(s.books.rows, scope, p) <= RowSum(after, scope, p)
            && RowSum(after, scope, p) <=
                 RowSum(s.books.rows, scope, p) + (if Covers(scope, s.pending[i].who) && e.period == p then cost else 0)
  {
    var r := Row(e.id, e.who, cost, e.period);
    if HasId(s.books.rows, e.id) {
      SecondWriteChangesNothing(s.books, r);
    } else {
      WriteGrows(s.books, r, scope, p);
    }
  }

  lemma ArrivalKeepsExposure(limits: Limits, cost: nat -> nat, s: State, e: Event, scope: Scope, p: int)
    requires Inv(s) && Legal(s, e) && e.Arrive? && LimitReached(limits, s, scope, p)
    ensures Exposure(Step(limits, cost, s, e), scope, p, cost) <= Exposure(s, scope, p, cost)
  {
    var q := Pending(e.id, e.who, Admits(limits, s, e.who, e.refused, e.period));
    var after := s.pending + [q];
    assert after[..|s.pending|] == s.pending;
    if q.admitted && e.period <= p && Covers(scope, e.who) {
      ReachedAdmitsNobody(limits, s, scope, p, e.who, e.refused, e.period);
    }
  }

  lemma StepKeepsExposure(limits: Limits, cost: nat -> nat, s: State, e: Event, scope: Scope, p: int)
    requires Inv(s) && Legal(s, e) && LimitReached(limits, s, scope, p)
    ensures LimitReached(limits, Step(limits, cost, s, e), scope, p)
    ensures Exposure(Step(limits, cost, s, e), scope, p, cost) <= Exposure(s, scope, p, cost)
  {
    if e.Arrive? {
      ArrivalKeepsExposure(limits, cost, s, e, scope, p);
    } else {
      FinishKeepsExposure(limits, cost, s, e, scope, p);
    }
  }

  /** From the moment a limit is reached, a month grows by no more than what was then under way. */
  lemma {:induction false} OvershootIsBounded(limits: Limits, cost: nat -> nat, s: State, events: seq<Event>,
                                              scope: Scope, p: int)
    requires Inv(s) && AllLegal(limits, cost, s, events) && LimitReached(limits, s, scope, p)
    ensures var end := Play(limits, cost, s, events);
            && LimitReached(limits, end, scope, p)
            && RowSum(end.books.rows, scope, p) <= RowSum(s.books.rows, scope, p) + PendingSum(s.pending, scope, cost)
            && Exposure(end, scope, p, cost) <= Exposure(s, scope, p, cost)
    decreases |events|
  {
    if events != [] {
      var next := Step(limits, cost, s, events[0]);
      StepKeepsInv(limits, cost, s, events[0]);
      StepKeepsExposure(limits, cost, s, events[0], scope, p);
      OvershootIsBounded(limits, cost, next, events[1..], scope, p);
    }
  }

  /** Counted from just before the booking that crosses the limit: the excess is what was under way. */
  lemma OvershootAtCrossing(limits: Limits, cost: nat -> nat, s: State, events: seq<Event>, scope: Scope, p: int)
    requires Inv(s) && AllLegal(limits, cost, s, events) && events != [] && events[0].Finish?
    requires limits(scope).Some? && RowSum(s.books.rows, scope, p) < limits(scope).value
    requires LimitReached(limits, Step(limits, cost, s, events[0]), scope, p)
    ensures RowSum(Play(limits, cost, s, events).books.rows, scope, p)
            < limits(scope).value + PendingSum(s.pending, scope, cost)
  {
    var next := Step(limits, cost, s, events[0]);
    StepKeepsInv(limits, cost, s, events[0]);
    FinishKeepsExposure(limits, cost, s, events[0], scope, p);
    OvershootIsBounded(limits, cost, next, events[1..], scope, p);
  }

  /** No later request of the scope is admitted in that month. */
  lemma NoLaterAdmission(limits: Limits, cost: nat -> nat, s: State, events: seq<Event>, scope: Scope, p: int,
                         who: Who, refused: bool)
    requires Inv(s) && AllLegal(limits, cost, s, events) && LimitReached(limits, s, scope, p)
    requires Play(limits, cost, s, events).clock <= p && Covers(scope, who) && PlainFirm(who.firm)
    ensures !Admits(limits, Play(limits, cost, s, events), who, refused, p)
  {
    var end := Play(limits, cost, s, events);
    RunsKeepInv(limits, cost, s, events);
    OvershootIsBounded(limits, cost, s, events, scope, p);
    ReachedAdmitsNobody(limits, end, scope, p, who, refused, p);
  }
}

/**
 * The usage ledger and the budgets (src/ledger): one row per request, spend added once per row to
 * the firm, app and user scopes, and a check that refuses a request when a scope is exhausted.
 * Costs and limits are exact whole numbers of the smallest stored unit; a period is a month.
 */
module Ledger {
  import opened Common

  /** On whose account a request runs. An empty user id counts as none. */
  datatype Who = Who(firm: string, app: string, user: Option<string>, taskClass: Option<string>)

  datatype Scope =
    | Firm(firm: string)
    | App(firm: string, app: string)
    | User(firm: string, user: string)
    | TaskClass(firm: string, class_: string)

  datatype Row = Row(id: nat, who: Who, cost: nat, period: int)

  /** Key of a budgets_state row. The task-class scope has none: it is summed from the ledger. */
  datatype Table = FirmTable | AppTable | UserTable
  datatype Key = Key(table: Table, scopeRef: string, period: int)

  datatype Books = Books(rows: seq<Row>, spent: map<Key, nat>)

  // ---------------------------------------------------------------- scopes

  predicate HasUser(who: Who) {
    who.user.Some? && who.user.value != ""
  }

  /** The scopes a request is booked under in budgets_state. */
  function BookedScopes(who: Who): seq<Scope> {
    [Firm(who.firm), App(who.firm, who.app)] + (if HasUser(who) then [User(who.firm, who.user.value)] else [])
  }

  /** The scopes a request is checked against, in order. */
  function CheckedScopes(who: Who): seq<Scope> {
    BookedScopes(who) + (if who.taskClass.Some? then [TaskClass(who.firm, who.taskClass.value)] else [])
  }

  predicate Covers(scope: Scope, who: Who) {
    match scope
    case Firm(firm) => who.firm == firm
    case App(firm, app) => who.firm == firm && who.app == app
    case User(firm, user) => who.firm == firm && HasUser(who) && who.user.value == user
    case TaskClass(firm, class_) => who.firm == firm && who.taskClass == Some(class_)
  }

  /** The firm-scoped reference under which a scope's spend is stored. */
  function ScopeKey(scope: Scope, period: int): Key
    requires !scope.TaskClass?
  {
    match scope
    case Firm(firm) => Key(FirmTable, firm, period)
    case App(firm, app) => Key(AppTable, firm + ":" + app, period)
    case User(firm, user) => Key(UserTable, firm + ":" + user, period)
  }

  function At(spent: map<Key, nat>, key: Key): nat {
    if key in spent then spent[key] else 0
  }

  // ---------------------------------------------------------------- sums over the ledger

  function RowShare(r: Row, scope: Scope, period: int): nat {
    if Covers(scope, r.who) && r.period == period then r.cost else 0
  }

  /** What the rows of a month cost a scope. */
  function RowSum(rows: seq<Row>, scope: Scope, period: int): nat {
    if rows == [] then 0 else RowSum(rows[..|rows| - 1], scope, period) + RowShare(rows[|rows| - 1], scope, period)
  }

  /** The indexed sum behind the task-class budget: rows since the start of the month. */
  function SumSince(rows: seq<Row>, scope: Scope, period: int): nat {
    if rows == [] then 0
    else
      var r := rows[|rows| - 1];
      SumSince(rows[..|rows| - 1], scope, period) + (if Covers(scope, r.who) && r.period >= period then r.cost else 0)
  }

  predicate HasId(rows: seq<Row>, id: nat) {
    exists i :: 0 <= i < |rows| && rows[i].id == id
  }

  // ---------------------------------------------------------------- recording

  function AddTo(spent: map<Key, nat>, scopes: seq<Scope>, cost: nat, period: int): map<Key, nat>
    requires forall i :: 0 <= i < |scopes| ==> !scopes[i].TaskClass?
  {
    if scopes == [] then spent
    else
      var before := AddTo(spent, scopes[..|scopes| - 1], cost, period);
      var key := ScopeKey(scopes[|scopes| - 1], period);
      before[key := At(before, key) + cost]
  }

  function Recorded(spent: map<Key, nat>, who: Who, cost: nat, period: int): map<Key, nat> {
    if cost <= 0 then spent else AddTo(spent, BookedScopes(who), cost, period)
  }

  /** The first write for a request id books it; any other changes nothing. */
  function Written(b: Books, r: Row): Books {
    if HasId(b.rows, r.id) then b else Books(b.rows + [r], Recorded(b.spent, r.who, r.cost, r.period))
  }

  // ---------------------------------------------------------------- checking

  type Limits = Scope -> Option<nat>

  function Spent(b: Books, scope: Scope, period: int): nat {
    if scope.TaskClass? then SumSince(b.rows, scope, period) else At(b.spent, ScopeKey(scope, period))
  }

  predicate Exhausted(b: Books, limits: Limits, scope: Scope, period: int) {
    limits(scope).Some? && Spent(b, scope, period) >= limits(scope).value
  }

  /** Some scope of the request has used up its limit. */
  predicate Refuses(b: Books, limits: Limits, who: Who, period: int) {
    exists i :: 0 <= i < |CheckedScopes(who)| && Exhausted(b, limits, CheckedScopes(who)[i], period)
  }

  class DbLedger {
    var rows: seq<Row>
    var spent: map<Key, nat>

    constructor ()
      ensures State() == Books([], map[])
    {
      rows, spent := [], map[];
    }

    function State(): Books
      reads this
    {
      Books(rows, spent)
    }

    /** The loop over scopes of `recordSpend`, each an insert or an increment. */
    method RecordSpend(who: Who, cost: nat, period: int)
      modifies this`spent
      ensures spent == Recorded(old(spent), who, cost, period)
    {
      if cost <= 0 { return; }
      var scopes := BookedScopes(who);
      for i := 0 to |scopes|
        invariant spent == AddTo(old(spent), scopes[..i], cost, period)
      {
        assert scopes[..i + 1][..i] == scopes[..i];
        var key := ScopeKey(scopes[i], period);
        spent := spent[key := At(spent, key) + cost];
      }
      assert scopes[..|scopes|] == scopes;
    }

    method Write(r: Row) returns (inserted: bool)
      modifies this
      ensures inserted == !HasId(old(rows), r.id)
      ensures State() == Written(old(State()), r)
    {
      if HasId(rows, r.id) { return false; }
      rows := rows + [r];
      if r.cost > 0 { RecordSpend(r.who, r.cost, r.period); }
      return true;
    }

    /**
     * The fast path before a request runs: the first exhausted scope, if any, and otherwise the
     * scopes at or above their soft percentage.
     */
    method CheckBudgets(limits: Limits, who: Who, period: int, softPct: nat)
      returns (exhausted: Option<Scope>, warnings: seq<Scope>)
      ensures exhausted.Some? <==> Refuses(State(), limits, who, period)
      ensures exhausted.Some? ==>
                exhausted.value in CheckedScopes(who) && Exhausted(State(), limits, exhausted.value, period)
      ensures exhausted.None? ==> forall scope :: scope in warnings <==>
                scope in CheckedScopes(who) && limits(scope).Some? &&
                100 * Spent(State(), scope, period) >= limits(scope).value * softPct
    {
      var scopes := CheckedScopes(who);
      warnings := [];
      for i := 0 to |scopes|
        invariant forall j :: 0 <= j < i ==> !Exhausted(State(), limits, scopes[j], period)
        invariant forall scope :: scope in warnings <==>
                    scope in scopes[..i] && limits(scope).Some? &&
                    100 * Spent(State(), scope, period) >= limits(scope).value * softPct
      {
        var scope := scopes[i];
        assert scopes[..i + 1] == scopes[..i] + [scope];
        if limits(scope).Some? {
          var spentCents := Spent(State(), scope, period);
          if spentCents >= limits(scope).value { return Some(scope), warnings; }
          if 100 * spentCents >= limits(scope).value * softPct { warnings := warnings + [scope]; }
        }
      }
      assert scopes[..|scopes|] == scopes;
      return None, warnings;
    }
  }
}

/**
 * The page controller of the web client: the totals it shows for the loaded
 * transactions, how it keeps the active wallet when the wallet list is
 * reloaded, how it fills in goals, and how it updates its lists in place of
 * a reload after a successful save or delete.
 */
module App {
  import opened JsValues
  import opened WalletsService
  import opened WalletSelector

  /** A transaction as the client keeps it; amounts are in cents. */
  datatype ClientTransaction = ClientTransaction(
    id: int,
    walletId: int,
    description: string,
    amount: int,
    kind: string,
    date: string,
    categories: seq<CategoryRef>)

  datatype CategoryRef = CategoryRef(id: int, name: string, kind: string)

  /** A transaction as the server sends it; `walletId` and `categories` may be absent. */
  datatype RawTransaction = RawTransaction(
    id: int,
    walletId: Option<int>,
    description: string,
    amount: int,
    kind: string,
    date: string,
    categories: Option<seq<CategoryRef>>)

  /** A goal as the server sends it; the derived fields may be absent. */
  datatype RawGoal = RawGoal(
    id: int,
    walletId: int,
    name: string,
    kind: string,
    targetAmount: int,
    startDate: string,
    intervalDays: int,
    progressAmount: Option<int>,
    progressPercentage: Option<int>,
    remainingAmount: Option<int>,
    status: Option<string>,
    currentPeriodStart: string,
    currentPeriodEnd: string)

  /** A goal as the client keeps it. */
  datatype ClientGoal = ClientGoal(
    id: int,
    walletId: int,
    name: string,
    kind: string,
    targetAmount: int,
    startDate: string,
    intervalDays: int,
    progressAmount: int,
    progressPercentage: int,
    remainingAmount: int,
    status: string,
    currentPeriodStart: string,
    currentPeriodEnd: string)

  function TransactionId(t: ClientTransaction): int { t.id }
  function GoalId(g: ClientGoal): int { g.id }

  // ---------------------------------------------------------------------------
  // Totals

  /** `calculateBalance`: a left fold adding income and subtracting every other type. */
  function CalculateBalance(txs: seq<ClientTransaction>): int
  {
    if txs == [] then 0
    else
      var last := txs[|txs| - 1];
      CalculateBalance(txs[..|txs| - 1]) + (if last.kind == "income" then last.amount else -last.amount)
  }

  /** `txs.filter((t) => t.type === kind)`. */
  function OfKind(txs: seq<ClientTransaction>, kind: string): (r: seq<ClientTransaction>)
    ensures |r| <= |txs|
    ensures forall i :: 0 <= i < |r| ==> r[i].kind == kind && r[i] in txs
    ensures forall i :: 0 <= i < |txs| && txs[i].kind == kind ==> txs[i] in r
  {
    if txs == [] then []
    else
      var last := txs[|txs| - 1];
      OfKind(txs[..|txs| - 1], kind) + (if last.kind == kind then [last] else [])
  }

  /** The filter keeps every transaction of the type as often as it occurs, and no other. */
  lemma {:induction false} OfKindCount(txs: seq<ClientTransaction>, kind: string)
    ensures forall t :: multiset(OfKind(txs, kind))[t] == if t.kind == kind then multiset(txs)[t] else 0
  {
    if txs != [] {
      var n := |txs| - 1;
      OfKindCount(txs[..n], kind);
      assert txs == txs[..n] + [txs[n]];
    }
  }

  /** The transactions of neither type. */
  function OfOtherKinds(txs: seq<ClientTransaction>): seq<ClientTransaction>
  {
    if txs == [] then []
    else
      var last := txs[|txs| - 1];
      OfOtherKinds(txs[..|txs| - 1]) + (if last.kind != "income" && last.kind != "expense" then [last] else [])
  }

  /** `.reduce((total, t) => total + t.amount, 0)`. */
  function SumAmounts(txs: seq<ClientTransaction>): int
  {
    if txs == [] then 0 else SumAmounts(txs[..|txs| - 1]) + txs[|txs| - 1].amount
  }

  lemma {:induction false} SumAmountsAppend(a: seq<ClientTransaction>, b: seq<ClientTransaction>)
    ensures SumAmounts(a + b) == SumAmounts(a) + SumAmounts(b)
    decreases |b|
  {
    if b == [] {
      assert a + b == a;
    } else {
      var n := |b| - 1;
      assert (a + b)[..|a + b| - 1] == a + b[..n];
      SumAmountsAppend(a, b[..n]);
    }
  }

  /** `calculateTotalIncome`. */
  function CalculateTotalIncome(txs: seq<ClientTransaction>): int
  {
    SumAmounts(OfKind(txs, "income"))
  }

  /** `calculateTotalExpense`. */
  function CalculateTotalExpense(txs: seq<ClientTransaction>): int
  {
    SumAmounts(OfKind(txs, "expense"))
  }

  /** The balance is the income, minus the expense, minus the amounts of any other type. */
  lemma {:induction false} BalanceSplit(txs: seq<ClientTransaction>)
    ensures CalculateBalance(txs) ==
      CalculateTotalIncome(txs) - CalculateTotalExpense(txs) - SumAmounts(OfOtherKinds(txs))
  {
    if txs != [] {
      var n := |txs| - 1;
      var front := txs[..n];
      var last := txs[n];
      BalanceSplit(front);
      var inc := if last.kind == "income" then [last] else [];
      var exp := if last.kind == "expense" then [last] else [];
      var oth := if last.kind != "income" && last.kind != "expense" then [last] else [];
      SumAmountsAppend(OfKind(front, "income"), inc);
      SumAmountsAppend(OfKind(front, "expense"), exp);
      SumAmountsAppend(OfOtherKinds(front), oth);
      assert SumAmounts(inc) == (if last.kind == "income" then last.amount else 0) by {
        if last.kind == "income" { assert inc[..0] == []; }
      }
      assert SumAmounts(exp) == (if last.kind == "expense" then last.amount else 0) by {
        if last.kind == "expense" { assert exp[..0] == []; }
      }
      assert SumAmounts(oth) == (if last.kind != "income" && last.kind != "expense" then last.amount else 0) by {
        if oth != [] { assert oth[..0] == []; }
      }
    }
  }

  lemma {:induction false} NoOtherKinds(txs: seq<ClientTransaction>)
    requires forall i :: 0 <= i < |txs| ==> txs[i].kind == "income" || txs[i].kind == "expense"
    ensures OfOtherKinds(txs) == []
  {
    if txs != [] {
      NoOtherKinds(txs[..|txs| - 1]);
    }
  }

  /** When every transaction is income or expense, the balance is income minus expense. */
  lemma BalanceOfTypedTransactions(txs: seq<ClientTransaction>)
    requires forall i :: 0 <= i < |txs| ==> txs[i].kind == "income" || txs[i].kind == "expense"
    ensures CalculateBalance(txs) == CalculateTotalIncome(txs) - CalculateTotalExpense(txs)
  {
    BalanceSplit(txs);
    NoOtherKinds(txs);
  }

  // ---------------------------------------------------------------------------
  // Normalisation

  /** `normalizeTransaction`: the wallet falls back to the active wallet, then 0; no categories array reads as none. */
  function NormalizeTransaction(t: RawTransaction, activeWalletId: Option<int>): (r: ClientTransaction)
    ensures r.id == t.id && r.description == t.description && r.amount == t.amount && r.kind == t.kind && r.date == t.date
    ensures t.walletId.Some? ==> r.walletId == t.walletId.value
    ensures t.walletId.None? && activeWalletId.Some? ==> r.walletId == activeWalletId.value
    ensures t.walletId.None? && activeWalletId.None? ==> r.walletId == 0
    ensures r.categories == (if t.categories.Some? then t.categories.value else [])
  {
    ClientTransaction(
      t.id,
      if t.walletId.Some? then t.walletId.value else if activeWalletId.Some? then activeWalletId.value else 0,
      t.description, t.amount, t.kind, t.date,
      if t.categories.Some? then t.categories.value else [])
  }

  /** `normalizeGoal`: missing progress, percentage and remaining read as 0, a missing status as `'in_progress'`. */
  function NormalizeGoal(g: RawGoal): (r: ClientGoal)
    ensures r.id == g.id && r.walletId == g.walletId && r.name == g.name && r.kind == g.kind
    ensures r.targetAmount == g.targetAmount && r.startDate == g.startDate && r.intervalDays == g.intervalDays
    ensures r.currentPeriodStart == g.currentPeriodStart && r.currentPeriodEnd == g.currentPeriodEnd
    ensures r.progressAmount == (if g.progressAmount.Some? then g.progressAmount.value else 0)
    ensures r.progressPercentage == (if g.progressPercentage.Some? then g.progressPercentage.value else 0)
    ensures r.remainingAmount == (if g.remainingAmount.Some? then g.remainingAmount.value else 0)
    ensures r.status == (if g.status.Some? then g.status.value else "in_progress")
  {
    ClientGoal(
      g.id, g.walletId, g.name, g.kind, g.targetAmount, g.startDate, g.intervalDays,
      if g.progressAmount.Some? then g.progressAmount.value else 0,
      if g.progressPercentage.Some? then g.progressPercentage.value else 0,
      if g.remainingAmount.Some? then g.remainingAmount.value else 0,
      if g.status.Some? then g.status.value else "in_progress",
      g.currentPeriodStart, g.currentPeriodEnd)
  }

  /** `goals.map((goal) => this.normalizeGoal(goal))`. */
  function NormalizeGoals(gs: seq<RawGoal>): (r: seq<ClientGoal>)
    ensures |r| == |gs| && forall i :: 0 <= i < |gs| ==> r[i] == NormalizeGoal(gs[i])
  {
    seq(|gs|, i requires 0 <= i < |gs| => NormalizeGoal(gs[i]))
  }

  /** The active id `loadWallets({ preserveActive: true })` leaves: kept while truthy and listed, else the first wallet's. */
  function KeptActive(active: Option<int>, fetched: seq<Wallet>): (r: Option<int>)
    ensures fetched != [] ==> Listed(fetched, r)
    ensures fetched == [] ==> r.None?
    ensures IdTruthy(active) && Listed(fetched, active) ==> r == active
  {
    if IdTruthy(active) && Listed(fetched, active) then active else FirstId(fetched)
  }

  // ---------------------------------------------------------------------------
  // List updates

  /** `xs.filter((x) => key(x) !== id)`. */
  function RemoveId<T(==)>(xs: seq<T>, key: T -> int, id: int): (r: seq<T>)
    ensures |r| <= |xs|
    ensures forall i :: 0 <= i < |r| ==> key(r[i]) != id && r[i] in xs
    ensures forall i :: 0 <= i < |xs| && key(xs[i]) != id ==> xs[i] in r
  {
    if xs == [] then []
    else
      var last := xs[|xs| - 1];
      RemoveId(xs[..|xs| - 1], key, id) + (if key(last) != id then [last] else [])
  }

  /** Removal keeps every entry with another id as often as it occurs, and no entry with the id. */
  lemma {:induction false} RemoveIdCount<T>(xs: seq<T>, key: T -> int, id: int)
    ensures forall x :: multiset(RemoveId(xs, key, id))[x] == if key(x) != id then multiset(xs)[x] else 0
  {
    if xs != [] {
      var n := |xs| - 1;
      RemoveIdCount(xs[..n], key, id);
      assert xs == xs[..n] + [xs[n]];
    }
  }

  /** Removal keeps the remaining entries in their order. */
  lemma {:induction false} RemoveIdOrder<T>(xs: seq<T>, key: T -> int, id: int)
    ensures IsSubsequence(RemoveId(xs, key, id), xs)
  {
    if xs != [] {
      var n := |xs| - 1;
      RemoveIdOrder(xs[..n], key, id);
      var last := if key(xs[n]) != id then [xs[n]] else [];
      assert IsSubsequence(last, [xs[n]]) by {
        if last != [] {
          assert last[1..] == [] && [xs[n]][1..] == [];
        }
      }
      SubsequenceAppend(RemoveId(xs[..n], key, id), xs[..n], last, [xs[n]]);
      assert xs[..n] + [xs[n]] == xs;
    }
  }

  /** Removing an id no entry has changes nothing. */
  lemma {:induction false} RemoveAbsentId<T>(xs: seq<T>, key: T -> int, id: int)
    requires forall i :: 0 <= i < |xs| ==> key(xs[i]) != id
    ensures RemoveId(xs, key, id) == xs
  {
    if xs != [] {
      var n := |xs| - 1;
      RemoveAbsentId(xs[..n], key, id);
      assert xs[..n] + [xs[n]] == xs;
    }
  }

  /** An entry put at the front with the removed id does not survive the removal. */
  lemma {:induction false} RemoveIdPrepend<T>(y: T, xs: seq<T>, key: T -> int)
    ensures RemoveId([y] + xs, key, key(y)) == RemoveId(xs, key, key(y))
  {
    if xs == [] {
      assert ([y] + xs)[..0] == [];
    } else {
      var n := |xs| - 1;
      assert ([y] + xs)[..|xs|] == [y] + xs[..n];
      RemoveIdPrepend(y, xs[..n], key);
    }
  }

  /** `xs.map((x) => (key(x) === id ? y : x))`. */
  function ReplaceId<T>(xs: seq<T>, key: T -> int, id: int, y: T): (r: seq<T>)
    ensures |r| == |xs|
    ensures forall i :: 0 <= i < |xs| ==> r[i] == if key(xs[i]) == id then y else xs[i]
  {
    if xs == [] then []
    else
      var last := xs[|xs| - 1];
      ReplaceId(xs[..|xs| - 1], key, id, y) + [if key(last) == id then y else last]
  }

  /** After an edit that keeps the id, the other entries are those before it. */
  lemma {:induction false} ReplaceThenRemove<T>(xs: seq<T>, key: T -> int, id: int, y: T)
    requires key(y) == id
    ensures RemoveId(ReplaceId(xs, key, id, y), key, id) == RemoveId(xs, key, id)
  {
    if xs != [] {
      var n := |xs| - 1;
      var r := ReplaceId(xs, key, id, y);
      assert r[..n] == ReplaceId(xs[..n], key, id, y);
      ReplaceThenRemove(xs[..n], key, id, y);
    }
  }

  // ---------------------------------------------------------------------------
  // The page controller

  class FinancialControl {
    var wallets: seq<Wallet>
    var activeWalletId: Option<int>
    var transactions: seq<ClientTransaction>
    var goals: seq<ClientGoal>
    const selector: WalletSelectorManager

    constructor (selector: WalletSelectorManager)
      ensures wallets == [] && activeWalletId == None && transactions == [] && goals == []
      ensures this.selector == selector
    {
      wallets := [];
      activeWalletId := None;
      transactions := [];
      goals := [];
      this.selector := selector;
    }

    /**
     * `loadWallets({ preserveActive })` once `fetched` has arrived: the active
     * id is kept only when preserving and it is truthy and still listed, and
     * otherwise becomes the first wallet's id (or null); the selector is
     * handed the list and that id.
     */
    method LoadWallets(fetched: seq<Wallet>, preserveActive: bool)
      modifies this, selector
      ensures wallets == fetched
      ensures activeWalletId ==
        (if preserveActive && IdTruthy(old(activeWalletId)) && Listed(fetched, old(activeWalletId))
         then old(activeWalletId) else FirstId(fetched))
      ensures transactions == old(transactions) && goals == old(goals)
      ensures selector.wallets == fetched
      ensures fetched != [] ==> Listed(fetched, activeWalletId) && selector.activeWalletId == activeWalletId
      ensures fetched == [] ==> selector.activeWalletId == (if old(selector.activeWalletId) == Some(0) then Some(0) else None)
    {
      wallets := fetched;
      if !preserveActive || !IdTruthy(activeWalletId) || !Listed(wallets, activeWalletId) {
        activeWalletId := FirstId(wallets);
      }
      selector.UpdateWallets(Some(wallets), activeWalletId);
    }

    /**
     * `loadGoals()` once `fetched` has arrived: without a truthy active
     * wallet the list is emptied and nothing is fetched; otherwise it is the
     * fetched goals, normalised.
     */
    method LoadGoals(fetched: seq<RawGoal>)
      modifies this
      ensures goals == (if IdTruthy(activeWalletId) then NormalizeGoals(fetched) else [])
      ensures wallets == old(wallets) && activeWalletId == old(activeWalletId) && transactions == old(transactions)
    {
      if !IdTruthy(activeWalletId) {
        goals := [];
        return;
      }
      goals := NormalizeGoals(fetched);
    }

    /**
     * The two reloads after a transaction is saved or deleted:
     * `refreshWallets()` (`loadWallets({ preserveActive: true })`), then
     * `refreshGoals()` for the active wallet that leaves. Each reload is
     * caught on its own; a fetch that fails (`None`) changes nothing. With
     * no truthy active wallet, `loadGoals` empties the goals without
     * fetching, so there is no fetch that could fail.
     */
    method RefreshAfterTransactionChange(walletsFetch: Option<seq<Wallet>>, goalsFetch: Option<seq<RawGoal>>)
      modifies this, selector
      ensures wallets == (if walletsFetch.Some? then walletsFetch.value else old(wallets))
      ensures activeWalletId == (if walletsFetch.Some? then KeptActive(old(activeWalletId), walletsFetch.value) else old(activeWalletId))
      ensures walletsFetch.Some? && walletsFetch.value != [] ==> Listed(wallets, activeWalletId) && selector.activeWalletId == activeWalletId
      ensures walletsFetch.Some? ==> selector.wallets == walletsFetch.value
      ensures walletsFetch.None? ==> selector.wallets == old(selector.wallets) && selector.activeWalletId == old(selector.activeWalletId)
      ensures !IdTruthy(activeWalletId) ==> goals == []
      ensures IdTruthy(activeWalletId) && goalsFetch.Some? ==> goals == NormalizeGoals(goalsFetch.value)
      ensures IdTruthy(activeWalletId) && goalsFetch.None? ==> goals == old(goals)
      ensures transactions == old(transactions)
    {
      if walletsFetch.Some? {
        LoadWallets(walletsFetch.value, true);
      }
      if goalsFetch.Some? || !IdTruthy(activeWalletId) {
        LoadGoals(if goalsFetch.Some? then goalsFetch.value else []);
      }
    }

    /**
     * `handleWalletSelection(walletId)`, the later of its two definitions:
     * a non-integer, non-positive or unchanged id is ignored; any other
     * becomes active, is forced on the selector, and the wallet's
     * transactions and goals are to be reloaded (`switched`).
     */
    method HandleWalletSelection(walletId: JsNumber) returns (switched: bool)
      modifies this, selector
      ensures switched <==> IsPositiveInteger(walletId) && Some(IntegerValue(walletId)) != old(activeWalletId)
      ensures !switched ==> activeWalletId == old(activeWalletId) && selector.activeWalletId == old(selector.activeWalletId)
      ensures switched ==> activeWalletId == Some(IntegerValue(walletId))
      ensures switched && Listed(selector.wallets, activeWalletId) ==> selector.activeWalletId == activeWalletId
      ensures switched && !Listed(selector.wallets, activeWalletId) ==> selector.activeWalletId == old(selector.activeWalletId)
      ensures selector.wallets == old(selector.wallets)
      ensures wallets == old(wallets) && transactions == old(transactions) && goals == old(goals)
    {
      if !IsPositiveInteger(walletId) || Some(IntegerValue(walletId)) == activeWalletId {
        return false;
      }
      activeWalletId := Some(IntegerValue(walletId));
      selector.ForceSelectWallet(activeWalletId);
      return true;
    }

    /**
     * `handleDeleteTransaction(id)`: with a truthy active wallet and a
     * positive integer id, a delete the server accepted (`deleted`) removes
     * exactly the transactions with that id, keeping the others in order.
     */
    method HandleDeleteTransaction(id: JsNumber, deleted: bool)
      modifies this
      ensures IdTruthy(old(activeWalletId)) && IsPositiveInteger(id) && deleted ==>
        transactions == RemoveId(old(transactions), TransactionId, IntegerValue(id))
      ensures !(IdTruthy(old(activeWalletId)) && IsPositiveInteger(id) && deleted) ==> transactions == old(transactions)
      ensures wallets == old(wallets) && activeWalletId == old(activeWalletId) && goals == old(goals)
    {
      if !IdTruthy(activeWalletId) || !IsPositiveInteger(id) || !deleted {
        return;
      }
      transactions := RemoveId(transactions, TransactionId, IntegerValue(id));
    }

    /** The list update after a transaction edit the server accepted: only entries with the id are replaced. */
    method ApplyTransactionEdit(id: int, updated: RawTransaction)
      modifies this
      ensures transactions == ReplaceId(old(transactions), TransactionId, id, NormalizeTransaction(updated, old(activeWalletId)))
      ensures wallets == old(wallets) && activeWalletId == old(activeWalletId) && goals == old(goals)
    {
      var normalized := NormalizeTransaction(updated, activeWalletId);
      transactions := ReplaceId(transactions, TransactionId, id, normalized);
    }

    /** The list update after a transaction the server created: it goes to the front. */
    method ApplyTransactionCreate(created: RawTransaction)
      modifies this
      ensures transactions == [NormalizeTransaction(created, old(activeWalletId))] + old(transactions)
      ensures wallets == old(wallets) && activeWalletId == old(activeWalletId) && goals == old(goals)
    {
      transactions := [NormalizeTransaction(created, activeWalletId)] + transactions;
    }

    /**
     * `handleDeleteGoal(id)`: a positive integer id, a truthy active wallet,
     * the user's confirmation and a delete the server accepted remove exactly
     * the goals with that id.
     */
    method HandleDeleteGoal(id: JsNumber, confirmed: bool, deleted: bool)
      modifies this
      ensures IsPositiveInteger(id) && IdTruthy(old(activeWalletId)) && confirmed && deleted ==>
        goals == RemoveId(old(goals), GoalId, IntegerValue(id))
      ensures !(IsPositiveInteger(id) && IdTruthy(old(activeWalletId)) && confirmed && deleted) ==> goals == old(goals)
      ensures wallets == old(wallets) && activeWalletId == old(activeWalletId) && transactions == old(transactions)
    {
      if !IsPositiveInteger(id) || !IdTruthy(activeWalletId) || !confirmed || !deleted {
        return;
      }
      goals := RemoveId(goals, GoalId, IntegerValue(id));
    }

    /** The list update after a goal edit the server accepted. */
    method ApplyGoalEdit(id: int, updated: RawGoal)
      modifies this
      ensures goals == ReplaceId(old(goals), GoalId, id, NormalizeGoal(updated))
      ensures wallets == old(wallets) && activeWalletId == old(activeWalletId) && transactions == old(transactions)
    {
      goals := ReplaceId(goals, GoalId, id, NormalizeGoal(updated));
    }

    /** The list update after a goal the server created: it goes to the front. */
    method ApplyGoalCreate(created: RawGoal)
      modifies this
      ensures goals == [NormalizeGoal(created)] + old(goals)
      ensures wallets == old(wallets) && activeWalletId == old(activeWalletId) && transactions == old(transactions)
    {
      goals := [NormalizeGoal(created)] + goals;
    }
  }
}

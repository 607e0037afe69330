/**
 * The wallet service: how a stored wallet row becomes the wallet the API
 * returns, with its income and expense totals and the balance between them,
 * and the rows that creating and updating a wallet return.
 */
module WalletsService {
  import opened JsValues
  import opened Ledger

  const DefaultIcon: string := "fa-solid fa-wallet"
  const DefaultColor: string := "#22c55e"

  /** A row of the `wallets` table; the nullable columns are options. */
  datatype WalletRecord = WalletRecord(
    id: int,
    name: string,
    description: Option<string>,
    icon: Option<string>,
    color: Option<string>)

  /** A result row: the wallet's columns and the totals the query adds, in cents, `None` when absent. */
  datatype WalletRow = WalletRow(record: WalletRecord, totalIncome: Option<int>, totalExpense: Option<int>)

  /** The wallet the API returns. */
  datatype Wallet = Wallet(
    id: int,
    name: string,
    description: Option<string>,
    icon: string,
    color: string,
    totalIncome: int,
    totalExpense: int,
    balance: int)

  /** `value || fallback` for a nullable text column: null and `''` are falsy. */
  function OrDefault(value: Option<string>, fallback: string): (r: string)
    ensures value.Some? && value.value != "" ==> r == value.value
    ensures value.None? || value.value == "" ==> r == fallback
  {
    if value.Some? && value.value != "" then value.value else fallback
  }

  /** `Number(x ?? 0)`. */
  function TotalOrZero(total: Option<int>): int
  {
    if total.Some? then total.value else 0
  }

  /**
   * `mapWallet(row)`: missing totals count as 0, the balance is income minus
   * expense, and an empty icon or colour gets its default.
   */
  function MapWallet(row: WalletRow): (w: Wallet)
    ensures w.id == row.record.id && w.name == row.record.name && w.description == row.record.description
    ensures w.totalIncome == (if row.totalIncome.Some? then row.totalIncome.value else 0)
    ensures w.totalExpense == (if row.totalExpense.Some? then row.totalExpense.value else 0)
    ensures w.balance == w.totalIncome - w.totalExpense
    ensures w.icon != "" && w.color != ""
    ensures row.record.icon.Some? && row.record.icon.value != "" ==> w.icon == row.record.icon.value
    ensures row.record.color.Some? && row.record.color.value != "" ==> w.color == row.record.color.value
  {
    var totalIncome := TotalOrZero(row.totalIncome);
    var totalExpense := TotalOrZero(row.totalExpense);
    Wallet(
      row.record.id,
      row.record.name,
      row.record.description,
      OrDefault(row.record.icon, DefaultIcon),
      OrDefault(row.record.color, DefaultColor),
      totalIncome,
      totalExpense,
      totalIncome - totalExpense)
  }

  /** The amounts of a wallet's transactions of one type, summed. */
  function TotalOf(txs: seq<TransactionRow>, walletId: int, kind: TxType): int
  {
    if txs == [] then 0
    else
      var last := txs[|txs| - 1];
      TotalOf(txs[..|txs| - 1], walletId, kind) + (if last.walletId == walletId && last.kind == kind then last.amount else 0)
  }

  /** The row `listWallets` reads for a wallet: its columns and its two sums. */
  function ListedRow(record: WalletRecord, txs: seq<TransactionRow>): WalletRow
  {
    WalletRow(record, Some(TotalOf(txs, record.id, Income)), Some(TotalOf(txs, record.id, Expense)))
  }

  /** Transactions of other wallets do not change a wallet's totals. */
  lemma {:induction false} TotalOfOtherWallet(txs: seq<TransactionRow>, tx: TransactionRow, walletId: int, kind: TxType)
    requires tx.walletId != walletId
    ensures TotalOf(txs + [tx], walletId, kind) == TotalOf(txs, walletId, kind)
  {
    assert (txs + [tx])[..|txs|] == txs;
  }

  /** A new transaction adds its amount to exactly one of its wallet's totals. */
  lemma {:induction false} TotalOfAppend(txs: seq<TransactionRow>, tx: TransactionRow)
    ensures TotalOf(txs + [tx], tx.walletId, tx.kind) == TotalOf(txs, tx.walletId, tx.kind) + tx.amount
    ensures forall other :: other != tx.kind ==>
      TotalOf(txs + [tx], tx.walletId, other) == TotalOf(txs, tx.walletId, other)
  {
    assert (txs + [tx])[..|txs|] == txs;
  }

  /** `createWallet`: the inserted row comes back with zero totals. */
  function CreateWallet(id: int, name: string, description: Option<string>, icon: string, color: string): (w: Wallet)
    ensures w.id == id && w.name == name && w.description == description
    ensures w.totalIncome == 0 && w.totalExpense == 0 && w.balance == 0
    ensures w.icon == (if icon != "" then icon else DefaultIcon)
    ensures w.color == (if color != "" then color else DefaultColor)
  {
    MapWallet(WalletRow(WalletRecord(id, name, description, Some(icon), Some(color)), Some(0), Some(0)))
  }

  /**
   * `updateWallet`: `None` (the service's `null`) when no wallet has the id;
   * otherwise the updated wallet with totals 0 and balance 0, whatever its
   * transactions are.
   */
  function UpdateWallet(wallets: map<int, WalletRecord>, id: int,
                        name: string, description: Option<string>, icon: string, color: string)
    : (r: (map<int, WalletRecord>, Option<Wallet>))
    ensures id !in wallets <==> r.1.None?
    ensures id !in wallets ==> r.0 == wallets
    ensures id in wallets ==>
      r.0 == wallets[id := WalletRecord(id, name, description, Some(icon), Some(color))] &&
      r.1.value.id == id && r.1.value.name == name && r.1.value.description == description &&
      r.1.value.totalIncome == 0 && r.1.value.totalExpense == 0 && r.1.value.balance == 0 &&
      r.1.value.icon == (if icon != "" then icon else DefaultIcon) &&
      r.1.value.color == (if color != "" then color else DefaultColor)
  {
    if id !in wallets then (wallets, None)
    else
      var record := WalletRecord(id, name, description, Some(icon), Some(color));
      (wallets[id := record], Some(MapWallet(WalletRow(record, Some(0), Some(0)))))
  }

  /**
   * The totals an update reports can differ from the wallet's real totals:
   * a wallet with an income transaction is listed with that income but
   * updated with 0.
   */
  lemma UpdateReportsZeroTotals(record: WalletRecord, tx: TransactionRow)
    requires tx.walletId == record.id && tx.kind == Income && tx.amount > 0
    ensures var updated := UpdateWallet(map[record.id := record], record.id, record.name, record.description, "i", "c").1;
      updated.Some? && updated.value.totalIncome == 0 &&
      MapWallet(ListedRow(record, [tx])).totalIncome == tx.amount
  {
    assert [tx][..0] == [];
    assert TotalOf([tx], record.id, Income) == TotalOf([], record.id, Income) + tx.amount;
  }
}

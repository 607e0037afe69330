/**
 * The transaction service: the category-id sanitiser, the category checks
 * made before a write, and the effect of a create or an update on the stored
 * transactions and their category links.
 */
module TransactionsService {
  import opened JsValues
  import opened Ledger

  /** The positive integers of a list, in list order, with repetitions. */
  function PositiveIdsOf(js: Engine, items: seq<JsValue>): (ids: seq<int>)
    ensures |ids| <= |items|
  {
    if items == [] then []
    else
      var front := PositiveIdsOf(js, items[..|items| - 1]);
      match PositiveId(js, items[|items| - 1])
      case None => front
      case Some(id) => front + [id]
  }

  /** An id is listed exactly when some entry of the list reads as that positive integer. */
  lemma {:induction false} PositiveIdsOfMembers(js: Engine, items: seq<JsValue>, x: int)
    ensures x in PositiveIdsOf(js, items) <==> exists i :: 0 <= i < |items| && PositiveId(js, items[i]) == Some(x)
  {
    if items != [] {
      var n := |items| - 1;
      PositiveIdsOfMembers(js, items[..n], x);
      assert forall i :: 0 <= i < n ==> items[..n][i] == items[i];
    }
  }

  /**
   * `sanitizeCategoryIds(categoryIds)`: the positive integers of an array,
   * each once, in the order they first occur; `[]` for anything else.
   */
  function Sanitized(js: Engine, categoryIds: JsValue): seq<int>
  {
    if categoryIds.Arr? then Dedup(PositiveIdsOf(js, categoryIds.items)) else []
  }

  /** Adding one element to a Set built from `xs`. */
  lemma {:induction false} DedupFromSnoc(seen: seq<int>, xs: seq<int>, x: int)
    requires NoDuplicates(seen)
    ensures DedupFrom(seen, xs + [x]) ==
      (if x in DedupFrom(seen, xs) then DedupFrom(seen, xs) else DedupFrom(seen, xs) + [x])
    decreases |xs|
  {
    if xs == [] {
      assert [x][1..] == [];
      assert xs + [x] == [x];
    } else {
      assert (xs + [x])[0] == xs[0] && (xs + [x])[1..] == xs[1..] + [x];
      if xs[0] in seen {
        DedupFromSnoc(seen, xs[1..], x);
      } else {
        DedupFromSnoc(seen + [xs[0]], xs[1..], x);
      }
    }
  }

  /** The `for...of` loop adding each positive id to a `Set`. */
  method SanitizeCategoryIds(js: Engine, categoryIds: JsValue) returns (ids: seq<int>)
    ensures ids == Sanitized(js, categoryIds)
  {
    if !categoryIds.Arr? {
      return [];
    }
    var items := categoryIds.items;
    var uniqueIds: seq<int> := [];
    var i := 0;
    while i < |items|
      invariant 0 <= i <= |items|
      invariant uniqueIds == Dedup(PositiveIdsOf(js, items[..i]))
    {
      var numericId := ToNumber(js, items[i]);
      ghost var before := PositiveIdsOf(js, items[..i]);
      assert items[..i + 1][..i] == items[..i] && items[..i + 1][i] == items[i];
      if IsPositiveInteger(numericId) {
        assert PositiveIdsOf(js, items[..i + 1]) == before + [IntegerValue(numericId)];
        DedupFromSnoc([], before, IntegerValue(numericId));
        if IntegerValue(numericId) !in uniqueIds {
          uniqueIds := uniqueIds + [IntegerValue(numericId)];
        }
      } else {
        assert PositiveIdsOf(js, items[..i + 1]) == before;
      }
      i := i + 1;
    }
    assert items[..i] == items;
    return uniqueIds;
  }

  /** The sanitised ids are positive integers, each read from some entry of the input. */
  lemma SanitizedFromInput(js: Engine, items: seq<JsValue>, x: int)
    requires x in Sanitized(js, Arr(items))
    ensures x > 0 && exists i :: 0 <= i < |items| && ToNumber(js, items[i]) == Finite(x as real)
  {
    assert x in PositiveIdsOf(js, items);
    PositiveIdsOfMembers(js, items, x);
    var i :| 0 <= i < |items| && PositiveId(js, items[i]) == Some(x);
  }

  /** Every positive integer of the input is among the sanitised ids. */
  lemma SanitizedComplete(js: Engine, items: seq<JsValue>, i: int)
    requires 0 <= i < |items| && IsPositiveInteger(ToNumber(js, items[i]))
    ensures IntegerValue(ToNumber(js, items[i])) in Sanitized(js, Arr(items))
  {
    assert PositiveId(js, items[i]) == Some(IntegerValue(ToNumber(js, items[i])));
    PositiveIdsOfMembers(js, items, IntegerValue(ToNumber(js, items[i])));
  }

  /** No id repeats, and the ids keep the order in which each first occurs. */
  lemma SanitizedOrder(js: Engine, items: seq<JsValue>, a: int, b: int)
    requires 0 <= a < b < |Sanitized(js, Arr(items))|
    ensures var ids := Sanitized(js, Arr(items));
      ids[a] != ids[b] && ids[a] in PositiveIdsOf(js, items) && ids[b] in PositiveIdsOf(js, items) &&
      FirstIndex(PositiveIdsOf(js, items), ids[a]) < FirstIndex(PositiveIdsOf(js, items), ids[b])
  {
    DedupOrder(PositiveIdsOf(js, items), a, b);
  }

  /** The JavaScript array of numbers `Array.from(set)` returns. */
  function IdArray(ids: seq<int>): (v: JsValue)
    ensures v.Arr? && |v.items| == |ids|
  {
    Arr(seq(|ids|, k requires 0 <= k < |ids| => Num(Finite(ids[k] as real))))
  }

  /** An array of positive integers reads back as the same ids. */
  lemma {:induction false} PositiveIdsOfIdArray(js: Engine, ids: seq<int>)
    requires forall k :: 0 <= k < |ids| ==> ids[k] > 0
    ensures PositiveIdsOf(js, IdArray(ids).items) == ids
  {
    if ids != [] {
      var n := |ids| - 1;
      assert IdArray(ids).items[..n] == IdArray(ids[..n]).items;
      PositiveIdsOfIdArray(js, ids[..n]);
      assert (ids[n] as real).Floor == ids[n];
      assert ids[..n] + [ids[n]] == ids;
    }
  }

  /** Sanitising the sanitised ids again changes nothing. */
  lemma SanitizeIdempotent(js: Engine, categoryIds: JsValue)
    ensures Sanitized(js, IdArray(Sanitized(js, categoryIds))) == Sanitized(js, categoryIds)
  {
    var ids := Sanitized(js, categoryIds);
    forall k | 0 <= k < |ids| ensures ids[k] > 0 {
      SanitizedFromInput(js, categoryIds.items, ids[k]);
    }
    PositiveIdsOfIdArray(js, ids);
    assert [] + ids == ids;
    DedupFromNoDuplicates([], ids);
  }

  /** The two errors a write can raise before it touches the store; both carry `statusCode` 400. */
  datatype CategoryError = CategoryNotFound | CategoryTypeMismatch

  function CategoryErrorCode(e: CategoryError): string
  {
    match e
    case CategoryNotFound => "CATEGORY_NOT_FOUND"
    case CategoryTypeMismatch => "CATEGORY_TYPE_MISMATCH"
  }

  function CategoryErrorMessage(e: CategoryError): string
  {
    match e
    case CategoryNotFound => "Uma ou mais categorias informadas são inválidas."
    case CategoryTypeMismatch => "Categorias devem ser do mesmo tipo da transação."
  }

  const CategoryErrorStatus: int := 400

  /** The ids `findByIds(ids)` finds: the catalogue rows whose id is requested, each once. */
  function FoundIds(catalog: map<int, TxType>, ids: seq<int>): set<int>
  {
    set id | id in ids && id in catalog
  }

  /**
   * The checks of `createTransaction`/`updateTransaction`: with a non-empty
   * list, a count of found categories other than the count requested is
   * `CATEGORY_NOT_FOUND`, and only then a found category of another type is
   * `CATEGORY_TYPE_MISMATCH`.
   */
  function CategoryCheck(catalog: map<int, TxType>, ids: seq<int>, kind: TxType): Option<CategoryError>
  {
    if |ids| == 0 then None
    else if |FoundIds(catalog, ids)| != |ids| then Some(CategoryNotFound)
    else if exists id :: id in FoundIds(catalog, ids) && catalog[id] != kind then Some(CategoryTypeMismatch)
    else None
  }

  /** A sequence without repetitions has as many distinct elements as entries. */
  lemma {:induction false} DistinctCount(ids: seq<int>)
    requires NoDuplicates(ids)
    ensures |set id | id in ids| == |ids|
  {
    if ids != [] {
      var n := |ids| - 1;
      assert NoDuplicates(ids[..n]);
      DistinctCount(ids[..n]);
      assert (set id | id in ids) == (set id | id in ids[..n]) + {ids[n]};
      assert ids[n] !in ids[..n];
    }
  }

  /** At most one category is found per requested id, and fewer when one is missing. */
  lemma {:induction false} FoundAtMost(catalog: map<int, TxType>, ids: seq<int>)
    ensures |FoundIds(catalog, ids)| <= |ids|
    ensures (exists i :: 0 <= i < |ids| && ids[i] !in catalog) ==> |FoundIds(catalog, ids)| < |ids|
  {
    if ids != [] {
      var n := |ids| - 1;
      var front := FoundIds(catalog, ids[..n]);
      FoundAtMost(catalog, ids[..n]);
      if ids[n] in catalog {
        assert FoundIds(catalog, ids) == front + {ids[n]};
        if i :| 0 <= i < |ids| && ids[i] !in catalog {
          assert ids[..n][i] !in catalog;
        }
      } else {
        assert FoundIds(catalog, ids) == front;
      }
    }
  }

  /**
   * For distinct ids: the count differs exactly when some id is not in the
   * catalogue, so a missing category is reported before any type is looked
   * at; the type mismatch is reported when all exist and one has another
   * type; an empty list passes.
   */
  lemma CategoryCheckSpec(catalog: map<int, TxType>, ids: seq<int>, kind: TxType)
    requires NoDuplicates(ids)
    ensures CategoryCheck(catalog, ids, kind) == Some(CategoryNotFound) <==>
      exists i :: 0 <= i < |ids| && ids[i] !in catalog
    ensures CategoryCheck(catalog, ids, kind) == Some(CategoryTypeMismatch) <==>
      (forall i :: 0 <= i < |ids| ==> ids[i] in catalog) && exists i :: 0 <= i < |ids| && catalog[ids[i]] != kind
    ensures CategoryCheck(catalog, ids, kind) == None <==>
      forall i :: 0 <= i < |ids| ==> ids[i] in catalog && catalog[ids[i]] == kind
  {
    var all := set id | id in ids;
    var found := FoundIds(catalog, ids);
    DistinctCount(ids);
    FoundAtMost(catalog, ids);
    if !exists i :: 0 <= i < |ids| && ids[i] !in catalog {
      assert found == all;
      if id :| id in found && catalog[id] != kind {
        var i :| 0 <= i < |ids| && ids[i] == id;
      }
    }
  }

  /** The columns a create or an update writes, already converted to their column types. */
  datatype TransactionInput = TransactionInput(description: string, amount: int, kind: TxType, date: int)

  /**
   * The rows the service reads and writes: the `transactions` table keyed by
   * id, the `transaction_categories` links of each transaction, the
   * category catalogue (id and type) and the next value of the id sequence.
   */
  class TransactionStore {
    var rows: map<int, TransactionRow>
    var links: map<int, set<int>>
    var catalog: map<int, TxType>
    var nextId: int

    ghost predicate Valid()
      reads this
    {
      nextId >= 1 &&
      (forall id :: id in rows ==> rows[id].id == id && id < nextId) &&
      (forall id :: id in links ==> id in rows)
    }

    constructor (catalog: map<int, TxType>)
      ensures Valid()
      ensures rows == map[] && links == map[] && this.catalog == catalog && nextId == 1
    {
      rows := map[];
      links := map[];
      this.catalog := catalog;
      nextId := 1;
    }

    /** The category ids linked to a transaction (none when it has no link row). */
    function LinksOf(id: int): set<int>
      reads this
    {
      if id in links then links[id] else {}
    }

    /**
     * `createTransaction`: the category checks run before anything is
     * written; then the row is inserted under a fresh id and linked to
     * exactly the sanitised ids.
     */
    method CreateTransaction(js: Engine, walletId: int, input: TransactionInput, categories: JsValue)
      returns (r: Result<int, CategoryError>)
      requires Valid()
      modifies this
      ensures Valid() && catalog == old(catalog)
      ensures var check := CategoryCheck(old(catalog), Sanitized(js, categories), input.kind);
        check.Some? ==> r == Err(check.value) && rows == old(rows) && links == old(links) && nextId == old(nextId)
      ensures var ids := Sanitized(js, categories);
        CategoryCheck(old(catalog), ids, input.kind).None? ==>
          r == Ok(old(nextId)) && old(nextId) !in old(rows) && nextId == old(nextId) + 1 &&
          rows == old(rows)[old(nextId) := TransactionRow(old(nextId), walletId, input.description, input.amount, input.kind, input.date)] &&
          links == (if |ids| > 0 then old(links)[old(nextId) := set c | c in ids] else old(links)) &&
          LinksOf(old(nextId)) == (set c | c in ids)
    {
      var categoryIds := SanitizeCategoryIds(js, categories);
      var check := CategoryCheck(catalog, categoryIds, input.kind);
      if check.Some? {
        return Err(check.value);
      }
      var id := nextId;
      rows := rows[id := TransactionRow(id, walletId, input.description, input.amount, input.kind, input.date)];
      if |categoryIds| > 0 {
        links := links[id := set c | c in categoryIds];
      }
      nextId := nextId + 1;
      return Ok(id);
    }

    /** Whether the `UPDATE ... WHERE id = $1 AND wallet_id = $2` matches a row. */
    predicate Matches(id: int, walletId: int)
      reads this
    {
      id in rows && rows[id].walletId == walletId
    }

    /**
     * `updateTransaction`: the category checks run first; a transaction of
     * another wallet, or none, is reported as `Ok(false)` (the service's
     * `null`) and nothing changes; otherwise the columns are overwritten and
     * the links are replaced by exactly the sanitised ids, leaving the links
     * of every other transaction as they were.
     */
    method UpdateTransaction(js: Engine, id: int, walletId: int, input: TransactionInput, categories: JsValue)
      returns (r: Result<bool, CategoryError>)
      requires Valid()
      modifies this
      ensures Valid() && catalog == old(catalog) && nextId == old(nextId)
      ensures var check := CategoryCheck(old(catalog), Sanitized(js, categories), input.kind);
        check.Some? ==> r == Err(check.value) && rows == old(rows) && links == old(links)
      ensures CategoryCheck(old(catalog), Sanitized(js, categories), input.kind).None? && !old(Matches(id, walletId)) ==>
        r == Ok(false) && rows == old(rows) && links == old(links)
      ensures var ids := Sanitized(js, categories);
        CategoryCheck(old(catalog), ids, input.kind).None? && old(Matches(id, walletId)) ==>
          r == Ok(true) &&
          rows == old(rows)[id := TransactionRow(id, walletId, input.description, input.amount, input.kind, input.date)] &&
          links == (if |ids| > 0 then old(links)[id := set c | c in ids] else old(links) - {id}) &&
          LinksOf(id) == (set c | c in ids) &&
          forall other :: other != id ==> LinksOf(other) == old(LinksOf(other))
    {
      var categoryIds := SanitizeCategoryIds(js, categories);
      var check := CategoryCheck(catalog, categoryIds, input.kind);
      if check.Some? {
        return Err(check.value);
      }
      if !Matches(id, walletId) {
        return Ok(false);
      }
      rows := rows[id := TransactionRow(id, walletId, input.description, input.amount, input.kind, input.date)];
      links := links - {id};
      if |categoryIds| > 0 {
        links := links[id := set c | c in categoryIds];
      }
      return Ok(true);
    }
  }
}

/**
 * The request handlers for transactions: the category list read with an
 * early exit, the four field checks, the wallet id appended to the same
 * error list on create, and the order of the checks on update.
 */
module TransactionsController {
  import opened JsValues
  import opened Http

  const CategoriesNotAList: string := "Categorias devem ser enviadas como uma lista de IDs."
  const CategoriesNotPositive: string := "Categorias devem conter somente números inteiros positivos."
  const DescriptionRequired: string := "Descrição é obrigatória."
  const InvalidAmount: string := "Valor deve ser um número maior que zero."
  const InvalidType: string := "Tipo deve ser \"income\" ou \"expense\"."
  const InvalidDate: string := "Data inválida."
  /** The transaction handlers spell this one without the final full stop. */
  const InvalidTransactionId: string := "ID inválido"

  /** The messages of the field checks, in the order they run. */
  const FieldMessages: seq<string> := [DescriptionRequired, InvalidAmount, InvalidType, InvalidDate]

  /**
   * The ids of a category list when every entry is a positive integer, in
   * list order and with repetitions; `None` as soon as one is not.
   */
  function CategoryIdsOf(js: Engine, items: seq<JsValue>): (r: Option<seq<int>>)
    ensures r.Some? <==> forall i :: 0 <= i < |items| ==> IsPositiveInteger(ToNumber(js, items[i]))
    ensures r.Some? ==> |r.value| == |items|
    ensures r.Some? ==>
      forall i :: 0 <= i < |items| ==> r.value[i] > 0 && ToNumber(js, items[i]) == Finite(r.value[i] as real)
  {
    if items == [] then Some([])
    else
      match CategoryIdsOf(js, items[..|items| - 1])
      case None => None
      case Some(ids) =>
        match PositiveId(js, items[|items| - 1])
        case None => None
        case Some(id) => Some(ids + [id])
  }

  /**
   * The category part of `validateTransactionPayload`: the errors it adds
   * and the ids it keeps. An absent list adds nothing and keeps nothing.
   */
  function CategoryOutcome(js: Engine, categories: JsValue): (r: CategoryResult)
    ensures categories == Undefined ==> r == CategoryResult([], [])
    ensures categories != Undefined && !categories.Arr? ==> r == CategoryResult([CategoriesNotAList], [])
    ensures categories.Arr? ==>
      (r.errors == [] <==> forall i :: 0 <= i < |categories.items| ==> IsPositiveInteger(ToNumber(js, categories.items[i])))
    ensures categories.Arr? && r.errors != [] ==> r == CategoryResult([CategoriesNotPositive], [])
    ensures categories.Arr? && r.errors == [] ==> |r.ids| == |categories.items|
    ensures categories.Arr? && r.errors == [] ==>
      forall i :: 0 <= i < |categories.items| ==> ToNumber(js, categories.items[i]) == Finite(r.ids[i] as real)
  {
    if categories == Undefined then CategoryResult([], [])
    else if !categories.Arr? then CategoryResult([CategoriesNotAList], [])
    else
      match CategoryIdsOf(js, categories.items)
      case None => CategoryResult([CategoriesNotPositive], [])
      case Some(ids) => CategoryResult([], ids)
  }

  datatype CategoryResult = CategoryResult(errors: seq<string>, ids: seq<int>)

  /** The `for...of` loop over the category list, with `break` at the first bad entry. */
  method CheckCategories(js: Engine, categories: JsValue) returns (errors: seq<string>, categoryIds: seq<int>)
    ensures CategoryResult(errors, categoryIds) == CategoryOutcome(js, categories)
  {
    errors := [];
    categoryIds := [];
    if categories != Undefined {
      if !categories.Arr? {
        errors := errors + [CategoriesNotAList];
      } else {
        var items := categories.items;
        var parsedIds := [];
        var i := 0;
        while i < |items|
          invariant 0 <= i <= |items|
          invariant errors == []
          invariant CategoryIdsOf(js, items[..i]) == Some(parsedIds)
        {
          var numericId := ToNumber(js, items[i]);
          if !IsPositiveInteger(numericId) {
            errors := errors + [CategoriesNotPositive];
            assert items[..i + 1][..i] == items[..i];
            CategoryIdsNoneExtends(js, items, i + 1);
            break;
          }
          assert items[..i + 1][..i] == items[..i];
          parsedIds := parsedIds + [IntegerValue(numericId)];
          i := i + 1;
        }
        if |errors| == 0 {
          assert items[..i] == items;
          categoryIds := parsedIds;
        }
      }
    }
  }

  /** One bad entry in a prefix makes the whole list bad. */
  lemma CategoryIdsNoneExtends(js: Engine, items: seq<JsValue>, k: nat)
    requires k <= |items| && CategoryIdsOf(js, items[..k]).None?
    ensures CategoryIdsOf(js, items).None?
  {
    var i :| 0 <= i < k && !IsPositiveInteger(ToNumber(js, items[..k][i]));
    assert items[..k][i] == items[i];
  }

  /** The four field checks. */
  function FieldChecks(js: Engine, payload: JsValue): seq<bool>
  {
    var description := Get(payload, "description");
    var kind := Get(payload, "type");
    var date := Get(payload, "date");
    [ description.Str? && Trim(description.s) != "",
      IsPositive(ToNumber(js, Get(payload, "amount"))),
      kind == Str("income") || kind == Str("expense"),
      Truthy(date) && js.dateParses(date) ]
  }

  /** The `errors` of `validateTransactionPayload(payload)`. */
  function TransactionPayloadErrors(js: Engine, payload: JsValue): seq<string>
  {
    CategoryOutcome(js, Get(payload, "categories")).errors + Collect(FieldChecks(js, payload), FieldMessages)
  }

  /** The field checks, each pushing its message when it fails. */
  method CheckFields(js: Engine, payload: JsValue) returns (errors: seq<string>)
    ensures errors == Collect(FieldChecks(js, payload), FieldMessages)
  {
    ghost var oks := FieldChecks(js, payload);
    var msgs := FieldMessages;
    var description := Get(payload, "description");
    var amount := Get(payload, "amount");
    var kind := Get(payload, "type");
    var date := Get(payload, "date");
    errors := [];
    if !Truthy(description) || !description.Str? || Trim(description.s) == "" {
      errors := errors + [msgs[0]];
    }
    assert oks[..1][..0] == oks[..0] && msgs[..1][..0] == msgs[..0];
    assert errors == Collect(oks[..1], msgs[..1]);
    var numericAmount := ToNumber(js, amount);
    if numericAmount.NaN? || !IsPositive(numericAmount) {
      errors := errors + [msgs[1]];
    }
    assert oks[..2][..1] == oks[..1] && msgs[..2][..1] == msgs[..1];
    assert errors == Collect(oks[..2], msgs[..2]);
    if !(kind == Str("income") || kind == Str("expense")) {
      errors := errors + [msgs[2]];
    }
    assert oks[..3][..2] == oks[..2] && msgs[..3][..2] == msgs[..2];
    assert errors == Collect(oks[..3], msgs[..3]);
    if !Truthy(date) || !js.dateParses(date) {
      errors := errors + [msgs[3]];
    }
    assert oks[..4][..3] == oks[..3] && msgs[..4][..3] == msgs[..3];
    assert oks[..4] == oks && msgs[..4] == msgs;
  }

  /** The `parsed` object: the description is trimmed, the other fields pass through. */
  datatype ParsedTransaction = ParsedTransaction(
    description: JsValue,
    amount: JsNumber,
    kind: JsValue,
    date: JsValue,
    categories: seq<int>)

  /**
   * `description ? description.trim() : description`: a truthy value that is
   * not a string has no `trim` method, so building `parsed` throws (`None`).
   */
  function ParsedDescription(description: JsValue): (r: Option<JsValue>)
    ensures r.None? <==> Truthy(description) && !description.Str?
    ensures r.Some? && r.value.Str? ==> description.Str? && r.value.s == Trim(description.s)
    ensures r.Some? && !Truthy(description) ==> r.value == description
  {
    if !Truthy(description) then Some(description)
    else if description.Str? then Some(Str(Trim(description.s)))
    else None
  }

  datatype Validation = Validation(errors: seq<string>, parsed: ParsedTransaction)

  /** The whole of `validateTransactionPayload(payload)`; `None` when it throws. */
  function TransactionValidation(js: Engine, payload: JsValue): Option<Validation>
  {
    match ParsedDescription(Get(payload, "description"))
    case None => None
    case Some(description) =>
      Some(Validation(
        TransactionPayloadErrors(js, payload),
        ParsedTransaction(description, ToNumber(js, Get(payload, "amount")), Get(payload, "type"),
          Get(payload, "date"), CategoryOutcome(js, Get(payload, "categories")).ids)))
  }

  /** `validateTransactionPayload(payload)`. */
  method ValidateTransactionPayload(js: Engine, payload: JsValue) returns (r: Option<Validation>)
    ensures r == TransactionValidation(js, payload)
  {
    var errors, categoryIds := CheckCategories(js, Get(payload, "categories"));
    var fieldErrors := CheckFields(js, payload);
    errors := errors + fieldErrors;
    var description := ParsedDescription(Get(payload, "description"));
    if description.None? {
      return None;
    }
    var parsed := ParsedTransaction(description.value, ToNumber(js, Get(payload, "amount")),
      Get(payload, "type"), Get(payload, "date"), categoryIds);
    return Some(Validation(errors, parsed));
  }

  /** The field messages are pairwise different, and different from the category messages. */
  lemma MessagesDistinct()
    ensures Distinct(FieldMessages)
    ensures forall m :: m in FieldMessages ==> m != CategoriesNotAList && m != CategoriesNotPositive
  {
    assert |CategoriesNotAList| == 52 && |CategoriesNotPositive| == 59;
    assert |DescriptionRequired| == 24 && |InvalidAmount| == 40 && |InvalidType| == 36 && |InvalidDate| == 14;
  }

  /**
   * A list of at most one of two leading messages followed by the messages
   * of four checks: which message is present, their order, and when the list
   * is empty.
   */
  lemma LeadingThenFour(c: seq<string>, a: string, b: string, oks: seq<bool>, msgs: seq<string>)
    requires |oks| == 4 && |msgs| == 4 && Distinct(msgs) && a != b && a !in msgs && b !in msgs
    requires c == [] || c == [a] || c == [b]
    ensures var errors := c + Collect(oks, msgs);
      (a in errors <==> c == [a]) && (b in errors <==> c == [b]) &&
      (msgs[0] in errors <==> !oks[0]) && (msgs[1] in errors <==> !oks[1]) &&
      (msgs[2] in errors <==> !oks[2]) && (msgs[3] in errors <==> !oks[3]) &&
      IsSubsequence(errors, [a, b] + msgs) &&
      (errors == [] <==> c == [] && oks[0] && oks[1] && oks[2] && oks[3])
  {
    CollectMember(oks, msgs, 0);
    CollectMember(oks, msgs, 1);
    CollectMember(oks, msgs, 2);
    CollectMember(oks, msgs, 3);
    CollectFrom(oks, msgs, a);
    CollectFrom(oks, msgs, b);
    CollectOrder(oks, msgs);
    CollectEmpty(oks, msgs);
    assert IsSubsequence(c, [a, b]) by {
      if c == [a] {
        assert c[1..] == [];
      } else if c == [b] {
        assert [a, b][1..] == [b];
        assert c[1..] == [];
      }
    }
    SubsequenceAppend(c, [a, b], Collect(oks, msgs), msgs);
  }

  /**
   * Each check's message appears exactly when the check fails, the category
   * message (at most one) comes first and the field messages follow in
   * order, and there is no error exactly when every check passes.
   */
  lemma TransactionPayloadErrorsSpec(js: Engine, payload: JsValue)
    ensures var errors, categories := TransactionPayloadErrors(js, payload), Get(payload, "categories");
      var description, kind, date := Get(payload, "description"), Get(payload, "type"), Get(payload, "date");
      (CategoriesNotAList in errors <==> categories != Undefined && !categories.Arr?) &&
      (CategoriesNotPositive in errors <==>
        categories.Arr? && exists i :: 0 <= i < |categories.items| && !IsPositiveInteger(ToNumber(js, categories.items[i]))) &&
      (DescriptionRequired in errors <==> !(description.Str? && Trim(description.s) != "")) &&
      (InvalidAmount in errors <==> !IsPositive(ToNumber(js, Get(payload, "amount")))) &&
      (InvalidType in errors <==> !(kind == Str("income") || kind == Str("expense"))) &&
      (InvalidDate in errors <==> !(Truthy(date) && js.dateParses(date))) &&
      IsSubsequence(errors, [CategoriesNotAList, CategoriesNotPositive] + FieldMessages) &&
      (errors == [] <==>
        (CategoryOutcome(js, categories).errors == [] &&
         description.Str? && Trim(description.s) != "" && IsPositive(ToNumber(js, Get(payload, "amount"))) &&
         (kind == Str("income") || kind == Str("expense")) && Truthy(date) && js.dateParses(date)))
  {
    MessagesDistinct();
    assert CategoriesNotAList != CategoriesNotPositive by {
      assert |CategoriesNotAList| == 52 && |CategoriesNotPositive| == 59;
    }
    LeadingThenFour(CategoryOutcome(js, Get(payload, "categories")).errors, CategoriesNotAList, CategoriesNotPositive,
      FieldChecks(js, payload), FieldMessages);
  }

  /** What `createTransaction` passes to the service. */
  datatype TransactionWrite = TransactionWrite(walletId: int, transaction: ParsedTransaction)

  /**
   * `createTransaction`: the payload is validated first and an invalid wallet
   * id is appended to the same list, so one 400 reports every problem; a
   * validator that throws ends in a 500.
   */
  method CreateTransaction(js: Engine, body: JsValue) returns (step: Step<TransactionWrite>)
    ensures TransactionValidation(js, BodyOrEmpty(body)).None? ==> step == Respond(ErrorReply(500, "Erro ao criar transação"))
    ensures TransactionValidation(js, BodyOrEmpty(body)).Some? ==>
      var wallet := ParseWalletId(js, Get(body, "walletId"));
      var errors := TransactionPayloadErrors(js, BodyOrEmpty(body)) + (if wallet.Err? then [InvalidWallet] else []);
      if errors != [] then step == Respond(ValidationReply(errors))
      else step == Proceed(TransactionWrite(wallet.value, TransactionValidation(js, BodyOrEmpty(body)).value.parsed))
  {
    var validation := ValidateTransactionPayload(js, BodyOrEmpty(body));
    if validation.None? {
      return Respond(ErrorReply(500, "Erro ao criar transação"));
    }
    var errors := validation.value.errors;
    var walletId := ParseWalletId(js, Get(body, "walletId"));
    if walletId.Err? {
      errors := errors + [walletId.error];
    } else {
      assert errors + [] == errors;
    }
    if |errors| > 0 {
      return Respond(ValidationReply(errors));
    }
    return Proceed(TransactionWrite(walletId.value, validation.value.parsed));
  }

  /**
   * The reply to `createTransaction` once the service has run: whatever the
   * service resolves to, a `null` included, is sent with 201; an error with a
   * truthy `statusCode` answers with it and its message; any other is a 500.
   */
  function CreateTransactionReply(outcome: Outcome): (r: Reply)
    ensures outcome.Saved? || outcome.NotFound? ==> r == JsonReply(201)
    ensures outcome.Rejected? && outcome.status != 0 ==> r == ErrorReply(outcome.status, outcome.message)
    ensures (outcome.Rejected? && outcome.status == 0) || outcome.Threw? ==> r == ErrorReply(500, "Erro ao criar transação")
  {
    match outcome
    case Saved => JsonReply(201)
    case NotFound => JsonReply(201)
    case Rejected(status, message) =>
      if status != 0 then ErrorReply(status, message) else ErrorReply(500, "Erro ao criar transação")
    case Threw(_) => ErrorReply(500, "Erro ao criar transação")
  }

  /**
   * `updateTransaction`: the id, then the wallet id (from the body, or from
   * the query string when the body has none), then the payload.
   */
  method UpdateTransaction(js: Engine, params: JsValue, query: JsValue, body: JsValue)
    returns (step: Step<(int, TransactionWrite)>)
    ensures ParsePositiveId(js, Get(params, "id"), InvalidTransactionId).Err? ==>
      step == Respond(ErrorReply(400, InvalidTransactionId))
    ensures ParsePositiveId(js, Get(params, "id"), InvalidTransactionId).Ok? ==>
      var wallet := ParseWalletId(js, Nullish(Get(body, "walletId"), Get(query, "walletId")));
      var validation := TransactionValidation(js, BodyOrEmpty(body));
      if wallet.Err? then step == Respond(ErrorReply(400, InvalidWallet))
      else if validation.None? then step == Respond(ErrorReply(500, "Erro ao atualizar transação"))
      else if validation.value.errors != [] then step == Respond(ValidationReply(validation.value.errors))
      else step == Proceed((ParsePositiveId(js, Get(params, "id"), InvalidTransactionId).value,
        TransactionWrite(wallet.value, validation.value.parsed)))
  {
    var id := ParsePositiveId(js, Get(params, "id"), InvalidTransactionId);
    if id.Err? {
      return Respond(ErrorReply(400, id.error));
    }
    var walletId := ParseWalletId(js, Nullish(Get(body, "walletId"), Get(query, "walletId")));
    if walletId.Err? {
      return Respond(ErrorReply(400, walletId.error));
    }
    var validation := ValidateTransactionPayload(js, BodyOrEmpty(body));
    if validation.None? {
      return Respond(ErrorReply(500, "Erro ao atualizar transação"));
    }
    if |validation.value.errors| > 0 {
      return Respond(ValidationReply(validation.value.errors));
    }
    return Proceed((id.value, TransactionWrite(walletId.value, validation.value.parsed)));
  }

  /** The reply to `updateTransaction` once the service has run. */
  function UpdateTransactionReply(outcome: Outcome): (r: Reply)
    ensures outcome.Saved? ==> r == JsonReply(200)
    ensures outcome.NotFound? ==> r == ErrorReply(404, "Transação não encontrada")
    ensures outcome.Rejected? && outcome.status != 0 ==> r == ErrorReply(outcome.status, outcome.message)
    ensures (outcome.Rejected? && outcome.status == 0) || outcome.Threw? ==> r == ErrorReply(500, "Erro ao atualizar transação")
  {
    match outcome
    case Saved => JsonReply(200)
    case NotFound => ErrorReply(404, "Transação não encontrada")
    case Rejected(status, message) =>
      if status != 0 then ErrorReply(status, message) else ErrorReply(500, "Erro ao atualizar transação")
    case Threw(_) => ErrorReply(500, "Erro ao atualizar transação")
  }

  /** `listTransactions`: the wallet id comes from the query string. */
  function ListTransactions(js: Engine, query: JsValue): (step: Step<int>)
    ensures step.Respond? <==> !IsPositiveInteger(ToNumber(js, Get(query, "walletId")))
    ensures step.Respond? ==> step.reply == ErrorReply(400, InvalidWallet)
    ensures step.Proceed? ==> ToNumber(js, Get(query, "walletId")) == Finite(step.args as real)
  {
    match ParseWalletId(js, Get(query, "walletId"))
    case Err(e) => Respond(ErrorReply(400, e))
    case Ok(walletId) => Proceed(walletId)
  }

  /** `deleteTransaction`: the id, then the wallet id from the query string. */
  function DeleteTransaction(js: Engine, params: JsValue, query: JsValue): (step: Step<(int, int)>)
    ensures ParsePositiveId(js, Get(params, "id"), InvalidTransactionId).Err? ==>
      step == Respond(ErrorReply(400, InvalidTransactionId))
    ensures (ParsePositiveId(js, Get(params, "id"), InvalidTransactionId).Ok? &&
      ParseWalletId(js, Get(query, "walletId")).Err?) ==> step == Respond(ErrorReply(400, InvalidWallet))
    ensures step.Proceed? <==>
      ParsePositiveId(js, Get(params, "id"), InvalidTransactionId).Ok? && ParseWalletId(js, Get(query, "walletId")).Ok?
  {
    match ParsePositiveId(js, Get(params, "id"), InvalidTransactionId)
    case Err(e) => Respond(ErrorReply(400, e))
    case Ok(id) =>
      match ParseWalletId(js, Get(query, "walletId"))
      case Err(e) => Respond(ErrorReply(400, e))
      case Ok(walletId) => Proceed((id, walletId))
  }

  /** The reply to `deleteTransaction` once the service has run. */
  function DeleteTransactionReply(outcome: Outcome): (r: Reply)
    ensures outcome.Saved? ==> r == NoContent
    ensures outcome.NotFound? ==> r == ErrorReply(404, "Transação não encontrada")
    ensures outcome.Rejected? || outcome.Threw? ==> r == ErrorReply(500, "Erro ao excluir transação")
  {
    match outcome
    case Saved => NoContent
    case NotFound => ErrorReply(404, "Transação não encontrada")
    case _ => ErrorReply(500, "Erro ao excluir transação")
  }
}

/** The request handlers for goals: id parsing, payload validation and the order of the checks. */
module GoalsController {
  import opened JsValues
  import opened Http

  const NameRequired: string := "Nome da meta é obrigatório."
  const InvalidType: string := "Tipo da meta deve ser \"income\" ou \"expense\"."
  const InvalidTarget: string := "Valor alvo deve ser maior que zero."
  const InvalidStartDate: string := "Data inicial inválida."
  const InvalidInterval: string := "Informe um intervalo de renovação em dias (valor inteiro maior que zero)."

  /** The validation messages in the order the checks run. */
  const GoalMessages: seq<string> := [NameRequired, InvalidType, InvalidTarget, InvalidStartDate, InvalidInterval]

  /** `parsed`: the fields `validateGoalPayload` extracts, whether or not they are valid. */
  datatype ParsedGoal = ParsedGoal(
    name: string,
    kind: string,
    targetAmount: JsNumber,
    startDate: string,
    intervalDays: JsNumber)

  function ParseGoalFields(js: Engine, payload: JsValue): ParsedGoal
  {
    ParsedGoal(
      TrimmedText(Get(payload, "name")),
      TrimmedText(Get(payload, "type")),
      ToNumber(js, Nullish(Get(payload, "targetAmount"), Get(payload, "target_amount"))),
      TrimmedText(Nullish(Get(payload, "startDate"), Get(payload, "start_date"))),
      ToNumber(js, Nullish(Get(payload, "intervalDays"), Get(payload, "interval_days"))))
  }

  /** The text fields of a parsed payload carry no surrounding white space. */
  lemma ParsedGoalTrimmed(js: Engine, payload: JsValue)
    ensures var p := ParseGoalFields(js, payload);
      Trim(p.name) == p.name && Trim(p.kind) == p.kind && Trim(p.startDate) == p.startDate
  {
    TrimmedTextTrimmed(Get(payload, "name"));
    TrimmedTextTrimmed(Get(payload, "type"));
    TrimmedTextTrimmed(Nullish(Get(payload, "startDate"), Get(payload, "start_date")));
  }

  /** Whether each check holds, in check order. */
  function GoalChecks(js: Engine, p: ParsedGoal): seq<bool>
  {
    [ p.name != "",
      p.kind == "income" || p.kind == "expense",
      IsPositive(p.targetAmount),
      p.startDate != "" && js.dateParses(Str(p.startDate)),
      IsPositiveInteger(p.intervalDays) ]
  }

  /** The `errors` of `validateGoalPayload(payload)`. */
  function GoalPayloadErrors(js: Engine, payload: JsValue): seq<string>
  {
    Collect(GoalChecks(js, ParseGoalFields(js, payload)), GoalMessages)
  }

  /** `validateGoalPayload(payload)`: `parsed` is returned even when there are errors. */
  method ValidateGoalPayload(js: Engine, payload: JsValue) returns (errors: seq<string>, parsed: ParsedGoal)
    ensures parsed == ParseGoalFields(js, payload)
    ensures errors == GoalPayloadErrors(js, payload)
  {
    parsed := ParseGoalFields(js, payload);
    errors := CheckGoal(js, parsed);
  }

  /** The checks of `validateGoalPayload`, each pushing its message when it fails. */
  method CheckGoal(js: Engine, parsed: ParsedGoal) returns (errors: seq<string>)
    ensures errors == Collect(GoalChecks(js, parsed), GoalMessages)
  {
    ghost var oks := GoalChecks(js, parsed);
    var msgs := GoalMessages;
    errors := [];
    if parsed.name == "" {
      errors := errors + [msgs[0]];
    }
    assert oks[..1][..0] == oks[..0] && msgs[..1][..0] == msgs[..0];
    assert errors == Collect(oks[..1], msgs[..1]);
    if !(parsed.kind == "income" || parsed.kind == "expense") {
      errors := errors + [msgs[1]];
    }
    assert oks[..2][..1] == oks[..1] && msgs[..2][..1] == msgs[..1];
    assert errors == Collect(oks[..2], msgs[..2]);
    if !IsPositive(parsed.targetAmount) {
      errors := errors + [msgs[2]];
    }
    assert oks[..3][..2] == oks[..2] && msgs[..3][..2] == msgs[..2];
    assert errors == Collect(oks[..3], msgs[..3]);
    if parsed.startDate == "" || !js.dateParses(Str(parsed.startDate)) {
      errors := errors + [msgs[3]];
    }
    assert oks[..4][..3] == oks[..3] && msgs[..4][..3] == msgs[..3];
    assert errors == Collect(oks[..4], msgs[..4]);
    if !IsPositiveInteger(parsed.intervalDays) {
      errors := errors + [msgs[4]];
    }
    assert oks[..5][..4] == oks[..4] && msgs[..5][..4] == msgs[..4];
    assert oks[..5] == oks && msgs[..5] == msgs;
  }

  /** The validation messages are pairwise different. */
  lemma GoalMessagesDistinct()
    ensures Distinct(GoalMessages)
  {
    assert |NameRequired| == 27 && |InvalidType| == 44 && |InvalidTarget| == 35;
    assert |InvalidStartDate| == 22 && |InvalidInterval| == 73;
  }

  /**
   * Each message is reported exactly when its check fails, the messages come
   * in the order name, type, target, start date, interval, and there are none
   * exactly when the payload is valid.
   */
  lemma GoalPayloadErrorsSpec(js: Engine, payload: JsValue)
    ensures var p, errors := ParseGoalFields(js, payload), GoalPayloadErrors(js, payload);
      (NameRequired in errors <==> p.name == "") &&
      (InvalidType in errors <==> !(p.kind == "income" || p.kind == "expense")) &&
      (InvalidTarget in errors <==> !IsPositive(p.targetAmount)) &&
      (InvalidStartDate in errors <==> p.startDate == "" || !js.dateParses(Str(p.startDate))) &&
      (InvalidInterval in errors <==> !IsPositiveInteger(p.intervalDays)) &&
      IsSubsequence(errors, GoalMessages) &&
      (errors == [] <==>
        p.name != "" && (p.kind == "income" || p.kind == "expense") && IsPositive(p.targetAmount) &&
        p.startDate != "" && js.dateParses(Str(p.startDate)) && IsPositiveInteger(p.intervalDays))
  {
    GoalMessagesDistinct();
    CollectFive(GoalChecks(js, ParseGoalFields(js, payload)), GoalMessages);
  }

  /** A camelCase key that is neither null nor undefined hides its snake_case fallback. */
  lemma CamelCaseFirst(js: Engine, fields: map<string, JsValue>, target: JsValue, start: JsValue, interval: JsValue)
    requires Get(Obj(fields), "targetAmount") != Undefined && Get(Obj(fields), "targetAmount") != Null
    requires Get(Obj(fields), "startDate") != Undefined && Get(Obj(fields), "startDate") != Null
    requires Get(Obj(fields), "intervalDays") != Undefined && Get(Obj(fields), "intervalDays") != Null
    ensures
      var other := Obj(fields["target_amount" := target]["start_date" := start]["interval_days" := interval]);
      ParseGoalFields(js, other) == ParseGoalFields(js, Obj(fields))
  {
    assert |"name"| == 4 && |"type"| == 4 && |"targetAmount"| == 12 && |"startDate"| == 9 && |"intervalDays"| == 12;
    SnakeCaseKeysApart(fields, target, start, interval, "name");
    SnakeCaseKeysApart(fields, target, start, interval, "type");
    SnakeCaseKeysApart(fields, target, start, interval, "targetAmount");
    SnakeCaseKeysApart(fields, target, start, interval, "startDate");
    SnakeCaseKeysApart(fields, target, start, interval, "intervalDays");
  }

  /** Setting the three snake_case keys leaves every key of another length as it was. */
  lemma SnakeCaseKeysApart(fields: map<string, JsValue>, target: JsValue, start: JsValue, interval: JsValue, k: string)
    requires |k| != 10 && |k| != 13
    ensures Get(Obj(fields["target_amount" := target]["start_date" := start]["interval_days" := interval]), k) == Get(Obj(fields), k)
  {
    assert |"target_amount"| == 13 && |"start_date"| == 10 && |"interval_days"| == 13;
  }

  /** The arguments the goal service receives for a create or an update. */
  datatype GoalWrite = GoalWrite(walletId: int, goal: ParsedGoal)

  /** `createGoal`: the wallet id is checked before the payload is looked at. */
  method CreateGoal(js: Engine, body: JsValue) returns (step: Step<GoalWrite>)
    ensures ParseWalletId(js, Get(body, "walletId")).Err? ==> step == Respond(ErrorReply(400, InvalidWallet))
    ensures ParseWalletId(js, Get(body, "walletId")).Ok? ==>
      var errors := GoalPayloadErrors(js, BodyOrEmpty(body));
      if errors != [] then step == Respond(ValidationReply(errors))
      else step == Proceed(GoalWrite(ParseWalletId(js, Get(body, "walletId")).value, ParseGoalFields(js, BodyOrEmpty(body))))
  {
    var walletId := ParseWalletId(js, Get(body, "walletId"));
    if walletId.Err? {
      return Respond(ErrorReply(400, walletId.error));
    }
    var errors, parsed := ValidateGoalPayload(js, BodyOrEmpty(body));
    if |errors| > 0 {
      return Respond(ValidationReply(errors));
    }
    return Proceed(GoalWrite(walletId.value, parsed));
  }

  /**
   * The reply to `createGoal` once the service has run: whatever the service
   * resolves to, a `null` included, is sent with 201; any error is a 500.
   */
  function CreateGoalReply(outcome: Outcome): (r: Reply)
    ensures outcome == Saved || outcome == NotFound ==> r == JsonReply(201)
    ensures outcome.Rejected? || outcome.Threw? ==> r == ErrorReply(500, "Erro ao criar meta")
  {
    if outcome == Saved || outcome == NotFound then JsonReply(201) else ErrorReply(500, "Erro ao criar meta")
  }

  /** `updateGoal`: the id, then the wallet id, then the payload. */
  method UpdateGoal(js: Engine, params: JsValue, body: JsValue) returns (step: Step<(int, GoalWrite)>)
    ensures ParseId(js, Get(params, "id")).Err? ==> step == Respond(ErrorReply(400, InvalidId))
    ensures ParseId(js, Get(params, "id")).Ok? && ParseWalletId(js, Get(body, "walletId")).Err? ==>
      step == Respond(ErrorReply(400, InvalidWallet))
    ensures ParseId(js, Get(params, "id")).Ok? && ParseWalletId(js, Get(body, "walletId")).Ok? ==>
      var errors := GoalPayloadErrors(js, BodyOrEmpty(body));
      if errors != [] then step == Respond(ValidationReply(errors))
      else step == Proceed((ParseId(js, Get(params, "id")).value,
        GoalWrite(ParseWalletId(js, Get(body, "walletId")).value, ParseGoalFields(js, BodyOrEmpty(body)))))
  {
    var id := ParseId(js, Get(params, "id"));
    if id.Err? {
      return Respond(ErrorReply(400, id.error));
    }
    var walletId := ParseWalletId(js, Get(body, "walletId"));
    if walletId.Err? {
      return Respond(ErrorReply(400, walletId.error));
    }
    var errors, parsed := ValidateGoalPayload(js, BodyOrEmpty(body));
    if |errors| > 0 {
      return Respond(ValidationReply(errors));
    }
    return Proceed((id.value, GoalWrite(walletId.value, parsed)));
  }

  /** The reply to `updateGoal` once the service has run: a missing goal is a 404. */
  function UpdateGoalReply(outcome: Outcome): (r: Reply)
    ensures outcome == Saved ==> r == JsonReply(200)
    ensures outcome == NotFound ==> r == ErrorReply(404, "Meta não encontrada")
    ensures outcome.Rejected? || outcome.Threw? ==> r == ErrorReply(500, "Erro ao atualizar meta")
  {
    match outcome
    case Saved => JsonReply(200)
    case NotFound => ErrorReply(404, "Meta não encontrada")
    case _ => ErrorReply(500, "Erro ao atualizar meta")
  }

  /** `listGoals`: the wallet id comes from the query string. */
  function ListGoals(js: Engine, query: JsValue): (step: Step<int>)
    ensures step.Respond? <==> !IsPositiveInteger(ToNumber(js, Get(query, "walletId")))
    ensures step.Respond? ==> step.reply == ErrorReply(400, InvalidWallet)
  {
    match ParseWalletId(js, Get(query, "walletId"))
    case Err(e) => Respond(ErrorReply(400, e))
    case Ok(walletId) => Proceed(walletId)
  }

  /** `deleteGoal`: the id, then the wallet id from the query string. */
  function DeleteGoal(js: Engine, params: JsValue, query: JsValue): (step: Step<(int, int)>)
    ensures ParseId(js, Get(params, "id")).Err? ==> step == Respond(ErrorReply(400, InvalidId))
    ensures ParseId(js, Get(params, "id")).Ok? && ParseWalletId(js, Get(query, "walletId")).Err? ==>
      step == Respond(ErrorReply(400, InvalidWallet))
    ensures step.Proceed? <==>
      ParseId(js, Get(params, "id")).Ok? && ParseWalletId(js, Get(query, "walletId")).Ok?
  {
    match ParseId(js, Get(params, "id"))
    case Err(e) => Respond(ErrorReply(400, e))
    case Ok(id) =>
      match ParseWalletId(js, Get(query, "walletId"))
      case Err(e) => Respond(ErrorReply(400, e))
      case Ok(walletId) => Proceed((id, walletId))
  }

  /** The reply to `deleteGoal` once the service has run: a missing goal is a 404. */
  function DeleteGoalReply(outcome: Outcome): (r: Reply)
    ensures outcome == Saved ==> r == NoContent
    ensures outcome == NotFound ==> r == ErrorReply(404, "Meta não encontrada")
    ensures outcome.Rejected? || outcome.Threw? ==> r == ErrorReply(500, "Erro ao excluir meta")
  {
    match outcome
    case Saved => NoContent
    case NotFound => ErrorReply(404, "Meta não encontrada")
    case _ => ErrorReply(500, "Erro ao excluir meta")
  }
}

/**
 * The request handlers for wallets: payload validation with defaults for the
 * icon and the colour, an optional description, id parsing, and the answer
 * 409 to a unique-key violation.
 */
module WalletsController {
  import opened JsValues
  import opened Http

  const NameRequired: string := "Nome da carteira é obrigatório."
  const IconRequired: string := "Selecione um ícone para a carteira."
  const InvalidColor: string := "Informe uma cor em hexadecimal válida para a carteira."

  const WalletMessages: seq<string> := [NameRequired, IconRequired, InvalidColor]

  const DefaultIcon: string := "fa-solid fa-wallet"
  const DefaultColor: string := "#22c55e"

  const DuplicateWallet: string := "Já existe uma carteira com esse nome."

  /**
   * The text fields as read: name, icon and colour trimmed, or `''` when not
   * a string; the description trimmed, or `null` (`None`) when not a string.
   */
  datatype WalletFields = WalletFields(name: string, description: Option<string>, icon: string, color: string)

  function ReadWalletFields(payload: JsValue): WalletFields
  {
    var description := Get(payload, "description");
    WalletFields(
      TrimmedText(Get(payload, "name")),
      if description.Str? then Some(Trim(description.s)) else None,
      TrimmedText(Get(payload, "icon")),
      TrimmedText(Get(payload, "color")))
  }

  function WalletChecks(f: WalletFields): seq<bool>
  {
    [f.name != "", f.icon != "", IsHexColor(f.color)]
  }

  /** The `errors` of `validateWalletPayload(payload)`. */
  function WalletPayloadErrors(payload: JsValue): seq<string>
  {
    Collect(WalletChecks(ReadWalletFields(payload)), WalletMessages)
  }

  /** The checks of `validateWalletPayload`, each pushing its message when it fails. */
  method CheckWallet(f: WalletFields) returns (errors: seq<string>)
    ensures errors == Collect(WalletChecks(f), WalletMessages)
  {
    ghost var oks := WalletChecks(f);
    var msgs := WalletMessages;
    errors := [];
    if f.name == "" {
      errors := errors + [msgs[0]];
    }
    assert oks[..1][..0] == oks[..0] && msgs[..1][..0] == msgs[..0];
    assert errors == Collect(oks[..1], msgs[..1]);
    if f.icon == "" {
      errors := errors + [msgs[1]];
    }
    assert oks[..2][..1] == oks[..1] && msgs[..2][..1] == msgs[..1];
    assert errors == Collect(oks[..2], msgs[..2]);
    if !IsHexColor(f.color) {
      errors := errors + [msgs[2]];
    }
    assert oks[..3][..2] == oks[..2] && msgs[..3][..2] == msgs[..2];
    assert oks[..3] == oks && msgs[..3] == msgs;
  }

  /**
   * The `parsed` object: an empty description becomes `null`, a missing icon
   * `'fa-solid fa-wallet'` and an invalid colour `'#22c55e'`; so the parsed
   * description is never the empty string, the icon never empty and the
   * colour always valid.
   */
  function ParsedWallet(f: WalletFields): (p: WalletFields)
    ensures p.name == f.name
    ensures p.description.Some? <==> f.description.Some? && f.description.value != ""
    ensures p.description.Some? ==> p.description == f.description
    ensures p.icon != "" && IsHexColor(p.color)
    ensures f.icon != "" ==> p.icon == f.icon
    ensures IsHexColor(f.color) ==> p.color == f.color
  {
    assert IsHexColor(DefaultColor);
    WalletFields(
      f.name,
      if f.description.Some? && f.description.value != "" then f.description else None,
      if f.icon != "" then f.icon else DefaultIcon,
      if IsHexColor(f.color) then f.color else DefaultColor)
  }

  /** `validateWalletPayload(payload)`: `parsed` is returned even when there are errors. */
  method ValidateWalletPayload(payload: JsValue) returns (errors: seq<string>, parsed: WalletFields)
    ensures errors == WalletPayloadErrors(payload)
    ensures parsed == ParsedWallet(ReadWalletFields(payload))
  {
    var fields := ReadWalletFields(payload);
    errors := CheckWallet(fields);
    parsed := ParsedWallet(fields);
  }

  /** The wallet messages are pairwise different. */
  lemma WalletMessagesDistinct()
    ensures Distinct(WalletMessages)
  {
    assert |NameRequired| == 31 && |IconRequired| == 35 && |InvalidColor| == 54;
  }

  /**
   * Each message is reported exactly when its check fails, in the order
   * name, icon, colour; there are none exactly when all hold.
   */
  lemma WalletFieldErrors(f: WalletFields)
    ensures var errors := Collect(WalletChecks(f), WalletMessages);
      (NameRequired in errors <==> f.name == "") &&
      (IconRequired in errors <==> f.icon == "") &&
      (InvalidColor in errors <==> !IsHexColor(f.color)) &&
      IsSubsequence(errors, WalletMessages) &&
      (errors == [] <==> f.name != "" && f.icon != "" && IsHexColor(f.color))
  {
    WalletMessagesDistinct();
    CollectSpec(WalletChecks(f), WalletMessages);
    assert WalletMessages[0] == NameRequired && WalletMessages[1] == IconRequired && WalletMessages[2] == InvalidColor;
  }

  /**
   * The checks on a payload; a colour is accepted exactly when, once
   * trimmed, it is `#` and 6 or 8 hex digits.
   */
  lemma WalletPayloadErrorsSpec(payload: JsValue)
    ensures var f, errors := ReadWalletFields(payload), WalletPayloadErrors(payload);
      (NameRequired in errors <==> f.name == "") &&
      (IconRequired in errors <==> f.icon == "") &&
      (InvalidColor in errors <==> !(Get(payload, "color").Str? && IsHexColor(Trim(Get(payload, "color").s)))) &&
      IsSubsequence(errors, WalletMessages) &&
      (errors == [] <==> f.name != "" && f.icon != "" && IsHexColor(f.color))
  {
    WalletFieldErrors(ReadWalletFields(payload));
    TrimmedHexColor(Get(payload, "color"));
  }

  /** The description is never checked; one that is not a string, or is blank, is parsed as `null`. */
  lemma ParsedDescription(payload: JsValue)
    ensures var d := Get(payload, "description");
      ParsedWallet(ReadWalletFields(payload)).description ==
        if d.Str? && Trim(d.s) != "" then Some(Trim(d.s)) else None
  {
  }

  /** `createWallet`: validation, then the service. */
  method CreateWallet(body: JsValue) returns (step: Step<WalletFields>)
    ensures WalletPayloadErrors(BodyOrEmpty(body)) != [] ==>
      step == Respond(ValidationReply(WalletPayloadErrors(BodyOrEmpty(body))))
    ensures WalletPayloadErrors(BodyOrEmpty(body)) == [] ==>
      step == Proceed(ParsedWallet(ReadWalletFields(BodyOrEmpty(body))))
  {
    var errors, parsed := ValidateWalletPayload(BodyOrEmpty(body));
    if |errors| > 0 {
      return Respond(ValidationReply(errors));
    }
    return Proceed(parsed);
  }

  /** `updateWallet`: the id, then validation, then the service. */
  method UpdateWallet(js: Engine, params: JsValue, body: JsValue) returns (step: Step<(int, WalletFields)>)
    ensures ParseId(js, Get(params, "id")).Err? ==> step == Respond(ErrorReply(400, InvalidId))
    ensures ParseId(js, Get(params, "id")).Ok? ==>
      var errors := WalletPayloadErrors(BodyOrEmpty(body));
      if errors != [] then step == Respond(ValidationReply(errors))
      else step == Proceed((ParseId(js, Get(params, "id")).value, ParsedWallet(ReadWalletFields(BodyOrEmpty(body)))))
  {
    var id := ParseId(js, Get(params, "id"));
    if id.Err? {
      return Respond(ErrorReply(400, id.error));
    }
    var errors, parsed := ValidateWalletPayload(BodyOrEmpty(body));
    if |errors| > 0 {
      return Respond(ValidationReply(errors));
    }
    return Proceed((id.value, parsed));
  }

  /** `deleteWallet`: only the id is checked. */
  function DeleteWallet(js: Engine, params: JsValue): (step: Step<int>)
    ensures step.Respond? <==> !IsPositiveInteger(ToNumber(js, Get(params, "id")))
    ensures step.Respond? ==> step.reply == ErrorReply(400, InvalidId)
    ensures step.Proceed? ==> ToNumber(js, Get(params, "id")) == Finite(step.args as real)
  {
    match ParseId(js, Get(params, "id"))
    case Err(e) => Respond(ErrorReply(400, e))
    case Ok(id) => Proceed(id)
  }

  /**
   * The reply to `createWallet` once the service has run: whatever the service
   * resolves to, a `null` included, is sent with 201.
   */
  function CreateWalletReply(outcome: Outcome): (r: Reply)
    ensures outcome.Saved? || outcome.NotFound? ==> r == JsonReply(201)
    ensures outcome == Threw(UniqueViolation) ==> r == ErrorReply(409, DuplicateWallet)
    ensures (outcome.Threw? && outcome.code != UniqueViolation) || outcome.Rejected? ==> r == ErrorReply(500, "Erro ao criar carteira")
  {
    match outcome
    case Saved => JsonReply(201)
    case NotFound => JsonReply(201)
    case Threw(code) =>
      if code == UniqueViolation then ErrorReply(409, DuplicateWallet) else ErrorReply(500, "Erro ao criar carteira")
    case _ => ErrorReply(500, "Erro ao criar carteira")
  }

  /** The reply to `updateWallet` once the service has run. */
  function UpdateWalletReply(outcome: Outcome): (r: Reply)
    ensures outcome.Saved? ==> r == JsonReply(200)
    ensures outcome.NotFound? ==> r == ErrorReply(404, "Carteira não encontrada")
    ensures outcome == Threw(UniqueViolation) ==> r == ErrorReply(409, DuplicateWallet)
    ensures (outcome.Rejected? || outcome.Threw?) && outcome != Threw(UniqueViolation) ==>
      r == ErrorReply(500, "Erro ao atualizar carteira")
  {
    match outcome
    case Saved => JsonReply(200)
    case NotFound => ErrorReply(404, "Carteira não encontrada")
    case Threw(code) =>
      if code == UniqueViolation then ErrorReply(409, DuplicateWallet) else ErrorReply(500, "Erro ao atualizar carteira")
    case Rejected(_, _) => ErrorReply(500, "Erro ao atualizar carteira")
  }

  /** The reply to `deleteWallet` once the service has run. */
  function DeleteWalletReply(outcome: Outcome): (r: Reply)
    ensures outcome.Saved? ==> r == NoContent
    ensures outcome.NotFound? ==> r == ErrorReply(404, "Carteira não encontrada")
    ensures outcome.Rejected? || outcome.Threw? ==> r == ErrorReply(500, "Erro ao excluir carteira")
  {
    match outcome
    case Saved => NoContent
    case NotFound => ErrorReply(404, "Carteira não encontrada")
    case _ => ErrorReply(500, "Erro ao excluir carteira")
  }
}

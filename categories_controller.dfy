/**
 * The request handlers for categories: payload validation with defaults for
 * the icon and the colour, id parsing, and the answer 409 to a unique-key
 * violation.
 */
module CategoriesController {
  import opened JsValues
  import opened Http

  const NameRequired: string := "Nome da categoria é obrigatório."
  const InvalidType: string := "Tipo da categoria deve ser \"income\" ou \"expense\"."
  const IconRequired: string := "Selecione um ícone para a categoria."
  const InvalidColor: string := "Informe uma cor hexadecimal válida para a categoria."

  const CategoryMessages: seq<string> := [NameRequired, InvalidType, IconRequired, InvalidColor]

  const DefaultIcon: string := "fa-solid fa-tag"
  const DefaultColor: string := "#6366f1"

  const DuplicateCategory: string := "Já existe uma categoria com esse nome para o tipo informado."

  /** The four text fields, each trimmed, or `''` when it is not a string. */
  datatype CategoryFields = CategoryFields(name: string, kind: string, icon: string, color: string)

  function ReadCategoryFields(payload: JsValue): CategoryFields
  {
    CategoryFields(
      TrimmedText(Get(payload, "name")),
      TrimmedText(Get(payload, "type")),
      TrimmedText(Get(payload, "icon")),
      TrimmedText(Get(payload, "color")))
  }

  function CategoryChecks(f: CategoryFields): seq<bool>
  {
    [f.name != "", f.kind == "income" || f.kind == "expense", f.icon != "", IsHexColor(f.color)]
  }

  /** The `errors` of `validateCategoryPayload(payload)`. */
  function CategoryPayloadErrors(payload: JsValue): seq<string>
  {
    Collect(CategoryChecks(ReadCategoryFields(payload)), CategoryMessages)
  }

  /** The checks of `validateCategoryPayload`, each pushing its message when it fails. */
  method CheckCategory(f: CategoryFields) returns (errors: seq<string>)
    ensures errors == Collect(CategoryChecks(f), CategoryMessages)
  {
    ghost var oks := CategoryChecks(f);
    var msgs := CategoryMessages;
    errors := [];
    if f.name == "" {
      errors := errors + [msgs[0]];
    }
    assert oks[..1][..0] == oks[..0] && msgs[..1][..0] == msgs[..0];
    assert errors == Collect(oks[..1], msgs[..1]);
    if !(f.kind == "income" || f.kind == "expense") {
      errors := errors + [msgs[1]];
    }
    assert oks[..2][..1] == oks[..1] && msgs[..2][..1] == msgs[..1];
    assert errors == Collect(oks[..2], msgs[..2]);
    if f.icon == "" {
      errors := errors + [msgs[2]];
    }
    assert oks[..3][..2] == oks[..2] && msgs[..3][..2] == msgs[..2];
    assert errors == Collect(oks[..3], msgs[..3]);
    if !IsHexColor(f.color) {
      errors := errors + [msgs[3]];
    }
    assert oks[..4][..3] == oks[..3] && msgs[..4][..3] == msgs[..3];
    assert oks[..4] == oks && msgs[..4] == msgs;
  }

  /**
   * The `parsed` object: a missing icon becomes `'fa-solid fa-tag'` and a
   * colour that is not `#RRGGBB`/`#RRGGBBAA` becomes `'#6366f1'`, so the
   * parsed icon is never empty and the parsed colour always valid.
   */
  function ParsedCategory(f: CategoryFields): (p: CategoryFields)
    ensures p.name == f.name && p.kind == f.kind
    ensures p.icon != "" && IsHexColor(p.color)
    ensures f.icon != "" ==> p.icon == f.icon
    ensures IsHexColor(f.color) ==> p.color == f.color
  {
    assert IsHexColor(DefaultColor);
    CategoryFields(
      f.name,
      f.kind,
      if f.icon != "" then f.icon else DefaultIcon,
      if IsHexColor(f.color) then f.color else DefaultColor)
  }

  /** `validateCategoryPayload(payload)`: `parsed` is returned even when there are errors. */
  method ValidateCategoryPayload(payload: JsValue) returns (errors: seq<string>, parsed: CategoryFields)
    ensures errors == CategoryPayloadErrors(payload)
    ensures parsed == ParsedCategory(ReadCategoryFields(payload))
  {
    var fields := ReadCategoryFields(payload);
    errors := CheckCategory(fields);
    parsed := ParsedCategory(fields);
  }

  /** The category messages are pairwise different. */
  lemma CategoryMessagesDistinct()
    ensures Distinct(CategoryMessages)
  {
    assert |NameRequired| == 32 && |InvalidType| == 49 && |IconRequired| == 36 && |InvalidColor| == 52;
  }

  /**
   * Each message is reported exactly when its check fails, in the order
   * name, type, icon, colour; there are none exactly when all hold.
   */
  lemma CategoryFieldErrors(f: CategoryFields)
    ensures var errors := Collect(CategoryChecks(f), CategoryMessages);
      (NameRequired in errors <==> f.name == "") &&
      (InvalidType in errors <==> !(f.kind == "income" || f.kind == "expense")) &&
      (IconRequired in errors <==> f.icon == "") &&
      (InvalidColor in errors <==> !IsHexColor(f.color)) &&
      IsSubsequence(errors, CategoryMessages) &&
      (errors == [] <==> f.name != "" && (f.kind == "income" || f.kind == "expense") && f.icon != "" && IsHexColor(f.color))
  {
    CategoryMessagesDistinct();
    CollectSpec(CategoryChecks(f), CategoryMessages);
    assert CategoryMessages[0] == NameRequired && CategoryMessages[1] == InvalidType;
    assert CategoryMessages[2] == IconRequired && CategoryMessages[3] == InvalidColor;
  }

  /**
   * The checks on a payload; a colour is accepted exactly when, once
   * trimmed, it is `#` and 6 or 8 hex digits.
   */
  lemma CategoryPayloadErrorsSpec(payload: JsValue)
    ensures var f, errors := ReadCategoryFields(payload), CategoryPayloadErrors(payload);
      (NameRequired in errors <==> f.name == "") &&
      (InvalidType in errors <==> !(f.kind == "income" || f.kind == "expense")) &&
      (IconRequired in errors <==> f.icon == "") &&
      (InvalidColor in errors <==> !(Get(payload, "color").Str? && IsHexColor(Trim(Get(payload, "color").s)))) &&
      IsSubsequence(errors, CategoryMessages) &&
      (errors == [] <==> f.name != "" && (f.kind == "income" || f.kind == "expense") && f.icon != "" && IsHexColor(f.color))
  {
    CategoryFieldErrors(ReadCategoryFields(payload));
    TrimmedHexColor(Get(payload, "color"));
  }

  /** `createCategory`: validation, then the service. */
  method CreateCategory(body: JsValue) returns (step: Step<CategoryFields>)
    ensures CategoryPayloadErrors(BodyOrEmpty(body)) != [] ==>
      step == Respond(ValidationReply(CategoryPayloadErrors(BodyOrEmpty(body))))
    ensures CategoryPayloadErrors(BodyOrEmpty(body)) == [] ==>
      step == Proceed(ParsedCategory(ReadCategoryFields(BodyOrEmpty(body))))
  {
    var errors, parsed := ValidateCategoryPayload(BodyOrEmpty(body));
    if |errors| > 0 {
      return Respond(ValidationReply(errors));
    }
    return Proceed(parsed);
  }

  /** `updateCategory`: the id, then validation, then the service. */
  method UpdateCategory(js: Engine, params: JsValue, body: JsValue) returns (step: Step<(int, CategoryFields)>)
    ensures ParseId(js, Get(params, "id")).Err? ==> step == Respond(ErrorReply(400, InvalidId))
    ensures ParseId(js, Get(params, "id")).Ok? ==>
      var errors := CategoryPayloadErrors(BodyOrEmpty(body));
      if errors != [] then step == Respond(ValidationReply(errors))
      else step == Proceed((ParseId(js, Get(params, "id")).value, ParsedCategory(ReadCategoryFields(BodyOrEmpty(body)))))
  {
    var id := ParseId(js, Get(params, "id"));
    if id.Err? {
      return Respond(ErrorReply(400, id.error));
    }
    var errors, parsed := ValidateCategoryPayload(BodyOrEmpty(body));
    if |errors| > 0 {
      return Respond(ValidationReply(errors));
    }
    return Proceed((id.value, parsed));
  }

  /** `deleteCategory`: only the id is checked. */
  function DeleteCategory(js: Engine, params: JsValue): (step: Step<int>)
    ensures step.Respond? <==> !IsPositiveInteger(ToNumber(js, Get(params, "id")))
    ensures step.Respond? ==> step.reply == ErrorReply(400, InvalidId)
    ensures step.Proceed? ==> ToNumber(js, Get(params, "id")) == Finite(step.args as real)
  {
    match ParseId(js, Get(params, "id"))
    case Err(e) => Respond(ErrorReply(400, e))
    case Ok(id) => Proceed(id)
  }

  /**
   * The reply to `createCategory` once the service has run: whatever the service
   * resolves to, a `null` included, is sent with 201.
   */
  function CreateCategoryReply(outcome: Outcome): (r: Reply)
    ensures outcome.Saved? || outcome.NotFound? ==> r == JsonReply(201)
    ensures outcome == Threw(UniqueViolation) ==> r == ErrorReply(409, DuplicateCategory)
    ensures (outcome.Threw? && outcome.code != UniqueViolation) || outcome.Rejected? ==> r == ErrorReply(500, "Erro ao criar categoria")
  {
    match outcome
    case Saved => JsonReply(201)
    case NotFound => JsonReply(201)
    case Threw(code) =>
      if code == UniqueViolation then ErrorReply(409, DuplicateCategory) else ErrorReply(500, "Erro ao criar categoria")
    case _ => ErrorReply(500, "Erro ao criar categoria")
  }

  /** The reply to `updateCategory` once the service has run. */
  function UpdateCategoryReply(outcome: Outcome): (r: Reply)
    ensures outcome.Saved? ==> r == JsonReply(200)
    ensures outcome.NotFound? ==> r == ErrorReply(404, "Categoria não encontrada")
    ensures outcome == Threw(UniqueViolation) ==> r == ErrorReply(409, DuplicateCategory)
    ensures (outcome.Rejected? || outcome.Threw?) && outcome != Threw(UniqueViolation) ==>
      r == ErrorReply(500, "Erro ao atualizar categoria")
  {
    match outcome
    case Saved => JsonReply(200)
    case NotFound => ErrorReply(404, "Categoria não encontrada")
    case Threw(code) =>
      if code == UniqueViolation then ErrorReply(409, DuplicateCategory) else ErrorReply(500, "Erro ao atualizar categoria")
    case Rejected(_, _) => ErrorReply(500, "Erro ao atualizar categoria")
  }

  /** The reply to `deleteCategory` once the service has run. */
  function DeleteCategoryReply(outcome: Outcome): (r: Reply)
    ensures outcome.Saved? ==> r == NoContent
    ensures outcome.NotFound? ==> r == ErrorReply(404, "Categoria não encontrada")
    ensures outcome.Rejected? || outcome.Threw? ==> r == ErrorReply(500, "Erro ao excluir categoria")
  {
    match outcome
    case Saved => NoContent
    case NotFound => ErrorReply(404, "Categoria não encontrada")
    case _ => ErrorReply(500, "Erro ao excluir categoria")
  }
}

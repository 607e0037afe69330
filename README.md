# Finance tracker core in Dafny

This project models the core of a personal finance tracker: an Express server
over PostgreSQL plus a browser client. The user keeps **wallets**; each wallet holds
**transactions** (income or expense, with category links) and **goals** (a
target amount to reach within a renewal cycle of `intervalDays` days). The
model covers:

- **The goal period and progress engine** (`goals_service.dfy`):
  - `parseUTCDate`, `addDays`, `formatDate` and `calculateCurrentPeriod` over integer day numbers, with the ECMA-262 calendar arithmetic in `calendar.dfy`;
  - `buildGoalResponse`, with money in integer cents;
  - the batched `fetchProgress` query: its five-placeholder-per-goal layout, its `::date` casts, the `LEFT JOIN ... GROUP BY` as a filter-and-sum over a transaction sequence, and the map built from the result rows;
  - `composeGoalsResponse`, as a method proved against a function that states its whole answer (`GoalsResponse`).
- **The request validators and handlers** of the four controllers:
  - the messages are accumulated in a fixed order and joined into one 400 reply;
  - the icon and colour defaults, and the `#RRGGBB`/`#RRGGBBAA` colour pattern;
  - the positive-integer id parsers;
  - the order of the checks in each handler, and the mapping of a service outcome to a status code (`23505` to 409).
- **The transaction service** (`transactions_service.dfy`):
  - `sanitizeCategoryIds` as a loop over a Set;
  - the "not found" then "type mismatch" category checks;
  - a `TransactionStore` class holding the rows, the category links (transaction id to a set of category ids) and the id sequence, updated by `createTransaction` and `updateTransaction`.
- **Wallet rows** (`wallets_service.dfy`): `mapWallet`, and the shapes that `createWallet` and `updateWallet` return.
- **The web client**:
  - the `WalletSelectorManager` state machine (`wallet_selector.dfy`);
  - the `FinancialControl` page controller (`app.dfy`): the totals, the active-wallet rule of `loadWallets`, normalisation, and the in-place list updates after a save or a delete.

## How it is modelled

- **JavaScript values.** Values are a `JsValue` datatype; numbers are `NaN`, finite reals or the infinities.
  - `Number()` on a string that is not a plain run of digits, `Number()` on an object, and `Date.parse` are fields of an `Engine` record, so every property holds for any engine.
  - `Number()` on a run of at most 15 digits is modelled as its exact value: such a value is below 2^53, so it is a double (`JsValues.ExactDigitRun`). The ISO date parts and the ids need this. A longer run is left to the engine, which may round it or overflow it to `Infinity`.
- **Dates.**
  - A `Date` is `ValidDate(day)` (UTC midnight of a day number) or `InvalidDate` (time value NaN).
  - TimeClip bounds the day number by 10^8.
  - `Date.UTC`, MakeDay, DayFromYear, YearFromTime and `toISOString` follow ECMA-262 sections 21.4.1.
- **The clock.** `todayUTC()` reads the system clock; the model takes the reference day as a parameter.
- **Money.** Amounts are integer cents, so `toFixed(2)` is the identity.
  - `Math.round(p / t * 100)` is stated by its defining inequality.
  - `target <= 0`, a NaN progress (`Option`) and the 999 cap follow the code.
- **The database.**
  - The `transactions` table is a sequence of rows.
  - The progress query is evaluated from the selects and parameters the code actually builds. The model assumes that PostgreSQL's `::date` cast accepts exactly the formatted dates with a year from 1 to 9999; a period whose formatted date falls outside that range makes the query fail.
  - Other services (`findByIds`, the `INSERT`/`UPDATE` statements) are modelled by the state they produce.
- **Handlers.** Each handler is split in two: a `Step` (answer now, or call the service with these arguments), and a function from the service's outcome to the reply.

Where the code and its description differ, the model follows the code:

- **Thirty-day example.** A start of 2024-01-01, an interval of 30 days and a reference of 2024-02-05 give the window 2024-01-31..2024-02-29. 2024 is a leap year, so the window ends 2024-02-29, not 2024-03-01 (`GoalsService.ThirtyDayExample`).
- **`parseUTCDate` with missing parts.** With fewer than three `-`-separated parts, a missing part is `undefined`, not NaN. The function therefore returns an Invalid Date instead of `null`, so `calculateCurrentPeriod` does not throw, and `formatDate` later throws a `RangeError` (`GoalsService.ParseUTCDate`, `GoalsService.BuildGoalResponse`).
- **Two-digit years.** `Date.UTC` reads the years 0..99 as 1900..1999, so a `0050-06-15` start date is the day of 1950-06-15 (`GoalsService.ParseTwoDigitYear`). The parse/format round trip is stated for the years 100..9999 (`GoalsService.FormatParseRoundTrip`).
- **A truthy description that is not a string.** `validateTransactionPayload` builds `parsed` with `description.trim()`, which throws on such a value. The handlers then answer 500 instead of 400 (`TransactionsController.ParsedDescription`, `TransactionsController.CreateTransaction`).
- **The transaction handlers' id message.** It is `'ID inválido'`, without the full stop the other controllers use.
- **The active wallet after `updateWallets`.** It is a listed wallet's id, or null, except in two cases:
  - an explicit id `0` is falsy and survives unlisted;
  - without a trigger element on the page, an explicit falsy id is not replaced.

  `WalletSelector.WalletSelectorManager.UpdateWallets` states these cases exactly.
- **`updateWallet` totals.** It reports totals 0 and balance 0 even for a wallet with transactions (`WalletsService.UpdateReportsZeroTotals`).

## Model

| member | source | states |
|---|---|---|
| GoalsService.ParseUTCDate | src/services/goalsService.js:5-17 | `null` exactly for an empty value or a year, month or day part that is NaN; fewer than three parts give an Invalid Date |
| GoalsService.AddDaysTwice | src/services/goalsService.js:24-26 | two shifts by whole days are one shift by their sum while the intermediate date is valid |
| GoalsService.FormatDate | src/services/goalsService.js:28-30 | a RangeError exactly for an Invalid Date, otherwise the `YYYY-MM-DD` text of the day |
| GoalsService.SafeInterval | src/services/goalsService.js:39 | at least 1; the interval itself when it is at least 1, and 1 for a zero, negative or non-numeric interval |
| GoalsService.CycleOffset | src/services/goalsService.js:46-48 | the whole number of cycles times the interval: the offset is a multiple of the interval with `offset <= elapsed < offset + interval` |
| GoalsService.CalculateCurrentPeriod | src/services/goalsService.js:32-52 | throws exactly when the start date does not parse, and never uses the clock instead; the window always ends `interval - 1` days after it starts; before the start it is the first window; otherwise it starts a whole number of intervals after the start and contains the reference day |
| GoalsService.PeriodStable | src/services/goalsService.js:46-51 | every reference day inside the current window yields that same window |
| GoalsService.ThirtyDayExample | src/services/goalsService.js:32-51 | start 2024-01-01, interval 30, reference 2024-02-05 give the window 2024-01-31..2024-02-29 |
| GoalsService.ParseIsoCivil | src/services/goalsService.js:5-17 | a `YYYY-MM-DD` date with a year from 100 to 9999 parses to its own day, and formatting that day gives the text back |
| GoalsService.FormatParseRoundTrip | src/services/goalsService.js:5-30 | formatting a day with a year from 100 to 9999 and parsing the text gives the same day |
| GoalsService.ParseTwoDigitYear | src/services/goalsService.js:16 | a start date with a year from 0 to 99 parses to the same date in the 1900s, not to its own day |
| GoalsService.RoundedPercent | src/services/goalsService.js:116 | `Math.round(progress / target * 100)` for a positive target, as the integer within half a unit of the percentage, halves up |
| GoalsService.ProgressPercentage | src/services/goalsService.js:115-116 | never above 999; 0 when the target is not positive; otherwise the rounded percentage, capped at 999; non-negative for a non-negative progress |
| GoalsService.GoalFigures | src/services/goalsService.js:114-118 | a non-numeric progress counts as 0; `achieved` exactly when progress reaches the target; remaining is `max(target - progress, 0)`, 0 whenever achieved |
| GoalsService.BuildGoalResponse | src/services/goalsService.js:113-129 | throws RangeError exactly when a period date is an Invalid Date; otherwise carries the goal unchanged, the two formatted period dates and the figures of `GoalFigures` |
| GoalsService.BuildProgressQuery | src/services/goalsService.js:73-87 | RangeError exactly when a period date does not format; otherwise the k-th select uses placeholders `5k+1..5k+5`, there are `5n` params, in batch order |
| GoalsService.LayoutExtend | src/services/goalsService.js:76-87 | pushing one more select and its five params keeps the layout |
| GoalsService.PgDateOfIsoDate | src/services/goalsService.js:79-83 | the `::date` cast accepts the formatted text of a day exactly when its year is 1..9999, and reads back that day |
| GoalsService.EvalSlot | src/services/goalsService.js:79-86 | the k-th select reads back the goal id, wallet, type and both days of the k-th period, or fails when a date is out of range |
| GoalsService.EvalLayout | src/services/goalsService.js:89-92 | the `goal_periods` table is the batch's windows, or the query fails when a date is out of range |
| GoalsService.QueryOfLayout | src/services/goalsService.js:89-103 | the query's answer is one row per distinct goal id with the sum of its windows, or a query error |
| GoalsService.GroupRows | src/services/goalsService.js:93-100 | one row per distinct goal id, in first-occurrence order, holding that id's group sum |
| GoalsService.WindowSumAppend | src/services/goalsService.js:94-99 | splitting the transactions splits the window's sum |
| GoalsService.WindowSumPositive | src/services/goalsService.js:94-99 | with positive amounts a window's sum is non-negative and is 0 exactly when no transaction of the wallet and type falls within both ends |
| GoalsService.GroupSumAbsent | src/services/goalsService.js:94-100 | a goal id with no window has sum 0 |
| GoalsService.GroupSumOfDistinct | src/services/goalsService.js:93-100 | with distinct goal ids, a goal's group sum is the sum of its own window |
| GoalsService.ProgressMap | src/services/goalsService.js:104-108 | the keys are exactly the rows' goal ids, each holding the progress of the last row with that id |
| GoalsService.WindowIds | src/services/goalsService.js:76-86 | the goal ids of the windows are the goal ids of the batch |
| GoalsService.ProgressOfGroupRows | src/services/goalsService.js:104-110 | the map built from the grouped rows has exactly the windows' goal ids as keys, each holding its group sum |
| GoalsService.ProgressOfKeysAndValues | src/services/goalsService.js:68-111 | a map whose keys are the batch's goal ids and whose values are their group sums is the progress map |
| GoalsService.FetchProgress | src/services/goalsService.js:68-111 | resolves to the progress map of every goal id, or rejects with the format error or the query error; one query for a non-empty batch, none for an empty one, which gives `{}` |
| GoalsService.PeriodsFor | src/services/goalsService.js:132-139 | throws the start-date error exactly when some goal's start date does not parse; otherwise one period per goal, in order, each its goal's current window |
| GoalsService.ResponsesFor | src/services/goalsService.js:143-145 | one response per period, in order, each built with `progressMap[goal.id] ?? 0` |
| GoalsService.ResponsesOfProgress | src/services/goalsService.js:141-145 | with the fetched map, each response carries its goal id's group sum |
| GoalsService.ProgressOfDistinct | src/services/goalsService.js:93-100 | with distinct goal ids, each goal's group sum is the sum of its own window |
| GoalsService.ComposeGoalsResponse | src/services/goalsService.js:131-146 | computes the whole answer `GoalsResponse`, with at most one query and none for no goals |
| GoalsService.RespondToBatch | src/services/goalsService.js:141-145 | the steps after the periods: at most one query, none for an empty batch |
| GoalsService.GoalsResponseEmpty | src/services/goalsService.js:69-71 | no goals give the empty list |
| GoalsService.GoalsResponseStartError | src/services/goalsService.js:132-139 | the answer is the start-date error exactly when some start date does not parse |
| GoalsService.GoalsResponseOk | src/services/goalsService.js:131-146 | there is an answer exactly when every start date parses and every period's dates can be formatted and cast |
| GoalsService.BatchResponseOk | src/services/goalsService.js:141-145 | a batch has an answer exactly when every period's dates can be formatted and cast |
| GoalsService.GoalsResponses | src/services/goalsService.js:131-146 | one response per input goal, in input order, each the goal's response built with the sum of its goal id's group |
| GoalsService.BatchResponses | src/services/goalsService.js:141-145 | one response per period, in order, each built with its goal id's group sum |
| GoalsService.GoalsResponseOfDistinct | src/services/goalsService.js:131-146 | with distinct goal ids, each response's progress is the sum of the transactions of the goal's wallet and type within its window |
| GoalsService.BatchProgressOfDistinct | src/services/goalsService.js:141-145 | with distinct goal ids, each response of the batch carries the sum of its own window |
| Calendar.TimeClip | src/services/goalsService.js:25 | a date is valid exactly when its day number is within the TimeClip range |
| Calendar.DateUtcOfCivil | src/services/goalsService.js:16 | `Date.UTC` of an in-range calendar date with a year outside 0..99 is that date's day |
| Calendar.CivilRoundTrip | src/services/goalsService.js:29 | every calendar date is recovered from its day number |
| Calendar.IsoDateOfCivil | src/services/goalsService.js:29 | `toISOString().split('T')[0]` of a four-digit-year date is its zero-padded `YYYY-MM-DD` |
| Calendar.YearFromDay | src/services/goalsService.js:29 | the year of a day number is the one whose days include it |
| JsValues.ExactDigitRun | src/services/goalsService.js:10 | `Number()` of a run of at most 15 digits is its decimal value, which is below 2^53 and so exact |
| JsValues.DigitsValueBound | src/services/goalsService.js:10 | a run of n digits spells a value below 10^n |
| JsValues.PositiveId | src/services/transactionsService.js:60-61 | a value gives an id exactly when `Number()` makes it a positive integer, and the id is that number |
| JsValues.TrimSpec | src/controllers/goalsController.js:15 | `trim()` keeps a contiguous slice with no white space at either end, and is empty exactly for all-white-space text |
| JsValues.TrimIdempotent | src/controllers/goalsController.js:15 | trimming twice is trimming once |
| JsValues.TrimmedHexColor | src/controllers/categoriesController.js:8-23 | a field's trimmed text matches the colour pattern exactly when the field is a string that matches once trimmed |
| JsValues.Dedup | src/services/transactionsService.js:58-66 | `Array.from(new Set(xs))` holds exactly the elements of `xs`, without repetition |
| JsValues.DedupIdempotent | src/services/transactionsService.js:58-66 | deduplicating twice is deduplicating once |
| JsValues.DedupOrder | src/services/transactionsService.js:58-66 | the elements come in the order of their first occurrence |
| JsValues.SplitThree | src/services/goalsService.js:10 | three parts without the separator, joined by it, split back into those parts |
| Http.ParsePositiveId | src/controllers/transactionsController.js:113-117 | an id exactly for a positive integer, which it returns; otherwise the given message |
| Http.ParseIdOfDigits | src/controllers/goalsController.js:101-107 | a parameter of at most 15 digits is accepted exactly when the value it spells is positive, and is that id |
| Http.ParseWalletId | src/controllers/goalsController.js:3-11 | a wallet id exactly for a positive integer; otherwise `Carteira inválida.` |
| Http.ParseId | src/controllers/goalsController.js:101-107 | an id exactly for a positive integer; otherwise `ID inválido.` |
| Http.ParseIdOfNumber | src/controllers/categoriesController.js:69-75 | a number is accepted exactly when it is a positive integer, and is the id |
| Http.CollectSpec | src/controllers/goalsController.js:27-45 | with distinct messages, each is pushed exactly when its check fails, in check order, and none exactly when all pass |
| GoalsController.ParsedGoalTrimmed | src/controllers/goalsController.js:15-22 | the parsed name, type and start date carry no surrounding white space |
| GoalsController.CheckGoal | src/controllers/goalsController.js:27-45 | the pushes compute the messages of the failing checks in check order |
| GoalsController.ValidateGoalPayload | src/controllers/goalsController.js:13-57 | `parsed` is returned whether or not there are errors, alongside the error list |
| GoalsController.GoalPayloadErrorsSpec | src/controllers/goalsController.js:27-45 | each message exactly when its check fails, in the order name, type, target, start date, interval; none exactly when the name is non-empty, the type is income or expense, the target is positive, the start date parses and the interval is a positive integer |
| GoalsController.CamelCaseFirst | src/controllers/goalsController.js:18-24 | a camelCase key that is neither null nor undefined hides its snake_case fallback |
| GoalsController.CreateGoal | src/controllers/goalsController.js:75-92 | a bad wallet id is answered before the payload is looked at; then a 400 with the joined messages, or the service call with the parsed fields and the wallet id |
| GoalsController.CreateGoalReply | src/controllers/goalsController.js:94-98 | whatever the service resolves to, a `null` included, is sent with 201; any error gives 500 |
| GoalsController.UpdateGoal | src/controllers/goalsController.js:109-126 | the id, then the wallet id, then the payload, each answered with its 400 |
| GoalsController.UpdateGoalReply | src/controllers/goalsController.js:127-135 | 404 when the service finds no goal, 500 on an error |
| GoalsController.ListGoals | src/controllers/goalsController.js:59-68 | 400 exactly when the query's wallet id is not a positive integer |
| GoalsController.DeleteGoal | src/controllers/goalsController.js:138-150 | the id, then the query's wallet id; the service is called exactly when both are positive integers |
| GoalsController.DeleteGoalReply | src/controllers/goalsController.js:151-159 | 204 on success, 404 when nothing was deleted, 500 on an error |
| TransactionsController.CategoryIdsOf | src/controllers/transactionsController.js:12-20 | the ids exactly when every entry is a positive integer, one per entry, in order and with repetitions |
| TransactionsController.CategoryOutcome | src/controllers/transactionsController.js:7-26 | an absent list adds nothing and keeps `[]`; a non-array adds one error; a bad entry adds one error and keeps `[]`; otherwise the ids in input order |
| TransactionsController.CheckCategories | src/controllers/transactionsController.js:7-26 | the loop with its early `break` computes `CategoryOutcome` |
| TransactionsController.CategoryIdsNoneExtends | src/controllers/transactionsController.js:13-18 | one bad entry in a prefix makes the whole list bad, so breaking early loses nothing |
| TransactionsController.CheckFields | src/controllers/transactionsController.js:28-43 | the pushes compute the messages of the failing field checks in order |
| TransactionsController.ParsedDescription | src/controllers/transactionsController.js:48 | throws exactly on a truthy non-string; otherwise a string comes back trimmed and a falsy value unchanged |
| TransactionsController.ValidateTransactionPayload | src/controllers/transactionsController.js:3-55 | the errors and the parsed payload, or the throw of the description trim |
| TransactionsController.TransactionPayloadErrorsSpec | src/controllers/transactionsController.js:7-43 | each message exactly when its check fails, the category message first, then description, amount, type, date; none exactly when every check passes |
| TransactionsController.CreateTransaction | src/controllers/transactionsController.js:82-98 | a wallet error is appended after the payload errors, and any error gives one 400 with no service call; a throwing validator gives 500 |
| TransactionsController.CreateTransactionReply | src/controllers/transactionsController.js:99-108 | whatever the service resolves to, a `null` included, is sent with 201; an error with a truthy status code answers with it and its message; any other error 500 |
| TransactionsController.UpdateTransaction | src/controllers/transactionsController.js:138-155 | the id, then the wallet id (body first, then query), then the payload |
| TransactionsController.UpdateTransactionReply | src/controllers/transactionsController.js:156-167 | 200 on success, 404 when the service returns null; an error with a truthy status code answers with it and its message; otherwise 500 |
| TransactionsController.ListTransactions | src/controllers/transactionsController.js:66-75 | 400 exactly when the query's wallet id is not a positive integer |
| TransactionsController.DeleteTransaction | src/controllers/transactionsController.js:111-125 | the id, then the query's wallet id; the service is called exactly when both are positive integers |
| TransactionsController.DeleteTransactionReply | src/controllers/transactionsController.js:126-135 | 204 on success, 404 when nothing was deleted, 500 on an error |
| CategoriesController.CheckCategory | src/controllers/categoriesController.js:10-25 | the pushes compute the messages of the failing checks in order |
| CategoriesController.ParsedCategory | src/controllers/categoriesController.js:27-35 | the icon defaults to `fa-solid fa-tag` when empty and the colour to `#6366f1` when invalid, so the parsed icon is never empty and the colour always valid |
| CategoriesController.ValidateCategoryPayload | src/controllers/categoriesController.js:3-36 | `parsed` is returned whether or not there are errors, alongside the error list |
| CategoriesController.CategoryFieldErrors | src/controllers/categoriesController.js:10-25 | each message exactly when its check fails, in the order name, type, icon, colour; none exactly when all hold |
| CategoriesController.CategoryPayloadErrorsSpec | src/controllers/categoriesController.js:5-25 | the same for a payload; the colour is accepted exactly when, after trim, it is `#` and 6 or 8 hex digits |
| CategoriesController.CreateCategory | src/controllers/categoriesController.js:48-57 | a 400 with the joined messages, or the service call with the parsed fields |
| CategoriesController.UpdateCategory | src/controllers/categoriesController.js:77-89 | the id, then the payload, then the service |
| CategoriesController.DeleteCategory | src/controllers/categoriesController.js:104-111 | 400 exactly when the id is not a positive integer |
| CategoriesController.CreateCategoryReply | src/controllers/categoriesController.js:56-66 | whatever the service resolves to, a `null` included, is sent with 201; 409 for `23505`, 500 for any other error |
| CategoriesController.UpdateCategoryReply | src/controllers/categoriesController.js:89-101 | 404 when nothing matched, 409 for `23505`, 500 for any other error |
| CategoriesController.DeleteCategoryReply | src/controllers/categoriesController.js:110-120 | 204 on success, 404 when nothing was deleted, 500 on an error |
| WalletsController.CheckWallet | src/controllers/walletsController.js:10-23 | the pushes compute the messages of the failing checks in order |
| WalletsController.ParsedWallet | src/controllers/walletsController.js:25-33 | an empty description becomes null; the icon defaults to `fa-solid fa-wallet` and the colour to `#22c55e` |
| WalletsController.ValidateWalletPayload | src/controllers/walletsController.js:3-34 | `parsed` is returned whether or not there are errors, alongside the error list |
| WalletsController.WalletFieldErrors | src/controllers/walletsController.js:10-23 | each message exactly when its check fails, in the order name, icon, colour; none exactly when all hold |
| WalletsController.WalletPayloadErrorsSpec | src/controllers/walletsController.js:5-23 | the same for a payload; the colour is accepted exactly when, after trim, it is `#` and 6 or 8 hex digits |
| WalletsController.ParsedDescription | src/controllers/walletsController.js:6-29 | the description is never checked; a non-string or blank one is parsed as null, any other is trimmed |
| WalletsController.CreateWallet | src/controllers/walletsController.js:46-55 | a 400 with the joined messages, or the service call with the parsed fields |
| WalletsController.UpdateWallet | src/controllers/walletsController.js:75-87 | the id, then the payload, then the service |
| WalletsController.DeleteWallet | src/controllers/walletsController.js:102-109 | 400 exactly when the id is not a positive integer |
| WalletsController.CreateWalletReply | src/controllers/walletsController.js:54-64 | whatever the service resolves to, a `null` included, is sent with 201; 409 for `23505`, 500 for any other error |
| WalletsController.UpdateWalletReply | src/controllers/walletsController.js:87-99 | 404 when nothing matched, 409 for `23505`, 500 for any other error |
| WalletsController.DeleteWalletReply | src/controllers/walletsController.js:109-118 | 204 on success, 404 when nothing was deleted, 500 on an error |
| TransactionsService.PositiveIdsOfMembers | src/services/transactionsService.js:59-63 | an id is collected exactly when some entry reads as that positive integer |
| TransactionsService.SanitizeCategoryIds | src/services/transactionsService.js:53-67 | the loop over the Set computes the sanitised ids: `[]` for a non-array |
| TransactionsService.SanitizedFromInput | src/services/transactionsService.js:58-66 | every sanitised id is a positive integer read from some entry of the input |
| TransactionsService.SanitizedComplete | src/services/transactionsService.js:58-66 | every positive integer of the input is among the sanitised ids |
| TransactionsService.SanitizedOrder | src/services/transactionsService.js:58-66 | no id repeats, and the ids keep the order of their first occurrence |
| TransactionsService.PositiveIdsOfIdArray | src/services/transactionsService.js:66 | an array of positive integers reads back as the same ids |
| TransactionsService.SanitizeIdempotent | src/services/transactionsService.js:53-66 | sanitising the sanitised ids again changes nothing |
| TransactionsService.FoundAtMost | src/services/transactionsService.js:100-102 | at most one category is found per requested id, and fewer when one is missing |
| TransactionsService.CategoryCheckSpec | src/services/transactionsService.js:99-116 | for distinct ids: not found exactly when some id is missing, checked before any type; type mismatch exactly when all exist and one has another type; an empty list passes |
| TransactionsService.TransactionStore.CreateTransaction | src/services/transactionsService.js:96-150 | a failed check changes nothing; otherwise a row under a fresh id, linked to exactly the sanitised ids |
| TransactionsService.TransactionStore.UpdateTransaction | src/services/transactionsService.js:157-213 | a failed check or no matching row changes nothing (the latter returns null); otherwise the row is overwritten, its links become exactly the sanitised ids, and the other transactions' links are untouched |
| WalletsService.OrDefault | src/services/walletsService.js:13-14 | a null or empty text gets the fallback, any other is kept |
| WalletsService.MapWallet | src/services/walletsService.js:3-19 | missing totals read as 0, the balance is income minus expense, and icon and colour are never empty and default when falsy |
| WalletsService.TotalOfOtherWallet | src/services/walletsService.js:24-27 | transactions of other wallets do not change a wallet's totals |
| WalletsService.TotalOfAppend | src/services/walletsService.js:24-27 | a new transaction adds its amount to one total of its wallet and leaves the other |
| WalletsService.CreateWallet | src/services/walletsService.js:35-46 | the new wallet is reported with its fields, zero totals and balance, and the given icon and colour or their defaults when empty |
| WalletsService.UpdateWallet | src/services/walletsService.js:48-70 | null exactly when no wallet has the id, nothing changed then; otherwise the row is overwritten and reported with its fields, the given icon and colour or their defaults when empty, and totals 0 and balance 0 |
| WalletsService.UpdateReportsZeroTotals | src/services/walletsService.js:64-69 | a wallet with income is listed with that income but reported with 0 after an update |
| WalletSelector.NormalizeHexColor | public/js/wallet-selector.js:7-13 | the trimmed text when it matches the pattern, the fallback otherwise and for non-strings |
| WalletSelector.NormalizeHexColorIdempotent | public/js/wallet-selector.js:7-13 | with a valid fallback, normalising twice is normalising once |
| WalletSelector.FirstId | public/js/wallet-selector.js:174 | `wallets[0]?.id ?? null` is null exactly for no wallets, and otherwise a listed id |
| WalletSelector.WalletSelectorManager.constructor | public/js/wallet-selector.js:34-36 | no wallets and no active id |
| WalletSelector.WalletSelectorManager.UpdateTriggerDisplay | public/js/wallet-selector.js:288-296 | with a trigger and wallets, an active id that is null or unlisted becomes the first wallet's |
| WalletSelector.WalletSelectorManager.UpdateWallets | public/js/wallet-selector.js:164-178 | a listed explicit id is selected; with none, a listed truthy id is kept, else the first wallet is taken; with wallets the active id is listed except for an explicit 0 without a trigger |
| WalletSelector.WalletSelectorManager.ForceSelectWallet | public/js/wallet-selector.js:401-413 | an unlisted non-null id is ignored; otherwise it is taken, with no notification |
| WalletSelector.WalletSelectorManager.SelectWallet | public/js/wallet-selector.js:355-386 | null falls back to the listed previous id or the first wallet, or null with no wallets; a non-integer or unlisted id changes nothing; the callback fires exactly when a listed id differs from the previous one, with both ids |
| App.OfKind | public/js/app.js:559-569 | the filter keeps only transactions of the type, and every one of them |
| App.OfKindCount | public/js/app.js:559-569 | each transaction of the type is kept as many times as it occurs, and no other |
| App.SumAmountsAppend | public/js/app.js:559-569 | the sum of a concatenation is the sum of the sums |
| App.BalanceSplit | public/js/app.js:553-569 | the balance is income minus expense minus the amounts of any other type |
| App.BalanceOfTypedTransactions | public/js/app.js:553-569 | when every transaction is income or expense, the balance is income minus expense |
| App.NormalizeTransaction | public/js/app.js:458-472 | the wallet falls back to the active wallet, then 0; no categories array reads as none |
| App.NormalizeGoal | public/js/app.js:491-506 | missing progress, percentage and remaining read as 0 and a missing status as `in_progress`; everything else is carried over |
| App.RemoveId | public/js/app.js:1016 | the filter keeps only entries with another id, and every one of them |
| App.RemoveIdCount | public/js/app.js:1016 | each entry with another id is kept as many times as it occurs, and none with the id |
| App.RemoveIdOrder | public/js/app.js:1016 | the kept entries stay in their order |
| App.RemoveAbsentId | public/js/app.js:1016 | removing an id no entry has changes nothing |
| App.RemoveIdPrepend | public/js/app.js:982 | deleting the id of an entry put at the front leaves what deleting it from the rest leaves |
| App.ReplaceId | public/js/app.js:976 | the map replaces exactly the entries with the id and keeps the length |
| App.ReplaceThenRemove | public/js/app.js:976 | after an edit that keeps the id, deleting that id leaves the same list as before the edit |
| App.FinancialControl.constructor | public/js/app.js:402-407 | empty lists and no active wallet |
| App.FinancialControl.LoadWallets | public/js/app.js:508-519 | the active id is kept only when preserving and it is truthy and still listed, else the first wallet's or null; the selector gets the list and the same listed id; with no wallets the selector's id becomes null, unless it held 0 |
| App.KeptActive | public/js/app.js:515-517 | a kept id is a listed one when there are wallets and null when there are none; a truthy listed id stays |
| App.NormalizeGoals | public/js/app.js:545 | one normalised goal per fetched goal, in order |
| App.FinancialControl.LoadGoals | public/js/app.js:537-547 | without a truthy active wallet the goals are emptied; otherwise they are the fetched goals, normalised; nothing else changes |
| App.FinancialControl.RefreshAfterTransactionChange | public/js/app.js:985-994 | a fetched wallet list replaces the wallets, keeps a truthy listed active id or takes the first, and goes to the selector; the goals are then emptied when that active id is not truthy, and otherwise reload for it; a failed fetch changes nothing; the transactions stay |
| App.FinancialControl.HandleWalletSelection | public/js/app.js:1335-1345 | a non-integer, non-positive or unchanged id is ignored; any other becomes active and is forced on the selector, which takes it when listed and otherwise keeps its id; the wallet's data is to be reloaded |
| App.FinancialControl.HandleDeleteTransaction | public/js/app.js:1003-1016 | with an active wallet, a positive integer id and an accepted delete, exactly the transactions with that id are removed; otherwise nothing changes |
| App.FinancialControl.ApplyTransactionEdit | public/js/app.js:975-976 | only the entries with the edited id are replaced by the normalised transaction |
| App.FinancialControl.ApplyTransactionCreate | public/js/app.js:982 | the normalised new transaction goes to the front |
| App.FinancialControl.HandleDeleteGoal | public/js/app.js:1197-1206 | with a positive integer id, an active wallet, a confirmation and an accepted delete, exactly the goals with that id are removed |
| App.FinancialControl.ApplyGoalEdit | public/js/app.js:1172-1173 | only the goals with the edited id are replaced by the normalised goal |
| App.FinancialControl.ApplyGoalCreate | public/js/app.js:1186-1187 | the normalised new goal goes to the front |

## Left out

- SQL and connections: `pool.query`, `pool.connect`, `BEGIN`/`COMMIT`/`ROLLBACK` and row ordering are not modelled. Writes are modelled by the state they leave; atomicity is the database's guarantee.
- `mapGoalRow`, `mapTransaction`, `getTransactionById`, `listTransactions`, `listWallets`, `listGoals` and `getGoalById`: no logic beyond column renaming and database reads; only `listWallets`' two sums are modelled (`WalletsService.ListedRow`).
- The `findByIds` call is the catalogue lookup `FoundIds` over ids that fit PostgreSQL's `int`; `categoriesService.js` is not part of this model.
- TransactionsService.CategoryCheck: the `$1::int[]` cast of `findByIds` is not modelled. A category id of 2147483648 or more passes the validator and the sanitiser, and PostgreSQL then fails with "integer out of range". That error carries no `statusCode`, so the handler answers 500 `Erro ao criar transação` (or `Erro ao atualizar transação`). The model instead reports such an id as `CATEGORY_NOT_FOUND`, a 400, because no catalogue row has it.
- Floating point: amounts are integer cents, so `toFixed(2)` and `Number(row.progress)` are the identity and fractional amounts are not represented.
- `getContrastColor` and `formatCurrency`: floating-point luminance and locale formatting.
- `Number()` on strings other than digit runs, `Date.parse` and ToPrimitive: parameters of the `Engine` record, so no property depends on them.
- JsValues.StringToNumber: a run of more than 15 digits is not read as its value. `Number()` rounds it to the nearest double, or gives `Infinity` from 309 digits on, and the model leaves this to the engine. So no id or interval above 10^15 - 1 that is written as a longer digit string is proved to be accepted or refused.
- GoalsService.PgDate: the range of PostgreSQL's `::date` input is an assumption of the model, years 1 to 9999 in the `YYYY-MM-DD` form. PostgreSQL's own range and its handling of `toISOString`'s `+YYYYYY` form are not modelled.
- `Date.UTC` with an out-of-range month or day: the parse is modelled through MakeDay only for the parts that occur, and the proved properties assume in-range calendar dates.
- Fractional `intervalDays`: the interval is an integer (`Option<int>`, `None` for NaN), as the integer column stores it.
- The clock (`todayUTC`): the reference day is a parameter.
- DOM, rendering, modals, alerts and the form parsing of `app.js` and `wallet-selector.js`: only the fields `wallets`, `activeWalletId`, `transactions` and `goals` are modelled. In `updateTriggerDisplay`, only the step that moves the selection is kept.
- The network calls of `app.js` (`fetchWallets`, `deleteTransaction`, `loadTransactions`, `loadGoals`, ...): their result is a parameter (`fetched`, `deleted`, the server's record). The reloads after a switch are reported by `switched`, not performed.
- The earlier `handleWalletSelection` definition of `app.js`: it is overridden by the later one, which is modelled.
- `onWalletChange`: the callback is represented by the `Notification` it would receive; whether one is registered is not modelled.
- Response bodies beyond the status code and the error message: the JSON of a success is not modelled.
- `listCategories`: only reads the service.
- Async interleaving: every handler is one sequential step.
- App.FinancialControl.HandleDeleteTransaction, App.FinancialControl.ApplyTransactionEdit and App.FinancialControl.ApplyTransactionCreate: each models the list update alone. Their frames (wallets, active id and goals unchanged) hold of that update, not of the whole handler. The wallet and goal reloads that follow it in the handler are `App.FinancialControl.RefreshAfterTransactionChange`, a separate call.
- App.NormalizeTransaction: the `Number()` coercions of the amount, the ids and the category ids are left out; the raw record already holds integers.
- App.NormalizeGoal: the `Number()` coercions of `id`, `walletId`, `targetAmount` and `intervalDays` are left out for the same reason.
- App.FinancialControl.LoadWallets: `normalizeWallet` (the `Number()` coercions of `id`, `totalIncome`, `totalExpense` and `balance`) is not modelled. The fetched list is taken as `Wallet` values that already hold integers.

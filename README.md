# AccounFix error tracker: store and AI-classification model

This project models the core of a single-page accounting-error tracker. Staff report an
accounting discrepancy, an AI service classifies it and suggests a fix, and accountants
change its status, chat with the AI about it and push it to an ERP (simulated). All
state lives in memory.

The model has two parts.

- **The error store** (`App.tsx`). `App.ErrorStore` is a class. Its fields are
  `errors: seq<Record>` (most recent first) and `selected: Option<Record>`. It has one
  method per handler: create, update status, send a chat message and sync to Dynamics,
  plus selecting and deselecting a card. Every `map` the handlers perform goes through
  the loop `App.MapWhere`. That loop is proved equal to the specification `App.UpdateWhere`
  (`rs.map(r => r.id === id ? edit(r) : r)`). The lemmas about `UpdateWhere` state that
  every handler keeps the length, the order, every record without the id and every id.
  The status and sync edits also keep every other field of the matching records. The
  chat reply does not: it writes back the selected snapshot, whatever the list entry
  held (see below).
  The class invariant `Valid()` says that the ids are exactly "1" to "n" with no
  repetition, and that the selected record's id is one of them. Every method preserves
  it. The derived views `App.ComputeStats` (dashboard counters) and `App.FilterErrors`
  (search) are pure functions, with lemmas for the partition of statuses, subsequence,
  membership, the empty query and case-insensitivity.
- **The classification gateway** (`services/geminiService.ts`). `GeminiService.Analyze`
  is a pure function. The network call is a parameter `generate: Request -> GenerateOutcome`.
  `JSON.parse` is a parameter `parse: string -> ParseResult`. Whatever those two do, the
  category and priority returned are members of their enumerations. Exact enumeration
  strings pass through unchanged, anything else falls back to OTHER / MEDIUM, suggestion
  and impact are copied verbatim, and every failure gives the fixed fallback. The
  request parts are `[prompt]` or `[prompt, image/jpeg]`.

The enumerations and the record shape (`types.ts`) are the datatypes of module `Types`.
Each category and priority has its run-time string (`CategoryValue`, for example `"Thuế"`).
`Decimal.NatToString` models `Number.prototype.toString` (and `${n}`) for the numbers the
application renders: list lengths plus one, and random draws below 10000. Larger numbers,
which JavaScript prints in exponent form or inexactly, are not covered.
`Text.Contains` and `Text.Trim` model `includes` and `trim`.

Parameters stand for the nondeterministic or foreign inputs:
- `now` and `loadTime` stand for `Date.now()`.
- `n` with `0 <= n < 10000` stands for `Math.floor(Math.random() * 10000)`.
- `lower: string -> string` stands for `toLowerCase`.
- `parsedAmount` stands for `parseFloat(formData.amount)`.
- `ChatOutcome` stands for the result of `chatWithErrorContext`.

Four behaviours of the code that are easy to misread; the model keeps them as written:
- A failed chat call keeps nothing. The user's turn exists only in a local list, so
  neither `errors` nor `selected` changes.
- The counters have no rejected field. `pending + processing + fixed == total` holds
  exactly when no record is REJECTED (`App.StatsAccountForEveryRecord`).
- The sync field is `msDynamicsId`, and its value is `MS-DYN-<n>`.
- The fallback texts are the Vietnamese strings of the code.

One behaviour of the code is worth knowing. `handleSyncDynamics` updates the list but not
the selected record. `handleSendMessage` then writes the selected snapshot back over the
list entry. So an ERP id attached after the record was selected is lost on the next
successful chat reply. `App.ReplyDropsLaterSyncId` states this. The model keeps the code's
behaviour.

## Model

| member | source | states |
|---|---|---|
| `Types.PriorityFromValue` | types.ts:9-14 | a string names a priority exactly when it is one of `Object.values(ErrorPriority)`, and that priority's value is the string |
| `Types.CategoryFromValue` | types.ts:16-23 | a string names a category exactly when it is one of `Object.values(ErrorCategory)`, and that category's value is the string |
| `Types.PriorityRoundTrip` | types.ts:9-14 | every priority's value is in the value list and reads back as the same priority |
| `Types.CategoryRoundTrip` | types.ts:16-23 | every category's value is in the value list and reads back as the same category |
| `Types.HistoryOf` | App.tsx:127 | an absent chat history reads as the empty list, a present one as itself |
| `Wrappers.Option.GetOr` | App.tsx:127 | the held value when present, the default otherwise |
| `Decimal.DigitChar` | App.tsx:103 | a digit below ten renders as a decimal digit character |
| `Decimal.DigitValue` | App.tsx:103 | a digit character reads as a value below ten |
| `Decimal.NatToString` | App.tsx:103 | `toString` of a natural is a non-empty string of digits with no leading zero |
| `Decimal.DecimalValueOfNatToString` | App.tsx:103 | reading a rendered number back gives the number |
| `Decimal.NatToStringInjective` | App.tsx:103 | two naturals render alike exactly when they are equal |
| `Text.ContainsIffOccurs` | App.tsx:72-73 | `includes` holds exactly when the needle occurs at some position of the string |
| `Text.ContainsEmpty` | App.tsx:72-73 | every string includes the empty string |
| `Text.TrimStart` | App.tsx:125 | the result is a suffix of the input that does not start with a trimmable character |
| `Text.TrimEnd` | App.tsx:125 | the result is a prefix of the input that does not end with a trimmable character |
| `Text.TrimStartEmptyIffBlank` | App.tsx:125 | removing leading whitespace leaves nothing exactly when every character is whitespace |
| `Text.TrimEndEmptyIffBlank` | App.tsx:125 | removing trailing whitespace leaves nothing exactly when every character is whitespace |
| `Text.TrimEmptyIffBlank` | App.tsx:125 | `trim()` is empty (the guard fires) exactly when the input is all whitespace or line terminators |
| `GeminiService.Prompt` | services/geminiService.ts:11-19 | the prompt is the fixed head, the description verbatim, then the fixed tail |
| `GeminiService.RequestParts` | services/geminiService.ts:21-29 | the parts are the prompt, then an `image/jpeg` part carrying the image exactly when the image is present and non-empty |
| `GeminiService.BuildRequest` | services/geminiService.ts:32-48 | the request names the model, carries those parts, asks for JSON and requires the four fields |
| `GeminiService.ParserInput` | services/geminiService.ts:50 | the parser gets the response text, or `{}` when the text is empty or undefined |
| `GeminiService.CoerceCategory` | services/geminiService.ts:52 | an exact category string is kept; a missing or unknown one becomes OTHER |
| `GeminiService.CoercePriority` | services/geminiService.ts:53 | an exact priority string is kept; a missing or unknown one becomes MEDIUM |
| `GeminiService.Coerce` | services/geminiService.ts:51-56 | category and priority are coerced; suggestion and impact are copied verbatim |
| `GeminiService.Analyze` | services/geminiService.ts:7-66 | a failed call or a failed parse gives the fallback; otherwise the coerced fields of the parsed text |
| `GeminiService.AnalyzeYieldsEnumMembers` | services/geminiService.ts:50-65 | for any service and parser behaviour, the category string is the parsed one when it is an enumeration value and `Khác` otherwise (failures included), the priority string the parsed one or `MEDIUM`; both are members of their enumerations |
| `GeminiService.AnalyzePassesThroughKnownValues` | services/geminiService.ts:50-55 | a parsed answer with exact enumeration strings comes back with those strings, its suggestion and its impact |
| `GeminiService.AnalyzeEmptyTextHasNoFields` | services/geminiService.ts:50-55 | an empty or undefined response text gives OTHER, MEDIUM, no suggestion, no impact |
| `GeminiService.AnalyzeFallbackIff` | services/geminiService.ts:57-65 | every failure gives exactly the fallback; a parsed answer gives it only if it spells out the fallback texts |
| `App.CountStatus` | App.tsx:65-67 | a status count never exceeds the number of records |
| `App.CountPartition` | App.tsx:63-68 | the four status counts add up to the number of records |
| `App.CountZeroIff` | App.tsx:65-67 | a status is counted zero times exactly when no record has it |
| `App.StatsAccountForEveryRecord` | App.tsx:63-68 | total is the length; pending + processing + fixed + rejected == total; the three counters sum to at most total, with equality exactly when nothing is REJECTED |
| `App.CountAfterOneChange` | App.tsx:65-67 | changing one record's status moves each count by that record's contribution before and after |
| `App.CountsAgree` | App.tsx:65-67 | lists with the same statuses position by position have the same counts |
| `App.FilterErrors` | App.tsx:70-75 | the search result is no longer than the list |
| `App.FilterIsSubsequence` | App.tsx:70-75 | the search result is an order-preserving subsequence of the list |
| `App.FilterMembership` | App.tsx:70-75 | a record is in the result exactly when it is in the list and its lower-cased title or description includes the lower-cased query |
| `App.MatchesIffOccurs` | App.tsx:71-74 | the search predicate holds exactly when the lower-cased query occurs in the lower-cased title or description |
| `App.FilterEmptyQueryKeepsAll` | App.tsx:70-75 | the empty query returns the whole list in order |
| `App.FilterIgnoresQueryCase` | App.tsx:72-73 | queries that lower-case alike give the same result |
| `App.FilterIdempotent` | App.tsx:70-75 | searching the result again with the same query changes nothing |
| `App.PrependNextIdKeepsIds` | App.tsx:103-117 | prepending a record with id `length + 1` keeps the ids distinct and exactly "1".."n+1" |
| `App.SameIdsKeepIds` | App.tsx:149 | lists with the same ids position by position have the same id set and share the identifier invariant |
| `App.MapWhere` | App.tsx:149 | the map loop returns exactly the id-matched edit of the list |
| `App.UpdateWhereFrame` | App.tsx:149 | length, order, every non-matching record and every id are kept, and so is the identifier invariant |
| `App.UpdateWhereNoMatch` | App.tsx:149 | when no record has the id, the list is unchanged |
| `App.SetStatusChangesOnlyStatus` | App.tsx:149 | only the status of the matching records changes; every other field and record is kept |
| `App.PendingToFixedStats` | App.tsx:63-68 | with distinct ids, moving the matching record from PENDING to FIXED raises fixed by one, lowers pending by one and keeps total and processing |
| `App.CategoryOr` | App.tsx:106 | the `or` fallback to the form category never applies: the result is always the analysis category |
| `App.PriorityOr` | App.tsx:107 | the `or` fallback to the form priority never applies: the result is always the analysis priority |
| `App.SyncIdFor` | App.tsx:93 | the sync id is `MS-DYN-` followed by the decimal digits of the draw |
| `App.SyncIdInjective` | App.tsx:93 | distinct draws give distinct sync ids |
| `App.ReplyText` | App.tsx:136 | the model's turn is the reply, or the fixed busy text when the reply is empty or undefined; never empty |
| `App.WithTurns` | App.tsx:126-138 | the written-back record is the selected one with exactly the user turn and the model turn appended to its history |
| `App.ReplyExtendsOneHistory` | App.tsx:136-139 | with distinct ids and a fresh selection, a reply extends exactly that record's history by the two turns and leaves every other record alone |
| `App.ReplyDropsLaterSyncId` | App.tsx:90-146 | a sync id attached after selection is overwritten by the next reply, which writes back the selected snapshot |
| `App.InitialErrorsWellFormed` | App.tsx:15-40 | the initial list has ids "1" and "2" and counts two records, one pending and one processing |
| `Types.CategoryValue` | types.ts:16-23 | reference definition: the run-time string of each category |
| `Types.PriorityValue` | types.ts:9-14 | reference definition: the run-time string of each priority |
| `Text.Contains` | App.tsx:72-73 | reference definition of `includes`: the needle is a prefix of some suffix; characterised by `Text.ContainsIffOccurs` |
| `Text.Trim` | App.tsx:125 | reference definition of `trim()`: leading, then trailing trimmable characters removed; characterised by `Text.TrimEmptyIffBlank` |
| `App.ComputeStats` | App.tsx:63-68 | reference definition of the `stats` memo: the length and the three status counts; characterised by `App.StatsAccountForEveryRecord` |
| `App.Matches` | App.tsx:71-74 | reference definition of the search predicate; characterised by `App.MatchesIffOccurs` |
| `App.UpdateWhere` | App.tsx:149 | reference definition of `map(r => r.id === id ? edit(r) : r)`; characterised by `App.UpdateWhereFrame` |
| `App.Apply` | App.tsx:93-149 | reference definition of the three record edits: set the status, set the ERP id, replace by the written-back record |
| `App.SetSyncIdChangesOnlySyncId` | App.tsx:93 | only the ERP id of the matching records changes; every other field and record is kept |
| `App.InitialErrors` | App.tsx:15-40 | reference definition of `INITIAL_ERRORS`; characterised by `App.InitialErrorsWellFormed` |
| `App.NextId` | App.tsx:103 | reference definition of `(errors.length + 1).toString()`; characterised by `App.PrependNextIdKeepsIds` |
| `GeminiService.Truthy` | services/geminiService.ts:22 | reference definition of JavaScript truthiness of an optional string (present and non-empty), also used for `response.text` at line 50 and the reply at App.tsx:136 |
| `Text.IsTrimmable` | App.tsx:125 | reference definition of the characters `trim()` removes: ECMAScript WhiteSpace and LineTerminator |
| `Types.PriorityValues` | services/geminiService.ts:53 | reference definition of `Object.values(ErrorPriority)`; characterised by `Types.PriorityFromValue` |
| `Types.CategoryValues` | services/geminiService.ts:52 | reference definition of `Object.values(ErrorCategory)`; characterised by `Types.CategoryFromValue` |
| `App.ErrorStore.constructor` | App.tsx:43-45 | the store starts with the initial records, no selection and its invariant |
| `App.ErrorStore.Select` | App.tsx:292 | a record of the list becomes the selection; the list is unchanged |
| `App.ErrorStore.Deselect` | App.tsx:301 | the selection is cleared; the list is unchanged |
| `App.ErrorStore.CreateError` | App.tsx:98-122 | the list becomes the new record followed by the old list; the record has id `length + 1`, the analysis category, priority and suggestion, PENDING, the clock, reporter `Admin Web`, an empty history and no sync id; the selection is unchanged; the id invariant is kept |
| `App.ErrorStore.UpdateStatus` | App.tsx:148-153 | the list is the id-matched status edit of the old list; the selection changes status only when its id matches; the id invariant is kept |
| `App.ErrorStore.SyncDynamics` | App.tsx:90-96 | the matching records get `MS-DYN-<n>`; the selection is unchanged; the id invariant is kept |
| `App.ErrorStore.SendMessage` | App.tsx:124-146 | blank input, no selection or a failed call changes nothing; a reply writes the selection with the two turns over the records with its id and makes it the selection |

## Left out

- Rendering, styling, tab navigation, help text and the two presentational components (`components/StatusBadge.tsx`, `components/ErrorCard.tsx`): presentation with no logic.
- CSV export (App.tsx:77-88): DOM, Blob and download plumbing with a locale-dependent date format.
- View-local state: loading flags, clearing the chat input, resetting the form and the image, switching to the issues tab. This is transient UI state, not store state.
- `chatWithErrorContext` (services/geminiService.ts:68-84) and the context string built for it (App.tsx:131-135). This is a thin wrapper over the chat SDK; only its outcome (`ChatOutcome`) enters the model.
- The Gemini SDK, the network and `process.env.API_KEY`: the call is the parameter `generate`.
- `JSON.parse`: the parameter `parse`. A parse that throws, or a `null` value whose properties cannot be read, is `ParseFailed`. A parsed value's properties are taken as optional strings. A non-string JSON value in a field is not modelled.
- `alert` and `setTimeout` in `handleSyncDynamics`: the sync is one atomic step taken when the delay ends.
- `Math.random` and `Date.now`: the parameters `n` and `now` / `loadTime`.
- `parseFloat` for the amount (App.tsx:111): floating point, so it is the parameter `parsedAmount` (NaN is not modelled). The amount is stored only when the form text is non-empty, as in the code.
- `toLowerCase`: the uninterpreted parameter `lower`. There is no Unicode case folding.
- Async interleaving, for example the `errors` captured before the `await` in `handleCreateError`. Each handler is one atomic step.
- Decimal.NatToString: renders exact decimal digits for every natural, while JavaScript switches to exponent form from 1e21 and is inexact above 2^53; the application only renders small numbers.
- Strings: a Dafny `string` is a sequence of Unicode scalar values, while JavaScript strings are UTF-16 code units. `includes` and `trim` agree with the model on well-formed strings; strings with lone surrogates cannot be represented.
- The `console.error` logging (services/geminiService.ts:58, App.tsx:142): a side effect with no effect on state.
- App.tsx:93 calls `Math.random` once per matching record, while `SyncDynamics` uses one draw `n` for all of them. The two agree when ids are distinct, which `Valid()` guarantees.
- `INITIAL_ERRORS` reads `Date.now()` twice (App.tsx:23, 35), while `InitialErrors` uses a single `loadTime` for both.
- The `required` attributes of the title and description inputs: the browser enforces them before the handler runs. The handler itself accepts any text, so `CreateError` has no precondition on it.

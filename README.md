# Query client, template export and single-stat options of the InfluxDB UI

This project models three parts of the InfluxDB 2 web UI and proves properties about them:

- **The query client** (`src/shared/apis/simpleQuery.ts`). It builds the `POST api/v2/query` request. It classifies the HTTP response three ways: the rate-limit status, any other non-200 status, and 200. It gives error statuses a message from the body text, then the `x-influxdb-error` header, then `"Unknown Error"`. It drains a streamed body read by read until the first `done` chunk and hands the text to the table parser. An `AbortError` is rewritten into a `CancelError`. The promise is returned with a `cancel` hook that aborts its controller.
  - The drain loop is a `method` over a `StreamReader` object, proved against the function `DrainSpec`.
  - The whole pipeline is a `method` (`Execute`) proved equal to the function `QueryOutcome`. The lemmas about the pipeline are stated on that function.
- **The template export** (`src/shared/utils/resourceToTemplate.ts`). Tasks, dashboards (with their cells, views and variables) and variables become versioned template documents. A stored template becomes an export document, and an organisation id can be attached to it.
- **The options panel of the "single stat plus line" chart** (`SingleStatWithLineOptions.tsx`). It decides which columns may be picked for the X and Y axes and when both dropdowns are disabled. It also builds the patches its handlers pass to `update`: axis overlay, Y domain, digits and decimal-places mode.

Files:
- `common.dfy`: `Option`, `Result` and a JSON value.
- `js_numbers.dfy`: JavaScript's `String(n)` for integers and `parseInt(s, 10)`, with their round trip.
- `simple_query.dfy`, `resource_to_template.dfy`, `single_stat_options.dfy`: one module per source file.

Parts of the system that cannot be seen from these files become parameters:
- the network, as a function from the request to a `Transport`;
- `fromFlux`, as `parse`;
- `RATE_LIMIT_ERROR_STATUS` and `RATE_LIMIT_ERROR_TEXT`, as a `RateLimit` value;
- `API_BASE_PATH`, the `URLSearchParams` encoding, `asAssignment` and `buildVarsOption`, as a `RequestEnv`;
- `viewableLabels`, as a label predicate.

## Model

| member | source | states |
|---|---|---|
| JsNumbers.NatString | src/shared/apis/simpleQuery.ts:22 | the decimal text of a natural is non-empty and all digits, and it starts with `0` only for zero |
| JsNumbers.DecimalString | src/shared/apis/simpleQuery.ts:22 | `String(n)`: non-empty, starting with `-` exactly for negative `n`, all digits otherwise; read back by `ParseIntOfDecimalString` |
| JsNumbers.ParseIntOfDecimalString | src/shared/apis/simpleQuery.ts:93 | `parseInt` of the decimal text of any integer `n`, followed by any text that does not start with a digit, is `n` |
| JsNumbers.DigitsValueOfNatString | src/shared/apis/simpleQuery.ts:93 | the digits written for `n` have the value `n` |
| JsNumbers.DigitPrefixOfDigits | src/shared/apis/simpleQuery.ts:93 | `parseInt` reads exactly the digit run and stops at the first non-digit |
| JsNumbers.TrimStart | src/shared/apis/simpleQuery.ts:93 | the trimmed text is a suffix of the input, every character dropped is JavaScript white space, and the rest does not start with white space |
| JsNumbers.DigitPrefix | src/shared/apis/simpleQuery.ts:93 | the digit run is all digits, is a prefix of the input, and is the longest such prefix |
| JsNumbers.ParseIntNegative | src/shared/apis/simpleQuery.ts:93 | a leading `-` makes `parseInt` negate the digit run that follows |
| JsNumbers.ParseIntUnsigned | src/shared/apis/simpleQuery.ts:93 | text that starts with a digit is read as an unsigned digit run |
| JsNumbers.ParseIntNaN | src/shared/apis/simpleQuery.ts:93 | text that is empty after the leading white space, or whose next character is neither a digit nor a sign, parses to `NaN`, so a non-numeric `Retry-After` such as an HTTP date gives the hint `NaN` |
| JsNumbers.ParseInt | src/shared/apis/simpleQuery.ts:93 | `parseInt(s, 10)`; its meaning is given by `ParseIntNegative`, `ParseIntUnsigned`, `ParseIntNaN` and the round trip `ParseIntOfDecimalString` |
| SimpleQuery.FormatMessage | src/shared/apis/simpleQuery.ts:22 | the error message starts with `[`, ends with the given message and is at least five characters longer than it |
| SimpleQuery.FormatMessageRecoversParts | src/shared/apis/simpleQuery.ts:22 | the status can be parsed back from the message right after `[`, and the original message is its tail |
| SimpleQuery.MakeNetworkError | src/shared/apis/simpleQuery.ts:17-28 | a `NetworkError` or `RateError` keeps the status and retry it was given, formats the message, and is named `"Error"` |
| SimpleQuery.QueryError.Name | src/shared/apis/simpleQuery.ts:144 | `e.name` is `"Error"` for the three error classes of this module and the failure's own name otherwise |
| SimpleQuery.CancelError | src/shared/apis/simpleQuery.ts:30-37 | a `CancelError` has status 499, no retry and the message `[499]: Request canceled by user` |
| SimpleQuery.CancelMessage | src/shared/apis/simpleQuery.ts:33-34 | status 499 with `Request canceled by user` formats to `[499]: Request canceled by user` |
| SimpleQuery.DecimalString499 | src/shared/apis/simpleQuery.ts:33 | the status 499 is written as `499` |
| SimpleQuery.NormalizeAbort | src/shared/apis/simpleQuery.ts:143-147 | an error named `AbortError` becomes the `CancelError`, any other error stays as it is, and the result is never named `AbortError` |
| SimpleQuery.NormalizeAbortIdempotent | src/shared/apis/simpleQuery.ts:143-147 | applying the catch handler twice is the same as applying it once |
| SimpleQuery.Assignments | src/shared/apis/simpleQuery.ts:73 | there is one assignment per variable, in input order |
| SimpleQuery.AssignmentsAppend | src/shared/apis/simpleQuery.ts:72-74 | mapping variables to assignments commutes with concatenation |
| SimpleQuery.BuildRequest | src/shared/apis/simpleQuery.ts:63-85 | the URL is the base path, then `api/v2/query?`, then the encoded org id; the method is POST; the two headers are fixed; the body carries the query, the extern built from the assignments, and the annotations `group`, `datatype`, `default` |
| SimpleQuery.RequestShapeIsFixed | src/shared/apis/simpleQuery.ts:65-81 | the method, headers and dialect do not depend on the org, the query or the variables |
| SimpleQuery.RetryHint | src/shared/apis/simpleQuery.ts:88-93 | a hint is present exactly when `Retry-After` is present and non-empty, and then it is `parseInt` of the header |
| SimpleQuery.RetryHintSeconds | src/shared/apis/simpleQuery.ts:88-93 | a `Retry-After` of `n` seconds gives the hint `n` |
| SimpleQuery.ErrorMessage | src/shared/apis/simpleQuery.ts:100-112 | a non-empty body text wins; otherwise a non-empty `x-influxdb-error` header; otherwise `Unknown Error`; the message is never empty |
| SimpleQuery.Classify | src/shared/apis/simpleQuery.ts:87-97 | rate-limited exactly at the rate-limit status; an error exactly for any other non-200 status; ok exactly for 200 when 200 is not the rate-limit status |
| SimpleQuery.RateError | src/shared/apis/simpleQuery.ts:90-94 | the rate-limit rejection: a `RateError` with the response status, the message formatted from the rate-limit text, and the `Retry-After` hint |
| SimpleQuery.StatusError | src/shared/apis/simpleQuery.ts:113-118 | the error-status rejection: a `NetworkError` with the response status, the formatted fallback message and no retry |
| SimpleQuery.StopIndex | src/shared/apis/simpleQuery.ts:127-132 | the index of the first read that ends the loop (a `done` chunk or a rejection), with no such read before it |
| SimpleQuery.DrainFrom | src/shared/apis/simpleQuery.ts:123-134 | the loop's result from the reads still to come and the text so far; its meaning is given by `DrainFromSkip`, `DrainCompletesAtFirstDone`, `DrainBreaksAtFailure` and `DrainStallsWithoutStop` |
| SimpleQuery.DrainSpec | src/shared/apis/simpleQuery.ts:123-134 | the loop's result from an empty text; the method `Drain` is proved equal to it, and `DrainCompletesAtFirstDone`, `DrainIgnoresRest`, `DrainBreaksAtFailure`, `DrainStallsWithoutStop` and `DrainConcatenatesChunks` state what it is |
| SimpleQuery.ValuesAppend | src/shared/apis/simpleQuery.ts:131 | the accumulated text of two runs of reads is the concatenation of their texts |
| SimpleQuery.DrainFromSkip | src/shared/apis/simpleQuery.ts:127-132 | skipping `k` reads that are not done adds exactly their values to the accumulated text |
| SimpleQuery.DrainCompletesAtFirstDone | src/shared/apis/simpleQuery.ts:127-132 | the drain yields every value up to and including the first `done` chunk |
| SimpleQuery.DrainIgnoresRest | src/shared/apis/simpleQuery.ts:132 | nothing the stream would deliver after the first `done` chunk changes the result |
| SimpleQuery.DrainBreaksAtFailure | src/shared/apis/simpleQuery.ts:128 | a read that rejects before any `done` chunk ends the drain with that failure |
| SimpleQuery.DrainStallsWithoutStop | src/shared/apis/simpleQuery.ts:127-132 | when no read ever ends the loop, the drain never settles |
| SimpleQuery.DrainConcatenatesChunks | src/shared/apis/simpleQuery.ts:123-134 | a body of `n` chunks, the last one marked `done`, drains to the concatenation of the chunks |
| SimpleQuery.ValuesOfChunks | src/shared/apis/simpleQuery.ts:131 | the accumulated text of a run of chunks is the concatenation of their values |
| SimpleQuery.StreamReader.constructor | src/shared/apis/simpleQuery.ts:124 | a new reader starts at the first read |
| SimpleQuery.StreamReader.Read | src/shared/apis/simpleQuery.ts:128 | `read()` hands out the next scripted read and advances by one; once the reads are used up it never settles |
| SimpleQuery.Drain | src/shared/apis/simpleQuery.ts:122-135 | the loop's result equals `DrainSpec` of the reads, and it performs exactly `ReadsSettled` reads |
| SimpleQuery.StopIndexAt | src/shared/apis/simpleQuery.ts:132 | the first stopping read is at `k` when the reads before `k` continue and read `k` stops |
| SimpleQuery.StopIndexNone | src/shared/apis/simpleQuery.ts:132 | with no stopping read, the stop index is the number of reads |
| SimpleQuery.ReadsSettledBounds | src/shared/apis/simpleQuery.ts:127-132 | at least one read settles when any is scripted; never more than are scripted; none before the last one stops the loop |
| SimpleQuery.Parsed | src/shared/apis/simpleQuery.ts:134-139 | the promise resolves exactly when `fromFlux` succeeds, with its value, and otherwise rejects with the parser's exception |
| SimpleQuery.Respond | src/shared/apis/simpleQuery.ts:86-142 | the `.then` callback; its meaning is given by `RateLimitWins`, `ErrorStatusRejects`, `StreamedBodyReachesParser`, `WholeTextReachesParser` and `ResolvesOnlyFromParser` (stated on `QueryOutcome`) |
| SimpleQuery.Catch | src/shared/apis/simpleQuery.ts:143-147 | a rejection stays a rejection with its error normalised; a resolution or a pending promise is unchanged |
| SimpleQuery.QueryOutcome | src/shared/apis/simpleQuery.ts:80-147 | how the returned promise settles; `Execute` and `Query` are proved equal to it, and `RateLimitWins`, `ErrorStatusRejects`, `HeaderMessageExample`, `StreamedBodyReachesParser`, `WholeTextReachesParser`, `AbortedFetchIsCanceled`, `NoAbortEscapes` and `ResolvesOnlyFromParser` state what it is |
| SimpleQuery.Execute | src/shared/apis/simpleQuery.ts:80-147 | the imperative pipeline (classify, then drain through a reader or read the whole text, then catch) settles exactly as `QueryOutcome` says |
| SimpleQuery.AbortController.constructor | src/shared/apis/simpleQuery.ts:78 | a new controller is not aborted |
| SimpleQuery.AbortController.Abort | src/shared/apis/simpleQuery.ts:52 | after `abort()` the controller is aborted |
| SimpleQuery.CancelPromise.constructor | src/shared/apis/simpleQuery.ts:46-55 | `makeCancelable` keeps the promise's settlement and attaches the controller |
| SimpleQuery.CancelPromise.Cancel | src/shared/apis/simpleQuery.ts:52 | `cancel()` aborts the attached controller and changes nothing else |
| SimpleQuery.Query | src/shared/apis/simpleQuery.ts:57-150 | the query function returns a fresh, not yet aborted cancelable promise that settles as `QueryOutcome` of the network's answer to `BuildRequest` |
| SimpleQuery.RateLimitWins | src/shared/apis/simpleQuery.ts:87-95 | the rate-limit status rejects with a `RateError` carrying the rate-limit text and the retry hint, whatever the body and text hold |
| SimpleQuery.ErrorStatusRejects | src/shared/apis/simpleQuery.ts:97-118 | any other non-200 status rejects with a `NetworkError` that keeps the status and carries the fallback message |
| SimpleQuery.HeaderMessageExample | src/shared/apis/simpleQuery.ts:105-118 | a 500 with an empty body and `x-influxdb-error: boom` rejects with `[500]: boom` |
| SimpleQuery.BoomMessage | src/shared/apis/simpleQuery.ts:22 | status 500 with the message `boom` formats to `[500]: boom` |
| SimpleQuery.StreamedBodyReachesParser | src/shared/apis/simpleQuery.ts:121-135 | a 200 with a body hands the parser the values up to the first `done` chunk, and an aborted read rejects with the `CancelError` |
| SimpleQuery.WholeTextReachesParser | src/shared/apis/simpleQuery.ts:136-141 | a 200 without a body stream hands the parser the whole `text()` |
| SimpleQuery.AbortedFetchIsCanceled | src/shared/apis/simpleQuery.ts:143-147 | a fetch aborted before the response rejects with the `CancelError` |
| SimpleQuery.NoAbortEscapes | src/shared/apis/simpleQuery.ts:143-147 | no rejection is ever named `AbortError`, and any other fetch failure passes through unchanged |
| SimpleQuery.ResolvesOnlyFromParser | src/shared/apis/simpleQuery.ts:86-141 | the promise resolves only for status 200, and only with what the parser made of the completely drained body or of the whole text |
| ResourceToTemplate.Pick | src/shared/utils/resourceToTemplate.ts:78-85 | `_.pick` keeps exactly the listed keys the object has, with their values |
| ResourceToTemplate.MapSeq | src/shared/utils/resourceToTemplate.ts:88 | `map` keeps the length and applies the callback at each index |
| ResourceToTemplate.ViewableLabels | src/shared/utils/resourceToTemplate.ts:87 | the kept labels are exactly the viewable ones among a task's labels, and never more than there were |
| ResourceToTemplate.ViewableLabelsAppend | src/shared/utils/resourceToTemplate.ts:87 | the filter keeps the labels' order: the viewable labels of a concatenation are those of each part, one after the other |
| ResourceToTemplate.NameOf | src/shared/utils/resourceToTemplate.ts:75 | `_.get(obj, 'name', '')`: the name when it is a string, otherwise `''` |
| ResourceToTemplate.TemplateName | src/shared/utils/resourceToTemplate.ts:76 | the template name is the name followed by `-Template` |
| ResourceToTemplate.Description | src/shared/utils/resourceToTemplate.ts:96 | the description reads `template created from task: `, `variable: ` or `dashboard: ` followed by the name |
| ResourceToTemplate.BlankTemplate | src/shared/utils/resourceToTemplate.ts:12-18 | the blank template has version `1`, empty data, no included entries and no labels |
| ResourceToTemplate.BlankTypedTemplate | src/shared/utils/resourceToTemplate.ts:20-54 | a typed blank template is the blank template with only `content.data.type` set |
| ResourceToTemplate.BlankTaskTemplate | src/shared/utils/resourceToTemplate.ts:20-30 | the blank task template has version `1`, no name, description, labels or org id, no included entries, and data holding only the type `task` |
| ResourceToTemplate.BlankVariableTemplate | src/shared/utils/resourceToTemplate.ts:32-42 | the blank variable template has version `1`, no name, description, labels or org id, no included entries, and data holding only the type `variable` |
| ResourceToTemplate.BlankDashboardTemplate | src/shared/utils/resourceToTemplate.ts:44-54 | the blank dashboard template has version `1`, no name, description, labels or org id, no included entries, and data holding only the type `dashboard` |
| ResourceToTemplate.LabelToRelationship | src/shared/utils/resourceToTemplate.ts:56-58 | a label relation has type `label` and the label's id |
| ResourceToTemplate.LabelToIncluded | src/shared/utils/resourceToTemplate.ts:60-69 | a label entry has type `label`, the label's id, and exactly the attributes `name` and `properties` |
| ResourceToTemplate.TaskToTemplate | src/shared/utils/resourceToTemplate.ts:71-113 | name `<name>-Template` and the description `template created from task: <name>`; the base's version, labels and data id; type `task`; the six task keys as attributes; `included` is the base's entries followed by one entry per viewable label; the only relationship is the viewable labels in order |
| ResourceToTemplate.TaskLabelsAgree | src/shared/utils/resourceToTemplate.ts:87-108 | the label relationships and the included label entries of a task template match one to one by id |
| ResourceToTemplate.BlankTaskTemplateIncludesLabels | src/shared/utils/resourceToTemplate.ts:71-74 | from the default base, `included` is exactly the viewable labels and the version is `1` |
| ResourceToTemplate.ViewToIncluded | src/shared/utils/resourceToTemplate.ts:115-123 | a view entry has type `view`, the view's id, and attributes `properties` and `name` only |
| ResourceToTemplate.ViewToRelationship | src/shared/utils/resourceToTemplate.ts:125-128 | a view relation has type `view` and the view's id |
| ResourceToTemplate.FindView | src/shared/utils/resourceToTemplate.ts:131 | there is no result exactly when no view has the id; otherwise the result is the first view with that id |
| ResourceToTemplate.FirstMissing | src/shared/utils/resourceToTemplate.ts:210 | the index of the first cell that has no view, with every earlier cell having one |
| ResourceToTemplate.CellToIncluded | src/shared/utils/resourceToTemplate.ts:130-146 | it succeeds exactly when a view has the cell's id, then with the cell's `x`, `y`, `w`, `h` and a relation to that view; otherwise it fails with the cell's id, because the source throws |
| ResourceToTemplate.CellToRelationship | src/shared/utils/resourceToTemplate.ts:148-151 | a cell relation has type `cell` and the cell's id |
| ResourceToTemplate.CellsToIncluded | src/shared/utils/resourceToTemplate.ts:210 | it succeeds exactly when every cell has a view, with one entry per cell in order; otherwise it fails at the first cell without a view |
| ResourceToTemplate.VariableToIncluded | src/shared/utils/resourceToTemplate.ts:180-187 | a variable entry has type `variable`, the variable's id, and attributes `name`, `arguments` and `selected` only |
| ResourceToTemplate.VariableToRelationship | src/shared/utils/resourceToTemplate.ts:189-192 | a variable relation has type `variable` and the variable's id |
| ResourceToTemplate.VariableToTemplate | src/shared/utils/resourceToTemplate.ts:153-178 | name and description from the variable's name; the data is exactly the variable's type, id and picked attributes with empty relationships; `included` is empty |
| ResourceToTemplate.VariableTemplateIgnoresBaseContent | src/shared/utils/resourceToTemplate.ts:168-176 | the variable template does not depend on the base template's content |
| ResourceToTemplate.DashboardToTemplate | src/shared/utils/resourceToTemplate.ts:194-248 | it succeeds exactly when every cell has a view, and otherwise fails as the cell mapping does; on success, the name, description, version, type `dashboard` and the attributes `name` and `description`; the data id, labels and org id are the base's; `included` is `DashboardIncluded` of the base's entries, labels, mapped cells, views and variables |
| ResourceToTemplate.FiveBlocks | src/shared/utils/resourceToTemplate.ts:237-243 | each of five concatenated blocks sits at its offset |
| ResourceToTemplate.DashboardIncluded | src/shared/utils/resourceToTemplate.ts:237-243 | `included` is the base's entries, then labels, cells, views and variables, each block at its offset and in input order |
| ResourceToTemplate.DashboardRelationships | src/shared/utils/resourceToTemplate.ts:231-235 | the relationships are exactly `label`, `cell` and `variable`, each listing its inputs' ids in order |
| ResourceToTemplate.DashboardRelations | src/shared/utils/resourceToTemplate.ts:231-235 | the relationships map has exactly the keys `label`, `cell` and `variable`, each mapping its inputs to relations in order |
| ResourceToTemplate.Labels | src/shared/utils/resourceToTemplate.ts:205 | `getDeep(dashboard, 'labels', [])`: the labels when present, otherwise none |
| ResourceToTemplate.Cells | src/shared/utils/resourceToTemplate.ts:209 | `getDeep(dashboard, 'cells', [])`: the cells when present, otherwise none |
| ResourceToTemplate.TemplateToExport | src/shared/utils/resourceToTemplate.ts:250-255 | the export keeps `meta` and `content`, has no org id, and has the labels' names in order |
| ResourceToTemplate.ExportDropsId | src/shared/utils/resourceToTemplate.ts:250-255 | the stored template's id does not reach the export |
| ResourceToTemplate.AddOrgIDToTemplate | src/shared/utils/resourceToTemplate.ts:257-262 | the org id is set, and meta, content and labels are unchanged |
| ResourceToTemplate.AddOrgIDOverrides | src/shared/utils/resourceToTemplate.ts:257-262 | adding an org id twice keeps the last one, and undoing the org id gives back the document |
| SingleStatWithLineOptions.FilterNumeric | src/shared/visualization/types/SingleStatWithLine/SingleStatWithLineOptions.tsx:44-52 | every kept key is a time or number column other than `result` and `table`, taken from the keys |
| SingleStatWithLineOptions.NumericColumnsSpec | src/shared/visualization/types/SingleStatWithLine/SingleStatWithLineOptions.tsx:44-52 | the numeric columns are a subsequence of the column keys; each numeric key occurs as often as in the keys and every other key not at all; `result` and `table` never occur |
| SingleStatWithLineOptions.NumericColumns | src/shared/visualization/types/SingleStatWithLine/SingleStatWithLineOptions.tsx:44-52 | the numeric columns are a subsequence of the column keys in which every numeric key occurs as often as in the keys and every other key not at all |
| SingleStatWithLineOptions.SubsequenceSkip | src/shared/visualization/types/SingleStatWithLine/SingleStatWithLineOptions.tsx:44 | a subsequence of the tail is a subsequence of the whole |
| SingleStatWithLineOptions.SubsequenceDrop | src/shared/visualization/types/SingleStatWithLine/SingleStatWithLineOptions.tsx:44 | dropping the head of a subsequence keeps it a subsequence |
| SingleStatWithLineOptions.DropdownDisabledIff | src/shared/visualization/types/SingleStatWithLine/SingleStatWithLineOptions.tsx:122-141 | both column dropdowns are disabled exactly when no column key passes the numeric filter |
| SingleStatWithLineOptions.DropdownStatus | src/shared/visualization/types/SingleStatWithLine/SingleStatWithLineOptions.tsx:122-126 | a dropdown is disabled exactly when its list of options is empty |
| SingleStatWithLineOptions.CountPositive | src/shared/visualization/types/SingleStatWithLine/SingleStatWithLineOptions.tsx:44 | a key that occurs in the keys has a positive count |
| SingleStatWithLineOptions.UpdateAxis | src/shared/visualization/types/SingleStatWithLine/SingleStatWithLineOptions.tsx:57-67 | every other axis is copied unchanged; the updated axis keeps its old fields overlaid by the new ones; a missing axis starts empty |
| SingleStatWithLineOptions.DomainBounds | src/shared/visualization/types/SingleStatWithLine/SingleStatWithLineOptions.tsx:69-85 | no domain or two open ends give `null`; otherwise each end is `null` exactly when it was open, and its decimal text when not |
| SingleStatWithLineOptions.DomainBoundsReadBack | src/shared/visualization/types/SingleStatWithLine/SingleStatWithLineOptions.tsx:74-77 | `parseInt` of each stored end gives back the end that was set |
| SingleStatWithLineOptions.BoundsJson | src/shared/visualization/types/SingleStatWithLine/SingleStatWithLineOptions.tsx:86 | no bounds give `null`; otherwise a two-element array whose ends are `null` exactly where open and the text of the end otherwise |
| SingleStatWithLineOptions.HandleSetYDomain | src/shared/visualization/types/SingleStatWithLine/SingleStatWithLineOptions.tsx:69-87 | the patch's axes are the old axes plus `y`; axis `y` has its old keys plus `bounds`, and `bounds` is the stored form of the domain |
| SingleStatWithLineOptions.SetYDomainTouchesOnlyYBounds | src/shared/visualization/types/SingleStatWithLine/SingleStatWithLineOptions.tsx:69-87 | setting the Y domain adds no axis but `y` and no key of `y` but `bounds`, leaves every other axis and every other key of `y` unchanged, and sets `bounds` |
| SingleStatWithLineOptions.SetDigits | src/shared/visualization/types/SingleStatWithLine/SingleStatWithLineOptions.tsx:89-96 | only `decimalPlaces.digits` changes, to the given value |
| SingleStatWithLineOptions.HandleChangeMode | src/shared/visualization/types/SingleStatWithLine/SingleStatWithLineOptions.tsx:97-103 | `Auto` clears the digits, and any other mode sets them to 2; `isEnforced` is kept |
| SingleStatWithLineOptions.DisplayedMode | src/shared/visualization/types/SingleStatWithLine/SingleStatWithLineOptions.tsx:371-375 | the input shows `Custom` exactly when `digits` is a number |
| SingleStatWithLineOptions.ChangeModeRoundTrip | src/shared/visualization/types/SingleStatWithLine/SingleStatWithLineOptions.tsx:371-375 | after choosing a mode, the input displays that mode |

## Left out

- `fetch`, the abort signal and the asynchronous timing of promises are not modelled. The network's answer is a value (`Transport`), an abort shows up as a failure named `AbortError` where it is observed, and a read that never settles gives `Pending`. Aborting after the promise has settled has no effect, and this is not modelled either.
- `JSON.stringify` of the body and the `URLSearchParams` encoding are left out. The body is kept as a record, and the encoding is a parameter of `RequestEnv`.
- `fromFlux` is not part of this model. It is the `parse` parameter, and a parser exception rejects the promise.
- Chunk values are modelled as text. JavaScript's `data += chunk.value` turns a `Uint8Array` into comma-separated bytes and the final `undefined` into the text `"undefined"`. The model instead appends each chunk's value as given, including the value of the `done` chunk.
- `Response.headers.get` is case-insensitive and joins repeated headers. The model keys headers by lower-case name, one value per name.
- The model does not tie `response.text()` to the body stream. A response carries both, independently.
- SimpleQuery.RetryHint: the source's `parseInt` gives JavaScript numbers, so digit runs beyond 2^53 lose precision. The model reads exact integers. It keeps `NaN` as a possible hint, as the code does, where the type declares a number.
- `variables` is treated as required, as the code uses it. A missing `variables` makes the source throw before `fetch`.
- `null` and `undefined` are both `None`.
- Keys a caller's base template carries beyond the modelled ones are not kept. JavaScript key order in objects is not kept either.
- ResourceToTemplate.NameOf: a name that is not a string is taken as `''`. The source would use the value as it is.
- `viewableLabels` is a predicate parameter. Its filter in `src/labels/selectors` is not part of this model.
- The string values of `TemplateType` (`label`, `task`, ...) are constructor names.
- SingleStatWithLineOptions.DomainBounds: the domain ends are integers, so `String` of a fractional or non-finite number is not modelled.
- The digits typed into the decimal-places input go through `convertUserInputToNumOrNaN`, which is not part of this model. `SetDigits` takes the resulting value as `Option<int>`, so `NaN` is not represented.
- The other handlers of the options panel are one-field `update` calls: the X and Y column choices (`update({xColumn})`, `update({yColumn})`), time format, colours, shading, hover dimension, Y label, base, prefix, suffix and position. They are not modelled, and neither are `defaultXColumn`, `defaultYColumn` or the JSX.
- The type of `retry` is declared as an optional number, but `parseInt` of a non-numeric `Retry-After` gives `NaN`. The model follows the code.
- No check that `orgID` is non-empty is applied, because the code applies none.

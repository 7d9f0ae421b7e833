# Gift declaration rules, modelled in Dafny

This project models the rule-bearing core of the Bhutan Gift Transparency
System (BGTS). Public servants use this web application to declare the gifts
they receive. The core has three small rule components. Each of them is
copied, with differences, across the serverless handlers (`api/`), the
Express server (`server.js`) and the browser script (`public/script.js`).

- **Penalty multiplier and fine.** A breach number selects a multiplier and
  the fine is the gift value times that multiplier. The serverless handler and
  the server both use the expression `[2, 5, 10][(parseInt(b) || 1) - 1] || 2`.
  The browser's offline fallback is a `switch` statement.
- **Prohibited-source classifier.** A relationship key is looked up in a
  constant table, and any other key gets a REVIEW REQUIRED default. Each of
  the three files has its own table: the serverless one has two entries, the
  server's has three and the browser's has four.
- **Gift record store.** The serverless handler keeps a module-level array.
  POST builds a record and appends it, and GET returns the whole array. The
  server builds the same kind of record but stores nothing, and its GET
  returns fixed demo data. The browser checks the required fields, makes an
  offline reference, ticks the "prohibited source" box from the relationship,
  and filters the gift table by status.

Modules, one per source file, plus shared helpers:

| file | module | models |
|---|---|---|
| `calculate_penalty.dfy` | `ApiPenalty` | api/calculate-penalty.js |
| `check_source.dfy` | `ApiCheckSource` | api/check-source.js |
| `gifts.dfy` | `ApiGifts` | api/gifts.js (a class `GiftStore` whose `gifts` field is the module-level array) |
| `server.dfy` | `Server` | server.js |
| `script.dfy` | `BrowserScript` | public/script.js |
| `common.dfy` | `Http`, `SourceRules`, `References` | the reply shape, the classification entry and the two ways of reading a table key, the random `BGTS-<year>-<nnnn>` reference |
| `js.dfy` | `Wrappers`, `Js` | `Option`, JSON values, the falsy-value fallback on numbers, property lookup on an object literal, decimal digits |

Conventions of the model:
- `parseInt` and `parseFloat` results are inputs of type `Option<int>` and
  `Option<real>`, where `None` stands for NaN. `x || d` is written out, so NaN
  and 0 both fall back to `d`.
- `Date.now()`, `new Date().toISOString()`, `new Date().getFullYear()` and
  `Math.random()` are parameters. The year is a `nat`, and `Math.random()`
  is a `real` in [0, 1).
- `Number.prototype.toLocaleString` is a parameter `locale: real -> string`,
  one for each runtime that formats. Only the `"Nu. "` prefix of the
  formatted fine is modelled.
- A JSON object is a `map<string, Json>`. An object spread `{a, ...b, c}` is
  the map union `A + B + C`, where later keys win.
- `isProhibited` is an `Option<bool>`, and `None` stands for `null`.

Facts about the code that a reader might expect otherwise:
- A breach number of 4 or more gives ×2, not ×10: the multiplier table has
  three entries, so ×10 applies only to exactly 3, and a read past the end
  falls back to ×2 (`ApiPenalty.NoEscalationBeyondThird`).
- The serverless POST validates nothing and always answers 201, and GET lists
  every record the array of the function instance that serves it holds. Only
  the browser checks the four required fields.
- The allowed relationship key in every table is "family".
  "immediate-relative" appears only in the checkbox rule, where it clears the
  box.
- Nothing makes references unique, so the model does not claim it.

## Model

| member | source | states |
|---|---|---|
| `ApiPenalty.EchoedBreach` | api/calculate-penalty.js:13 | the echoed breach number is never 0; a missing, unparseable or zero number is echoed as 1; any other parsed number, negative included, is echoed unchanged |
| `ApiPenalty.Multiplier` | api/calculate-penalty.js:7 | the multiplier is 5 exactly when the breach parses to 2, 10 exactly when it parses to 3, and 2 in every other case (missing, 0, negative, 1, 4 and above) |
| `ApiPenalty.MultiplierInTable` | api/calculate-penalty.js:7 | the multiplier is always one of 2, 5, 10, hence positive |
| `ApiPenalty.NoEscalationBeyondThird` | api/calculate-penalty.js:7 | a breach number of 4 or more, or of 0 or below, gives ×2, never ×10 |
| `ApiPenalty.HandlerReply` | api/calculate-penalty.js:2-21 | a POST answers 200 with success, fine = value × multiplier, value and fine 0 when the value does not parse, the echoed breach number, and a formatted fine starting with "Nu. "; any other method answers 405 with Allow = [POST] and an error body and computes nothing |
| `SourceRules.ClassifyNeverInventsVerdict` | api/check-source.js:21-26 | a true or false verdict only ever comes from a table entry; every key outside the table gets REVIEW REQUIRED with null (own-key lookup, as in `ApiCheckSource.Handler`; see Findings for the lookup as written) |
| `SourceRules.ClassifySubTable` | api/check-source.js:21-26 | a table that contains another entry for entry classifies every key of the smaller table, and every key neither knows, the same way; they can differ only on the keys the larger table adds |
| `SourceRules.FieldsInjective` | api/check-source.js:28-31 | spreading an entry into the reply loses nothing: equal spread objects, and equal `{success: true, ...entry}` replies, come from equal entries |
| `SourceRules.LookupAsWrittenOwnKeys` | api/check-source.js:21-26 | the JavaScript lookup of `results[key]`, falling back to the default when it is undefined, equals own-key classification for every key that is not an Object.prototype member name; an inherited name that is not in the table contributes no fields |
| `ApiCheckSource.Verdicts` | api/check-source.js:6-26 | isProhibited is true exactly for "seeks-action" (title PROHIBITED SOURCE, Rule 8(a)) and false exactly for "family" (ALLOWED (with conditions), Rule 11(b)); every other key, "does-business" and "regulated" included, gets REVIEW REQUIRED with null; the match is exact (own-key lookup, as in `ApiCheckSource.Handler`; see Findings for the lookup as written) |
| `ApiCheckSource.Handler` | api/check-source.js:3-35 | the handler with the lookup restricted to the table's own keys (the corrected form; see Findings): a POST answers 200 with success = true and a title, description, rule and isProhibited for every relationship, which the code as written does only off the Object.prototype member names; another method answers 405 with Allow = [POST] |
| `ApiCheckSource.AsWrittenAgreesOffPrototype` | api/check-source.js:21-31 | the handler as written and the own-key handler give the same reply for every relationship that is not an Object.prototype member name |
| `ApiCheckSource.PrototypeKeyLosesVerdict` | api/check-source.js:21-31 | for "toString" the handler as written answers only `{success: true}`, with no title or verdict, while the own-key handler answers success plus the REVIEW REQUIRED entry |
| `References.RandomSerial` | api/gifts.js:12 | `Math.floor(1000 + Math.random() * 9000)` lies in [1000, 9999] |
| `References.RandomReferenceParses` | api/gifts.js:12 | a generated reference is "BGTS-", the year's digits, "-" and exactly four serial digits; the year and serial read back from it are the ones it was built from |
| `ApiGifts.NewRecord` | api/gifts.js:7-13 | the record has the body's keys plus id, status, submittedAt and reference; status is "pending", submittedAt and reference are the generated ones whatever the body sent; id is the body's id when it has one, else Date.now(); every other body field is kept |
| `ApiGifts.NewRecordIsStored` | api/gifts.js:7-13 | every record built with a generated reference is pending, time-stamped and carries a well-formed reference, whatever the body held |
| `ApiGifts.GiftStore.constructor` | api/gifts.js:2 | the store starts empty |
| `ApiGifts.GiftStore.Handle` | api/gifts.js:4-29 | POST appends exactly one record at the end and leaves earlier records unchanged; it always answers 201 with the record as data and the record's own reference; GET answers 200 with every record in insertion order; any other method answers 405 with Allow = [GET, POST] and leaves the store unchanged; every stored record stays pending with a well-formed reference |
| `ApiGifts.PostThenList` | api/gifts.js:15-25 | after a POST, a GET lists all earlier records in order followed by the new one, whose reference is the one the POST answered with; the store then holds exactly that listing |
| `Server.PenaltyAgreesWithApi` | server.js:57-72 | for every body, the server's penalty route gives the same reply as the serverless POST, so it uses the same multiplier and echo rules |
| `Server.Verdicts` | server.js:87-113 | isProhibited is true exactly for "seeks-action" (Rule 8(a)) and "does-business" (Rule 8(b)) and false exactly for "family" (Rule 11(b)); every other key gets REVIEW REQUIRED with null (own-key lookup, as in `Server.CheckSource`; see Findings for the lookup as written) |
| `Server.ContainsApiTable` | server.js:87-106 | every serverless entry is also a server entry; wherever the serverless table gives a verdict, the server gives the same verdict, title, description and rule; the two differ on "does-business" and nowhere else (derived from `SourceRules.ClassifySubTable`) |
| `Server.CheckSource` | server.js:108-118 | the route with the lookup restricted to the table's own keys (the corrected form; see Findings) answers 200 with success = true and a title, description, rule and isProhibited for every relationship |
| `Server.PrototypeKeyLosesVerdict` | server.js:108-118 | for "toString" the route as written answers only `{success: true}`, while the own-key route answers success plus the REVIEW REQUIRED entry |
| `Server.AsWrittenAgreesOffPrototype` | server.js:108-118 | the route as written and the own-key route agree on every relationship that is not an Object.prototype member name |
| `Server.PostGift` | server.js:30-46 | the reply is 200; the data has the body's keys plus id, status and submittedAt; id, status "pending" and submittedAt override the body because they come after the spread; the other body fields are kept |
| `Js.LastSixDigits` | server.js:34 | `String(n).slice(-6)` is one to six digits that read back as n mod 10^6, and it is six digits once n ≥ 100000 |
| `Server.TimestampReferenceShape` | server.js:34 | the server's reference is "BGTS-", the year's digits, "-", then the last (at most six) digits of the timestamp, which read back as the timestamp mod 10^6 |
| `Server.PostedGiftNeverListed` | server.js:143-154 | no data answered by the gift POST appears in the gift listing, which is the fixed demo record (that the route stores nothing holds by construction: the listing is a constant) |
| `Server.DemoFineIsFirstBreach` | server.js:129-141 | the demo penalty's fineAmount (14000) is what the penalty route computes for its giftValue (7000) at a first breach: ×2 |
| `BrowserScript.FallbackVerdicts` | public/script.js:315-347 | the object the fallback returns says prohibited (true) exactly for "seeks-action", "does-business" and "regulated", citing Rules 8(a), 8(b) and 8(c), and allowed (false) exactly for "family" with Rule 11(b); every other key that is not an Object.prototype member name gets REVIEW REQUIRED with null, and those twelve inherited names get an object with no fields |
| `BrowserScript.AgreesWithServer` | public/script.js:315-340 | wherever the server's table gives a verdict, the fallback gives the same verdict, title and rule; they differ in verdict only on "regulated"; the "family" description is worded differently |
| `BrowserScript.FallbackColours` | public/script.js:299-308 | for every selected value, inherited names included, the colour is red exactly when the verdict is prohibited, green exactly when it is allowed, and blue otherwise |
| `BrowserScript.FallbackMultiplierAgrees` | public/script.js:481-487 | the fallback switch (1→2, 2→5, 3→10, everything else including NaN →2) equals the server's array expression for every parse result |
| `BrowserScript.FallbackFineAgrees` | public/script.js:457-490 | the text the calculator shows offline is "Nu. " and the browser's formatting of the very fine the server would compute for the same value and breach number; it equals the server's formatted text whenever the browser and server format that number alike |
| `BrowserScript.SubmitDeclaration` | public/script.js:381-433 | the form is rejected exactly when description, value, relationship or giver name is empty; a rejection shows the missing-fields alert; otherwise the server's reference is shown, or, offline, a well-formed "BGTS-<year>-<nnnn>" reference for the current year with "(Offline Mode)" |
| `BrowserScript.RejectionIgnoresServer` | public/script.js:381-384 | a rejected form has the same outcome whatever the server would have answered: no request is made |
| `BrowserScript.ProhibitedCheckbox.OnRelationshipChange` | public/script.js:533-542 | "contractor" or "business" ticks the box, "immediate-relative" or "personal-friend" clears it, and any other value leaves it as it was |
| `BrowserScript.FilteredAt` | public/script.js:507-516 | after filtering, each row keeps its status and is shown exactly when the filter is "all" or equals the row's status (a missing filter matches rows without a status), and is hidden otherwise |
| `BrowserScript.LastFilterWins` | public/script.js:507-516 | filtering forgets any earlier filter: filtering by f and then by g is filtering by g |
| `BrowserScript.FilterIdempotent` | public/script.js:507-516 | applying the same filter twice is applying it once |
| `BrowserScript.FilterRows` | public/script.js:507-516 | the in-place loop over the rows leaves exactly the filtered table |
| `BrowserScript.HighlightButton` | public/script.js:499-504 | every other button loses btn-primary and active and gains btn-secondary; the clicked one loses btn-secondary and gains btn-primary and active; afterwards exactly the clicked button is active |
| `BrowserScript.HandleFilterClick` | public/script.js:494-517 | a click gives every other button btn-secondary in place of btn-primary and active, gives the clicked one btn-primary and active in place of btn-secondary, keeps every data-filter, so exactly the clicked button is active, and filters the rows by that button's data-filter |

## Findings

| source | as written | input that shows it | evidently intended | confidence | as-written member | corrected member |
|---|---|---|---|---|---|---|
| api/check-source.js:21-31 | the lookup `results[relationship]`, with REVIEW REQUIRED as its fallback, also finds members inherited from Object.prototype. These are truthy functions with no own enumerable fields, so the spread adds nothing. | relationship = "toString" (also "constructor", "__proto__", "valueOf", …): the reply is `{success: true}` with no title, desc, rule or isProhibited | an unknown key gets REVIEW REQUIRED, and every reply carries a verdict | high; not executed | `ApiCheckSource.HandlerAsWritten` (exhibited by `ApiCheckSource.PrototypeKeyLosesVerdict`) | `ApiCheckSource.Handler` |
| server.js:108-118 | the same lookup in the server's copy of the route | relationship = "toString": the reply is `{success: true}` | as above | high; not executed | `Server.CheckSourceAsWritten` (exhibited by `Server.PrototypeKeyLosesVerdict`) | `Server.CheckSource` |

The browser fallback (public/script.js:342) has the same lookup. It is
modelled only as written (`BrowserScript.FallbackCheckSource`), on the
assumption that its input comes from a `<select>` whose options are table
keys; the page markup is not part of this model. `FallbackVerdicts` shows
that an inherited name gives an object with no fields there, and
`FallbackColours` that it still gets the blue REVIEW colour.

## Left out

- `ApiGifts.GiftStore` is one instance of the serverless function: its
  `gifts` array (api/gifts.js:2) lives only as long as the instance that
  loaded the module. Instance start-up and shutdown, and records spread
  across several concurrent instances, are not modelled.
- Express setup, middleware, CORS, static file serving, the SPA catch-all
  route and the API 404 handler (server.js:10-16, 157-189) are framework
  plumbing. A GET to a POST-only server route falls through to them, so the
  server routes are modelled without a 405 branch.
- The health endpoints (api/health.js, server.js:19-27) return constants and
  a timestamp. api/health.js is not part of this model.
- The `try`/`catch` 500 branches in server.js (server.js:73-79, 119-125) are
  not modelled, and neither is the crash of the serverless handlers in the
  same case. They are reachable only through a non-primitive field (a
  `value`, `breachNumber` or `relationship` such as `{"toString": 1}`) whose
  conversion to a primitive throws. The model takes parsed primitive inputs,
  which excludes that case.
- `parseInt` and `parseFloat` on raw strings are not modelled. Their results
  are inputs, so Infinity and other floating-point behaviour are left out.
  Amounts are exact reals.
- `toLocaleString` digit grouping is a parameter, so only the "Nu. " prefix
  is stated. The browser's formatter and the server's are separate
  parameters in `BrowserScript.FallbackFineAgrees`. `Server.PenaltyAgreesWithApi`
  uses one formatter for both server-side copies, since both run under Node on
  the host.
- `References.RandomSerial` treats `1000 + Math.random() * 9000` as exact real
  arithmetic. Double rounding cannot reach 10000 for any double below 1, but
  the model does not show this.
- Request bodies are JSON objects. Spreading a non-object body (an array or
  a string) is not modelled, and a missing `relationship` is looked up as the
  string "undefined", which the model leaves to the caller.
- The `giftData` object that `submitGiftDeclaration` assembles from the other
  form fields (public/script.js:387-407), the form reset and the success modal
  are UI. Only the validation, the reference shown and the offline reference
  are modelled.
- Every `fetch`, `checkServerConnection`, `loadInitialData`, DOM caching,
  event wiring, modals, `alert`, `setDefaultReceiptDate`, `viewGiftDetails`,
  `submitReview` and the localStorage draft (`saveDraft`) are browser I/O. The
  outcome of the gift POST is the parameter `ServerAnswer`.
- The text shown by `displayCheckResult` (public/script.js:294-296) is not
  modelled. Only its colour choice is.
- Reference uniqueness is not claimed, because neither the random nor the
  timestamp reference guarantees it.

# Telephone Operations Blaise interface — a Dafny model of the server core

The telephone-operations interface lists, for interviewers, the Blaise
questionnaires that are live for telephone operations (TO) today. Its server
answers `GET /instruments`. It does the following:

- Fetches every questionnaire with CATI data from the Blaise API.
- Asks the BIMS service for each questionnaire's TO start date. It sends a
  bearer token, which it caches and refreshes from the Google token issuer.
- Keeps a questionnaire only when it is active today and its start date, if
  any, is not in the future.
- Adds three derived fields to each kept questionnaire: the survey code, the
  interviewer link and a readable field period such as "May 2020".
- Groups the result by survey code.

A small configuration reader supplies the URLs and client id.

This project models that core in Dafny and proves what it does. It has five
modules:

| module | file | models |
|---|---|---|
| `Wrappers` | wrappers.dfy | `Option` and `Result`, used for JavaScript's `null`/NaN and for thrown errors |
| `JsStrings` | js_strings.dfy | `String.prototype.substr`, ASCII digits and JavaScript's white-space set |
| `FieldPeriod` | field_period.dfy | `isNumber` and `field_period_to_text` (server/Functions.ts; server/Functions.js is a line-for-line copy) |
| `Config` | config.dfy | `getEnvironmentVariables` (server/Config.ts) |
| `Auth` | auth.dfy | the `AuthProvider` class (server/AuthProvider/index.ts), as a Dafny class whose `token` field `GetAuthHeader` updates |
| `Instruments` | instruments.dfy | the `/instruments` route (server/Instuments/index.ts): start-date lookup, activity decision, `Promise.all` plus filter, field enrichment, lodash `groupBy` in JavaScript key order, and the 500 handler |

The outside world is made of parameters:

- The environment is a map.
- The clock is a number of milliseconds.
- `jwt.decode` and `Date.parse` are functions.
- Each start-date lookup's outcome (a response, or an exception) is a
  function of the questionnaire.
- The token issuer is a small class. It records each request and answers
  with an arbitrary token, or fails.

### Where the code and its description differ

In each case below the model follows the code.

- **Field period.** The formatter looks the month up as `monthNames[m]`, not
  `monthNames[m - 1]`. "04" therefore reads as May, and "12" reads past the
  array as "undefined". An unusable month gives "Unknown 20YY", not the
  sentinel "Field period unknown". The tests (server/tests/functions.test.ts,
  server/Instuments/index.test.ts:197-219) expect the intended behaviour. That
  behaviour is `FieldPeriod.ExpectedFieldPeriod`, and
  `FieldPeriod.CodeNeverMeetsTestedExpectation` proves that the code never
  produces it, for any name.
- **Token expiry.** A token is expired when `exp < floor(now / 1000)`, so a
  token whose `exp` is the current second is still used.
- **Failed lookups.** A token failure, a network error or timeout, a status
  below 200, or a JSON `null` body makes the start-date lookup throw. The
  handler has no per-questionnaire catch, so the whole request answers 500.
  Only a status of 200 or more other than 200, or a content type other than
  exactly `application/json`, counts as "no start date".
- **Group key.** Each response entry holds its instruments under the key
  `questionnaires`. Interfaces/index.ts and the route tests use `instruments`.

## Model

| member | source | states |
|---|---|---|
| `JsStrings.Substr` | server/Functions.ts:6 | `substr(start, length)` clamps at the end of the string: its length is `min(length, |s| - start)`, or 0 past the end |
| `FieldPeriod.MonthCode` | server/Functions.ts:6 | the month is read from at most two characters at offset 5 |
| `FieldPeriod.YearCode` | server/Functions.ts:22 | the year is read from at most two characters at offset 3 |
| `FieldPeriod.FieldPeriodToText` | server/Functions.ts:5-23 | total on every name; the result is a month label (a month name, "Unknown" or "undefined"), then " 20", then the two year characters unchecked (server/Functions.js:5-23 is the same code and is modelled by the same function) |
| `FieldPeriod.OneDigitCode` | server/Functions.ts:14-16 | a single digit passes `isNumber` and `parseInt` reads its value |
| `FieldPeriod.TwoDigitCode` | server/Functions.ts:14-16 | two digits pass `isNumber` and read as their decimal value |
| `FieldPeriod.LooseMonthCodes` | server/Functions.ts:1-3 | `isNumber` also accepts a digit with white space, a sign or a point; "+4", " 4", "4." and "4 " read as 4, "-4" as -4, and ".4" passes `isNumber` but `parseInt` gives NaN |
| `FieldPeriod.MonthNamesOneAhead` | server/Functions.ts:10-12 | entry `i` of `monthNames` is calendar month `i + 1` |
| `FieldPeriod.UnknownExactlyWhenOutOfRange` | server/Functions.ts:18-20 | the month is "Unknown" if and only if the month number fails `> 0 && < 13` (NaN fails) |
| `FieldPeriod.NonNumericMonthIsUnknown` | server/Functions.ts:14-20 | a month code that is not a number leaves month -1 and so "Unknown" |
| `FieldPeriod.MonthShownOneLate` | server/Functions.ts:18-20 | month numbers 1..11 are shown as the following calendar month |
| `FieldPeriod.DecemberReadsPastTheArray` | server/Functions.ts:19 | month 12 passes the range test and renders `monthNames[12]` as "undefined" |
| `FieldPeriod.ShortNameHasUnknownMonth` | server/Functions.ts:6 | a name of at most five characters has an empty month code and an "Unknown" month |
| `FieldPeriod.TwoDigitMonthShownOneLate` | server/Functions.ts:5-23 | for two digit characters at offsets 5-6 naming 1..11, the text is the next month's name, " 20" and the year characters |
| `FieldPeriod.NoMonthShownUnderItsName` | server/Functions.ts:19 | no month in 1..12 is shown under its own calendar name |
| `FieldPeriod.Opn2004ShownAsMay` | server/tests/functions.test.ts:4-7 | "OPN2004" gives "May 2020"; the test expects "April 2020" |
| `FieldPeriod.Opn2001ShownAsFebruary` | server/tests/functions.test.ts:9-12 | "OPN2001" gives "February 2020"; the test expects "January 2020" |
| `FieldPeriod.Opn2012ShownAsUndefined` | server/tests/functions.test.ts:14-17 | "OPN2012" gives "undefined 2020"; the test expects "December 2020" |
| `FieldPeriod.Dst2022KeepsYear` | server/tests/functions.test.ts:19-22 | "DST2022" gives "Unknown 2020"; the test expects "Field period unknown" |
| `FieldPeriod.Opn20abKeepsYear` | server/tests/functions.test.ts:24-27 | "OPN20AB" gives "Unknown 2020"; the test expects "Field period unknown" |
| `FieldPeriod.Xxxxx05ShownAsJune` | server/Instuments/index.test.ts:197-219 | "XXXXX05" gives "June 20XX"; the route test expects "May 20XX" |
| `FieldPeriod.CodeNeverMeetsTestedExpectation` | server/tests/functions.test.ts:3-28 | for every name, the formatter's output differs from the tested behaviour |
| `Config.GetEnvironmentVariables` | server/Config.ts:10-49 | each of the five variables is its value when set and "ENV_VAR_NOT_SET" otherwise; the dashboard URL is `https://` + the raw web URL (or "undefined") + `/Blaise` |
| `Config.MissingWebUrlGivesUndefinedDashboard` | server/Config.ts:16 | without `VM_EXTERNAL_WEB_URL` the dashboard URL is "https://undefined/Blaise", computed before the default is applied |
| `Config.DashboardUrlNotReadFromEnv` | server/Config.ts:11-16 | a `CATI_DASHBOARD_URL` in the environment is ignored |
| `Config.DefaultingIsPerVariable` | server/Config.ts:18-41 | each defaulted field depends only on its own variable |
| `Config.OnlyFiveVariablesRead` | server/Config.ts:11-15 | environments that agree on the five variables give the same result |
| `Auth.AuthProvider.constructor` | server/AuthProvider/index.ts:8-11 | a new provider keeps its client id and starts with the empty token |
| `Auth.AuthProvider.GetAuthHeader` | server/AuthProvider/index.ts:13-18 | with a valid cached token: no issuer call, token unchanged, header "Bearer " + token; otherwise exactly one issuer request with the client id, and on success the token is replaced and sent, on failure the call fails and the token is kept |
| `Auth.TokenIssuer.Issue` | server/AuthProvider/index.ts:15 | each issuer call records the client id it was asked for and its reply |
| `Auth.ExpiryBoundary` | server/AuthProvider/index.ts:37-39 | `exp` equal to the current second is not expired, the second before is; a missing `exp` never expires |
| `Auth.ValidThroughExpirySecond` | server/AuthProvider/index.ts:37-39 | a token stays unexpired exactly while `now < (exp + 1) * 1000` ms |
| `Auth.ExpiryIsPermanent` | server/AuthProvider/index.ts:20-35 | a token found invalid for expiry stays invalid at every later time |
| `Auth.TwoCalls` | server/AuthProvider/index.test.ts:29-92 | two header requests on a fresh provider: the first always asks the issuer for the client id; the second reuses the token while it is valid and asks again otherwise |
| `Instruments.GetToStartDate` | server/Instuments/index.ts:33-52 | token and transport exceptions and statuses below 200 fail; other non-200 statuses and non-JSON content give no date; a JSON `null` body fails; otherwise the body's `tostartdate` |
| `Instruments.ActiveToday` | server/Instuments/index.ts:65-80 | a start date only suppresses the questionnaire's flag, never raises it; no date keeps the flag; a date keeps it if and only if it parses and is not after now |
| `Instruments.GetActiveTodayQuestionnaire` | server/Instuments/index.ts:82-87 | fails exactly when the lookup fails; otherwise the questionnaire itself or null, and only an active one is kept |
| `Instruments.AwaitAll` | server/Instuments/index.ts:90 | succeeds if and only if every decision succeeds, then with the results position by position; a failure is some questionnaire's failure |
| `Instruments.DropNulls` | server/Instuments/index.ts:91 | keeps each present value exactly as often as it occurs |
| `Instruments.Survivors` | server/Instuments/index.ts:89-94 | the reference filter: every element survives |
| `Instruments.SurvivorsExact` | server/Instuments/index.ts:89-94 | the survivors are a subsequence of the input holding every occurrence of a surviving questionnaire and none of any other |
| `Instruments.PipelineIsFilter` | server/Instuments/index.ts:89-94 | settling all lookups and then dropping nulls equals the reference filter |
| `Instruments.GetActiveTodayQuestionnaires` | server/Instuments/index.ts:89-94 | succeeds if and only if every lookup settles, and then returns the survivors in input order |
| `Instruments.AddExtraInstrumentFields` | server/Instuments/index.ts:55-62 | the listed fields are kept; the survey code is the name's first `min(3, |name|)` characters; the link is `https://<web url>/<name>?LayoutSet=CATI-Interviewer_Large`; the field period is the formatter's text |
| `Instruments.EnrichmentRoundTrip` | server/Instuments/index.ts:55-62 | the questionnaire can be read back from its instrument |
| `Instruments.EnrichAll` | server/Instuments/index.ts:104 | enrichment is applied position by position |
| `Instruments.GroupBySurveyCorrect` | server/Instuments/index.ts:10-15 | the keys are exactly the survey codes present, with no repeats; each group holds exactly its code's instruments in input order; numeric keys come first in ascending order, the other keys in first-seen order; every instrument appears exactly once |
| `Instruments.OneSurveyOneGroup` | server/Instuments/index.ts:10-15 | instruments of one survey form a single group in input order |
| `Instruments.TextCodesInArrivalOrder` | server/Instuments/index.ts:12-13 | two non-numeric codes are listed in the order they are met |
| `Instruments.IndexCodeListedFirst` | server/Instuments/index.ts:12-13 | a numeric code is listed before a non-numeric code even when it is met second |
| `Instruments.IndexCodesByValue` | server/Instuments/index.ts:12-13 | numeric codes are listed by value, not by arrival |
| `Instruments.GetSurveys` | server/Instuments/index.ts:100-105 | a failed fetch fails; otherwise success if and only if every lookup settles, and the result is the grouping of the enriched survivors |
| `Instruments.HandleInstruments` | server/Instuments/index.ts:107-113 | the reply is 500 if and only if the fetch or some lookup failed; there is never a partial list |
| `Instruments.ListedInstrumentsAreActive` | server/Instuments/index.ts:100-105 | every listed instrument sits under its own code, is active today, survived the start-date check, and is the enrichment of its questionnaire |
| `Instruments.ListedOncePerSurvivor` | server/Instuments/index.ts:100-105 | the response lists as many instruments as there are survivors |
| `Instruments.SingleQuestionnaire` | server/Instuments/index.test.ts:72-195 | a lone questionnaire whose lookup settles is listed alone under its code if it survives, and the list is empty otherwise |

## Left out

- Logging through `req.log`, `console.log` and `console.error`, the Express router and the HTTP plumbing are left out. The model returns the reply value; status codes and JSON serialisation are not modelled.
- The React client, server/server.ts, server.js and the older server variants are not part of this model.
- The route imports `fieldPeriodToText`. The server/Functions.ts shown exports only `field_period_to_text`, so the model uses that formatter for the field period.
- `Instruments.AwaitAll`: `Promise.all` runs the lookups concurrently and rejects with whichever failure settles first. The model visits them in input order and reports the first failure in that order. Its contract only promises some questionnaire's failure.
- The lookups share one `AuthProvider` per request. Interleaved refreshes of its token are not modelled: each lookup's outcome, including a token failure, is a parameter.
- `Auth.AuthProvider.GetAuthHeader`: `jwt.decode`, the clock and `getGoogleAuthToken` are parameters, and the issuer's answer is arbitrary. Token signatures and other JWT claims are not examined by the source, and not by the model.
- The auth tests build the provider with a logger argument and expect `log.info` messages. The code's constructor takes only the client id and logs with `console.log`, so those expectations are not modelled.
- `FieldPeriod.IsNumber`: modelled only for strings of at most two characters. These are the only strings the formatter passes to it (`substr(5, 2)`).
- `FieldPeriod.ParseInt`: modelled only for strings of at most two characters, for the same reason.
- Strings are sequences of Unicode scalar values, not UTF-16 code units. Names with characters outside the Basic Multilingual Plane would split differently under `substr`.
- A `tostartdate` that is not a string (a number or an object) is not modelled. The body carries a string or nothing.
- The questionnaire record keeps the four listed fields. Any extra fields the upstream API returns, which the spread in `addExtraInstrumentFields` would carry along, are not modelled.
- `Date.parse` is a parameter that returns milliseconds or nothing (NaN); date formats are not modelled.

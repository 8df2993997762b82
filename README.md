# Survey walker

`runSurveyAutomation(code)` (survey-automation.js, lines 11-137) drives a
headless browser through a customer-satisfaction survey. It enters the
survey code on the first page. It then answers up to 23 further pages with
"highly satisfied" answers, choosing a handler by the question id in the
page URL. On the end page it extracts the promo code from the
`#EndOfSurvey` element. It returns `{ success, promoCode, logs }`.

This project models that function with the browser replaced by an oracle:
- `Setup` says which of the seven start-up calls throws, if any. The calls
  run from `puppeteer.launch` to the first click on Next.
- `pages: nat -> Page` gives, for each step, the page's URL and how many
  labels the matrix selector matches.
- It also gives which of the step's calls throws, with its message, and what
  the look for `#EndOfSurvey` and the extraction then find.

A run yields its `RunResult` and a `trace`: the calls it made on the browser,
in order, the call that threw included.

Modules:
- `JsStrings` models the JavaScript string operations the script uses:
  `includes`, `toLowerCase`, `trim`, `split(':').pop()`, `substring(0, 5)`
  and the decimal form of the step number.
- `QuestionDispatch` is the `if ... else if` chain of handlers (lines 65-91).
- `PromoExtraction` is the function evaluated in the end page (lines 104-116).
- `SurveyWalker` holds:
  - the data model;
  - closed-form functions of what a run does (`Outcome`, `LoopOutcome`,
    `FaultOutcome`, `ExitOf`);
  - the script itself as imperative methods proved against those
    functions: `RunSurveyAutomation`, `OpenSurvey`, `StepLoop`,
    `TryStep`, `Handle`, `CatchFault` and `Crash`.
- `WalkerProperties` proves the properties of those functions.
- `SeqFacts` holds small sequence lemmas the proofs call.

Log entries are the datatype `LogLine`, one constructor per kind of entry.
The seven handler lines are `StepLine` with the chosen `Question`.
`LogText` gives the exact string each entry pushes, and `LogTexts` gives the
returned array of strings. The `[INIT]` entry keeps only the shown prefix of
the code.

The "maximum steps exhausted" exit (line 130) can look unreachable,
since every step that fails leaves the loop through its `catch`. It is
reachable: 23 pages in a row that complete without a throw lead to it.
`WalkerProperties.QuietPagesExhaustLoop` proves it.

The `url.includes('QID15')` test comes before `url.includes('QID151')`.
So the QID151 handler (lines 76-78) is never selected, and a QID151 page
gets the QID15 answer (unless its URL also contains QID14). The model keeps the chain as written and proves
both facts (`Qid151NeverSelected`, `Qid151PageGetsQid15Handler`).

## Model

| member | source | states |
|---|---|---|
| JsStrings.Includes | survey-automation.js:65-82 | `includes` holds only for a string no longer than the text, and always for the empty string |
| JsStrings.Prefix | survey-automation.js:22 | `code.substring(0, 5)`: a prefix of the code, of length five or the code's length if shorter |
| JsStrings.ToLower | survey-automation.js:110 | lower-casing keeps the length |
| JsStrings.ToLowerIdempotent | survey-automation.js:110 | lower-casing twice is lower-casing once |
| JsStrings.Trim | survey-automation.js:111 | `trim()` leaves no whitespace at either end and removes only whitespace, from both ends |
| JsStrings.TrimIdempotent | survey-automation.js:111 | trimming twice is trimming once |
| JsStrings.TrimKeepsChars | survey-automation.js:111 | every character of the trimmed text comes from the text |
| JsStrings.AfterLast | survey-automation.js:111 | `split(':').pop()`: a suffix of the text with no ':' in it, preceded by ':' when shorter than the text |
| JsStrings.NatToString | survey-automation.js:66 | the step number in a template string: a non-empty run of decimal digits without a leading zero |
| JsStrings.NatToStringRoundTrip | survey-automation.js:66 | reading those digits back gives the step number, so distinct steps print differently |
| QuestionDispatch.Dispatch | survey-automation.js:65-91 | the handler the chain picks has its `url.includes` test hold on the URL |
| QuestionDispatch.Description | survey-automation.js:66-90 | a handler's line starts with "Automating ", and only the final `else`'s line starts with "Unhandled " |
| QuestionDispatch.DescriptionNamesHandler | survey-automation.js:66-90 | distinct handlers log distinct texts, so the log tells which handler ran |
| QuestionDispatch.ActionOf | survey-automation.js:65-91 | only the final `else` leaves the page alone |
| QuestionDispatch.DispatchIsFirstMatch | survey-automation.js:65-88 | the chain picks the handler whose `url.includes` test holds, exactly when no earlier test holds (both directions) |
| QuestionDispatch.DispatchUnhandledIff | survey-automation.js:89-91 | the final `else` is taken exactly when none of the tests holds |
| QuestionDispatch.DispatchInTable | survey-automation.js:65-91 | every URL gets one of the six handlers or the final `else` |
| QuestionDispatch.Qid151NeverSelected | survey-automation.js:68-78 | no URL ever reaches the QID151 handler, because any URL with 'QID151' also holds 'QID15' |
| QuestionDispatch.Qid151PageGetsQid15Handler | survey-automation.js:68-70 | a QID151 page without 'QID14' gets the QID15 answer |
| PromoExtraction.NotFoundShape | survey-automation.js:115 | the not-found sentinel has no ':' and no outer whitespace |
| PromoExtraction.MentionsCode | survey-automation.js:110 | `toLowerCase().includes('code')` holds exactly when some four characters in a row of the text spell "code" in any letter case |
| PromoExtraction.CodeIn | survey-automation.js:111 | the text after the last ':', trimmed: no ':' in it and no outer whitespace |
| PromoExtraction.FirstCodeIn | survey-automation.js:108-113 | nothing is found exactly when no `<strong>` text mentions "code" in any case; a result has no ':' and no outer whitespace |
| PromoExtraction.ExtractPromoCode | survey-automation.js:104-116 | the extracted code has no ':' and no outer whitespace; it is the sentinel when the element is missing or no text mentions "code", and otherwise the code taken from the first text that does |
| PromoExtraction.FirstMentionWins | survey-automation.js:109-112 | the first `<strong>` text that mentions "code" decides the result |
| PromoExtraction.FoundIsFirstMention | survey-automation.js:109-112 | a found code comes from the first text that mentions "code" |
| SurveyWalker.IsMissing | survey-automation.js:16 | `!code` holds for an absent or empty code; a code that passes shows at least one character in the `[INIT]` line |
| SurveyWalker.LogText | survey-automation.js:17-134 | the text of each entry: the shown code right after the `[INIT]` tag, the step number right after `[STEP `, the extracted code or the error message at the end of the lines that report one |
| SurveyWalker.StartLine | survey-automation.js:22 | the `[INIT]` entry shows a prefix of the code: its first five characters, or the whole code when it is shorter |
| SurveyWalker.FirstFault | survey-automation.js:57-98 | the loop's first faulting step lies in 2..25; every earlier step completes; a step below 25 faults |
| SurveyWalker.ExitOf | survey-automation.js:16-137 | no code exactly when the code is missing; a setup crash exactly when a setup call throws; every exit inside the loop happens at a step in 2..24 |
| SurveyWalker.Outcome | survey-automation.js:11-137 | only a missing code leaves the browser untouched and the promo code `null`; only a run whose setup went through can succeed; every run logs a line |
| SurveyWalker.LoopOutcome | survey-automation.js:54-131 | the loop only adds to the log and the calls, closes the browser last, succeeds exactly when its first fault is on a page with `#EndOfSurvey`, and returns 'N/A' otherwise |
| SurveyWalker.FaultOutcome | survey-automation.js:98-136 | the inner `catch` adds one or two lines, looks for `#EndOfSurvey` first and closes the browser last; it succeeds exactly when the marker is there, with the code extracted from the page, and returns 'N/A' otherwise |
| SurveyWalker.OutcomeVerdict | survey-automation.js:16-137 | a missing code gives the fatal line and no browser call; success exactly on reaching the end page; every other run with a code returns 'N/A' |
| SurveyWalker.TryStep | survey-automation.js:58-96 | one step's lines and calls, cut at the call that throws; it completes exactly when none throws |
| SurveyWalker.Handle | survey-automation.js:65-91 | the handler's calls in order, stopping at the call that throws, and whether one threw |
| SurveyWalker.Crash | survey-automation.js:133-137 | the outer `catch`: the crash line, the browser closed when it was launched, 'N/A' |
| SurveyWalker.RunSurveyAutomation | survey-automation.js:11-137 | the run's result and calls are the closed-form `Outcome`; a missing code gives the fatal line and no call; success exactly at the end page; 'N/A' otherwise |
| SurveyWalker.OpenSurvey | survey-automation.js:22-50 | setup calls and log lines up to and including the first call that throws, or all of them |
| SurveyWalker.StepLoop | survey-automation.js:54-131 | the loop's result and calls are `LoopOutcome` of the log and calls it was entered with |
| SurveyWalker.CatchFault | survey-automation.js:98-127 | the inner `catch` gives `FaultOutcome`: success with the extracted code, the two error lines and 'N/A', or the outer `catch` |
| WalkerProperties.StepCallsFrame | survey-automation.js:60-94 | every step starts with the wait for Next and ends with the click on it |
| WalkerProperties.AttemptedCallsPrefix | survey-automation.js:58-98 | a step's calls are a prefix of its full call list, ending at the call that throws |
| WalkerProperties.StepLogsShape | survey-automation.js:60-95 | a step logs `[STEP n]` unless its first wait throws, and `[STEP n Complete]` exactly when nothing throws |
| WalkerProperties.UnhandledPageLeftAlone | survey-automation.js:89-94 | an unhandled page gets only the wait for Next and the click on it |
| WalkerProperties.MatrixClicksEveryLabel | survey-automation.js:85-88 | the matrix handler queries once, then clicks every matched label once, in order |
| WalkerProperties.LoopLogsCompleted | survey-automation.js:57-96 | steps that complete log exactly their two lines each |
| WalkerProperties.CompletedLogsShape | survey-automation.js:57-96 | those lines alternate `[STEP n]`, `[STEP n Complete]` in step order |
| WalkerProperties.LoopLogsShape | survey-automation.js:57-96 | the loop's log, while nothing throws, is `[STEP n]` then `[STEP n Complete]` for each step in order |
| WalkerProperties.LoopLogsLength | survey-automation.js:57-96 | steps that complete log two lines each |
| WalkerProperties.LoopLogsGrow | survey-automation.js:57-96 | the loop's log only grows: the log after fewer steps is a prefix of the log after more |
| WalkerProperties.LoopTraceGrow | survey-automation.js:57-96 | the same for the calls made on the browser |
| WalkerProperties.FirstFaultAgrees | survey-automation.js:54-57 | oracles that agree on steps 2..24 fault first at the same step |
| WalkerProperties.LoopAgrees | survey-automation.js:57-96 | oracles that agree on some steps give the same log and calls there |
| WalkerProperties.OnlyLoopPagesMatter | survey-automation.js:54-57 | only pages 2 to 24 are ever visited: oracles that agree on them give the same run |
| WalkerProperties.LoopOutcomeAgrees | survey-automation.js:54-131 | the step loop depends only on pages 2 to 24 |
| WalkerProperties.EmptyCodeRejected | survey-automation.js:16-19 | an absent or empty code returns exactly `['[FATAL] No survey code provided.']`, no promo code, no browser call |
| WalkerProperties.RunLogsStart | survey-automation.js:22-50 | a run with a code logs `[INIT]` first, and all four setup lines first when the setup goes through |
| WalkerProperties.SetupCrashLogs | survey-automation.js:22-50 | a setup that throws logs a proper prefix of the setup lines, then the crash line |
| WalkerProperties.RunLogsBounded | survey-automation.js:54-131 | a run logs at most 51 lines: 4 setup lines, 2 for each of the 22 steps that can complete before the last, the `[STEP n]` line of the step that throws, 2 lines of the inner `catch` |
| WalkerProperties.OnlyCodePrefixLogged | survey-automation.js:22 | codes with the same first five characters give the same result, while the full code is what is typed |
| WalkerProperties.TypedCodeKept | survey-automation.js:46 | the full code typed into the QR field during setup is still among the calls once the step loop ends |
| WalkerProperties.LoopResultIgnoresTrace | survey-automation.js:54-131 | the loop's result does not depend on the calls made before it |
| WalkerProperties.LoopKeepsTrace | survey-automation.js:54-131 | the loop only adds calls after those made before it |
| WalkerProperties.SuccessCarriesExtractedCode | survey-automation.js:100-120 | a successful run ended at a page with `#EndOfSurvey`, returns the code extracted there and logs it last |
| WalkerProperties.QuietPagesExhaustLoop | survey-automation.js:57-131 | 23 pages without a throw use up the loop: 'N/A', all 50 lines logged |
| WalkerProperties.LoopRunsOut | survey-automation.js:57-131 | the loop with no throw on any page ends with 'N/A' after 46 step lines |
| WalkerProperties.NoCloseBeforeEnd | survey-automation.js:25-96 | no setup call and no step call closes the browser |
| WalkerProperties.NoCloseInStep | survey-automation.js:58-96 | a step never closes the browser |
| WalkerProperties.BrowserClosedOnceIfLaunched | survey-automation.js:119-135 | the browser is closed exactly when it was launched, once, as the last call |
| WalkerProperties.SetupCrashClosesOnce | survey-automation.js:133-135 | a setup call that throws leads to one close, as the last call, unless the launch itself threw, which leads to none |
| WalkerProperties.LoopClosesOnce | survey-automation.js:119-130 | the loop closes the browser once, at the end |
| WalkerProperties.FaultClosesOnce | survey-automation.js:98-135 | the inner `catch` closes the browser once, at the end, on each of its paths |

## Left out

- The `console` listener (line 33) is not modelled. It pushes a
  `[Browser Log]` line whenever the page prints, at any time. Every statement
  about the exact log holds for pages that print nothing.
- Timeouts, typing delays, `waitUntil` and the launch options are left out.
  A call that times out is a call that throws.
- CSS selector matching is left out. Selectors are opaque strings. The page
  oracle gives the number of labels the matrix selector matches, and says
  which call throws.
- Exception messages are opaque strings chosen by the oracle (`e.message`).
- `page.url()` and `browser.close()` are taken never to throw. A throwing
  `close` at line 119, 130 or 135 is not modelled.
- JsStrings.Prefix: strings are modelled as sequences of Unicode scalar
  values, while JavaScript strings count UTF-16 code units. For a code with
  characters outside the Basic Multilingual Plane, `substring(0, 5)` cuts
  after five code units, possibly inside a surrogate pair; `Prefix` keeps
  five characters instead.
- SurveyWalker.StartLine: the `[INIT]` line shows the first five characters
  of the code, not its first five code units, for the same reason.
- WalkerProperties.OnlyCodePrefixLogged: the five-character prefix it speaks
  of is counted in characters, not in code units.
- Lower-casing and trimming cover ASCII only. `toLowerCase` maps only 'A'
  to 'Z', and `trim` removes only space and code points 9 to 13. Unicode
  case mapping and the other Unicode spaces are left out.
- The DOM inside `page.evaluate` is reduced to the `<strong>` texts of the
  `#EndOfSurvey` element, or `None` when `getElementById` finds none.
- The call at lines 141-148, and its JSON printing, are not part of this
  model, and neither is script.js. `SURVEY_CODE` comes from the environment,
  so the model takes the code as a parameter: `None` for an unset variable.

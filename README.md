# PhishGuard, modelled in Dafny

PhishGuard is a single-screen browser form. It takes an email's subject and
body and sends them to an external language-model service for a phishing
verdict. It shows the verdict as a risk gauge, a status banner, a red-flag
list and recommended actions. It also keeps a most-recent-first history of
past verdicts, mirrored into one local-storage slot. Every successful
analysis cuts the history to 20 entries. Loading does not cut it, so a longer
stored list stays longer until the next success. The model therefore states
the cap for each push (`AppLogic.Push`) and not as an object invariant.
The detection itself happens outside the application. This model covers the
logic the application owns:

- `Types` (types.ts): the four-valued `DetectionStatus`, the
  `PhishingAnalysis` verdict record and the `EmailCheckHistory` entry.
  It also has the literal each status is written as, and reading that
  literal back.
- `RiskGauge` (components/RiskGauge.tsx): the three-band colour policy
  `getColor` and the two-segment chart data `score` / `100 - score`.
- `AnalysisResult` (components/AnalysisResult.tsx): the status icon, the
  banner classes, and the red-flag and recommendation lists as a view
  record. The red-flag list shows a notice when there are no flags.
- `AppLogic` (value-level parts of App.tsx):
  - JavaScript's `trim`, used by the blank-body test;
  - the fallback title `subject || body.slice(0, 30) + '...'`;
  - the history update `[newEntry, ...prev].slice(0, 20)`;
  - the storage slot and the load effect.
- `AppView` (App.tsx): the screen as a function of the state: the history
  dot, the submit button, the info box, the right pane, and the history
  rows with their badges.
- `AppState` (App.tsx): the component's state as a class `PhishGuardApp`.
  It has the six state fields, the storage slot, and the request captured
  by the awaited submission. There is one method per event.
  - `handleAnalyze` is split at its `await`. `BeginAnalyze` covers the
    guard and the start of the analysis, and returns the request sent to
    the service. `CompleteAnalyze` takes the service's outcome, and the two
    clock readings, as parameters.
  - The object invariant `Valid()` says two things. The storage slot always
    equals the history (write-through). A request is captured exactly while
    `isAnalyzing` holds.
  - A few client methods run whole event sequences: a blank submission, a
    failed call, a successful call, and a reload.

Five behaviours of the code that are easy to misread:

- **Clearing the history.** `clearHistory` removes the stored slot
  (App.tsx:62). Then the write-through effect on `history` (App.tsx:29-31)
  rewrites it with the empty list. So after clearing, the slot holds `[]`
  and is not absent. Either way a reload yields an empty history
  (`AppLogic.ClearedSlotLoadsEmpty`).
- **A failed call.** It leaves `currentResult` as it is. That is `None`
  unless a history entry was selected while the call was awaited.
- **Which subject and body an entry uses.** The new entry is titled from
  the subject and body captured at submission. Edits made while the call is
  awaited do not count. The entry is prepended to the history as it is at
  completion, because the source uses a functional state update.
- **Blank subjects.** Only an empty subject falls back to the body's
  opening. A subject of spaces is kept as typed.
- **The fallback title.** It keeps exactly the first 30 characters of the
  body (fewer if the body is shorter), followed by `...`.

## Model

| member | source | states |
|---|---|---|
| `Types.StatusName` | types.ts:2 | the string literal of each of the four statuses, which is also the text shown for a status |
| `Types.ParseStatus` | types.ts:2 | a string read as a status is that status's literal |
| `Types.StatusNameRoundTrip` | types.ts:2 | every status, written as its literal and read back, is itself |
| `Types.ParseStatusExact` | types.ts:2 | a string is accepted as a status iff it is one of the four literals |
| `RiskGauge.GetColor` | components/RiskGauge.tsx:15-19 | the colour is green below 30, amber from 30 below 70, red from 70, i.e. the colour of the score's band |
| `RiskGauge.ColourDeterminesBand` | components/RiskGauge.tsx:15-19 | two scores get the same colour iff they are in the same band |
| `RiskGauge.BandMonotone` | components/RiskGauge.tsx:15-19 | a higher score is never in a lower band |
| `RiskGauge.BandBoundaries` | components/RiskGauge.tsx:16-18 | the colour changes between 29 and 30 and between 69 and 70 |
| `RiskGauge.Segments` | components/RiskGauge.tsx:10-13 | two segments "Risk" = score and "Safe", summing to exactly 100, both non-negative for a score in 0..100 |
| `RiskGauge.Gauge` | components/RiskGauge.tsx:9-45 | the arc fill and the numeric caption share the score's band colour; the caption is the score; the track colour differs from the fill |
| `AnalysisResult.StatusIcon` | components/AnalysisResult.tsx:14-21 | ShieldCheck in emerald for Safe, AlertTriangle in amber for Suspicious, ShieldAlert in red for Malicious; no icon exactly for Pending |
| `AnalysisResult.StatusColors` | components/AnalysisResult.tsx:23-28 | the banner's class string for each of the four statuses, the empty string for Pending |
| `AnalysisResult.IconMatchesBanner` | components/AnalysisResult.tsx:14-28 | a status has an icon iff its banner classes are non-empty iff it is not `Pending` |
| `AnalysisResult.StatusIconInjective` | components/AnalysisResult.tsx:14-21 | distinct decided statuses get distinct icons |
| `AnalysisResult.Items` | components/AnalysisResult.tsx:64-69 | one item row per string, the i-th row holding the i-th string |
| `AnalysisResult.ItemsRoundTrip` | components/AnalysisResult.tsx:87-92 | the texts read back from the item rows are the input list, and there is no notice |
| `AnalysisResult.RedFlagRows` | components/AnalysisResult.tsx:64-70 | one amber-triangle item per flag, the i-th holding the i-th flag, and, when there are no flags, just the notice "No significant red flags detected." |
| `AnalysisResult.ActionRows` | components/AnalysisResult.tsx:87-92 | one chevron item per recommendation, the i-th holding the i-th recommendation |
| `AnalysisResult.RedFlagRowsSpec` | components/AnalysisResult.tsx:64-70 | each red flag appears once, in input order; the "no significant red flags" notice appears once iff the list is empty |
| `AnalysisResult.ActionRowsSpec` | components/AnalysisResult.tsx:87-92 | each recommendation appears once, in order; no notice; an empty list renders nothing |
| `AnalysisResult.Render` | components/AnalysisResult.tsx:30-95 | the panel for one verdict: banner classes, icon, heading "Detection Result: " + status, gauge, red-flag list, rationale and recommendation list |
| `AnalysisResult.RenderShowsVerdict` | components/AnalysisResult.tsx:30-95 | the status, the score, both lists and the rationale can be read back from the rendered panel |
| `AppLogic.IsWhitespace` | App.tsx:35 | the characters `trim` strips: tab, line feed, vertical tab, form feed, carriage return, space, no-break space, the other Unicode space separators, the line and paragraph separators and the byte-order mark |
| `AppLogic.Trim` | App.tsx:35 | `body.trim()`: leading, then trailing whitespace removed |
| `AppLogic.IsBlank` | App.tsx:35 | `!body.trim()`: the trimmed body is the empty string |
| `AppLogic.TrimStart` | App.tsx:35 | leading-whitespace removal never lengthens the text |
| `AppLogic.TrimStartSpec` | App.tsx:35 | what is left is a suffix that starts with a non-blank, and only blanks were removed |
| `AppLogic.TrimEndSpec` | App.tsx:35 | what is left is a prefix that ends with a non-blank, and only blanks were removed |
| `AppLogic.BlankIffAllWhitespace` | App.tsx:35 | `!body.trim()` holds iff every character of the body is whitespace |
| `AppLogic.EntryTitle` | App.tsx:47 | a non-empty subject is the title; otherwise the title is the first min(30, length) characters of the body followed by "..." |
| `AppLogic.FallbackTitleShape` | App.tsx:47 | a fallback title is never empty, is the whole body plus "..." for a body of at most 30 characters, and is 33 characters long for a longer body |
| `AppLogic.NewEntry` | App.tsx:44-49 | the entry carries the returned verdict, the given id and time, and the (fallback) title |
| `AppLogic.Push` | App.tsx:51 | the new history has length min(old + 1, 20), at most 20; its head is the new entry and its tail is a prefix of the old history |
| `AppLogic.PushEvictsOldest` | App.tsx:51 | a full history drops exactly its oldest entry |
| `AppLogic.PushKeepsAll` | App.tsx:51 | a history with room keeps every old entry behind the new one |
| `AppLogic.PushAllNewest` | App.tsx:51 | after any non-empty run of successes the history is the newest 20 of (the new entries, newest first, then the old history) |
| `AppLogic.Save` | App.tsx:29-31 | the write-through effect always stores a list that parses |
| `AppLogic.LoadHistory` | App.tsx:17-26 | a slot that parses yields its list; a missing, empty or unparsable slot leaves the initial empty history |
| `AppLogic.SaveLoadRoundTrip` | App.tsx:17-31 | a stored history reloads as the same entries in the same order |
| `AppLogic.ClearedSlotLoadsEmpty` | App.tsx:60-63 | whether the slot was removed or rewritten with `[]`, a reload yields an empty history |
| `AppView.SubmitEnabled` | App.tsx:141 | the submit button is enabled iff not analyzing and the body is not blank |
| `AppView.BadgeTone` | App.tsx:204-207 | emerald for Safe, amber for Suspicious, red for everything else (Malicious and Pending) |
| `AppView.BadgeClasses` | App.tsx:204-207 | the badge's class string for each of the three badge colours |
| `AppView.RowOf` | App.tsx:198-219 | one history row: badge classes, status text, entry title and risk score |
| `AppView.Render` | App.tsx:89-248 | the rendered screen: history dot iff the history is non-empty; form unless the history is open; submit enabled and labelled by state; info box iff no result and idle; right pane: history list (or "no history") when open, else report, spinner or placeholder in that priority |
| `AppView.BadgeMatchesIcon` | App.tsx:204-207 | a decided verdict's badge has its panel icon's colour; `Pending` and `Malicious` share the red badge, and only they do |
| `AppView.HistoryRows` | App.tsx:197-219 | one row per history entry, in stored order |
| `AppView.HistoryPaneAgreesWithDot` | App.tsx:89-221 | the history dot is lit iff the open history pane lists entries; the pane lists every entry's title in order |
| `AppView.ExactlyOneMainView` | App.tsx:159-248 | with the history closed, exactly one of report, spinner or placeholder is rendered; the report iff there is a result; the info box is rendered iff the placeholder is |
| `AppView.EnabledMeansIdle` | App.tsx:139-155 | an enabled submit button means no spinner, the idle label, and a body with a non-whitespace character |
| `AppState.PhishGuardApp.constructor` | App.tsx:9-31 | initial state: empty fields, idle, no result, history closed; the history is what the slot loads; the slot mirrors it |
| `AppState.PhishGuardApp.SetSubject` | App.tsx:122 | typing changes the subject and nothing else |
| `AppState.PhishGuardApp.SetBody` | App.tsx:133 | typing changes the body and nothing else |
| `AppState.PhishGuardApp.BeginAnalyze` | App.tsx:33-41 | a request is sent iff not analyzing and the body is non-blank; it carries the current subject and body, sets analyzing and clears the result, after which the button is disabled, the info box is gone and the closed-history pane renders the spinner; otherwise nothing changes |
| `AppState.PhishGuardApp.CompleteAnalyze` | App.tsx:40-57 | analysis ends; on success the result is shown and the history becomes Push(entry from the submitted subject and body, current history); on failure result, history and slot are unchanged; the button is enabled again iff the body is non-blank; after a success with the history closed the pane renders the new report |
| `AppState.PhishGuardApp.ClearHistory` | App.tsx:60-63 | the history is empty, the slot mirrors it and reloads empty; the history dot goes out and an open pane renders "no history" |
| `AppState.PhishGuardApp.SelectHistoryItem` | App.tsx:65-69 | the item's verdict becomes the result and the history pane closes, so the pane renders that verdict's report without the info box; the history is unchanged |
| `AppState.PhishGuardApp.ToggleHistory` | App.tsx:84 | the history pane flips and nothing else changes |
| `AppState.Reload` | App.tsx:17-31 | reloading from the slot brings back the same history, in order |
| `AppState.BlankSubmission` | App.tsx:35 | a whitespace-only body sends nothing and records nothing |
| `AppState.FailedSubmission` | App.tsx:33-57 | a failure right after submitting leaves no result and the history as loaded |
| `AppState.SuccessfulSubmission` | App.tsx:33-58 | a success is shown and heads the capped history under the subject typed at submission, even if the field is edited meanwhile |

## Left out

- The external analysis call (`analyzeEmail`, services/geminiService) is not part of this model. Its outcome, a verdict or a failure, is a parameter of `CompleteAnalyze`. Checking the response's shape happens inside that service and is not modelled.
- Asynchrony is modelled only as the split into `BeginAnalyze` and `CompleteAnalyze`. `CompleteAnalyze` requires an analysis in flight, because its continuation exists only for a call `BeginAnalyze` started. A call that never settles is a `CompleteAnalyze` that is never made.
- `localStorage`, `JSON.stringify` and `JSON.parse` become a slot with four states: missing, empty text, a parsed list, unparsable text. JSON text is not modelled. A stored value that parses but is not a list is not modelled either.
- React's effect ordering on mount is ignored. The constructor runs the load effect, then the write-through effect.
- `Date.now()` is read twice, for the id and for the timestamp. Both readings are parameters. Nothing is claimed about their equality or uniqueness.
- `console.error`, `alert` and `window.scrollTo` have no effect on the state and are left out.
- Markup, the Tailwind classes other than the status-to-style maps, and the Lucide icon components are left out. So is the recharts geometry (angles and radii), and the footer year.
- The screen is the wide (lg) layout. Below that breakpoint the right column is hidden while the history is closed (App.tsx:175), so the report, spinner or placeholder that `AppView.Render` renders is not visible there. While the history is open, the info box is hidden together with the form (App.tsx:99). `AppView` describes what is rendered, not what a narrow viewport shows.
- Dates shown on history rows (`toLocaleDateString`) are left out.
- The `classicModelScore` bar is left out. The field is optional and is rendered without a guard, so there is nothing to state about it.
- Scores are JavaScript numbers, with no clamping or validation in the code. They are modelled as `int`. Range facts are stated only under `0 <= score <= 100`.
- Strings are sequences of Unicode scalar values. JavaScript's `slice` counts UTF-16 code units. `AppLogic.EntryTitle` therefore keeps 30 characters where the source keeps 30 code units; the two differ for text outside the Basic Multilingual Plane.
- `AnalysisResult.IconMatchesBanner` does not state that the banner's colour family matches the icon's colour. It states only that exactly the decided statuses have both an icon and a styled banner.
- `AppState.SuccessfulSubmission` states the result and the history, but not the resulting screen. What the screen shows for a given state is stated by the `AppView` lemmas.

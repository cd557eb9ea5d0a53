# Content-risk analyzer: a Dafny model

This project models the analysis core of the single-page app in
`src/App.js`. A user pastes a suspicious message, or picks a video or
audio file. The app validates the input and simulates a backend call
(`runAnalysis`). It then shows a fake/real score split, a risk tier
(Low, Medium or High), a list of explanations, a coloured badge, a
result-card border and a closing piece of advice.

The model has four modules:

- `JsText` covers the JavaScript string operations the core uses:
  `String.prototype.trim` (with the ECMAScript white-space and
  line-terminator set), `toLowerCase` on ASCII letters, and `includes`.
- `Scoring` covers `runAnalysis`:
  - the 18-keyword hit count on the text tab, and the random 2..6 stand-in
    count on the media tabs;
  - the capped fake score and the complementary real score;
  - the tier thresholds (above 60 is High, above 33 is Medium);
  - the static explanation table.
- `Presentation` covers the `RiskBadge` style map with its Medium fallback,
  the badge caption, `riskBorder`, and the advice line of the result card.
- `Session` covers the `Analyzer` component:
  - The component becomes a class holding its state hooks (text, tab,
    loading, step, results, file, warning, error).
  - The handlers become methods: `reset`, `switchTab`, `validate`, the
    synchronous part of `analyze`, one progress-timer tick, the backend's
    resolve and reject, and the textarea, drop-zone and dismiss handlers.
  - The class also holds the tab and text that `analyze` handed to the
    pending `runAnalysis` call.

The two calls to `Math.random` become parameters:

- `mediaRoll` is in 0..4 and gives `mediaRoll + 2` hits.
- `jitter` is in 0..14.

Elapsed time becomes events. `Tick` is one firing of the 750 ms interval.
`Complete` and `Fail` are the promise settling.

### Behaviour of the code worth knowing

- **Reset does not cancel a run.** `reset` and `switchTab` (`src/App.js:233-234`)
  do not cancel a run that is in flight.
  - `loading` stays true and the interval keeps advancing the step.
  - When the pending `runAnalysis` call resolves, it stores a result
    computed from the text and tab submitted before the reset, even though
    the input has been cleared or the tab has changed since.
  - While a run is in flight, the only control that resets is a tab button
    (`src/App.js:289`). The button that starts over (line 451) is inside
    the results card, and there is no result while loading.
  - `Session.ResetDuringRun` is the user clicking the tab already selected
    during a run: loading stays on and the submitted text stays pending.
  - `Session.SwitchTabThenResolve` states the rest: after a tab switch a
    tick still runs, and the stored result is the analysis of the
    submission made before the switch, shown on the new, cleared tab.
- **Completion is not gated on the progress bar.** The result is stored
  whenever the call resolves, whatever step the progress bar has reached
  (`src/App.js:247-248`).
  - With the code's fixed delays (3200 ms against 750 ms ticks), all four
    labels have been shown by then.
  - `Complete` has no precondition on the step.

## Model

| member | source | states |
|---|---|---|
| JsText.TrimStart | src/App.js:237 | the result is a suffix of the input, what it drops is all white space, and it does not start with white space |
| JsText.TrimEnd | src/App.js:237 | the result is a prefix of the input, what it drops is all white space, and it does not end with white space |
| JsText.Trim | src/App.js:237 | `trim` gives a text no longer than the input that neither starts nor ends with white space, and that is empty exactly when the input is all white space |
| JsText.IsBlank | src/App.js:237 | `!text.trim()` holds exactly when every character of the text is ECMAScript white space or a line terminator (the empty text included) |
| JsText.ToLower | src/App.js:207 | lower-casing keeps the length and maps every character through the ASCII A-Z to a-z mapping |
| JsText.ToLowerHasNoUpper | src/App.js:207 | a lower-cased text contains no upper-case ASCII letter |
| JsText.ToLowerIdempotent | src/App.js:207 | lower-casing twice is the same as lower-casing once |
| JsText.StartsWith | src/App.js:207 | the prefix test holds exactly when the key is no longer than the text and equals the text's first part |
| JsText.Includes | src/App.js:207 | a key can only be included in a text at least as long as itself, and the empty key is included in every text |
| JsText.IncludesIff | src/App.js:207 | `s.includes(k)` holds exactly when k occurs in s at some position |
| JsText.ExcludedByChar | src/App.js:251 | a key containing a character that s lacks is not included in s |
| Scoring.TabIdInjective | src/App.js:288 | different tabs have different ids, so the id comparisons of lines 206 and 237-238 tell the tabs apart |
| Scoring.CountIncluded | src/App.js:207 | the filter-and-count is at most the list length, is zero exactly when no key occurs, and equals the length exactly when every key occurs |
| Scoring.CountIsSetSize | src/App.js:207 | for a list without repetitions, the count is the size of the set of keys that occur |
| Scoring.KeywordsDistinct | src/App.js:204-205 | the keyword list has 18 entries, none repeated |
| Scoring.TextHits | src/App.js:204-207 | the text-tab hit count is at most the number of keywords |
| Scoring.TextHitsCountsKeywords | src/App.js:204-207 | text-tab hits are the number of distinct keywords occurring in the lower-cased text, at most 18 |
| Scoring.TextHitsIgnoreCase | src/App.js:207 | a text and its lower-cased form score the same hits |
| Scoring.MediaHits | src/App.js:208 | the media-tab stand-in hit count is between 2 and 6 |
| Scoring.Hits | src/App.js:206-208 | on the text tab the hit count is at most the number of keywords; on the video and audio tabs it is between 2 and 6 |
| Scoring.FakeScore | src/App.js:209 | the fake score is between 14 and 96, never above the uncapped score, and equal either to the cap or to the uncapped score |
| Scoring.RealScore | src/App.js:210 | fake and real scores add up to 100, so a fake score in 14..96 gives a real score in 4..86 |
| Scoring.Classify | src/App.js:211 | High exactly above 60, Medium exactly on 34..60, Low exactly at or below 33 |
| Scoring.ClassifyMonotone | src/App.js:211 | a higher fake score never gives a lower tier |
| Scoring.ClassifyBoundaries | src/App.js:211 | 33 is Low, 34 and 60 are Medium, 61 is High |
| Scoring.Explanations | src/App.js:212-216 | the High tier has five explanations, the other tiers four |
| Scoring.ExplanationsIdentifyTier | src/App.js:212-217 | every tier's list is non-empty, and different tiers have different lists |
| Scoring.RunAnalysis | src/App.js:202-218 | the result is well formed: fake plus real is 100, fake in 14..96, real in 4..86, the tier classifies the fake score, and the explanations are that tier's entry |
| Scoring.TierOfHits | src/App.js:209-211 | the tier is High exactly when 12*hits + jitter > 46, and Low exactly when it is at most 19 |
| Scoring.TierBounds | src/App.js:208-211 | for every jitter: 0 hits give Low, 2 hits give Medium, 4 or more give High, and 2 or more are never Low |
| Scoring.ScoreMonotone | src/App.js:209-211 | more hits never lower the fake score or the tier |
| Scoring.MediaNeverLow | src/App.js:206-211 | a video or audio submission is never rated Low |
| Scoring.TextResultDeterministic | src/App.js:206-209 | on the text tab the result does not depend on the media roll, and the text's case does not matter |
| Scoring.NoIndicatorIsLow | src/App.js:204-217 | a text with no keyword is Low, with a fake score in 14..28 and the four Low explanations |
| Scoring.FourIndicatorsAreHigh | src/App.js:204-217 | a text in which four distinct keywords occur is High, with five explanations |
| Scoring.SixHitsScenario | src/App.js:209-217 | six hits give a fake score in 86..96, a real score in 4..14, High, and the High explanations, the first about urgency manipulation |
| Presentation.BadgeFor | src/App.js:107-113 | any level other than "Low" and "High" falls back to the Medium style |
| Presentation.BadgeForTier | src/App.js:107-113 | each tier's name selects that tier's own style entry |
| Presentation.CaptionNamesLevel | src/App.js:122 | two different levels, in particular two different tiers, never get the same badge caption |
| Presentation.RiskBorder | src/App.js:255 | the border is empty exactly when there is no result |
| Presentation.TiersDistinguishable | src/App.js:444-448 | two results with different tiers get different advice lines (the closing line of the result card, `Presentation.Advice`), different badge messages and different borders |
| Session.NextStep | src/App.js:245 | one tick never moves the step back, advances it by one below the last label, and holds it at the last label |
| Session.StepAfterTicks | src/App.js:245 | after n ticks the step is min(start + n, 3) and stays on the label list |
| Session.StepAfterMonotone | src/App.js:245 | more ticks never give an earlier step |
| Session.Check | src/App.js:236-238 | validation objects with the empty-input objection exactly when the text tab's text trims to empty, and with the missing-file objection exactly when a media tab has no file |
| Session.CheckAcceptsIff | src/App.js:236-239 | a submission passes exactly when the text tab's text has a non-white-space character, or a media tab has a file; the empty-input objection comes exactly when the text is all white space |
| Session.WarningText | src/App.js:237-238 | each objection has a non-empty warning, and the missing-file warning names the tab |
| Session.ErrorText | src/App.js:251 | a message containing "fetch" becomes the server-unreachable text, any other message is shown as is, and a missing message shows nothing |
| Session.ErrorTextStable | src/App.js:251 | classifying the error text again leaves it unchanged |
| Session.ErrorTextEmptyIff | src/App.js:251 | the error text is empty exactly when the message is missing or empty |
| Session.Analyzer.constructor | src/App.js:222-229 | the initial state is empty text, text tab, not loading, step 0, and no result, file, warning or error |
| Session.Analyzer.EditText | src/App.js:306 | typing sets the text and clears the warning and the error, and nothing else changes |
| Session.Analyzer.ChooseFile | src/App.js:320 | picking or removing a file sets it and clears the warning and the error |
| Session.Analyzer.DismissError | src/App.js:348 | dismissing clears the error only |
| Session.Analyzer.Reset | src/App.js:233 | reset clears the result, text, file, warning and error; the tab, loading, step and the pending call are kept |
| Session.Analyzer.SwitchTab | src/App.js:234 | switching selects the tab and then resets |
| Session.Analyzer.Validate | src/App.js:236-240 | it succeeds exactly when the submission has no objection; on failure the warning is the objection's text, and on success the warning is cleared |
| Session.Analyzer.Analyze | src/App.js:242-244 | a refused submission changes only the warning; an accepted one starts loading at step 0 with no result and no error, and hands the current tab and text to the pending call |
| Session.Analyzer.Start | src/App.js:244 | after validation has passed: loading, no result, no error, step 0, and the current tab and text handed to the pending call |
| Session.Analyzer.Tick | src/App.js:245 | a tick advances the step as NextStep does, and the state invariant holds |
| Session.Analyzer.Complete | src/App.js:247-252 | the result is the analysis of the submitted tab and text, the step moves past the last label, and loading stops |
| Session.Analyzer.Fail | src/App.js:249-252 | the error is the classified message, loading stops, and there is no result |
| Session.TextSession | src/App.js:237-245 | a typed message starts a run exactly when it is not blank; a blank one gets the empty-input warning and stays at step 0; a started run reaches the last label after four ticks, with exactly that text pending |
| Session.EmptySubmission | src/App.js:234-243 | with nothing entered, every tab refuses the run with its own non-empty warning and does not load |
| Session.ResetDuringRun | src/App.js:233-245 | clicking the selected text tab during a run clears the text but leaves loading on, with the submitted text still pending |
| Session.SwitchTabThenResolve | src/App.js:234-252 | switching tab during a run, then a tick and the call resolving: the new tab is selected and cleared, the step passes the last label, loading stops, and the stored result is the analysis of the tab and text submitted before the switch |

## Left out

- Rendering is not modelled: JSX, animation, styling, the hero section and
  the page chrome around the analyzer. `Presentation` keeps only the values
  the core computes for display.
- The `Ring` gauge and the file-size display are not modelled, because they
  use floating point (stroke offsets, megabytes).
- The 3200 ms delay and the 750 ms interval are not modelled as time. Ticks
  and the promise settling are separate events, so any interleaving of
  `Tick`, `Complete` and `Fail` calls after `Analyze` is allowed.
- `Math.random` is not modelled. Both draws are parameters, restricted to
  the ranges that `Math.floor(Math.random() * n)` can produce.
- The `FileDropZone` component's own state is not modelled: its dragging
  flag, its copy of the file, and the DOM input. A drop or pick reaches the
  model as `ChooseFile`, with only the name, size and type of the file.
- A call to `analyze` while a run is in flight is excluded
  (`Analyze` requires `!loading`), because the button is disabled while
  loading.
- JsText.ToLower: lowers only the ASCII letters A-Z.
  - `toLowerCase` also maps non-ASCII characters.
  - The Kelvin sign U+212A lower-cases to the ASCII letter "k", so a text
    spelling "kyc" with it scores a hit in a browser but not in the model.
- Scoring.TextHits: takes the text as a string. The source's `(text || "")`
  guard for a null text cannot trigger, because the text state is always
  a string.
- Session.ErrorText: an error without a message (`e.message` undefined)
  becomes the empty text. In the source the error state then holds
  `undefined`, which displays the same way: nothing, because both are falsy.
- Presentation.BadgeFor: unknown levels fall back to the Medium style.
  - In JavaScript, a key inherited from `Object.prototype` (such as
    "toString") would find a value other than a style.
  - The level shown always comes from `runAnalysis`, so it is one of the
    three tier names.
- Presentation.Advice: selects the closing line by tier, not by comparing
  strings. The tier comes from the same three-way test as the source's
  string comparison.
- Scoring.SixHitsScenario: takes the hit count as a premise, instead of
  computing it from the example sentence, and likewise for
  `Scoring.NoIndicatorIsLow`.
  - Evaluating the keyword search on a full literal sentence is beyond
    what the verifier settles here.
  - So the exact hit counts of particular example messages are not proved.
- A real backend (a `fetch` to a Django server) is not modelled. Its only
  trace in the core is the error classification in `Session.ErrorText`.

# Shopping-decision session of Edu-Inno

Edu-Inno is a one-page web lesson on rational choice for fourth-graders. The
student names an item to buy. A language model proposes a price range, and
the page draws a budget from it. The student then picks up to three
evaluation criteria. The model generates three alternatives with prices, and
the student scores each alternative per criterion with one to five stars.
The page refuses a top price score for an alternative over the budget,
showing a "nudge" popup instead. The student then stages a final choice and
confirms it. Confirming opens either a budget warning or a two-blank learning
summary, whose answers the model comments on.

All of this lives in the `App` component of `src/App.jsx`: one record of
`useState` variables changed by event handlers. This project models it as
follows.

- `Shop.Session` is a class holding those variables as fields.
- Every handler is a method whose `modifies` clause names exactly the fields
  the handler sets.
- Each of the three requests to the language model is split in two: the
  synchronous part of the handler (`SubmitItem`, `FetchOptions`,
  `SubmitAnswers`), and the continuation that receives the reply
  (`ReceiveBudget`, `ReceiveOptions`, `ReceiveFeedback`).
- The replies are parameters: `Budget.Reply`, `Shop.OptionsReply` and
  `Shop.FeedbackReply`.

The pure parts are functions with lemmas.

| module | what it models |
|---|---|
| `Text` | `String.prototype.trim` over the JavaScript white-space set, and the decimal digits of `Date.now()` |
| `Budget` | clamping the proposed range, the budget draw and the fallback |
| `Criteria` | the six suggested criteria, `toggleCriterion` and `addCustomCriterion` on the selection |
| `Ratings` | initial scores, `calculateTotal` and its bounds |
| `Progress` | `getCurrentStep` |
| `Shop` | the session class and its handlers |
| `Scenarios` | handlers called in sequence: a failed alternatives request, and a worked pencil-case session |

`Math.random()` and `Date.now()` are parameters:
- `k` is the budget draw `Math.floor(Math.random() * …)`;
- `d` is the fallback draw;
- `now` is the clock reading.

The budget is an `int`. The restart buttons set it to `''`, and `Number('')`
reads that as 0.

## Behaviour worth noting

Each point is modelled as the code behaves.

- **Budget draw.** The comment at src/App.jsx:143 says the budget is drawn
  within the range in 1000-won steps. The draw at src/App.jsx:144 is
  `min' + 1000·k` with `1000·k < max' − min' + 1000`. It is a multiple of
  1000 only when `min'` is one, and it can exceed `max'`.
  `Budget.DrawWithinMaxIffAligned` proves that every draw stays at or below
  `max'` exactly when `max' − min'` is a multiple of 1000. Otherwise the
  largest draw overshoots `max'` by less than 1000.
- **Empty range fields.** The clamp takes `min || 5000` and `max || 50000`
  (src/App.jsx:140-141), so a missing or zero field is replaced by a default
  before clamping.
- **Failed alternatives request.** `fetchOptions` clears
  `showCriteriaSelection` before the request (src/App.jsx:187). After a
  failure `options` is `null` and `loading` is false, so the page shows the
  item form (src/App.jsx:478) with the error, not the criteria selection
  (`Scenarios.FailedFetchReturnsToItemEntry`).
- **Custom ids.** `addCustomCriterion` names a new criterion
  `custom_${Date.now()}` without checking the selection (src/App.jsx:176), so
  two custom criteria added within the same millisecond share an id.
  `Shop.Session.AddCustomCriterion` keeps ids unique only when the new id is
  not already selected.
- **Step 3.** `getCurrentStep` returns 3 for `loading` with
  `showCriteriaSelection` set (src/App.jsx:456). `fetchOptions` sets
  `loading` and clears `showCriteriaSelection` together, so the step shown
  while alternatives load, with no popup or summary open, is 2
  (`Shop.Session.FetchOptions`).
- **Cancelling the comparison.** The cancel button at src/App.jsx:1012 only
  hides the popup; `pendingChoice` stays.
- **Trying another choice.** The button at src/App.jsx:1190-1195 closes the
  summary and clears the feedback and the answers. The alternatives and the
  scores stay.
- **Going back to the start.** The button at src/App.jsx:1201-1212 does not
  touch `pendingChoice`, `error`, the nudge, `showFinalCheck`,
  `showBudgetWarning`, `customCriterion` or the loading flags; they keep
  their values.

## Model

| member | source | states |
|---|---|---|
| Text.TrimStartShape | src/App.jsx:109 | trimming the front leaves a suffix of the input that is empty or starts with a non-space |
| Text.TrimEndShape | src/App.jsx:109 | trimming the back leaves a prefix of the input that is empty or ends with a non-space |
| Text.TrimStartEmptyIffBlank | src/App.jsx:109 | trimming the front gives "" exactly when every character is JavaScript white space |
| Text.TrimEndKeepsSolidHead | src/App.jsx:109 | a text starting with a non-space is not trimmed away at the back |
| Text.TrimEmptyIffBlank | src/App.jsx:109 | `s.trim()` is "" (falsy) exactly when `s` is empty or all white space |
| Text.Trim | src/App.jsx:109 | `s.trim()` is no longer than `s` and has no JavaScript white space at either end |
| Text.Filled | src/App.jsx:173 | a text is truthy after `trim()` exactly when it is not empty or all white space |
| Text.Decimal | src/App.jsx:176 | the decimal rendering has at least one digit, and at least two from 10 on |
| Text.DecimalInjective | src/App.jsx:176 | different clock readings render as different digit strings |
| Budget.ClampedMin | src/App.jsx:140 | the lower bound is at least 1000; it is the proposed min (5000 if absent or 0) unless that is below 1000 |
| Budget.ClampedMax | src/App.jsx:141 | the upper bound is at least lower bound + 5000 (so at least 6000); it is the proposed max (50000 if absent or 0) unless that is too small |
| Budget.Drawn | src/App.jsx:144 | a drawn budget lies in [lower bound, upper bound + 1000) and is a whole number of 1000-won steps above the lower bound |
| Budget.DrawWithinMaxIffAligned | src/App.jsx:141-144 | all draws stay at or below the upper bound if and only if the range spans a whole number of 1000-won steps |
| Budget.DrawReachesEveryStep | src/App.jsx:144 | every 1000-won step from the lower to the upper bound has a draw giving it |
| Budget.Fallback | src/App.jsx:154 | the default budget is a multiple of 10000 in [10000, 90000] |
| Budget.FallbackReachesEveryStep | src/App.jsx:154 | every multiple of 10000 in [10000, 90000] can be the default budget |
| Budget.Derived | src/App.jsx:139-155 | the stored budget is at least 1000; a proposal gives a draw in [lower bound, upper bound + 1000), a failure a fallback multiple of 10000 in [10000, 90000] |
| Criteria.HasId | src/App.jsx:164 | `find` on the selection by id (a predicate; see `Criteria.HasIdIffMember`) |
| Criteria.HasIdIffMember | src/App.jsx:164 | `find` succeeds exactly when some selected criterion carries the id |
| Criteria.Without | src/App.jsx:165 | filtering never lengthens the selection |
| Criteria.WithoutMembers | src/App.jsx:165 | the filter keeps exactly the criteria whose id differs from the one removed |
| Criteria.WithoutAbsent | src/App.jsx:165 | filtering out an id that is not selected changes nothing |
| Criteria.WithoutAppend | src/App.jsx:165 | filtering a concatenation filters each part |
| Criteria.WithoutSingle | src/App.jsx:165 | filtering out an id held by one criterion only drops exactly that criterion |
| Criteria.WithoutKeepsUnique | src/App.jsx:165 | filtering keeps the ids unique |
| Criteria.UniqueSplit | src/App.jsx:164-165 | with unique ids, the id at one position occurs nowhere before or after it |
| Criteria.WithoutAt | src/App.jsx:164-165 | with unique ids, removing the id at position p leaves the others in their original order |
| Criteria.Toggled | src/App.jsx:163-169 | the bound of 3 is kept; the id is selected afterwards iff it was not selected and there was room; other criteria stay and nothing but the clicked criterion is added |
| Criteria.ToggleRemovesInPlace | src/App.jsx:164-165 | toggling a selected criterion removes it and keeps the rest in order |
| Criteria.ToggleAppends | src/App.jsx:166-167 | toggling an unselected criterion with room appends it at the end |
| Criteria.ToggleWhenFullIsNoop | src/App.jsx:163-169 | with three selected, toggling an unselected criterion changes nothing |
| Criteria.ToggleKeepsUnique | src/App.jsx:163-169 | toggling keeps the selected ids unique |
| Criteria.ToggleTwiceRestores | src/App.jsx:163-169 | toggling the same unselected criterion twice gives back the original selection, whether or not the selection is full |
| Criteria.CustomId | src/App.jsx:176 | a custom id is `custom_` followed by at least one character (the digits of the clock reading) |
| Criteria.CustomIdInjective | src/App.jsx:176 | `custom_${now}` ids from different clock readings differ |
| Criteria.CustomIdNotSuggested | src/App.jsx:176 | a custom id never clashes with a suggested criterion's id |
| Criteria.WithCustom | src/App.jsx:172-180 | the bound of 3 is kept; the selection is unchanged or gains exactly the typed (untrimmed) text as a criterion with the sparkles emoji; it changes iff the text is not blank and there is room |
| Criteria.WithCustomKeepsUnique | src/App.jsx:172-180 | with a fresh custom id, adding keeps the ids unique |
| Ratings.InitialRatings | src/App.jsx:292-295 | the `forEach` loop yields a map whose keys are exactly the selected ids, each mapped to 0 |
| Ratings.Cell | src/App.jsx:882 | a cell shows the stored score, 0 for an unscored criterion, and 0 to 5 when the table is in star range |
| Ratings.Total | src/App.jsx:334-337 | an empty table totals 0; the sum itself is characterised by `Ratings.TotalRemove`, its bounds by `Ratings.TotalBounded` |
| Ratings.TotalRemove | src/App.jsx:334-337 | the total is one score plus the total of the others, whichever key is taken out |
| Ratings.TotalOfZeros | src/App.jsx:292-300 | a map of zeros totals 0 |
| Ratings.TotalBounded | src/App.jsx:334-337 | with scores of 0 to 5 the total is between 0 and 5 per scored criterion |
| Ratings.TotalAfterRating | src/App.jsx:324-330 | setting one cell changes the total by the new score minus the shown one |
| Ratings.IdSetSize | src/App.jsx:902 | a selection has at most as many distinct ids as entries |
| Ratings.TotalAtMostShownMaximum | src/App.jsx:899-902 | a total over scores for the selected criteria never exceeds the "(max 5 × criteria)" shown beside it |
| Progress.CurrentStep | src/App.jsx:450-462 | the step is 1 to 6 and each step holds exactly when its flags say so: 6 for summary or feedback, then 5 for final check or warning, then 4 for options, 3 for loading alternatives with the criteria open, 2 otherwise loading or criteria open, and 1 when nothing is active |
| Shop.Session.Step | src/App.jsx:450-462 | the session's step is between 1 and 6 |
| Shop.Session.AtItemEntry | src/App.jsx:478 | when the item form is on screen and no popup or summary is open, the step is 1 |
| Shop.Session.AtCriteriaSelection | src/App.jsx:532 | when the criteria selection is on screen with no alternatives and no popup or summary open, the step is 2 |
| Shop.Session.NudgeFires | src/App.jsx:312-316 | the nudge fires only for a 5-star price score on an alternative strictly over budget, never for one priced exactly at the budget |
| Shop.Session.Shortfall | src/App.jsx:1062 | the shortfall is at most 0 when the staged alternative is within budget |
| Shop.Session.ChoiceOverBudget | src/App.jsx:351 | the staged choice is over budget exactly when the shortfall is positive |
| Shop.Session.constructor | src/App.jsx:65-105 | a fresh session has every field at its `useState` default, is at the item form and shows step 1 |
| Shop.Session.EditItem | src/App.jsx:496 | typing sets the item and nothing else |
| Shop.Session.EditCustomCriterion | src/App.jsx:620 | typing sets the custom criterion field and nothing else |
| Shop.Session.EditAnswers | src/App.jsx:1117-1135 | typing sets the two answers and nothing else |
| Shop.Session.SubmitItem | src/App.jsx:107-116 | the request starts iff the item is not blank; a blank item only sets the "item missing" error; otherwise loading is set and the error cleared |
| Shop.Session.ReceiveBudget | src/App.jsx:139-159 | success and failure both store the derived budget (at least 1000), open the criteria selection with nothing selected and stop loading; nothing else changes |
| Shop.Session.ToggleCriterion | src/App.jsx:163-169 | the new selection is the toggled one, within 3 and with unique ids kept |
| Shop.Session.AddCustomCriterion | src/App.jsx:172-180 | a blank text or a full selection changes nothing, not even the input; otherwise exactly one criterion with the sparkles emoji is appended and the input cleared; unique ids are kept when the new `custom_` id is not already selected |
| Shop.Session.FetchOptions | src/App.jsx:183-188 | loading starts with error, options and criteria flag cleared; when no popup or summary is open, the step shown is 2 |
| Shop.Session.ReceiveOptions | src/App.jsx:289-306 | on success the alternatives are stored and all three score maps are the zero map over the selected ids, totalling 0; on failure only the error is set; loading stops either way, back at the item form after a failure that follows `FetchOptions` |
| Shop.Session.UpdateRating | src/App.jsx:310-331 | a top price score for an alternative strictly over budget leaves the scores untouched and shows the nudge with overage price − budget > 0; any other click sets exactly that cell, keeps every other cell and alternative, and changes the total by new − old |
| Shop.Session.DismissNudge | src/App.jsx:956 | closing the popup only hides the nudge |
| Shop.Session.ChooseFinal | src/App.jsx:340-343 | the choice is staged and the comparison opened |
| Shop.Session.CancelFinalCheck | src/App.jsx:1012 | cancelling only hides the comparison; the staged choice stays |
| Shop.Session.ConfirmFinalChoice | src/App.jsx:346-364 | the comparison always closes; over budget, the warning opens with a positive shortfall and the summary stays shut; otherwise the summary opens with empty answers and no feedback, at step 6 |
| Shop.Session.CloseBudgetWarning | src/App.jsx:1077 | closing only hides the warning |
| Shop.Session.SubmitAnswers | src/App.jsx:367-377 | the request starts iff both answers are not blank; otherwise only the "answers missing" error is set, with the feedback and its loading flag untouched |
| Shop.Session.ReceiveFeedback | src/App.jsx:440-446 | the feedback is stored or the "feedback failed" error is set; loading stops either way |
| Shop.Session.TryAnotherChoice | src/App.jsx:1190-1195 | the summary closes with answers and feedback cleared; alternatives and scores stay |
| Shop.Session.StartOver | src/App.jsx:1201-1212 | summary, answers, feedback, alternatives, item, budget, criteria and scores are reset; the session is at the item form unless loading |
| Shop.Session.ChooseAgain | src/App.jsx:1227-1233 | alternatives, item, budget and criteria are reset, the scores kept; the session is at the item form unless loading |
| Scenarios.FailedFetchReturnsToItemEntry | src/App.jsx:183-307 | from the criteria selection, a failed alternatives request ends at the item form with the error, selection and budget kept |
| Scenarios.PencilCaseBudget | src/App.jsx:107-159 | a pencil case with proposed range 3000 to 8000 and the sixth step drawn gets budget 8000 and an empty criteria selection |
| Scenarios.SelectFirstThree | src/App.jsx:163-169 | clicking the first three suggestions on an empty selection selects them in order |
| Scenarios.FirstThreeToggled | src/App.jsx:163-169 | toggling the first, second and third suggestion on an empty selection gives the first three suggestions in order |
| Scenarios.OfferAlternatives | src/App.jsx:183-307 | a successful alternatives request stores the alternatives and scores price 0 |
| Scenarios.NudgeThenConfirm | src/App.jsx:310-364 | against budget 8000, a 5-star price score for the 12000-won alternative is refused with a 4000 nudge and the cell stays 0; staging and confirming the 7000-won one opens the learning summary at step 6 with no warning |
| Scenarios.PencilCase | src/App.jsx:107-364 | against budget 8000, a top price score for the 12000-won alternative is refused with a 4000 nudge, and confirming the 7000-won one opens the learning summary at step 6 |

## Left out

- The OpenAI client, the prompt texts and the `chat.completions.create` calls (src/App.jsx:119-137, 190-288, 380-438), together with `JSON.parse`. They are network I/O and a foreign library. Their outcomes are the reply parameters.
- The content of the replies beyond what the session uses. A non-numeric `min`/`max` is not modelled: `Budget.Range` holds whole numbers or nothing. An `options` array of other than three entries is not modelled either: `Shop.Trio` has exactly three.
- Fractional numbers. `min`, `max` and `price` are whole numbers (`int`). A fractional JSON number, and the non-whole budget and shortfall that would follow from one, are not modelled.
- The `console.error` logging in the three `catch` blocks (src/App.jsx:152, 302, 442). It is console output and changes no state.
- `Math.random()` and `Date.now()` are parameters (`k`, `d`, `now`). The decorative random "4.x" star badge (src/App.jsx:773) is dropped.
- The Korean nudge and error messages and `toLocaleString` formatting. The model keeps the overage amount (`nudgeOverage`) and the cause of each error (`Shop.Problem`).
- Floating-point display and prompt arithmetic: the progress-bar width and the budget multiples quoted in prompts.
- The emoji-stripping `label.replace(/^[^\s]+\s/, '')`. It only shapes prompt text.
- JSX rendering, CSS, and the `ProgressBar`, `AIGuide` and `StarRating` components. Button `disabled` guards are not preconditions, so the methods can be called in any state. An example is the alternatives button, which the page enables only with three criteria.
- Concurrency of the asynchronous handlers. Each request is one handler call followed by one reply call; interleavings of several requests in flight are not modelled.
- Shop.Session.UpdateRating: requires `options` to be present for a top price score, as the handler reads `options[i]`. Star values outside 1 to 5 are excluded because `StarRating` only sends 1 to 5.
- Shop.Session.ConfirmFinalChoice: requires `options` and `pendingChoice` to be present, as the handler indexes `options[pendingChoice]`.
- Ratings.Total: a ghost function; the order in which `reduce` adds the values does not matter for integers and is not modelled.

# AI Notes Summariser — a verified model of its request logic

The app has a React page and a FastAPI service. On the page, a user pastes notes, picks a summary length (3, 5, 8 or 12 sentences) and presses "Summarise". The page checks the text, posts it to the service and shows either the summary or an error. The service strips the text, works out length bounds for a summarisation model, cuts the input to 800 words, runs the model and strips its output.

This project models the two pieces that hold logic, and nothing else:

- **The page's state machine** (`frontend/src/App.jsx`). The class `Frontend.App` holds the seven React state slots: `theme`, `text`, `maxSentences`, `summary`, `loading`, `error` and `copied`. Each event handler is a method that updates them. `handleSummarise` is split at `await fetch(...)`. The later awaits, which read the response body, fall inside `Complete`'s `Outcome`:
  - `StartSubmit` clears the old result, validates, and either shows the rejection or raises `loading` and returns the request body;
  - `Complete(outcome)` applies the response;
  - `Summarise` runs the two in sequence.
- **The response outcome.** It is an abstract `Outcome`: a thrown error with its message, a non-2xx status with an optional string `detail`, or a 2xx status with an optional `summary`.
- **The page's pure parts.** The word counter, the validation order, the mapping from outcome to error text, and the hint beside the counter are functions.
- **The endpoint** (`backend/app.py`). It is modelled as pure functions:
  - request defaulting (`DecodeRequest`, `TargetSentences`);
  - the `max_length`/`min_length` clamps;
  - the 800-word truncation;
  - `PlanCall`, which gives the exact arguments the model receives, or None when the reply is the fixed "Please provide some text to summarise.";
  - `Summarize`. The HuggingFace pipeline is its function parameter: a total function from the text and the two lengths to the summary text, with no other assumption about it.
- **Whitespace.** Word splitting and trimming (`Text`) are defined for any whitespace predicate. Each side supplies its own predicate:
  - `Frontend.IsRegexSpace` is ECMAScript's `\s`, which is also what `trim()` removes;
  - `Backend.IsPythonSpace` is Python's `str.isspace()`, used by `strip()` and `split()`.

  The two sets differ. Only JavaScript counts U+FEFF as whitespace. Only Python counts U+001C–U+001F and U+0085. `EndToEnd.SeparatorTextAcceptedYetBlank` shows the consequence. The page accepts thirty U+001C characters separated by spaces as thirty words, and the service answers that request as if it were blank.

Notes on what the code does, which the model follows:

- `handleSummarise` clears `error`, `summary` and `copied` before it validates. So a rejected submission also wipes the previous summary.
- A non-2xx response whose `detail` is the empty string is thrown as an Error with an empty message. The `catch` then shows "Something went wrong. Is the backend running?", not the server message and not "Server error, please try again.".
- Copy has no fallback path when the clipboard API is missing, and it does not cancel an earlier revert timer.
- The backend treats `max_sentences` of `None` and of `0` alike: both become 5, because `or` tests truthiness. A negative target is passed through. Its `min_length` is then 20 and its `max_length` is negative. `Backend.LengthsOrdered` states that `min_length < max_length` holds exactly for targets 1 to 31.

## Model

| member | source | states |
|---|---|---|
| `Text.Trim` | frontend/src/App.jsx:20 | `trim()`/`strip()`: the result is empty exactly when every character is whitespace; otherwise it has no whitespace at either end (TrimIsMiddle and TrimDropsOnlySpace state what is kept) |
| `Text.TrimIsMiddle` | frontend/src/App.jsx:20 | `trim()`/`strip()` keep the middle of the text unchanged: the result is the slice of the input that starts right after its leading whitespace |
| `Text.TrimDropsOnlySpace` | backend/app.py:45 | `trim()`/`strip()` remove only whitespace: everything before and after the kept slice is whitespace |
| `Text.Words` | backend/app.py:53 | `str.split()`: every piece is a non-empty whitespace-free word; there are none exactly when the text is all whitespace |
| `Text.SplitOnRuns` | frontend/src/App.jsx:20 | `split(/\s+/)`: at least one piece, none containing whitespace |
| `Text.JoinWords` | backend/app.py:54 | `" ".join`: no words give "", one word gives that word |
| `Text.WordsOfTrim` | backend/app.py:45 | stripping text does not change its words, so splitting the stripped text equals splitting the original |
| `Text.SplitOnRunsIsWords` | frontend/src/App.jsx:20 | on text with no whitespace at either end, `split(/\s+/)` yields exactly the maximal non-whitespace runs |
| `Text.WordsOfJoin` | backend/app.py:54 | round trip: joining words with single spaces and splitting again gives the same words |
| `Text.TrimOfTrimmed` | backend/app.py:62 | stripping text that has no whitespace at either end changes nothing |
| `Backend.DecodeRequest` | backend/app.py:29-31 | `max_sentences` is None only when sent as null; an omitted field becomes 5; a given value is kept |
| `Backend.TargetSentences` | backend/app.py:49 | the target is never 0; a non-zero value is kept; the target is 5 exactly for None, 0 or 5 |
| `Backend.MaxLength` | backend/app.py:50 | `max_length` is at most 256 and at most 25 per sentence, and equals one of the two |
| `Backend.MinLength` | backend/app.py:51 | `min_length` is at least 20 and at least 8 per sentence, and equals one of the two |
| `Backend.LengthsOrdered` | backend/app.py:50-51 | `min_length < max_length` exactly when the target is between 1 and 31 |
| `Backend.TruncateWords` | backend/app.py:53-54 | text of at most 800 words is passed unchanged; the result's words are the first min(800, n) words of the input; a truncated result is its words joined by single spaces |
| `Backend.PlanCall` | backend/app.py:45-51 | no pipeline call exactly when the text is all whitespace; otherwise `max_length` and `min_length` are MaxLength and MinLength of the request's target, so `max_length` ≤ 256 and `min_length` ≥ 20 |
| `Backend.PlanCallWords` | backend/app.py:45-54 | the pipeline's input is non-empty and has at most 800 words, which are the first words of the request's text; it is the stripped text itself when that has at most 800 words, and otherwise its first 800 words joined by single spaces |
| `Backend.Summarize` | backend/app.py:44-63 | blank text gets the fixed reply; otherwise the reply is the pipeline's output on PlanCall's arguments, stripped |
| `Backend.ReplyTrimmed` | backend/app.py:45-63 | the reply, the fixed one included, never has whitespace at either end |
| `Backend.BlankTextIgnoresPipeline` | backend/app.py:45-47 | for blank text the reply does not depend on the pipeline |
| `Frontend.CountWords` | frontend/src/App.jsx:20 | the word counter equals the number of maximal non-whitespace runs, and is 0 exactly when the text is blank |
| `Frontend.Validate` | frontend/src/App.jsx:27-35 | checks in order: blank text gives "Please paste or type some notes first." exactly when the count is 0; 1–29 words give the "at least ~30–40 words" message; 30 or more words are accepted |
| `Frontend.Settle` | frontend/src/App.jsx:48-63 | a result is shown exactly for a 2xx response (its `summary`, or ""); a non-empty string `detail` is the error verbatim; a missing `detail` gives "Server error, please try again."; an empty `detail` or an empty thrown message gives the generic message; a failure's message is never empty |
| `Frontend.Caught` | frontend/src/App.jsx:59-61 | the caught Error's message is shown when non-empty, and "Something went wrong. Is the backend running?" when empty |
| `Frontend.Hint` | frontend/src/App.jsx:151-157 | each of the four hints is shown exactly in its word-count band: 0, 1–39, over 600, 40–600 |
| `Frontend.TipHintIffBlank` | frontend/src/App.jsx:151-152 | the "Tip" hint is shown exactly when a submission would be rejected as blank |
| `Frontend.AcceptedHint` | frontend/src/App.jsx:151-157 | text that passes validation never gets the "Tip" hint, and gets "More text" exactly when it has fewer than 40 words |
| `Frontend.Flip` | frontend/src/App.jsx:114-116 | toggling always changes the theme |
| `Frontend.FlipTwice` | frontend/src/App.jsx:114-116 | toggling twice restores the theme |
| `Frontend.App.constructor` | frontend/src/App.jsx:7-13 | initial state: dark theme, empty text, length 5, no summary, not loading, no error, not copied |
| `Frontend.App.Edit` | frontend/src/App.jsx:144 | typing replaces the text and touches nothing else |
| `Frontend.App.ChooseLength` | frontend/src/App.jsx:165-173 | the selector stores the chosen length, one of 3, 5, 8, 12 |
| `Frontend.App.StartSubmit` | frontend/src/App.jsx:22-46 | summary and copied are always cleared; no request is sent exactly when validation rejects, and then the error is the rejection message and `loading` is unchanged; otherwise the error is "", `loading` is raised, and the request carries the text unchanged and the selected length; theme and text are not modified |
| `Frontend.App.Complete` | frontend/src/App.jsx:48-64 | `loading` is always lowered; on success only the summary changes, on failure only the error changes |
| `Frontend.App.Summarise` | frontend/src/App.jsx:22-65 | a request is sent exactly when validation accepts the text, and then it carries one of the four lengths and text of at least 30 words; a whole submission ends in exactly one state: rejected (validation error, no summary), shown (summary, no error) or failed (non-empty error, no summary); copied is false and `loading` is false after a request |
| `Frontend.App.Clear` | frontend/src/App.jsx:67-72 | text, summary and error become "", copied false; theme, length and `loading` untouched |
| `Frontend.App.FillSample` | frontend/src/App.jsx:74-85 | as Clear, but the text becomes the sample paragraph |
| `Frontend.App.Copy` | frontend/src/App.jsx:87-97 | with no summary nothing happens and nothing is written; otherwise the summary is written, and success sets copied while failure sets "Could not copy to clipboard." and keeps the summary |
| `Frontend.App.ToggleTheme` | frontend/src/App.jsx:114-116 | only the theme changes, to the other one |
| `EndToEnd.Received` | backend/app.py:29-31 | the service sees the page's text and length as sent |
| `EndToEnd.ChoiceBounds` | backend/app.py:49-51 | the page's lengths 3, 5, 8, 12 give (max, min) = (75, 24), (125, 40), (200, 64), (256, 96), min below max |
| `EndToEnd.AcceptedRequestReachesPipeline` | backend/app.py:45-51 | a request the page sends reaches the pipeline with min below max, if its text has no character that only Python treats as whitespace |
| `EndToEnd.SeparatorTextAcceptedYetBlank` | backend/app.py:45-47 | thirty U+001C characters separated by spaces pass the page's validation, yet the service replies "Please provide some text to summarise." |

## Left out

- Rendering, the JSX markup, and the `useEffect` that writes `data-theme` to the document: presentation only.
- `fetch`, HTTP and JSON decoding: replaced by the `Outcome` datatype. A 2xx body that is not JSON throws. So does a 2xx body that is JSON `null`, when `summary` is read from it, and a non-2xx body that is JSON `null`, when `detail` is read from it. All three appear as `TransportFail` with that error's message. A non-2xx body that is not JSON, or that is JSON other than `null` without a string `detail`, is `NonOk(None)`. A `summary` field that is present but is not a string is not modelled.
- `navigator.clipboard.writeText`: a boolean input says whether it succeeds.
- The 1.5-second `setTimeout` that lowers `copied` again: it is timer-driven, so `copied` stays true in the model until the next Clear, Fill sample or submission.
- Overlapping submissions: `Complete` may be called at any time, and nothing ties an outcome to a particular request. The disabled button is presentation only.
- `Number(maxSentences)`: the selector's string value is stored already converted to the integer it names.
- The theme is a two-valued datatype rather than the strings "dark" and "light".
- The summarisation pipeline, its model loading and `do_sample=False`: a foreign ML library, so the pipeline is a function parameter.
- Backend.Summarize: the pipeline is a total function, so the model does not cover `summarizer(...)` raising or its result lacking `result[0]["summary_text"]`. The service would then answer with a 500 status. The model says nothing about how the page reports that failure, because it depends on the web framework's error handling, which is not part of this model.
- FastAPI app setup, CORS middleware, the `/` route, and pydantic's rejection of bodies with a missing `text` or a non-integer `max_sentences`.
- `console.error` calls.
- Frontend.App.FillSample: its contract does not state that the sample paragraph has at least 30 words and passes validation. Proving that would mean evaluating the word split over the whole literal.

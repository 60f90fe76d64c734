# Donish Journey Bridge — a verified model of its core

Donish Journey Bridge has three parts:

- a Tajik tax-code search service, a FastAPI server;
- a speech-to-speech translator bot built on pipecat;
- a React front end with a demo translator page and the tax search form.

This project models the core of each part in Dafny and proves what the code promises.

- **Tax search endpoint** (`TaxServer`, `tax_server.dfy`):
  - request validation;
  - the greedy 2000-character context packing loop;
  - the sources loop;
  - the mapping from every outcome of the vector search and the language model to an HTTP reply;
  - the exception handler and the health report.
- **Translation bot** (`BotTranslator`, `TranslationCleaning`, `Patterns`):
  - the aggregator that turns one streamed model response into one speech frame;
  - the speech buffer that turns transcriptions into one translation request;
  - the regex cleaning pipeline applied to a model answer.
- **Speech services** (`MmsTts`, `FacebookTts`, `Frames`): how each service prepares text, and the frame sequence `run_tts` yields.
- **Front end** (`IndexPage`, `TranslationHistory`, `ProgressiveAnswer`, `TaxAssistant`):
  - the translator page with its history and single active item;
  - the relative-time formatter;
  - the progressive answer reveal counter;
  - the search form's state machine, with its error and hint derivation.

Shared string machinery lives in `Text`:

- Python and JavaScript have different whitespace sets, which `Strip` parameterises by runtime.
- Python's `len` counts characters, but JavaScript's `.length` counts UTF-16 code units.

State that the source updates in place is modelled as a class whose methods are proved against a pure step function:

- `TranslationAggregator` and `StatelessTranslationProcessor` in the bot;
- `Index`, `Component` and `Form` in the front end.

The lemmas are stated about those step functions. Loops in the source are methods with loop invariants (`BuildContext`, `FormatSources`).

External effects are parameters:

- the vector search's result (`RagOutcome`);
- the language model's reply (`LlmOutcome`, a function of the prompt);
- the synthesis model (`SpeechOutcome`, a function of the prepared text);
- `fetch` and `response.json()` in the search form (`FetchOutcome`);
- clock readings (`Date.now()`).

## Model

| member | source | states |
|---|---|---|
| TaxServer.ValidateRequest | server/main.py:97-105 | a request is accepted iff the raw query has 3..500 characters and is not blank and the limit (default 5) lies in 1..10; the stored query is the stripped text; a rejection lists exactly the failing checks (too short, too long, blank within the bounds, limit below 1, limit above 10) |
| TaxServer.PaddedLetterAccepted | server/main.py:98-105 | length bounds apply before stripping, so "  a  " is accepted and stored as the one-letter query "a" |
| TaxServer.FittingParts | server/main.py:199-212 | context parts are the parts of a prefix of the hits, in order, within 2000 characters in total; packing stops at the first part that does not fit; it is empty iff there are no hits or the first part alone is too long |
| TaxServer.FitShape | server/main.py:203-212 | greedy packing from an initial used length takes a prefix, stays within the budget and stops only at an overflowing part |
| TaxServer.BuildContext | server/main.py:199-212 | the loop that fills `context_parts` produces exactly the greedy packing |
| TaxServer.ContextLength | server/main.py:223 | the joined context is the parts' total plus 2 per separator, so it may exceed 2000 characters by 2 for each extra part |
| TaxServer.Truncate | server/main.py:301 | text up to n characters is kept; longer text becomes its first n characters followed by "..." |
| TaxServer.TruncateIdempotent | server/main.py:301 | truncating a truncated preview changes nothing |
| TaxServer.FormatSources | server/main.py:295-303 | the sources loop yields the first min(3, hits) hits in order with defaults for missing fields and content of at most 203 characters |
| TaxServer.Answer | server/main.py:255-303 | LLM non-200 gives that status with "LLM service error"; a missing answer gives 500 ValueError; a client error gives 504; a timeout gives 504; other exceptions give 500; success iff status 200 with an answer, carrying query, answer and sources |
| TaxServer.SearchDocs | server/main.py:186-308 | no hits gives 404 with the query; no fitting part gives 500 "Failed to build context"; otherwise the model is asked with the prompt over the packed context, and its outcome decides the reply; every error body starts with "error" |
| TaxServer.Search | server/main.py:147-335 | not connected gives 503; a search timeout gives 504; other search exceptions give 500; the rest as in SearchDocs; success only when connected with results; every error body starts with "error" |
| TaxServer.ErrorBody | server/main.py:338-343 | a dictionary detail is the body as it is, and any other detail is wrapped as {"error": detail} |
| TaxServer.SearchErrorBody | server/main.py:338-343 | every error the search raises reaches the client as its own dictionary, beginning with "error" |
| TaxServer.ConfiguredUrl | server/main.py:25-39 | the configured URL is exactly the stripped environment value (a missing variable reads as empty), and startup refuses exactly when it is blank |
| TaxServer.HealthCheck | server/main.py:133-143 | status is "ok" iff the vector search is connected, else "degraded"; configured iff the URL is non-empty; a URL longer than 50 characters is shown as its first 50 characters followed by "...", a shorter one as it is |
| TaxServer.RunningServerConfigured | server/main.py:33-39 | a server that started always reports its model as configured |
| TranslationCleaning.ThinkTagLength | backend/bot_translator.py:162 | a tag match starts with `<`, optionally `/`, then "think" in any case, and runs to the first `>` |
| TranslationCleaning.FirstPrefix | backend/bot_translator.py:165 | the first label in pattern order that the text starts with, ignoring case, is found, or none |
| TranslationCleaning.StripLabel | backend/bot_translator.py:165 | only a leading label and the whitespace after it are removed, and text without a label is kept |
| TranslationCleaning.SecondLabelKept | backend/bot_translator.py:165 | e.g. "Output: Output: x" becomes "Output: x": the label pattern is anchored, so a second label survives |
| TranslationCleaning.ParenLength | backend/bot_translator.py:168-169 | a deleted parenthesis runs from `(` to its first `)` and mentions the word, ignoring case |
| TranslationCleaning.AttributionLength | backend/bot_translator.py:170 | an attribution match begins with optional whitespace and a dash and runs to the end of the text (or just before a final newline) |
| TranslationCleaning.HeardLength | backend/bot_translator.py:173 | the phrase match runs to the next full stop |
| TranslationCleaning.FillerLength | backend/bot_translator.py:174 | a filler match is exactly one of the two filler phrases, ignoring case |
| TranslationCleaning.CollapseSpaces | backend/bot_translator.py:177 | every whitespace run becomes one plain space, no two spaces are adjacent, and text is emptied only if it was empty |
| TranslationCleaning.DropSpaceBeforePunct | backend/bot_translator.py:178 | no whitespace is left before `,.!?`, the first character stays unless a run before punctuation starts the text, and no double space is created |
| TranslationCleaning.Clean | backend/bot_translator.py:155-182 | empty input gives empty output; the output is no longer than the input, has no surrounding whitespace, only plain single spaces, and no space before punctuation |
| TranslationCleaning.CleanKeeps | backend/bot_translator.py:155-182 | text that none of the patterns touches (no `<`, no `(`, no leading label, none of the name, the "heard" phrase or the fillers) and that already has the output's whitespace shape is returned unchanged |
| TranslationCleaning.LeadingBlockCleaned | backend/bot_translator.py:161 | a leading `<think`…`>`…`</think>` block is deleted whole (case ignored in the closing tag), and the rest is cleaned as if it stood alone |
| Patterns.DeleteMatches | backend/bot_translator.py:161-174 | deleting leftmost non-overlapping matches never lengthens the text or adds characters |
| Patterns.DeleteNothing | backend/bot_translator.py:161-174 | where the pattern matches nowhere, deletion changes nothing |
| Patterns.ThinkBlockMatched | backend/bot_translator.py:161 | a think-block match starts with `<think`, closes its tag at the first `>`, and ends at the nearest `</think>` after it |
| Patterns.ThinkBlockUnmatched | backend/bot_translator.py:161 | there is no match exactly when the text does not start with `<think`, no `>` follows, or no `</think>` follows the first `>` |
| Patterns.LeadingBlockDeleted | backend/facebook_tts_tajik.py:65 | a block `<think` + a + `>` + b + `</think>`, with no `>` in a and no earlier `</think>`, is one match exactly as long as the block, and the scan goes on after it |
| Patterns.ThinkBlocksNeedAngle | backend/facebook_tts_tajik.py:65 | text without `<` passes think-block deletion unchanged |
| BotTranslator.StepKeepsIdle | backend/bot_translator.py:196-233 | outside a response, every frame leaves the aggregator holding nothing |
| BotTranslator.RunAppend | backend/bot_translator.py:196-233 | feeding frames in two batches equals feeding them at once |
| BotTranslator.CollectTexts | backend/bot_translator.py:205-209 | while collecting, text frames are appended and nothing is pushed |
| BotTranslator.IdleDropsTexts | backend/bot_translator.py:205-233 | outside a response, text frames are dropped |
| BotTranslator.ForwardOthers | backend/bot_translator.py:231-233 | frames that are neither markers nor text pass through in order and leave the fields alone |
| BotTranslator.ResponseSpoken | backend/bot_translator.py:199-229 | a whole response pushes at most one speech frame carrying the cleaned text; it pushes one iff the text is not blank and cleans to something non-empty; the aggregator ends idle |
| BotTranslator.OutputShape | backend/bot_translator.py:196-233 | everything pushed is an input frame that is neither marker nor text, or a speech frame with non-empty trimmed text |
| BotTranslator.TranslationAggregator.ProcessFrame | backend/bot_translator.py:196-233 | the method updates `current_text`/`collecting` and pushes frames exactly as the step function says, and keeps the aggregator idle outside a response |
| BotTranslator.JoinedSegmentsTrimmed | backend/bot_translator.py:299 | buffered segments joined with spaces are non-empty and already stripped, so the request text is exactly the joined segments |
| BotTranslator.StatelessTranslationProcessor.ProcessFrame | backend/bot_translator.py:252-277 | a transcription is stripped and buffered unless blank, pushing nothing; any other frame is pushed on unchanged |
| BotTranslator.StatelessTranslationProcessor.TranslateBuffer | backend/bot_translator.py:293-314 | an empty buffer pushes nothing; otherwise one context frame is pushed with the system prompt and the joined segments, and the buffer is emptied |
| Frames.TtsFrames | backend/mms_tts_tajik.py:84-120 | start first, stop last, one 16-bit mono audio frame iff there is audio, and on an exception an error frame "TTS failed: …" before stop |
| MmsTts.PrepareText | backend/mms_tts_tajik.py:52-59 | the prepared text is never empty and holds no quote |
| MmsTts.PlainTextKept | backend/mms_tts_tajik.py:52-59 | text that has no quotes and is not blank is handed over stripped and otherwise unchanged |
| MmsTts.OnlyQuotesGiveDot | backend/mms_tts_tajik.py:57-58 | blank or quotes-only text becomes "." |
| MmsTts.QuotedBlankSurvives | backend/mms_tts_tajik.py:54-56 | e.g. `" "` becomes " ": stripping precedes quote removal, so a quoted blank reaches the model as a blank |
| MmsTts.RunTts | backend/mms_tts_tajik.py:84-120 | the frames for the prepared text: start, audio iff samples were produced, error iff an exception escaped, stop |
| FacebookTts.PrepareText | backend/facebook_tts_tajik.py:60-72 | the prepared text is never empty, holds no angle bracket and has no surrounding whitespace |
| FacebookTts.CleanTextKept | backend/facebook_tts_tajik.py:60-72 | non-empty trimmed text without angle brackets is handed over unchanged |
| FacebookTts.PrepareIdempotent | backend/facebook_tts_tajik.py:60-72 | preparing prepared text changes nothing |
| FacebookTts.ThinkBlockDropped | backend/facebook_tts_tajik.py:65-67 | a leading block `<think`…`>`…`</think>` (no `>` inside the opening tag, and the closing tag the first after it) is removed whole, and the text is prepared as if only what follows it were there |
| FacebookTts.UpperCaseBlockKept | backend/facebook_tts_tajik.py:65 | e.g. `<THINK>x</THINK>`: this deletion is case-sensitive, so an upper-case block survives it, while the translation cleaner's case-insensitive pattern matches it whole |
| FacebookTts.RunTts | backend/facebook_tts_tajik.py:102-138 | the frames for the prepared text: start, audio iff samples were produced, error iff an exception escaped, stop |
| IndexPage.LanguageLabel | src/pages/Index.tsx:33-40 | the label is undefined exactly for Spanish |
| IndexPage.LabelInjective | src/pages/Index.tsx:33-40 | distinct languages have distinct labels |
| IndexPage.Template | src/pages/Index.tsx:56-60 | the demo translation is undefined exactly for Spanish; otherwise it starts with the common head and ends with the input in quotes |
| IndexPage.TemplateInjective | src/pages/Index.tsx:56-60 | equal translations come from the same language and the same input |
| IndexPage.FirstWithId | src/pages/Index.tsx:98 | `find` returns the first item with the id, or none when no item has it |
| IndexPage.BlankInputIgnored | src/pages/Index.tsx:50-53 | input that is blank after trimming changes nothing |
| IndexPage.TranslateAppends | src/pages/Index.tsx:49-88 | the current translation is the template and label around the untrimmed input; history grows by exactly that item at the end as the only active one; old items keep their other fields; the input is cleared and `hasTranslated` set |
| IndexPage.ClickSelects | src/pages/Index.tsx:97-108 | an absent id changes nothing; a present one shows the first matching item and marks active exactly the items with that id |
| IndexPage.ClickLeavesOneActive | src/pages/Index.tsx:97-108 | with unique ids, exactly the clicked item is active afterwards |
| IndexPage.DuplicateIdsBothActive | src/pages/Index.tsx:73 | two translations in one millisecond share an id, and clicking it activates both |
| IndexPage.TranslateKeepsGood | src/pages/Index.tsx:72-82 | with each clock reading later than every earlier id (a strictly advancing clock), ids stay strictly increasing and at most one item is active |
| IndexPage.ClickKeepsGood | src/pages/Index.tsx:105 | clicking keeps ids increasing and at most one item active |
| IndexPage.HistoryOnlyGrows | src/pages/Index.tsx:79-82 | history order never changes and nothing is removed; only `isActive` of old items can change |
| IndexPage.Index.HandleTranslate | src/pages/Index.tsx:49-88 | the handler's new state is the translate step of the old state |
| IndexPage.Index.HandleKeyPress | src/pages/Index.tsx:90-95 | Enter without Shift translates, and any other key changes nothing |
| IndexPage.Index.HandleHistoryClick | src/pages/Index.tsx:97-108 | the handler's new state is the click step of the old state |
| TranslationHistory.FormatTime | src/components/TranslationHistory.tsx:22-33 | under one minute (including the future) gives "Just now"; under an hour gives the whole minutes 1..59; under a day gives the whole hours 1..23; otherwise the date |
| TranslationHistory.FormatTimeBoundaries | src/components/TranslationHistory.tsx:26-32 | 59999 ms gives "Just now", 60000 gives 1m, 3599999 gives 59m, 3600000 gives 1h, 86399999 gives 23h, and 86400000 gives the date |
| TranslationHistory.FutureIsJustNow | src/components/TranslationHistory.tsx:25-28 | a timestamp ahead of the clock reads "Just now" |
| TranslationHistory.AgeMonotone | src/components/TranslationHistory.tsx:22-33 | as the clock advances, the displayed age never goes back |
| TranslationHistory.Render | src/components/TranslationHistory.tsx:20-70 | an empty list renders nothing; otherwise there is one row per item in order, with the active variant and marker iff the item is active |
| TranslationHistory.OneMarkedRow | src/components/TranslationHistory.tsx:48-68 | a history with one active item renders exactly one marked row |
| ProgressiveAnswer.Toggled | src/components/ProgressiveAnswer.tsx:20-22 | toggling gives level−1 iff the counter equals the level, else the level |
| ProgressiveAnswer.ToggleTwice | src/components/ProgressiveAnswer.tsx:20-22 | toggling the same level twice ends at level−1, unless the counter started at the level, in which case it ends back at the level |
| ProgressiveAnswer.AtMostOneButton | src/components/ProgressiveAnswer.tsx:28-51 | with distinct level numbers, at most one "more" button is rendered |
| ProgressiveAnswer.ClickRaisesByTwo | src/components/ProgressiveAnswer.tsx:51-54 | the button calls toggle with its level + 1, which raises the counter by exactly 2 |
| ProgressiveAnswer.ReachedIsOdd | src/components/ProgressiveAnswer.tsx:18-54 | with levels 1..N, after k clicks the counter is 2k+1, and after any click it is at most N |
| ProgressiveAnswer.OddValuesReached | src/components/ProgressiveAnswer.tsx:18-54 | every odd value up to N is reachable |
| ProgressiveAnswer.EvenCountHidesLast | src/components/ProgressiveAnswer.tsx:27-68 | with an even N ≥ 2, no clicks ever show the last level or the sources card |
| ProgressiveAnswer.FixedReachedCount | src/components/ProgressiveAnswer.tsx:28-54 | with the corrected button, after k clicks the counter is k+1 and never exceeds N |
| ProgressiveAnswer.FixedReachesEvery | src/components/ProgressiveAnswer.tsx:28-54 | with the corrected button, every level 1..N is reachable |
| ProgressiveAnswer.FixedShowsAll | src/components/ProgressiveAnswer.tsx:27-68 | with the corrected button, N−1 clicks show every level and the sources card |
| ProgressiveAnswer.Component.ClickMore | src/components/ProgressiveAnswer.tsx:51-54 | a click on a rendered button raises `expandedLevel` by 2 |
| TaxAssistant.ErrorText | src/components/TaxAssistant.tsx:57 | the error is the first truthy of `error`, `detail.error`, `detail`, and otherwise "Search failed" |
| TaxAssistant.HintText | src/components/TaxAssistant.tsx:58 | the hint is the body's own hint if truthy, else exactly `detail.hint`; it is truthy iff one of the two is |
| TaxAssistant.FallbackHint | src/components/TaxAssistant.tsx:70-76 | the backend hint is used if the message mentions "fetch"; otherwise the cold-start hint iff this is the first request; otherwise "Please try again" |
| TaxAssistant.Caught | src/components/TaxAssistant.tsx:65-83 | a message that is not JSON is shown raw with the console hint, and the hint is always non-empty |
| TaxAssistant.StartGuards | src/components/TaxAssistant.tsx:37-51 | a query shorter than 3 UTF-16 units after trimming only sets the short-query error; otherwise the request carries the trimmed query and limit 5, `loading` is set, and error and result are cleared |
| TaxAssistant.EnabledButtonPosts | src/components/TaxAssistant.tsx:113-115 | an enabled button always leads to a request |
| TaxAssistant.SettleShape | src/components/TaxAssistant.tsx:54-87 | `loading` ends false; `isFirstRequest` never goes back to true; success sets the result and clears `isFirstRequest`; failure sets an error with a hint |
| TaxAssistant.ServerErrorShown | src/components/TaxAssistant.tsx:56-77 | a non-ok object body shows its derived error, with its own hint or else the fallback chosen from the thrown message |
| TaxAssistant.ServerDetailShown | src/components/TaxAssistant.tsx:56-77 | the server's {"error", "hint"} replies reach the user as exactly that error and hint |
| TaxAssistant.AstralQueryRefusedByServer | src/components/TaxAssistant.tsx:38 | e.g. "😀a": an emoji plus a letter passes the form's check (3 UTF-16 units), is posted, and fails the server's 3-character minimum |
| TaxAssistant.NetworkFailureGetsConsoleHint | src/components/TaxAssistant.tsx:65-83 | as written, a rejected fetch with a non-JSON message shows that message with "Check console for details" |
| TaxAssistant.FailedToFetchIsNotJson | src/components/TaxAssistant.tsx:65-83 | "Failed to fetch" cannot be decoded as JSON, so it gets the console hint |
| TaxAssistant.CaughtFixed | src/components/TaxAssistant.tsx:65-83 | in the corrected catch, an undecodable message mentioning "fetch" gets the backend hint |
| TaxAssistant.FixedNetworkFailureHint | src/components/TaxAssistant.tsx:70-72 | e.g. in the corrected form, "Failed to fetch" gets "Backend not running on port 8000" |
| TaxAssistant.Form.StartSearch | src/components/TaxAssistant.tsx:37-52 | the method's new state and posted body are the start step of the old state |
| TaxAssistant.Form.Settle | src/components/TaxAssistant.tsx:54-87 | the method's new state is the settle step of the old state and the outcome |
| TaxAssistant.Form.ClickSearch | src/components/TaxAssistant.tsx:113-115 | a disabled button does nothing, and an enabled one starts a search that posts |
| TaxAssistant.Form.KeyPress | src/components/TaxAssistant.tsx:109 | Enter starts a search only while not loading |
| Text.Strip | server/main.py:102-105 | Python's strip and JavaScript's trim remove a blank prefix and suffix; the result has no surrounding whitespace and is empty iff the input is blank |
| Text.StripIdempotent | server/main.py:102-105 | stripping twice equals stripping once |
| Text.JoinLength | server/main.py:223 | a join's length is the parts' total plus one separator between each pair |

## Left out

- Floating point is not modelled:
  - the hit scores and their rounding, which `Source` omits;
  - `processing_time_ms` and the seconds badge of the search form;
  - the float-to-PCM conversion, where the model keeps only the byte count (2 per sample);
  - JavaScript numbers, which the front-end model takes to be integers.
- Remote calls and model inference are inputs rather than computations:
  - the vector search (`TaxRAG().search.remote`);
  - the HTTP call to the language model;
  - `fetch` and `response.json()`;
  - the speech models (`_load_models`, `_generate_speech`);
  - `backend/modal_translator.py`, which is not part of this model.
- Concurrency and timing are not modelled:
  - the asyncio pause timer in `StatelessTranslationProcessor` (`_wait_and_translate`, `pause_threshold`, task cancellation). `TranslateBuffer` is the action the timer eventually takes.
  - the 45 s and 60 s timeouts, which appear only as their outcomes.
- `TaxAssistant.Form.Settle` reads `isFirstRequest` when the search settles, whereas the closure captured it when the search started. Overlapping searches are not modelled, and the disabled button and the loading check on Enter prevent them.
- WebRTC, pipeline and server plumbing are not modelled (`run_bot`, `offer`, `lifespan`, CORS, `__main__`), and neither is logging.
- Case-insensitive matching folds ASCII and the Cyrillic blocks only. Other Unicode case folding, such as the Kelvin sign, long s and Turkish dotless i, is not modelled.
- pydantic coercion of non-string or non-integer request fields is not modelled. The model starts from a string query and an optional integer limit.
- `TaxServer.Search`: a `None` result from the vector search is treated like an empty list, which takes the same 404 path in the code.
- `TaxServer.Answer`:
  - the answer-extraction fallback is a present or absent answer, and a non-string `content` is not modelled;
  - an aiohttp timeout is kept apart from other client errors, which the code also distinguishes.
- Each system prompt is a parameter or left out, since only its presence in the request matters.
- Toasts and visual styling in the front end are not modelled.
- `toLocaleDateString` is not modelled: the date case carries only the timestamp.
- `JSON.parse` of an arbitrary exception message is an input to the model (`Failure.parsed`). It is constrained only by `WellFormed`: decodable text starts with a character that can open a JSON value. The one exception is the message `handleSearch` itself throws for a non-ok response: `Thrown` takes `JSON.parse(JSON.stringify(e))` to give back `e`. The model has no JSON parser, so this round trip of `Stringify` is taken as given rather than proved.
- `TaxServer.Doc` takes every field of a search hit to be a string or absent. An explicit `None` field is not modelled. In the code it behaves differently from an absent one: it renders as "None" in the context, a `None` content makes `len(content)` raise a TypeError that becomes a 500, and a `None` article or type fails source validation, again a 500.
- `TaxAssistant.Get` covers only the keys the form reads ("error", "detail", "hint").
- Object members are listed in JavaScript's property order. Integer-like keys, which JavaScript moves to the front, do not occur in these bodies.
- The history `id` is the number `Date.now()` returned rather than its decimal text. The two are interchangeable because the conversion is injective.

## Findings

| source | as written | input that shows it | evidently intended | confidence | as-written member | corrected member |
|---|---|---|---|---|---|---|
| src/components/ProgressiveAnswer.tsx:28,51-54 | The "more" button is placed under the level after the expanded ones and calls `toggleLevel(level + 1)`. So each click adds 2, and the button is never placed under the last entry. | Any even number of levels, e.g. levels 1 and 2: there is no button at all, and level 2 and the sources card never show. | Each click reveals the next level, so every level and then the sources card can be shown. | high (not executed) | ProgressiveAnswer.EvenCountHidesLast | ProgressiveAnswer.FixedShowsAll |
| src/components/TaxAssistant.tsx:65-83 | A rejected `fetch` goes straight to `JSON.parse(err.message)`, which throws on the browser's message. The inner catch then gives "Check console for details". | The backend is down and `fetch` rejects with "Failed to fetch". | The "Backend not running on port 8000" hint, which the code reserves for messages that mention "fetch". | high (not executed) | TaxAssistant.NetworkFailureGetsConsoleHint | TaxAssistant.FixedNetworkFailureHint |

# Timeline Twist — a verified model of its core

Timeline Twist is a React application for alternate history. The user picks a historical event, or types one in, and proposes a change to it. A generative-AI service then writes a structured timeline of consequences:
- immediate events;
- a "Medium-Term Consequences" section;
- a "Further in the Future..." section, holding major events or a closing summary.

The application flattens that timeline into one list of entries and reveals them one per interval tick. It illustrates every event entry with a generated image and has an "observer" comment on three points of the timeline. It can read the whole timeline aloud through the browser's speech synthesizer. A butler character answers questions in a chat panel, and any event can be opened for a detailed drill-down text.

This project models the logic behind those features in Dafny and proves what it promises:

| module | file | models |
|---|---|---|
| `SpeechService` | `speech_service.dfy` | the narration queue of `services/speechService.ts`: voice choice, chunking, `speak`, `cancel`, and the end and error handlers. A class `NarrationService` holds the queue and is specified by functions on its `Narrator` value. |
| `GeminiService` | `gemini_service.dfy` | the shaping around the AI calls in `services/geminiService.ts`: timeline flattening, the drill-down history text, the image result and the fallbacks |
| `App` | `app.dfy` | every state updater of `App.tsx`, as a function from `AppState` to `AppState`. An async handler is the composition of its updaters. |
| `TimelineView` | `timeline_view.dfy` | the reveal cursor, as a class stepped by ticks; the visible slice; the narration text and the Narrate/Stop control; the header commentary |
| `EventSelection` | `event_selection.dfy` | the custom-event form and its guard |
| `ChatAssistant` | `chat_assistant.dfy` | the chat input box, as a class, and its guard |
| `Strings`, `Types`, `Outcomes` | `strings.dfy`, `types.dfy`, `outcomes.dfy` | JavaScript `trim`, `split("\n\n")` and `join`; the records of `types.ts`; `Option` and `Result` |

Conventions used throughout:
- The generative-AI calls, `JSON.parse`, the image service and the platform voice list are inputs. A call that can fail is a `Result`.
- A fresh id from `crypto.randomUUID` is drawn from a supply `uuid: nat -> string`.
- A completion callback is an opaque token. Invoking it appends the token to a log, `fired`.
- The speech synthesizer is an object that holds the utterance it is speaking, and later reports that it ended or failed.

Behaviour of the code worth noting:
- **When completion fires.** The reveal interval signals completion on the tick that finds the cursor already at the end. That is one tick after the last entry appears, not at the moment the cursor reaches the end (`Ticked`, `TicksReveal`).
- **Empty timelines.** A successful generation with an empty list starts no interval, so completion is never signalled (`RevealAfterRestart`).
- **The preferred voice.** It is matched as a substring of the voice name (`includes`), not by exact name (`MatchesRule`).
- **A `speak` with nothing to read.** It invokes its callback at once but leaves it stored (`AfterSpeak`).

## Model

| member | source | states |
|---|---|---|
| SpeechService.FindIndex | services/speechService.ts:13-16 | `find` stops at the first voice matching the rule; no earlier voice matches it |
| SpeechService.ChooseVoice | services/speechService.ts:12-17 | The choice is `null` iff no voice matches any of the four rules. Otherwise it is a voice matching the best rule any voice matches, and the first such voice. |
| SpeechService.NonBlankKeepsOnlyNonBlank | services/speechService.ts:76 | every chunk the filter keeps has a character that is not white space |
| SpeechService.NonBlankKeepsAll | services/speechService.ts:76 | pieces that are not blank are all kept, in their order |
| SpeechService.NonBlankDropsBlank | services/speechService.ts:76 | when every piece is blank, no chunk survives |
| SpeechService.NonBlankAppend | services/speechService.ts:76 | the filter decides each piece on its own (it distributes over concatenation) |
| SpeechService.Initial | services/speechService.ts:2-8 | at load, nothing is queued, stored, spoken or invoked, and no voice is chosen |
| SpeechService.AfterPopulateVoices | services/speechService.ts:10-18 | the voice list is replaced and the chosen voice is recomputed from it; nothing else changes |
| SpeechService.AfterInit | services/speechService.ts:20-30 | without speech support nothing changes; otherwise the voices are populated |
| SpeechService.AfterPlayNext | services/speechService.ts:32-61 | An empty queue invokes the stored callback once and clears it. Otherwise exactly the head is removed and handed to the synthesizer with the chosen voice. |
| SpeechService.AfterEnd | services/speechService.ts:41-44 | the end of an utterance starts the next chunk, or invokes and clears the stored callback when none is left |
| SpeechService.AfterError | services/speechService.ts:45-49 | an error advances the queue exactly as a normal end does |
| SpeechService.AfterCancel | services/speechService.ts:90-98 | with speech support: the queue and the stored callback are dropped and the synthesizer is silenced; no callback is invoked |
| SpeechService.CancelIdempotent | services/speechService.ts:90-98 | cancelling twice is cancelling once |
| SpeechService.AfterSpeak | services/speechService.ts:63-88 | Without support, `onEnd` is invoked at once. Otherwise the queue becomes the non-blank `split("\n\n")` pieces, and the first one plays. When there are none, `onEnd` is invoked at once and stays stored. |
| SpeechService.Begin | services/speechService.ts:76-87 | once `onEnd` is stored, no chunk means invoke it; otherwise queue the chunks and start the first |
| SpeechService.RunWhileQueued | services/speechService.ts:41-49 | while chunks remain, each end or error report plays exactly the next chunk and invokes nothing |
| SpeechService.RunAfterLast | services/speechService.ts:33-38 | the report after the last chunk invokes the stored callback once; later reports do nothing |
| SpeechService.RunDrainsQueue | services/speechService.ts:32-49 | enough reports play the whole queue in order, then invoke the stored callback exactly once |
| SpeechService.SpeakRunsToCompletion | services/speechService.ts:63-88 | A narration plays every chunk of its text in order, whatever mix of ends and errors is reported. `onEnd` is invoked once, only after the last chunk; no earlier callback is ever invoked. |
| SpeechService.BeginRunsToCompletion | services/speechService.ts:76-87 | the same, from the point where the chunks are queued |
| SpeechService.IdleStaysIdle | services/speechService.ts:41-49 | with nothing queued and no stored callback, any number of end or error reports speak nothing and invoke nothing |
| SpeechService.CancelSilences | services/speechService.ts:90-98 | after `cancel`, nothing more is spoken and no callback is invoked, even when the cancelled utterance's own end or error handlers still fire (`Deliver`, no guard) |
| SpeechService.NarrationService.constructor | services/speechService.ts:2-8 | the module state at load |
| SpeechService.NarrationService.PopulateVoices | services/speechService.ts:10-18 | the object's new state is `AfterPopulateVoices` of the old |
| SpeechService.NarrationService.InitSpeechSynthesis | services/speechService.ts:20-30 | the new state is `AfterInit` of the old |
| SpeechService.NarrationService.PlayNextInQueue | services/speechService.ts:32-61 | the new state is `AfterPlayNext` of the old |
| SpeechService.NarrationService.OnEnd | services/speechService.ts:44 | the new state is `AfterEnd` of the old |
| SpeechService.NarrationService.OnError | services/speechService.ts:45-49 | the new state is `AfterError` of the old |
| SpeechService.NarrationService.Speak | services/speechService.ts:63-88 | the new state is `AfterSpeak` of the old |
| SpeechService.NarrationService.Cancel | services/speechService.ts:90-98 | the new state is `AfterCancel` of the old |
| Strings.Trim | services/speechService.ts:76 | the trim is empty iff the string is all white space; otherwise it neither starts nor ends with white space |
| Strings.TrimIsSlice | services/speechService.ts:76 | the trim is the part of the string between two white-space margins |
| Strings.TrimIdempotent | components/EventSelection.tsx:19-21 | trimming twice is trimming once |
| Strings.TrimPadded | components/EventSelection.tsx:16-21 | any white space before and any white space after a string, chosen independently, does not change its trim |
| Strings.SplitJoin | services/speechService.ts:76 | `split("\n\n")` undoes `join("\n\n")` for pieces that hold no blank line and (except the last) do not end in a line feed |
| GeminiService.TaggedLaidOut | services/geminiService.ts:89 | each raw entry becomes an event entry with its year and text, in order |
| GeminiService.MediumBlockLaidOut | services/geminiService.ts:92-95 | the medium-term section is its header and then its events, or nothing when there are no events |
| GeminiService.FutureBlockLaidOut | services/geminiService.ts:97-105 | The far-future section is present iff `futureImpact` is. It holds the header, then the major events; with none, a non-empty summary. |
| GeminiService.FlattenTimeline | services/geminiService.ts:86-105 | the successive pushes build exactly the three sections end to end, each entry taking the next id |
| GeminiService.PushMediumTerm | services/geminiService.ts:92-95 | the medium-term block appends exactly the medium-term section, its ids continuing from the current length |
| GeminiService.PushFutureImpact | services/geminiService.ts:97-105 | the far-future block appends exactly the far-future section, its ids continuing from the current length |
| GeminiService.FlattenedLaidOut | services/geminiService.ts:86-105 | the flattened list is the immediate events, then the medium-term section, then the far-future section, and nothing else |
| GeminiService.FlattenedIds | services/geminiService.ts:89-103 | the k-th entry pushed carries the k-th fresh id |
| GeminiService.GenerateTimeline | services/geminiService.ts:72-112 | Any failure is rethrown with the one fixed message. Otherwise the result has the flattened layout, with ids in push order. |
| GeminiService.HeadersOfFlattened | services/geminiService.ts:92-98 | An entry is a header iff it is the medium-term header (when there are medium-term events) or the far-future header (when `futureImpact` is present). The two titles sit exactly there. |
| GeminiService.SummaryOfFlattened | services/geminiService.ts:100-104 | a summary entry exists iff there are no major events and the summary is non-empty, and it follows the far-future header |
| GeminiService.HistoryLinesAppend | services/geminiService.ts:202-204 | the history lines of a concatenation are the lines of each part |
| GeminiService.HistorySoFarAppend | services/geminiService.ts:202-205 | A header adds nothing to the history. An event adds `- year: event` and a summary adds `- event`, after a line feed unless it is the first line. |
| GeminiService.HistoryLinesMarked | services/geminiService.ts:204 | every history line starts with "- " |
| GeminiService.DrillDownText | services/geminiService.ts:218-222 | the drill-down text is the reply, or the fixed "temporal mists" line when the call fails |
| GeminiService.CommentatorRemark | services/geminiService.ts:128-132 | the remark is the reply, or the fixed "vision grows cloudy" line when the call fails |
| GeminiService.SafeImagePrompt | services/geminiService.ts:160-166 | the rewritten prompt is trimmed; a failed rewrite falls back to the event text unchanged |
| GeminiService.FirstImageBytes | services/geminiService.ts:186-187 | there are bytes iff the response has a first image with non-empty bytes, and they are exactly that image's bytes |
| GeminiService.ImageResult | services/geminiService.ts:186-197 | The result is "error" iff the call failed or the first image has no bytes. Otherwise it is a JPEG data URL. |
| GeminiService.ImageResultRoundTrip | services/geminiService.ts:186-196 | reading the bytes back from the URL gives exactly the first image's bytes, and none from "error" |
| App.InitialState | App.tsx:19-36 | the selection screen, with no event, no timeline, no commentary, nothing loading, no error, not complete, a closed chat with no history and not loading, and a closed drill-down |
| App.StartSimulation | App.tsx:43-52 | the timeline view with the chosen event and a cleared, loading simulation; chat and drill-down untouched |
| App.WithImagesLoading | App.tsx:58-60 | every event entry is marked as waiting for its image; nothing else about any entry changes |
| App.TimelineLoaded | App.tsx:61-65 | the entries shown are the marked timeline and loading stops; nothing else changes |
| App.SimulationFailed | App.tsx:71-78 | loading stops and the error is the fixed prefix followed by the message |
| App.RunSimulationOutcome | App.tsx:42-80 | A run always leaves loading. A failure leaves no entries and the prefixed error. A success shows exactly the generated entries, each event marked as waiting for its image, with no error. The chat and the drill-down are untouched. |
| App.MarkImage | App.tsx:119-123 | entries with the id get the image and stop loading; all others are unchanged |
| App.ImageArrived | App.tsx:117-124 | an arriving image changes only the timeline entries |
| App.ImageArrivalsCommute | App.tsx:113-128 | images for different entries give the same state in either order of arrival |
| App.ImageArrivalLastWins | App.tsx:113-128 | of two images for the same entry, the later one remains |
| App.Reset | App.tsx:130-142 | back to selection with every simulation field cleared and the drill-down closed; the chat survives |
| App.ResetForgetsSimulation | App.tsx:130-142 | resetting after a simulation run is resetting before it, and resetting twice is resetting once |
| App.ImageAfterReset | App.tsx:117-124 | an image arriving after a reset changes nothing |
| App.SimulationComplete | App.tsx:144-146 | only the completion flag changes, to set |
| App.ToggleChat | App.tsx:148-160 | the panel flips; opening it with no history seeds the butler's greeting; nothing else changes |
| App.OpenChatHasHistory | App.tsx:148-160 | an open panel never shows an empty history |
| App.ToggleChatTwice | App.tsx:148-160 | two toggles restore the state, except that an empty history has been seeded |
| App.ResetChat | App.tsx:162-168 | the history is just the greeting and nothing is loading |
| App.UserMessage | App.tsx:196-197 | the user's message is appended and a reply is awaited |
| App.ButlerLine | App.tsx:217-230 | the butler's line is the reply, or the fixed apology when the call fails |
| App.ButlerReplied | App.tsx:218-230 | the history becomes the one built at send time plus the butler's line |
| App.SendAppendsExchange | App.tsx:195-232 | A send appends exactly the user's message and then one butler line: the reply on success, the apology on failure. Loading ends and nothing else changes. |
| App.ReportLines | App.tsx:202 | one `- year: event` line per entry, in order |
| App.ContextFor | App.tsx:199-214 | Outside a simulation, the butler is told the selection screen. Before completion it is told the event watched, and after completion the full report. |
| App.IndexOfId | App.tsx:178 | the first position holding the id, or -1 when none does |
| App.DrillDownContext | App.tsx:178 | the prefix up to and including the first entry with the clicked id; empty iff no entry has it |
| App.OpenDrillDown | App.tsx:170-176 | without a selected event nothing happens; otherwise only the modal opens, loading, on the entry |
| App.DrillDownLoaded | App.tsx:181-184 | the modal stops loading and shows the text; nothing else changes |
| App.DrillDownShowsText | App.tsx:170-185 | the full drill-down ends with the modal open on the entry, showing the reply or the fallback |
| App.CloseDrillDown | App.tsx:187-192 | the modal is closed and emptied; nothing else changes |
| App.CloseAfterOpen | App.tsx:170-192 | closing undoes opening, whether or not the text has come in |
| App.Spread | App.tsx:90 | spreading a missing commentary gives no remarks |
| App.SetInitialRemark | App.tsx:90 | the initial remark is set and the other remarks are kept |
| App.SetMidRemark | App.tsx:98 | the mid-point remark is set and the other remarks are kept |
| App.SetFinalRemark | App.tsx:108 | the final remark is set and the other remarks are kept |
| App.IndexOfYear | App.tsx:84-85 | the first position whose year is the title, or -1 |
| App.EntryAfterTitle | App.tsx:93-95 | the lookup finds an entry iff the title occurs and is not last, and that entry is the one after it |
| App.TitleYearsOfFlattened | App.tsx:84-85 | in a flattened timeline whose raw years are never section titles, a section title occurs as a year exactly at its header |
| App.MidAnchorOfFlattened | App.tsx:92-100 | when no raw year is a section title, the mid-point lookup finds an entry iff there are medium-term events, and that entry is the first of them |
| App.FinalAnchorOfFlattened | App.tsx:102-110 | When no raw year is a section title, the final lookup finds an entry iff `futureImpact` has major events or a non-empty summary. That entry is the first major event, or else the summary. |
| App.CommentaryOfLookups | App.tsx:82-111 | the initial remark is always set; each other remark is set iff its lookup finds an entry, else kept; nothing else changes |
| App.CommentaryOfFlattened | App.tsx:82-111 | on a flattened timeline, the mid-point remark is set iff there are medium-term events, and the final remark iff there are major events or a summary |
| TimelineView.Restarted | components/TimelineView.tsx:27-34 | the cursor goes back to 0, and an interval runs iff nothing is loading and the list is non-empty |
| TimelineView.Ticked | components/TimelineView.tsx:37-45 | Below the end, a tick moves the cursor by one. At the end, it clears the interval and signals completion. The cursor never passes the end. |
| TimelineView.TicksReveal | components/TimelineView.tsx:37-45 | k ticks show min(v+k, length) entries; completion is signalled once, iff v+k > length, and the interval stops then |
| TimelineView.TicksIdle | components/TimelineView.tsx:42 | after the interval is cleared, ticks change nothing |
| TimelineView.RevealAfterRestart | components/TimelineView.tsx:27-47 | After a restart, k ticks show min(k, length) entries, with completion once iff k > length. While loading or with no entries, nothing shows and nothing completes. |
| TimelineView.RevealCursor.constructor | components/TimelineView.tsx:24 | the cursor starts at 0 with no interval |
| TimelineView.RevealCursor.Restart | components/TimelineView.tsx:27-34 | the new state is `Restarted` of the old |
| TimelineView.RevealCursor.Tick | components/TimelineView.tsx:38-45 | the new state is `Ticked` of the old |
| TimelineView.RevealCursor.Teardown | components/TimelineView.tsx:49-52 | the interval is cleared; nothing else changes |
| TimelineView.Visible | components/TimelineView.tsx:97 | the first min(count, length) entries, unchanged |
| TimelineView.ControlAfterTicks | components/TimelineView.tsx:122 | the Narrate control appears exactly once the tick count reaches the length |
| TimelineView.HeaderRemark | components/TimelineView.tsx:136-143 | A remark appears under the medium-term header iff a mid remark is present. One appears under the far-future header, titled "The Observer's Final Word", iff a final remark is present. Other headers get none. |
| TimelineView.Paragraphs | components/TimelineView.tsx:67-72 | one paragraph per entry, in order |
| TimelineView.NarrationChunks | components/TimelineView.tsx:67-75 | the narration service splits the narration text back into exactly one chunk per entry, in order |
| TimelineView.NarrationReadsEveryEntry | components/TimelineView.tsx:67-75 | for narratable paragraphs, narration reads every entry's paragraph in order and then invokes the done callback once |
| TimelineView.NarrationEndsAtOnce | components/TimelineView.tsx:75 | with no synthesizer or nothing to read, the done callback has already been invoked when `speak` returns |
| TimelineView.NarrationControl.constructor | components/TimelineView.tsx:25 | the control starts not narrating |
| TimelineView.NarrationControl.NarrationFinished | components/TimelineView.tsx:75 | the done callback clears the flag |
| TimelineView.NarrationControl.Unmount | components/TimelineView.tsx:57-60 | unmounting cancels any narration |
| TimelineView.NarrationControl.ToggleAsWritten | components/TimelineView.tsx:62-78 | as written: stopping cancels and clears the flag; starting speaks the narration text and always leaves the flag set |
| TimelineView.NarrationControl.Toggle | components/TimelineView.tsx:62-78 | corrected: the flag stays set iff something is actually being read |
| EventSelection.CustomEvent | components/EventSelection.tsx:14-24 | An event starts iff both fields have a non-space character. It has id "custom", the fixed description and the trimmed fields. |
| EventSelection.DisabledExactlyWhenRejected | components/EventSelection.tsx:94 | the button is disabled exactly when a submit would start nothing |
| EventSelection.CustomEventStable | components/EventSelection.tsx:19-21 | typing a custom event's fields back in starts the same event |
| EventSelection.CustomEventIgnoresMargins | components/EventSelection.tsx:16-21 | white space before and after each field, chosen independently, does not change the event started |
| ChatAssistant.Submission | components/ChatAssistant.tsx:39-41 | a message is sent iff the input has a non-space character and no reply is pending, and the message is the trimmed input |
| ChatAssistant.SendDisabledExactlyWhenRejected | components/ChatAssistant.tsx:125 | Send is disabled exactly when a submit would send nothing |
| ChatAssistant.SubmissionStable | components/ChatAssistant.tsx:41 | a sent message would be sent unchanged again |
| ChatAssistant.ChatInput.constructor | components/ChatAssistant.tsx:18 | the input starts empty, with no request made |
| ChatAssistant.ChatInput.Edit | components/ChatAssistant.tsx:117 | typing replaces the input |
| ChatAssistant.ChatInput.Submit | components/ChatAssistant.tsx:37-44 | An accepted submit cancels narration, sends the trimmed text and clears the box. A rejected one changes nothing. |
| ChatAssistant.ChatInput.Reset | components/ChatAssistant.tsx:46-49 | narration is cancelled and a chat reset is requested; the input is kept |

## Left out

- **Network calls.** Calls to the generative-AI service, prompt wording, model names, the API-key check and `JSON.parse` are not modelled; their outcomes are inputs. This includes:
  - the butler's context text around `ChatContext`;
  - the `'an unknown effect'` default of the initial commentary prompt.
- **The empty model name** passed to the drill-down request (`services/geminiService.ts:201`) is not modelled. Any effect it has shows up only as that call's outcome.
- **Error classes.** `err instanceof Error` in `App.tsx:73` always takes its first branch in the model, since `generateTimeline` only ever throws an `Error`.
- **Fresh ids.** Ids come from a supply; their uniqueness is not claimed.
- **Years.** The `number | string` type of `year` is modelled as a string.
- **Floating point and timing.** Pitch, rate and temperatures are floating point and are left out. The 500 ms delay and the 2500 ms interval are left out too; a tick is one firing of the interval.
- **Concurrency.** The unordered arrival of concurrent image results is covered only by `ImageArrivalsCommute`. Stale `appState` closures in `App.tsx:178` and `App.tsx:196` are not modelled, Late `onend`/`onerror` events of a cancelled utterance are covered after `cancel` (`CancelSilences`, over `Deliver`), but not when they arrive after a new `speak`. There the model assumes the synthesizer reports only on the utterance it is speaking (`Run`).
- **React lifecycle.** React effect and render semantics are not modelled. One consequence: the cleanup in `components/ChatAssistant.tsx:27-34` captures the previous `isOpen`, so it cancels narration when the chat opens, not when it closes; this is not modelled.
- **Predefined events.** Choosing a predefined card (`components/EventSelection.tsx:35`) passes the event on unchanged. There is nothing to model beyond `App.StartSimulation`.
- **Rendering.** `components/DrillDownModal.tsx`, `components/ImageWithLoader.tsx`, `components/MatrixBackground.tsx`, the icons and `constants.ts` only render or hold static data, and are not modelled.
- **Logging.** `console.error` and `console.warn` are left out.
- App.TitleYearsOfFlattened: proved only for timelines whose raw entries never use a section title as their year (`TitlesOnlyOnHeaders`). A raw entry with such a year also matches the title.
- App.MidAnchorOfFlattened: proved only under `TitlesOnlyOnHeaders`. Otherwise the lookup by year in `App.tsx:84` can stop at a raw entry instead of at the medium-term header.
- App.FinalAnchorOfFlattened: proved only under `TitlesOnlyOnHeaders`. Otherwise the lookup by year in `App.tsx:85` can stop at a raw entry instead of at the far-future header.
- App.CommentaryOfFlattened: proved only for timelines whose raw entries never use a section title as their year (`TitlesOnlyOnHeaders`). Otherwise the lookup by year in `App.tsx:84-85` can stop at such an entry instead of at the header.
- TimelineView.NarrationChunks: proved only for paragraphs that are not blank, hold no blank line, and (except the last) do not end in a line feed (`Narratable`). Otherwise the narration service's split no longer matches the entries one to one.
- TimelineView.NarrationReadsEveryEntry: proved only for `Narratable` paragraphs, for the same reason as `NarrationChunks`, on which it rests.
- TimelineView.NarrationControl.Toggle: its contract states the flag at the moment the handler returns. A later reset by the done callback, when the narration ends, is a separate call of `NarrationFinished`.

## Findings

| source | as written | input that shows it | evidently intended | confidence | as-written member | corrected member |
|---|---|---|---|---|---|---|
| components/TimelineView.tsx:75-76 | `speak` runs before `setIsNarrating(true)`. When `speak` finishes at once and invokes its callback (`setIsNarrating(false)`), the later `true` overwrites that reset, so the control shows "Stop" with nothing being read. | Pressing Narrate where speech synthesis is unavailable (or where every paragraph is blank) | The flag is set only while something is being read. Setting it before `speak` achieves this. | medium, not executed | TimelineView.NarrationControl.ToggleAsWritten, TimelineView.NarrationEndsAtOnce | TimelineView.NarrationControl.Toggle |

# EcoGuard rules in Dafny

A model of the rules inside the EcoGuard environmental-monitoring app.
Around the calls to the hosted AI service, the app does the following:

- It sanitises the service's answers. It strips asterisks from answer text and from every string of the parsed analysis result (not from the parsed object detections).
- It pulls `{title, uri}` links out of the grounding metadata.
- It replaces a missing answer with a fixed message.
- It gives each detected object an id.
- It chooses the video or the image analysis prompt.

The app component (`App.tsx`) keeps state with small update rules:

- the recording clock `MM:SS`
- the self-timer cycle and the capture countdown
- the impact-score colour bands and the 10-segment bar
- the sector list order
- the history archive, the pinned detections and the local history search
- the live conversation, with its transcript merge and its audio playback queue

It also has byte and sample loops for the audio stream.

Modules:

- `Wrappers`: `Option`.
- `Text`: the JavaScript string operations the rules use: `trim`, `toLowerCase`, `includes`, `startsWith`, `toString` and `padStart`.
- `Seqs`: `filter` and `indexOf`.
- `Types`: the records of `types.ts`.
- `GeminiService`: `services/geminiService.ts`.
- `AppRules`: the pure `App.tsx` rules. Each React `prev => ...` updater is a function from the old state to the new one.
- `Pcm`: the `decode`/`encode` byte loops and `decodeAudioData`, which work on arrays.
- `LiveSession`: the class `LiveAudioSession`. Its fields are the live-session state and refs. Its methods are the `onmessage`, `onerror` and `onclose` callbacks and the start/stop handlers, and each updates those fields in place.

Each callback is one atomic step. The service's responses, `JSON.parse`, fresh ids, the audio clock and the microphone's answer are parameters.

## Model

| member | source | states |
|---|---|---|
| `Text.TrimEmptyIffBlank` | App.tsx:300 | `query.trim()` is empty exactly when every character of the query is ECMAScript white space or a line terminator, including the empty query |
| `Text.IncludesIffOccurs` | App.tsx:306-309 | `includes` holds exactly when the query occurs at some position of the text |
| `Text.NatToString` | App.tsx:640-644 | `n.toString()` is a non-empty digit string, one digit exactly when n < 10, at most two when n < 100 |
| `Text.ParseNatToString` | App.tsx:640-644 | the decimal value of `n.toString()` is n |
| `Text.ParseLeadingZero` | App.tsx:640-644 | the `'0'` that `padStart(2, '0')` adds does not change the value |
| `Seqs.FilterSpec` | App.tsx:503 | `filter` keeps exactly the elements that pass the test, in their order (a subsequence of the input), each passing value as many times as the input holds it and no other value |
| `Seqs.FilterAppend` | App.tsx:503 | `filter` of a concatenation is the concatenation of the filters |
| `Seqs.FilterPartition3` | App.tsx:1100-1103 | three filters by tests that split every element among them together hold the input's elements with the same multiplicities |
| `Seqs.IndexOf` | App.tsx:635 | `indexOf` is -1 exactly when the value is absent; otherwise it is the first position holding the value |
| `GeminiService.CleanText` | services/geminiService.ts:11-13 | the result holds no `*` and is never longer than the input |
| `GeminiService.CleanTextRemovesOnlyStars` | services/geminiService.ts:11-13 | the result is the input with every `*` removed: the same multiset minus all asterisks, and a subsequence of the input |
| `GeminiService.CleanTextStarFree` | services/geminiService.ts:11-13 | text without `*` comes back unchanged |
| `GeminiService.CleanTextIdempotent` | services/geminiService.ts:11-13 | cleaning twice is cleaning once |
| `GeminiService.CleanTextAppend` | services/geminiService.ts:11-13 | a global replace works piecewise: cleaning `a + b` gives the cleaned `a` followed by the cleaned `b` |
| `GeminiService.CleanJson` | services/geminiService.ts:18-33 | no string in the result holds `*` and no object has a `__proto__` key; the result has the input's shape: arrays of the same length, objects with the same keys except `__proto__`, strings for strings, scalars unchanged |
| `GeminiService.CleanJsonStarFree` | services/geminiService.ts:18-33 | a value whose strings hold no `*` and whose objects have no `__proto__` key comes back unchanged |
| `GeminiService.CleanJsonDropsProtoKey` | services/geminiService.ts:26-28 | `{"__proto__": "a*"}` cleans to `{}` |
| `GeminiService.CleanJsonIdempotent` | services/geminiService.ts:18-33 | `cleanObjectStrings` applied twice equals applying it once |
| `GeminiService.CleanObjectStrings` | services/geminiService.ts:18-33 | the recursive `map` and the `for...in` loop filling `cleaned` compute `CleanJson` of the input; the assignment to a `__proto__` key creates no own key |
| `GeminiService.TextOr` | services/geminiService.ts:100 | `text \|\| fallback` is a non-empty text itself, and the fallback exactly when the text is absent, empty or equal to the fallback |
| `GeminiService.AnswerText` | services/geminiService.ts:135-138 | the answer holds no `*`; without text it is the cleaned fallback, with non-empty text it is the cleaned text |
| `GeminiService.FallbackAnswer` | services/geminiService.ts:135-138 | a fallback without `*` is shown as it is when the response has no text |
| `GeminiService.FallbacksStarFree` | services/geminiService.ts:135-196 | the three fixed messages hold no `*` |
| `GeminiService.ExtractLinks` | services/geminiService.ts:125-133 | the `forEach` pushing links yields `Links` of the chunks, and no links when there are no chunks |
| `GeminiService.LinksAppend` | services/geminiService.ts:125-133 | the links of two chunk lists in a row are the first list's links followed by the second's |
| `GeminiService.LinksMembership` | services/geminiService.ts:125-133 | a link is produced exactly when some chunk has that title and uri for the tool |
| `GeminiService.LinksCount` | services/geminiService.ts:125-133 | never more links than chunks; as many exactly when every chunk has an entry for the tool |
| `GeminiService.FindLocalEcoResources` | services/geminiService.ts:125-138 | the text is the answer with the local-resources fallback; the links are the `maps` links of the first candidate's chunks, or none |
| `GeminiService.GetEnvironmentPulse` | services/geminiService.ts:154-167 | the text is the answer with the news fallback; the links are the `web` links, or none |
| `GeminiService.SearchEnvironmentalIssue` | services/geminiService.ts:183-196 | the text is the answer with the no-information fallback; the links are the `web` links, or none |
| `GeminiService.PromptFor` | services/geminiService.ts:44-47 | the video prompt is chosen exactly when the MIME type (default `image/jpeg`) starts with `video/`, the image prompt otherwise |
| `GeminiService.AnalysisResult` | services/geminiService.ts:100-101 | a parse failure (the thrown error) gives `None`; otherwise the parsed value of `text \|\| '{}'`, with no `*` left and its shape kept |
| `GeminiService.WithId` | services/geminiService.ts:240-243 | `{...obj, id}` is an object whose `id` is the fresh id and which keeps every other field of an object element |
| `GeminiService.Detections` | services/geminiService.ts:236-247 | every detection is an object with an `id` |
| `GeminiService.DetectionsFallback` | services/geminiService.ts:236-247 | an unparseable or non-array response gives no detections |
| `GeminiService.DetectionsOfArray` | services/geminiService.ts:240-243 | a parsed array gives one detection per element, in order, each with its fresh id and every other field of the element |
| `GeminiService.DetectionIdsDistinct` | services/geminiService.ts:240-243 | with a fresh id per element, no two detections share an id |
| `AppRules.TwoDigitsValue` | App.tsx:642-643 | `toString().padStart(2, '0')` is at least two digits, exactly two below 100, and reads back as the number |
| `AppRules.FormatTimeReadsBack` | App.tsx:640-644 | `formatTime(n)` is the minutes (at least two digits), `:` and two digits of seconds below 60; minutes * 60 + seconds = n; five characters when n < 6000 |
| `AppRules.NextTimerDelay` | App.tsx:633-638 | the next delay is always one of 0, 3, 5, 10 |
| `AppRules.TimerSteps` | App.tsx:633-638 | the timer steps 0 -> 3 -> 5 -> 10 -> 0 |
| `AppRules.TimerCycle` | App.tsx:633-638 | four toggles restore any delay of the sequence; a delay outside it moves to 0 |
| `AppRules.StartCaptureCountdown` | App.tsx:455-461 | a delay of 0 captures at once; any other delay starts the countdown at that delay |
| `AppRules.CountdownTick` | App.tsx:463-471 | the capture fires and the countdown clears exactly when the previous value is null or at most 1; otherwise the value drops by one |
| `AppRules.CountdownFiresOnce` | App.tsx:461-471 | from a delay d >= 1 the countdown reads d - k after k ticks, and the capture fires on tick d and on no earlier tick |
| `AppRules.ImpactBandMonotone` | App.tsx:655-665 | a higher impact score never gets a milder colour band |
| `AppRules.ImpactThresholds` | App.tsx:655-665 | both colour helpers are emerald exactly up to 30 and red exactly above 60; the band colour is never the unlit colour |
| `AppRules.ImpactBar` | App.tsx:950-957 | the bar has ten segments |
| `AppRules.ImpactBarLitPrefix` | App.tsx:950-957 | the lit segments are exactly the first floor(score / 10) of them, clamped to 0..10, all in the band colour |
| `AppRules.PriorityColorSpec` | App.tsx:684-688 | red exactly for `'high'`, amber exactly for `'medium'`, blue for every other string |
| `AppRules.PriorityColorDistinguishes` | App.tsx:684-688 | the three task priorities get three different colours |
| `AppRules.Group` | App.tsx:1100-1103 | every task of a priority group has that priority |
| `AppRules.SortByPriorityOrdered` | App.tsx:1100-1103 | the sorted list never puts a lower-priority task before a higher one |
| `AppRules.SortByPriorityPermutes` | App.tsx:1100-1103 | the sorted list holds the same tasks as the list, with the same multiplicities |
| `AppRules.SortByPriorityStable` | App.tsx:1100-1103 | tasks of equal priority keep their relative order |
| `AppRules.GroupOfGroup` | App.tsx:1100-1103 | selecting a priority out of a priority group keeps the whole group or nothing |
| `AppRules.SaveToHistory` | App.tsx:488-499 | without a result nothing changes; otherwise one entry goes in front, carrying the fresh id, timestamp, issue, plan and media URL, the old list is the tail, the saved flag is set and the selection is kept |
| `AppRules.DeleteHistoryItemSpec` | App.tsx:501-505 | exactly the entries with the id go and the others keep their order and their number of copies; the selection is cleared exactly when the selected entry had the id; nothing changes when no entry has it |
| `AppRules.TogglePinFlips` | App.tsx:522-526 | toggling flips whether the object's id is pinned (as `isObjPinned` sees it), leaves every other id as it was, and appends an unpinned object at the end |
| `AppRules.UnpinSpec` | App.tsx:522-526 | unpinning an id leaves no object with it and every other id pinned exactly when it was |
| `AppRules.TogglePinTwice` | App.tsx:522-526 | pinning an unpinned object and toggling it again restores the list |
| `AppRules.LocalSearchSpec` | App.tsx:300-309 | a blank or white-space query does nothing; any other query gives the history entries whose lower-cased title or description includes the lower-cased query, in history order, each as many times as the history holds it, none missing |
| `Pcm.CharCodes` | App.tsx:45-52 | one byte per character of the binary string |
| `Pcm.DecodeLoop` | App.tsx:45-52 | the loop fills the array with the character codes modulo 256 |
| `Pcm.EncodeLoop` | App.tsx:54-60 | the loop builds the string of `String.fromCharCode` of each byte |
| `Pcm.BytesRoundTrip` | App.tsx:45-60 | `encode`'s string is a binary string, and `decode`'s loop gives back the bytes that went in |
| `Pcm.BinaryRoundTrip` | App.tsx:45-60 | on a binary string the loops are inverse the other way too |
| `Pcm.Int16` | App.tsx:68 | a little-endian byte pair is a signed sample in -32768..32767 |
| `Pcm.Int16RoundTrip` | App.tsx:68 | a sample read back from its two bytes is the sample |
| `Pcm.FrameIndexInBounds` | App.tsx:72-76 | `i * numChannels + channel` stays below `frameCount * numChannels` |
| `Pcm.ChannelCoversSample` | App.tsx:68-76 | sample k of a whole frame lands in channel `k % numChannels` at frame `k / numChannels` |
| `Pcm.FrameIndexInjective` | App.tsx:72-76 | no two channel slots read the same sample |
| `Pcm.DecodeAudioData` | App.tsx:62-79 | an odd byte count or no whole frame fails; otherwise a `numChannels` x `frameCount` buffer whose row c holds channel c of the samples |
| `LiveSession.MergeTranscriptionSpec` | App.tsx:576-588 | the merge ends the transcript with the role's text, grows it by at most one line, keeps everything before the replaced or appended line, and keeps speakers alternating |
| `LiveSession.ApplyTranscriptLines` | App.tsx:574-590 | one message adds at most two lines, changes nothing before the old last line, leaves the lines alone without fragments, and keeps speakers alternating |
| `LiveSession.ApplyTranscriptBuffers` | App.tsx:574-590 | the buffers grow by the fragments or are emptied at a turn end; an output fragment leaves the AI's whole buffer as the last line, an input fragment alone the user's |
| `LiveSession.TurnEndThenOutput` | App.tsx:582-590 | after a turn end, an AI fragment arriving while the last line is the AI's overwrites that line with the fragment alone, so the previous AI text leaves the transcript |
| `LiveSession.AsWrittenAgreesWithinTurn` | App.tsx:574-590 | without a turn end, updaters run later read the same buffers and give the same transcript |
| `LiveSession.AsWrittenBlanksAiLine` | App.tsx:574-590 | a message with both fragments and a turn end leaves a blank AI line when the AI updater runs at render |
| `LiveSession.Duration` | App.tsx:600 | a chunk's duration is never negative |
| `LiveSession.AcquireMicSpec` | App.tsx:551-552 | a granted microphone gives a stream not already open, the ref holds it, and it joins the open streams |
| `LiveSession.ReleaseMicSpec` | App.tsx:532-535 | stopping closes exactly the held stream and clears the ref; stopping again changes nothing |
| `LiveSession.AcquireOverwritesHeld` | App.tsx:552 | a start while a stream is still held overwrites the ref, so the following stop leaves that stream open |
| `LiveSession.StartCloseStartStopLeaks` | App.tsx:528-610 | start, `onclose`, start and stop from the initial state leave stream 0 open |
| `LiveSession.ReleasingStartKeepsOneOpen` | App.tsx:532-552 | a start that first stops the held stream keeps at most that stream open, so every stop leaves none open |
| `LiveSession.LiveAudioSession.constructor` | App.tsx:159-165 | inactive, no microphone stream held or open, empty transcript and buffers, clock 0, no sources |
| `LiveSession.LiveAudioSession.OnInputTranscription` | App.tsx:574-580 | the user buffer grows by the fragment and the transcript is the merge with it; alternation and the playback invariant are kept |
| `LiveSession.LiveAudioSession.OnOutputTranscription` | App.tsx:582-588 | the same for the AI buffer |
| `LiveSession.LiveAudioSession.OnTurnComplete` | App.tsx:590 | both buffers are empty |
| `LiveSession.LiveAudioSession.PlayChunk` | App.tsx:591-602 | the clock moves to max(clock, now); an undecodable chunk stops there; otherwise a new source starts at that time, the clock advances by the duration and the source joins the set; the chunk starts no earlier than `now` and after every earlier chunk has ended |
| `LiveSession.LiveAudioSession.OnSourceEnded` | App.tsx:598 | the ended source leaves the set |
| `LiveSession.LiveAudioSession.StopAllSources` | App.tsx:603-607 | every source in the set is stopped, the set is emptied and the clock is 0 |
| `LiveSession.LiveAudioSession.Stop` | App.tsx:528-539 | inactive; the stream in `micStreamRef` stopped and the ref cleared (`ReleaseMic`), other streams untouched; every source stopped, the set and schedule empty and the clock 0; the transcript, buffers and node count are kept |
| `LiveSession.LiveAudioSession.Toggle` | App.tsx:541-621 | an active session is stopped as by `Stop`; otherwise the transcript and buffers are reset and playback is untouched, a granted microphone opens a new stream that overwrites `micStreamRef` (`AcquireMic`) and makes the session active, and a refused one gives "Microphone access required.", leaves the streams alone and the session inactive |
| `LiveSession.LiveAudioSession.OnError` | App.tsx:609 | the "Live stream interrupted." error and a full stop as by `Stop`: inactive, the held stream stopped, every source stopped, set and schedule empty, clock 0, transcript and buffers kept |
| `LiveSession.LiveAudioSession.OnClose` | App.tsx:610 | the session is inactive |
| `LiveSession.LiveAudioSession.OnMessage` | App.tsx:573-608 | the transcript and buffers become `ApplyTranscript` of the old ones; playback follows `AudioHandled`: an undecodable chunk only moves the clock up to `now`, a playable one starts a new source at max(clock, now) and advances the clock by its duration, no chunk and no interruption change nothing, and an interruption after a playable or absent chunk stops every source, the new one included, and resets the clock |
| `LiveSession.LiveAudioSession.OnTranscriptParts` | App.tsx:574-590 | the transcript and buffers become `ApplyTranscript` of the old ones |
| `LiveSession.LiveAudioSession.OnAudioParts` | App.tsx:591-607 | playback changes as `AudioHandled` states (see `OnMessage`) |

## Left out

- `Text.ToLower`: only the ASCII capitals are lowered. Full Unicode case mapping is not modelled.
- Transcription text: a transcription object without `text` appends the string `"undefined"` to the buffer. Fragments are modelled as strings.
- Grounding chunk entries: one without `title` or `uri` gives `undefined` fields. Sources are modelled with both.
- `GeminiService.CleanJson`: its contract says every string becomes a string without `*`, but not which one. `CleanTextRemovesOnlyStars` states that for the string case.
- `GeminiService.CleanObjectStrings`: a `__proto__` value that is an object or `null` also becomes the copy's prototype, so its properties can be read through the copy as inherited ones. The model only drops the key.
- Object keys: `for...in` visits integer-like keys first, in ascending numeric order, then the other keys in insertion order. Objects are maps, so key order is not modelled.
- Parse failures: `JSON.parse` is a parameter, and so is the analysis function's thrown error (`None`).
- Fresh values: `crypto.randomUUID` and `Date().toISOString()` are parameters. `DetectionIdsDistinct` assumes the ids are distinct.
- Base64: `atob`/`btoa` are not modelled. The byte loops around them are, and a chunk is its decoded bytes.
- Sample scaling: the `/ 32768.0` of `decodeAudioData` and all of `createBlob` (the microphone path) are floating point. Samples stay integers.
- `createBuffer` limits: only the zero-length rejection is modelled. A fractional frame count cannot arise, because the app always passes one channel.
- `buffer.duration`: modelled as exact rational arithmetic.
- Async callbacks: `onmessage` is async. Other callbacks could interleave around `decodeAudioData`, but each callback is one atomic step here.
- Connect failure: the `ai.live.connect` call (App.tsx:559) is not awaited, so its rejection never reaches the `catch` at App.tsx:621. What the session does then depends on the vendor SDK, which is not part of this model. The model has no connect failure.
- `LiveSession.LiveAudioSession.Toggle`: when `getUserMedia` succeeds and a later statement in the `try` throws (the `AudioContext` constructor, `createGain`), the `catch` makes the session inactive while the microphone stream stays open (App.tsx:551-552, 621). The model's granted branch always succeeds.
- The vendor session and audio graph: opening and closing the vendor session, the microphone stream, the audio node graph and `sendRealtimeInput` are I/O. The model keeps the microphone streams as numbers.
- `AppRules.SortByPriority`: `localNodes.sort` sorts the state array in place while rendering. The model states its result as the stable three-way grouping and proves it ordered, a permutation and stable. The in-place mutation is not modelled.
- Storage: `localStorage` loading and saving.
- Presentation: JSX, CSS, tab and modal state.
- Other handlers: geolocation, camera, recording, beacons, mission acceptance, feedback logs, `clearHUD` and `locatePin`.
- `AppRules.LocalSearch`: the local matches reach the state only together with the answer of `searchEnvironmentalIssue` (App.tsx:310-318). When that call throws, the search ends with an error and no result. The model gives the local matches alone.
- Updater timing: React runs a `setTranscriptions(prev => ...)` updater at once only when no update of the component is pending, and otherwise at the next render, where it reads `currentTranscriptionRef` as the handler left it. The class applies each updater when it is called (`ApplyTranscript`). `ApplyTranscriptAsWritten` models the deferred reading; see Findings.
- `AppRules.StartCaptureCountdown`, `AppRules.CountdownTick`: `capturePhoto` and `startRecording` are one capture event. The choice by `mediaMode` (App.tsx:457-458, 466-467) is not modelled.
- `Pcm.Int16`: `Int16Array` reads samples in the platform's byte order. The model fixes little-endian.
- `AppRules.ImpactBand`: a missing or NaN `impactScore` fails every comparison, so it gives the red band and no lit segment. Scores are modelled as reals, which cannot be NaN.
- `LiveSession.LiveAudioSession.Toggle`: each handler is one atomic step. A second click that lands while `getUserMedia` is still pending runs `stopAudioAnalysis` on an empty ref, and the stream that arrives afterwards stays open in an inactive session. The model does not capture this.
- `Text.NatToString`: numbers are exact naturals. JavaScript's `toString` switches to exponent form from 1e21 and loses precision above 2^53. The recording clock never gets near either.

## Findings

| source | as written | input that shows it | evidently intended | confidence | as-written member | corrected member |
|---|---|---|---|---|---|---|
| App.tsx:574-590 | the AI transcript updater reads `currentTranscriptionRef.current.ai` when React runs it. After the first updater of the message, that is at the next render, after line 590 has emptied the buffers | one message with input `"hi"`, output `"there"` and `turnComplete`, no update pending: the transcript gets a user line `"hi"` and a blank AI line | the AI line reads `"there"`, the text heard | medium; not executed (depends on React's update queue) | `LiveSession.AsWrittenBlanksAiLine` | `LiveSession.ApplyTranscriptBuffers` |
| App.tsx:552 | a start overwrites `micStreamRef`; `onclose` (App.tsx:610) leaves the ref holding the open stream, and `stopAudioAnalysis` (App.tsx:532-535) stops only the stream the ref holds | start, `onclose`, start, stop: the first stream is never stopped | no stream stays open after a stop | high; not executed | `LiveSession.StartCloseStartStopLeaks` | `LiveSession.ReleasingStartKeepsOneOpen` |

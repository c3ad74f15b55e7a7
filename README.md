# Gaze keyboard: control surface and message protocol

This project models the core of an assistive gaze keyboard in Dafny. The
core has two halves:

- a React client. It holds the typed input, the three suggested phrases, the
  button log and the mouse-sample batch. It also holds a two-axis control
  surface that sets the speech parameters (tone, energy, ...) by clicking in
  a square.
- a Python server. It answers the client's `{request_type, data}` messages:
  PREDICT (three phrase completions), SYNTHESISE (a TTS audio URL),
  AUTOCOMPLETE (three word completions), AUDIO_DATA (a transcription) and
  EVENT (telemetry logging).

Modules, one per concept:

| module | file | models |
|---|---|---|
| `Values` | values.dfy | JSON/JavaScript values, the exceptions the code raises, JavaScript property access, Python subscripting |
| `Text` | text.dfy | join, split, find, strip and decimal helpers used by the server |
| `Protocol` | protocol.dfy | the five request types, the envelope, what `JSON.stringify` + `json.loads` do to a value |
| `AdvancedControl` | advanced_control.dfy | the shared `ttsParams` object (class `TtsParams`) and the control surface (class `Surface`) |
| `ClientApp` | app.dfy | the client component (class `App`): outbound messages, response dispatch, button log, mouse batch |
| `ServerFunctions` | server_functions.dfy | the request handlers and their string logic, with the outside world as a `Backend` record |
| `WebsocketServer` | websocket_server.dfy | `handle_message` routing |
| `EndToEnd` | end_to_end.dfy | a client request through the wire, the server and back into the client's dispatch |

Modelling choices:

- Messages are values (`Values.Value`), not JSON text. `Protocol.Wire` states
  what serialisation changes: members holding `undefined` are dropped.
- A JavaScript or Python exception is an `Err` result. A client handler that
  throws changes no state. A server handler that raises emits nothing.
- Numbers are `real`.
- The outside world becomes inputs:
  - randomness (the three moods), clocks and timestamps;
  - the OpenAI completion, the TTS download and the transcription server's
    reply;
  - the database rows, base64 decoding with audio conversion, `uuid4`, and
    Python's `str()` of a non-string value.
- The client's socket is an outbox: `App.sent` lists every emitted message
  in order.
- Timers are explicit methods: one animation tick (`TickPositions`,
  `TickValues`) and one mouse flush (`SendMouseData`).
- Where the code and the design intent differ, the model follows the code:
  - Parameter values are not clamped.
  - Groups are not checked to have two members, and `min == max` is not
    guarded. These are preconditions (`Configured`), not behaviour.
  - A `value` of 0 is replaced by the default, as JavaScript falsiness does.
  - A malformed response throws in the client (`Throw`) instead of being
    dropped.
  - An emit before the socket exists throws. It is modelled as a
    precondition `connected`.
  - The key order of `ttsParams` is taken as given (`TtsParams.keys`).
    JavaScript lists integer-like keys first, which this order must already
    reflect.

As-written behaviours the model keeps and proves:

- An EVENT is answered with JSON `null`, which the client ignores
  (`EndToEnd.EventExchange`).
- An unknown `request_type` leaves `response` unbound, so the server emits
  nothing (`WebsocketServer.ResponseOutcomes`).
- The padding of an uploaded data URL counts its header, so the payload can
  gain `=` characters it did not need (`ServerFunctions.PaddingCountsHeader`).
- Transcription segments whose texts are all whitespace yield the empty string instead of
  "No audible voice." (`ServerFunctions.WhitespaceOnlyGivesEmpty`).
- The speak callback is memoised on `ttsParams` alone, so the `isAdvanced` it
  sends is the value captured when `ttsParams` was last replaced
  (`ClientApp.App.speakIsAdvanced`). The server never reads the flag, so the
  reply does not depend on it (`EndToEnd.AdvancedFlagIgnored`).
- `TrackButtons` reads the `date` created at the last render, not the click
  time (the `renderTime` parameter).

## Model

| member | source | states |
|---|---|---|
| Protocol.ParseRequestType | eye-gaze-gpt/eye-gaze-gpt-main/src/App.js:84-102 | a `request_type` is recognised exactly when it is the string name of one of the five types, and then as that type |
| Protocol.Wire | eye-gaze-gpt/eye-gaze-gpt-main/src/App.js:249 | serialising then decoding turns a set value into a set value at the top level; members holding `undefined` vanish and list holes become `null`, so no `undefined` survives at any depth (stated by `WireDefined`) |
| Protocol.WireDefined | websocket-gaze-gpt/websocket-gpt-main/websocketserver.py:27 | whatever the client sends, unless it is `undefined` itself, the decoded message holds no `undefined` at any depth |
| Protocol.WireKeepsDefined | websocket-gaze-gpt/websocket-gpt-main/websocketserver.py:27 | a value holding no `undefined` reaches the server unchanged |
| AdvancedControl.WithDefaultKeepsSetValues | eye-gaze-gpt/eye-gaze-gpt-main/src/components/AdvancedControl.js:59-63 | defaulting touches only `value`, sets it when missing or 0, keeps any other value, and is idempotent |
| AdvancedControl.TtsParams.constructor | eye-gaze-gpt/eye-gaze-gpt-main/src/App.js:46 | the loaded parameter object has distinct keys covering exactly its entries |
| AdvancedControl.TtsParams.DefaultValues | eye-gaze-gpt/eye-gaze-gpt-main/src/components/AdvancedControl.js:59-63 | the loop leaves every entry defaulted, in place, and no other change |
| AdvancedControl.TtsParams.Commit | eye-gaze-gpt/eye-gaze-gpt-main/src/components/AdvancedControl.js:99-101 | the loop writes the new `value` of exactly the clicked group's keys, in place |
| AdvancedControl.Grouped | eye-gaze-gpt/eye-gaze-gpt-main/src/components/AdvancedControl.js:23-30 | the `reduce` that groups the keys by their `group` tag; `GroupedByTag` proves it equal to the reference grouping |
| AdvancedControl.GroupedByTag | eye-gaze-gpt/eye-gaze-gpt-main/src/components/AdvancedControl.js:23-30 | a tag is a group exactly when some key carries it, and the group lists those keys in key order |
| AdvancedControl.MembersContain | eye-gaze-gpt/eye-gaze-gpt-main/src/components/AdvancedControl.js:25-28 | a key is a member of a tag's group exactly when it is a parameter carrying that tag |
| AdvancedControl.EveryKeyInItsGroup | eye-gaze-gpt/eye-gaze-gpt-main/src/components/AdvancedControl.js:23-30 | every key lies in the group its tag names and in no other group |
| AdvancedControl.FirstMemberIsFirstKey | eye-gaze-gpt/eye-gaze-gpt-main/src/components/AdvancedControl.js:37-38 | a group's X key is the first key, in key order, that carries its tag |
| AdvancedControl.ConfiguredIsDrawable | eye-gaze-gpt/eye-gaze-gpt-main/src/components/AdvancedControl.js:37-40 | under the assumed configuration, every group has an X and a Y key with `min < max` |
| AdvancedControl.InitialPositions | eye-gaze-gpt/eye-gaze-gpt-main/src/components/AdvancedControl.js:35-43 | the cursor of each group at its X and Y defaults; `InitialStateShaped`, `InitialPositionPlacement` and `ClickAtInitialPosition` state its properties |
| AdvancedControl.InitialStateShaped | eye-gaze-gpt/eye-gaze-gpt-main/src/components/AdvancedControl.js:35-52 | the initial cursors and values cover exactly the groups and each group's members |
| AdvancedControl.InitialPositionPlacement | eye-gaze-gpt/eye-gaze-gpt-main/src/components/AdvancedControl.js:39-41 | a default within bounds puts the cursor inside the click region; `min` lands on the left/bottom edge, `max` on the right/top edge |
| AdvancedControl.ClickValues | eye-gaze-gpt/eye-gaze-gpt-main/src/components/AdvancedControl.js:91-95 | the first member takes the X fraction and the others the Y fraction of the click; `ClickValuesInBounds` and `ClickAtInitialPositionGivesInitialValues` state its properties |
| AdvancedControl.ClickValuesInBounds | eye-gaze-gpt/eye-gaze-gpt-main/src/components/AdvancedControl.js:85-95 | a click inside the region yields values within each parameter's `[min, max]` |
| AdvancedControl.ClickLandmarks | eye-gaze-gpt/eye-gaze-gpt-main/src/components/AdvancedControl.js:80-81 | the centre gives midpoints; the top-left corner gives X = min and Y = max; the bottom-right gives X = max and Y = min |
| AdvancedControl.ClickAtInitialPosition | eye-gaze-gpt/eye-gaze-gpt-main/src/components/AdvancedControl.js:39-41 | the click mapping inverts the initial placement: clicking the initial cursor gives back the defaults |
| AdvancedControl.ClickAtInitialPositionGivesInitialValues | eye-gaze-gpt/eye-gaze-gpt-main/src/components/AdvancedControl.js:91-95 | for a two-member group, clicking the initial cursor reproduces the initial displayed values |
| AdvancedControl.EaseStep | eye-gaze-gpt/eye-gaze-gpt-main/src/components/AdvancedControl.js:117-121 | one step scales the distance to the target by `1 - rate`, never overshoots, strictly approaches when `rate < 1` and lands at `rate = 1` |
| AdvancedControl.EaseTimesDistance | eye-gaze-gpt/eye-gaze-gpt-main/src/components/AdvancedControl.js:116-124 | after k ticks the distance to the target is the initial distance times `(1 - rate)^k` |
| AdvancedControl.EasedPositions | eye-gaze-gpt/eye-gaze-gpt-main/src/components/AdvancedControl.js:116-124 | one tick of every cursor towards its target; `EasedPositionsStep` and `EaseTimesDistance` state its properties |
| AdvancedControl.EasedPositionsStep | eye-gaze-gpt/eye-gaze-gpt-main/src/components/AdvancedControl.js:117-123 | a tick keeps the set of groups, steps every cursor independently, and at rate 1 reaches the targets |
| AdvancedControl.EasedValues | eye-gaze-gpt/eye-gaze-gpt-main/src/components/AdvancedControl.js:134-141 | a tick keeps the groups and each group's members |
| AdvancedControl.EasedValuesStep | eye-gaze-gpt/eye-gaze-gpt-main/src/components/AdvancedControl.js:134-141 | a tick steps every displayed value independently, and at rate 1 reaches the targets |
| AdvancedControl.Surface.constructor | eye-gaze-gpt/eye-gaze-gpt-main/src/components/AdvancedControl.js:10-15 | a mounted control starts with every map empty and animation on |
| AdvancedControl.Surface.Initialise | eye-gaze-gpt/eye-gaze-gpt-main/src/components/AdvancedControl.js:19-72 | empty parameters change nothing; otherwise the groups, the cursors at the defaults and the displayed and target values at the defaults are set, and every falsy `value` is defaulted in place |
| AdvancedControl.Surface.HandleGraphClick | eye-gaze-gpt/eye-gaze-gpt-main/src/components/AdvancedControl.js:74-110 | a click outside the region changes nothing and reports nothing; one inside retargets only the clicked group, commits only its values, and reports the click event and button |
| AdvancedControl.Surface.ToggleAnimation | eye-gaze-gpt/eye-gaze-gpt-main/src/components/AdvancedControl.js:147-151 | the flag flips and the report carries the new state |
| AdvancedControl.Surface.TickPositions | eye-gaze-gpt/eye-gaze-gpt-main/src/components/AdvancedControl.js:116-124 | the cursors take one eased step at the current rate |
| AdvancedControl.Surface.TickValues | eye-gaze-gpt/eye-gaze-gpt-main/src/components/AdvancedControl.js:133-142 | the displayed values take one eased step at the current rate |
| ClientApp.PredictOptions | eye-gaze-gpt/eye-gaze-gpt-main/src/App.js:90 | the only exception is a TypeError, thrown when `data` or `options` is missing or null; otherwise three texts: a list's first three items (`undefined` past its end), a string's first three characters, or an object's members `"0"`, `"1"` and `"2"` |
| ClientApp.Classify | eye-gaze-gpt/eye-gaze-gpt-main/src/App.js:81-105 | a falsy response, or one without `request_type`, is ignored; PREDICT shows three texts; the only exception is a TypeError |
| ClientApp.UnknownResponsesIgnored | eye-gaze-gpt/eye-gaze-gpt-main/src/App.js:83-102 | an object response without `request_type`, or whose type is none of the four handled names (EVENT included), is ignored |
| ClientApp.PredictReplyShown | eye-gaze-gpt/eye-gaze-gpt-main/src/App.js:85-91 | a PREDICT reply shows its first three options in order |
| ClientApp.AutocompleteReplyShown | eye-gaze-gpt/eye-gaze-gpt-main/src/App.js:95-97 | an AUTOCOMPLETE reply replaces the suggestions with its options |
| ClientApp.SynthesiseReplyPlayed | eye-gaze-gpt/eye-gaze-gpt-main/src/App.js:92-94 | a SYNTHESISE reply plays its audio URL |
| ClientApp.AudioReplyShown | eye-gaze-gpt/eye-gaze-gpt-main/src/App.js:98-100 | an AUDIO_DATA reply shows its data as the recorded text; a null reply is ignored |
| ClientApp.PredictWithoutDataThrows | eye-gaze-gpt/eye-gaze-gpt-main/src/App.js:90 | every PREDICT response whose `data` is missing or null throws a TypeError |
| ClientApp.TtsData | eye-gaze-gpt/eye-gaze-gpt-main/src/App.js:232-235 | the speech data has exactly the parameter keys, each mapped to its `value` or to `undefined` |
| ClientApp.BatchData | eye-gaze-gpt/eye-gaze-gpt-main/src/App.js:150 | the flushed event carries every sample of the batch, in order |
| ClientApp.BatchDataAppends | eye-gaze-gpt/eye-gaze-gpt-main/src/App.js:129-132 | samples arriving later follow the earlier ones in the flushed batch |
| ClientApp.Logged | eye-gaze-gpt/eye-gaze-gpt-main/src/App.js:187-196 | the button log after one press; `LoggedAppends` states its properties |
| ClientApp.LoggedAppends | eye-gaze-gpt/eye-gaze-gpt-main/src/App.js:187-196 | a stage's first press logs `timeSince` 0; a later one is appended with the time since the last; other stages are untouched |
| ClientApp.Suggested | eye-gaze-gpt/eye-gaze-gpt-main/src/App.js:212-219 | the result starts with the old input, then the suggestion after exactly one separating space (none if the input is empty or already ends in one), then a space |
| ClientApp.ToggledLayout | eye-gaze-gpt/eye-gaze-gpt-main/src/App.js:176-179 | the layout is always one of the two and always changes |
| ClientApp.ToggledLayoutTwice | eye-gaze-gpt/eye-gaze-gpt-main/src/App.js:176-179 | toggling twice restores the layout |
| ClientApp.App.constructor | eye-gaze-gpt/eye-gaze-gpt-main/src/App.js:16-32 | the initial state: empty input, default layout, three empty mixed cards, placeholder suggestions, advanced on, no socket |
| ClientApp.App.ConfigLoaded | eye-gaze-gpt/eye-gaze-gpt-main/src/App.js:46-71 | the parameters are replaced, the speak callback recaptures the advanced flag, the socket opens |
| ClientApp.App.Send | eye-gaze-gpt/eye-gaze-gpt-main/src/App.js:161-163 | one message is appended to the outbox |
| ClientApp.App.TrackEvent | eye-gaze-gpt/eye-gaze-gpt-main/src/App.js:259-269 | one EVENT envelope with the type, data and timestamp is sent |
| ClientApp.App.TrackButtons | eye-gaze-gpt/eye-gaze-gpt-main/src/App.js:187-196 | the press is logged for the current stage and the previous time becomes the render time |
| ClientApp.App.SetInput | eye-gaze-gpt/eye-gaze-gpt-main/src/App.js:165-169 | AUTOCOMPLETE is sent exactly when the input changed to a non-empty text |
| ClientApp.App.OnChange | eye-gaze-gpt/eye-gaze-gpt-main/src/App.js:171-174 | the input event is sent, then the completion request when due |
| ClientApp.App.HandleShift | eye-gaze-gpt/eye-gaze-gpt-main/src/App.js:176-179 | the layout toggles |
| ClientApp.App.OnKeyPress | eye-gaze-gpt/eye-gaze-gpt-main/src/App.js:181-185 | the press is logged, shift and lock toggle the layout, and one key event is sent |
| ClientApp.App.OnClearButtonClick | eye-gaze-gpt/eye-gaze-gpt-main/src/App.js:205-210 | the input empties, CLEAR is logged, and only the click event is sent |
| ClientApp.App.AddSuggestionToInput | eye-gaze-gpt/eye-gaze-gpt-main/src/App.js:212-223 | the suggestion is inserted, logged, reported, and the new input is always sent for completion |
| ClientApp.App.OnCreateButtonClick | eye-gaze-gpt/eye-gaze-gpt-main/src/App.js:225-229 | PREDICT with the input is sent, PREDICT is logged, the click event follows |
| ClientApp.App.OnSpeakButtonClick | eye-gaze-gpt/eye-gaze-gpt-main/src/App.js:231-250 | one SYNTHESISE envelope with the text, mood, current parameter values and the captured advanced flag is sent |
| ClientApp.App.HandleAudioReady | eye-gaze-gpt/eye-gaze-gpt-main/src/App.js:113-119 | one AUDIO_DATA envelope with the recording is sent |
| ClientApp.App.OnResponse | eye-gaze-gpt/eye-gaze-gpt-main/src/App.js:81-105 | each response kind changes exactly its own state (cards, audio, suggestions, recorded text); anything else changes nothing; playing audio disables the recorder |
| ClientApp.App.OnAudioEnded | eye-gaze-gpt/eye-gaze-gpt-main/src/App.js:255 | playback ends and the recorder is active again if recording is on |
| ClientApp.App.HandleMouseMove | eye-gaze-gpt/eye-gaze-gpt-main/src/App.js:129-132 | the sample is appended at the end of the batch |
| ClientApp.App.SendMouseData | eye-gaze-gpt/eye-gaze-gpt-main/src/App.js:148-152 | exactly one mouse_move event with the whole batch is sent, even when empty, and the batch empties |
| ClientApp.App.ToggleAdvanced | eye-gaze-gpt/eye-gaze-gpt-main/src/App.js:121-123 | the flag flips but the speak callback keeps the flag it captured |
| ClientApp.App.ToggleRecording | eye-gaze-gpt/eye-gaze-gpt-main/src/App.js:125-127 | the recording flag flips |
| ClientApp.App.Track | eye-gaze-gpt/eye-gaze-gpt-main/src/components/AdvancedControl.js:86-87 | a control-surface report is sent as one event and logged as one press |
| ServerFunctions.Collected | websocket-gaze-gpt/websocket-gpt-main/serverfunctions.py:310-313 | the grouped parameter lists keep distinct keys in insertion order |
| ServerFunctions.CollectedByParam | websocket-gaze-gpt/websocket-gpt-main/serverfunctions.py:310-313 | a query parameter is present exactly when some configured parameter under it is in `ttsData`, with all their values in configuration order |
| ServerFunctions.BuildUrlParams | websocket-gaze-gpt/websocket-gpt-main/serverfunctions.py:310-318 | the loop builds the `&`-joined `key=v1,v2` query of the grouped lists |
| ServerFunctions.QueryRoundTrip | websocket-gaze-gpt/websocket-gpt-main/serverfunctions.py:315-318 | with no `&` inside keys and values, splitting the query at `&` gives back one piece per query parameter |
| ServerFunctions.NonObjectParams | websocket-gaze-gpt/websocket-gpt-main/serverfunctions.py:311-313 | a non-object `ttsData` gives the empty query exactly when no parameter is found in it, and a TypeError otherwise |
| ServerFunctions.FormatRows | websocket-gaze-gpt/websocket-gpt-main/serverfunctions.py:190-195 | the loop yields the newline-joined lines of the rows |
| ServerFunctions.FormattedRowsRoundTrip | websocket-gaze-gpt/websocket-gpt-main/serverfunctions.py:190-195 | each row is `user: text` or `other: text`, and without newlines in the texts the history splits back into those lines in order |
| ServerFunctions.Truncated | websocket-gaze-gpt/websocket-gpt-main/serverfunctions.py:197-203 | drops leading lines while the history is over 4000 characters and holds a newline; `TruncatedShape` and `TruncatedMinimal` state its properties |
| ServerFunctions.Truncate | websocket-gaze-gpt/websocket-gpt-main/serverfunctions.py:197-203 | the while loop yields the truncation |
| ServerFunctions.TruncatedShape | websocket-gaze-gpt/websocket-gpt-main/serverfunctions.py:197-203 | the result is a suffix of the input that begins a line, fits in 4000 characters unless no newline is left, and a text that fits is unchanged |
| ServerFunctions.TruncatedMinimal | websocket-gaze-gpt/websocket-gpt-main/serverfunctions.py:197-202 | only whole lines that had to go are dropped: any earlier cut would leave more than 4000 characters |
| ServerFunctions.SegmentList | websocket-gaze-gpt/websocket-gpt-main/serverfunctions.py:131-139 | the segment list the loop walks, or the error `len` or `get` raises; `SegmentListOutcomes` states its cases |
| ServerFunctions.SegmentsText | websocket-gaze-gpt/websocket-gpt-main/serverfunctions.py:136-156 | the stripped concatenation or the fallback; `SegmentsTextJoins` states its value |
| ServerFunctions.Accumulated | websocket-gaze-gpt/websocket-gpt-main/serverfunctions.py:136-147 | the only way the loop fails is the AttributeError of a segment that is not a dict |
| ServerFunctions.AccumulatedIsJoin | websocket-gaze-gpt/websocket-gpt-main/serverfunctions.py:136-147 | the loop collects the truthy texts in order, each followed by a space; a segment that is not a dict fails the loop |
| ServerFunctions.SegmentsTextJoins | websocket-gaze-gpt/websocket-gpt-main/serverfunctions.py:136-156 | for dict segments the result is the stripped space-join of the truthy texts, or "No audible voice." when there are none; a segment that is not a dict raises AttributeError |
| ServerFunctions.SegmentsTextUnpadded | websocket-gaze-gpt/websocket-gpt-main/serverfunctions.py:136-154 | when the first spoken text does not start and the last does not end with whitespace, the result is exactly the space-joined texts |
| ServerFunctions.WhitespaceOnlyGivesEmpty | websocket-gaze-gpt/websocket-gpt-main/serverfunctions.py:143-154 | dict segments whose spoken texts are all whitespace give the empty string, not the fallback |
| ServerFunctions.ConcatenateSegments | websocket-gaze-gpt/websocket-gpt-main/serverfunctions.py:136-154 | the loop yields the stripped concatenation or the fallback |
| ServerFunctions.Transcription | websocket-gaze-gpt/websocket-gpt-main/serverfunctions.py:116-162 | the text the transcription reply yields; `TranscriptionFailures` and `TranscriptionOfSegments` state its cases |
| ServerFunctions.TranscribeAudio | websocket-gaze-gpt/websocket-gpt-main/serverfunctions.py:116-162 | the handler yields `Transcription`: the error text on any failure, the fallback with nothing to walk, the stripped join otherwise (`TranscriptionFailures`, `TranscriptionOfSegments`) |
| ServerFunctions.TranscriptionFailures | websocket-gaze-gpt/websocket-gpt-main/serverfunctions.py:116-162 | an unreachable server, a non-JSON body, a failing `len` or `get` on the segments, or a segment that is not a dict all give the transcription error; a refused request names its status code |
| ServerFunctions.SegmentListOutcomes | websocket-gaze-gpt/websocket-gpt-main/serverfunctions.py:131-139 | for an object reply: no `segments` or an empty one leaves nothing to walk, a non-empty list is walked, a non-empty string or dict raises AttributeError, anything else TypeError |
| ServerFunctions.TranscriptionOfSegments | websocket-gaze-gpt/websocket-gpt-main/serverfunctions.py:131-156 | an accepted reply with nothing to walk gives "No audible voice."; one with dict segments gives their stripped space-join or the fallback |
| ServerFunctions.Pad | websocket-gaze-gpt/websocket-gpt-main/serverfunctions.py:232-234 | padding keeps the upload as a prefix and adds fewer than four `=` up to a multiple of four, none if already one |
| ServerFunctions.PayloadAfterFirstComma | websocket-gaze-gpt/websocket-gpt-main/serverfunctions.py:236 | the payload exists exactly when there is a comma, and it is the text between the first comma and the next |
| ServerFunctions.PaddingCountsHeader | websocket-gaze-gpt/websocket-gpt-main/serverfunctions.py:232-236 | the padding counts the data-URL header, so a well-formed payload can gain padding |
| ServerFunctions.ProcessAudioData | websocket-gaze-gpt/websocket-gpt-main/serverfunctions.py:227-257 | the saved file of a decodable upload, or nothing when any step raises; `RecognitionOutcomes` states when it is nothing |
| ServerFunctions.RecentTranscriptions | websocket-gaze-gpt/websocket-gpt-main/serverfunctions.py:165-207 | the history is the truncated formatted rows (`FormattedRowsRoundTrip`, `TruncatedShape`), or the retrieval error text |
| ServerFunctions.Autocorrect | websocket-gaze-gpt/websocket-gpt-main/serverfunctions.py:339-355 | three completions of a non-empty input with the echoed type; a missing input raises KeyError, an empty one IndexError |
| ServerFunctions.Prediction | websocket-gaze-gpt/websocket-gpt-main/serverfunctions.py:264-294 | the PREDICT reply; `PredictionOptions` states it |
| ServerFunctions.Predict | websocket-gaze-gpt/websocket-gpt-main/serverfunctions.py:264-294 | the handler yields `Prediction`: the echoed type with the first three choices, or IndexError below three (`PredictionOptions`) |
| ServerFunctions.PredictionOptions | websocket-gaze-gpt/websocket-gpt-main/serverfunctions.py:283-292 | the reply echoes the type and carries the first three choices in order; fewer than three raise IndexError |
| ServerFunctions.Synthesis | websocket-gaze-gpt/websocket-gpt-main/serverfunctions.py:297-336 | the SYNTHESISE reply; `SynthesisOutcomes` states it |
| ServerFunctions.Synthesise | websocket-gaze-gpt/websocket-gpt-main/serverfunctions.py:297-336 | the handler yields `Synthesis` and reports the URL it fetched: KeyErrors before any fetch, the fetched URL, the file URL or the HTTP error (`SynthesisOutcomes`) |
| ServerFunctions.SynthesisOutcomes | websocket-gaze-gpt/websocket-gpt-main/serverfunctions.py:301-336 | missing fields raise before any fetch; the fetched URL is server, text, quote, `&` and query; a successful fetch answers with the public audio URL |
| ServerFunctions.Recognition | websocket-gaze-gpt/websocket-gpt-main/serverfunctions.py:358-380 | the AUDIO_DATA reply; `RecognitionOutcomes` states it |
| ServerFunctions.SpeechRecognition | websocket-gaze-gpt/websocket-gpt-main/serverfunctions.py:358-380 | the handler yields `Recognition`: the no-speech text for an undecodable upload, otherwise the transcription (`RecognitionOutcomes`) |
| ServerFunctions.RecognitionOutcomes | websocket-gaze-gpt/websocket-gpt-main/serverfunctions.py:358-380 | a message without `audio` raises; an upload that is not a string, has no comma, or is refused by the converter answers the echoed type with the no-speech text; any other answers the echoed type, the transcription and `language: en` |
| WebsocketServer.Route | websocket-gaze-gpt/websocket-gpt-main/websocketserver.py:34-43 | each of the five names selects its own handler and anything else selects none |
| WebsocketServer.Response | websocket-gaze-gpt/websocket-gpt-main/websocketserver.py:26-45 | the reply `handle_message` emits, or the exception that stops it; `ResponseOutcomes` states its cases |
| WebsocketServer.HandleMessage | websocket-gaze-gpt/websocket-gpt-main/websocketserver.py:26-45 | the if/elif chain yields `Response`: KeyError before routing, each type its handler, an unknown type nothing (`ResponseOutcomes`) |
| WebsocketServer.ResponseOutcomes | websocket-gaze-gpt/websocket-gpt-main/websocketserver.py:26-45 | missing fields raise KeyError before routing; EVENT answers `null`; each known type gets its handler's answer on the message's own fields; an unknown type emits nothing |
| EndToEnd.WireRequest | websocket-gaze-gpt/websocket-gpt-main/websocketserver.py:27-29 | an envelope with set data reaches the server with both members |
| EndToEnd.AutocompleteExchange | websocket-gaze-gpt/websocket-gpt-main/serverfunctions.py:339-355 | a non-empty input comes back as its three completions in the suggestions; an empty one gets no reply |
| EndToEnd.PredictExchange | websocket-gaze-gpt/websocket-gpt-main/serverfunctions.py:264-294 | the first three completions become the cards; fewer, or a failed completion, get no reply |
| EndToEnd.EventExchange | websocket-gaze-gpt/websocket-gpt-main/websocketserver.py:42-45 | every tracked event is answered with `null`, which the client ignores |
| EndToEnd.AudioExchange | websocket-gaze-gpt/websocket-gpt-main/serverfunctions.py:358-380 | a recording comes back as the transcription or the no-speech text, shown as the last recorded text |
| EndToEnd.RecognisedReplyShown | eye-gaze-gpt/eye-gaze-gpt-main/src/App.js:98-100 | the transcription reply's extra `language` member does not change what is shown |
| EndToEnd.SetValues | eye-gaze-gpt/eye-gaze-gpt-main/src/App.js:232-235 | the parameters whose value is set, each as its number |
| EndToEnd.WireTtsData | eye-gaze-gpt/eye-gaze-gpt-main/src/App.js:232-249 | the server receives exactly the parameters whose value is set: serialising the speech data drops the unset ones |
| EndToEnd.WireSpeakRequest | eye-gaze-gpt/eye-gaze-gpt-main/src/App.js:239-249 | the SYNTHESISE request reaches the server with text, mood, the set parameters and the flag |
| EndToEnd.SpeakExchange | websocket-gaze-gpt/websocket-gpt-main/serverfunctions.py:297-336 | speaking fetches the text with the query of the set parameters, and a successful fetch plays the file |
| EndToEnd.AdvancedFlagIgnored | websocket-gaze-gpt/websocket-gpt-main/serverfunctions.py:301-304 | the reply does not depend on the advanced flag |
| EndToEnd.ValuesForNonEmpty | websocket-gaze-gpt/websocket-gpt-main/serverfunctions.py:311-313 | a query parameter collects values exactly when some parameter configured under it is present |
| EndToEnd.QueryCarriesSetParams | websocket-gaze-gpt/websocket-gpt-main/serverfunctions.py:310-318 | a query parameter reaches the TTS server exactly when a parameter configured under it has its value set |

## Left out

- The transport: Socket.IO and Flask, connect and disconnect handlers, the
  `localhost` configuration fetch and the dynamic keyboard-layout import.
  Messages are values; `connected` stands for "the socket exists".
- Emitting before the configuration has loaded: `socketRef.current` is then
  unset and the emit throws. The client methods that emit require
  `connected` instead.
- Timers and listeners: the 16 ms animation intervals, the 250 ms
  mouse-listener window and the 10 s flush interval. The flush interval is
  restarted whenever the batch changes; the model exposes one flush as a
  method and does not model when it fires.
- The audio recorder (`AudioRecorder.js`), the audio element beyond its
  source and its end callback, and the keyboard widget. The widget's own
  copy of the input (`keyboard.current.setInput`) is not modelled. The
  input-field change handler (`onChangeInput`) is left out because the field
  is read-only.
- The suggestion buttons are not rendered (their condition is the constant
  `false`). `AddSuggestionToInput` models the handler anyway.
- IEEE floating point and the `toFixed(2)` display: numbers are `real`.
- `JSON.parse` of text that is not JSON (the client handler throws) and
  `json.loads` of malformed text (the server raises). Messages are already
  values.
- Foreign calls, whose results are `Backend` fields:
  - the OpenAI client;
  - the TTS download and its file write;
  - the transcription POST;
  - sqlite reads and writes (the writes swallow their own errors and change
    no result);
  - base64 decoding and pydub conversion;
  - `uuid4`, the clock, and Python's `str()` of non-string values.
- Missing configuration keys (`config["ttsServer"]` and the like) are
  assumed present.
- Transcription segments' `start`/`end` times feed only the database write
  and are not modelled.
- Logging and `print`.
- AdvancedControl.Surface.Initialise: requires `Configured` (bounds with
  `min < max`, groups of at least two). The code checks neither and would
  compute `NaN` or read an undefined key instead.
- AdvancedControl.Surface.HandleGraphClick: requires the clicked group to
  exist. The code only receives clicks from groups it has drawn.
- Text values sent to the TTS server are taken as given: no URL encoding
  happens in the code either.
- Values.At: a string is a sequence of Unicode code points, so `s[i]` reads
  the i-th code point, where JavaScript reads the i-th UTF-16 code unit
  (half of a surrogate pair for characters outside the Basic Multilingual
  Plane).

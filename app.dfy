/** The browser client of the gaze keyboard (src/App.js): its state, the
    messages it sends to the server and how it applies the server's replies.

    The socket is an outbox: `sent` lists every message emitted, in order,
    as the value handed to `JSON.stringify`. Times and timestamps are inputs:
    `renderTime` is the `date` created at the last render, which `TrackButtons`
    reads, and `timestamp` is the ISO string of `new Date()`. Random mood
    picks are inputs too. React's state updates are applied at once; the
    AUTOCOMPLETE effect runs after the handler's own emits. */
module ClientApp {
  import opened Values
  import opened Protocol
  import AC = AdvancedControl

  datatype Mood = Conversation | Mixed | Reading

  function MoodName(m: Mood): string
  {
    match m
    case Conversation => "conversation"
    case Mixed => "mixed"
    case Reading => "reading"
  }

  /** One card of `outputTextList`. */
  datatype OutputText = OutputText(text: Value, mood: Mood)

  /** One entry of `fullInput[stage]`. */
  datatype ButtonPress = ButtonPress(timeSince: int, button: string)

  /** One entry of `mousePosBatch` (line 130). */
  datatype MouseSample = MouseSample(time: int, x: real, y: real)

  // ------------------------------------------------------------ inbound

  /** The effect a server response has, decided by the handler of lines 81-105. */
  datatype Action =
    | ShowOptions(texts: seq<Value>)
    | PlayAudio(url: Value)
    | ShowSuggestions(options: Value)
    | ShowRecorded(text: Value)
    | Ignore
    | Throw(fault: Fault)

  /** `response.data.options[0..2]` (line 90). */
  function PredictOptions(response: Value): (r: Result<seq<Value>>)
    ensures r.Err? ==> r.fault == TypeError
    ensures r.Ok? ==> |r.value| == 3
    ensures response.Obj? && ("data" !in response.fields || response.fields["data"] in {Undefined, Null}) ==>
              r == Err(TypeError)
    ensures (response.Obj? && "data" in response.fields && response.fields["data"].Obj?) ==>
              var data := response.fields["data"].fields;
              ("options" !in data ==> r == Err(TypeError)) &&
              ("options" in data ==>
                 match data["options"]
                 case Undefined => r == Err(TypeError)
                 case Null => r == Err(TypeError)
                 case Arr(items) =>
                   r.Ok? && forall j :: 0 <= j < 3 ==> r.value[j] == (if j < |items| then items[j] else Undefined)
                 case Str(s) =>
                   r.Ok? && forall j :: 0 <= j < 3 ==> r.value[j] == (if j < |s| then Str([s[j]]) else Undefined)
                 case Obj(f) =>
                   r == Ok([Prop(data["options"], "0").value, Prop(data["options"], "1").value,
                            Prop(data["options"], "2").value])
                 case _ => r == Ok([Undefined, Undefined, Undefined]))
  {
    var data :- Prop(response, "data");
    var options :- Prop(data, "options");
    // Once `options[0]` has not thrown, neither do `options[1]` and `options[2]`.
    var first :- At(options, 0);
    Ok([first, At(options, 1).value, At(options, 2).value])
  }

  /** The switch of lines 83-104 on a parsed response. */
  function Classify(response: Value): (a: Action)
    ensures !Truthy(response) ==> a == Ignore
    ensures !response.Obj? || "request_type" !in response.fields ==> a == Ignore
    ensures a.ShowOptions? ==> |a.texts| == 3
    ensures a.Throw? ==> a.fault == TypeError
  {
    if !Truthy(response) then Ignore
    else match Prop(response, "request_type")
      case Err(_) => Ignore
      case Ok(rt) =>
        if !Truthy(rt) then Ignore
        else match ParseRequestType(rt)
          case Some(Predict) =>
            (match PredictOptions(response)
             case Err(f) => Throw(f)
             case Ok(texts) => ShowOptions(texts))
          case Some(Synthesise) =>
            (match Prop(response, "data")
             case Err(f) => Throw(f)
             case Ok(data) =>
               match Prop(data, "audio_url")
               case Err(f) => Throw(f)
               case Ok(url) => PlayAudio(url))
          case Some(Autocomplete) =>
            (match Prop(response, "data")
             case Err(f) => Throw(f)
             case Ok(data) =>
               match Prop(data, "options")
               case Err(f) => Throw(f)
               case Ok(options) => ShowSuggestions(options))
          case Some(AudioData) =>
            (match Prop(response, "data")
             case Err(f) => Throw(f)
             case Ok(data) => ShowRecorded(data))
          case _ => Ignore
  }

  /** A response without a `request_type`, or whose `request_type` is none
      of the four names the client handles (EVENT included), is ignored,
      whatever else it carries. */
  lemma UnknownResponsesIgnored(response: Value)
    requires response.Obj?
    requires "request_type" in response.fields ==>
      forall t: RequestType :: t != Event ==> response.fields["request_type"] != Str(Name(t))
    ensures Classify(response) == Ignore
  {
    if "request_type" in response.fields {
      var rt := response.fields["request_type"];
      var p := ParseRequestType(rt);
      if p.Some? {
        assert rt == Str(Name(p.value));
      }
    }
  }

  /** A PREDICT reply shaped as the server builds it shows its first three
      options. */
  lemma PredictReplyShown(options: seq<Value>)
    requires |options| >= 3
    ensures Classify(Envelope(Str("PREDICT"), Obj(map["options" := Arr(options)]))) == ShowOptions(options[..3])
  {
    assert ParseRequestType(Str("PREDICT")) == Some(Predict);
    assert options[..3] == [options[0], options[1], options[2]];
  }

  /** An AUTOCOMPLETE reply replaces the suggestions with its options. */
  lemma AutocompleteReplyShown(options: seq<Value>)
    ensures Classify(Envelope(Str("AUTOCOMPLETE"), Obj(map["options" := Arr(options)]))) == ShowSuggestions(Arr(options))
  {
    assert ParseRequestType(Str("AUTOCOMPLETE")) == Some(Autocomplete);
  }

  /** A SYNTHESISE reply plays its audio URL. */
  lemma SynthesiseReplyPlayed(audioUrl: Value)
    ensures Classify(Envelope(Str("SYNTHESISE"), Obj(map["audio_url" := audioUrl]))) == PlayAudio(audioUrl)
  {
    assert ParseRequestType(Str("SYNTHESISE")) == Some(Synthesise);
  }

  /** An AUDIO_DATA reply shows its data as the recorded text; a null reply
      (what an EVENT is answered with) is ignored. */
  lemma AudioReplyShown(text: Value)
    ensures Classify(Envelope(Str("AUDIO_DATA"), text)) == ShowRecorded(text)
    ensures Classify(Null) == Ignore
  {
    assert ParseRequestType(Str("AUDIO_DATA")) == Some(AudioData);
  }

  /** A PREDICT reply whose `data` is missing or null throws rather than
      showing cards, whatever else it carries. */
  lemma PredictWithoutDataThrows(response: Value)
    requires response.Obj? && "request_type" in response.fields
    requires response.fields["request_type"] == Str("PREDICT")
    requires "data" !in response.fields || response.fields["data"] in {Null, Undefined}
    ensures Classify(response) == Throw(TypeError)
  {
    assert ParseRequestType(Str("PREDICT")) == Some(Predict);
  }

  // ------------------------------------------------------------ outbound

  /** `trackEvent` (lines 259-269). */
  function EventMessage(eventType: string, eventData: Value, timestamp: string): Value
  {
    Request(Event, Obj(map["eventType" := Str(eventType), "eventData" := eventData, "timestamp" := Str(timestamp)]))
  }

  function AutocompleteRequest(input: string): Value
  {
    Request(Autocomplete, Obj(map["input" := Str(input)]))
  }

  function PredictRequest(input: string): Value
  {
    Request(Predict, Obj(map["text" := Str(input)]))
  }

  function AudioRequest(base64data: string): Value
  {
    Request(AudioData, Obj(map["audio" := Str(base64data)]))
  }

  /** The `ttsData` reduce of lines 232-235: every parameter key, mapped to
      its current `value` (undefined until the control has defaulted it). */
  function TtsData(entries: map<string, AC.Param>): (r: Value)
    ensures r.Obj? && r.fields.Keys == entries.Keys
    ensures forall k :: k in entries ==>
      (entries[k].value.Some? ==> r.fields[k] == Num(entries[k].value.value))
      && (entries[k].value.None? ==> r.fields[k] == Undefined)
  {
    Obj(map k | k in entries :: if entries[k].value.Some? then Num(entries[k].value.value) else Undefined)
  }

  /** The SYNTHESISE request of lines 239-247. */
  function SpeakRequest(text: Value, mood: Value, ttsData: Value, isAdvanced: bool): Value
  {
    Request(Synthesise, Obj(map["text" := text, "mood" := mood, "ttsData" := ttsData, "isAdvanced" := Bool(isAdvanced)]))
  }

  function SampleValue(s: MouseSample): Value
  {
    Obj(map["time" := Num(s.time as real), "x" := Num(s.x), "y" := Num(s.y)])
  }

  /** The event data of a mouse flush (line 150): every sample, in order. */
  function BatchData(batch: seq<MouseSample>): (r: Value)
    ensures r.Obj? && r.fields.Keys == {"positions"} && r.fields["positions"].Arr?
    ensures |r.fields["positions"].items| == |batch|
    ensures forall i :: 0 <= i < |batch| ==> r.fields["positions"].items[i] == SampleValue(batch[i])
  {
    Obj(map["positions" := Arr(seq(|batch|, i requires 0 <= i < |batch| => SampleValue(batch[i])))])
  }

  // ------------------------------------------------------------ pure rules

  /** `TrackButtons` (lines 187-196) on the log: a stage's first press is
      logged with `timeSince` 0, later ones with the time since the last. */
  function Logged(log: map<int, seq<ButtonPress>>, stage: int, button: string, currTime: int, prevTime: int): map<int, seq<ButtonPress>>
  {
    log[stage := if stage in log then log[stage] + [ButtonPress(currTime - prevTime, button)] else [ButtonPress(0, button)]]
  }

  /** Logging appends one entry at the end of the stage's list and leaves
      every other stage alone. */
  lemma LoggedAppends(log: map<int, seq<ButtonPress>>, stage: int, button: string, currTime: int, prevTime: int)
    ensures var r := Logged(log, stage, button, currTime, prevTime);
      && r.Keys == log.Keys + {stage}
      && (forall s :: s in log && s != stage ==> r[s] == log[s])
      && (stage !in log ==> r[stage] == [ButtonPress(0, button)])
      && (stage in log ==>
        (|r[stage]| == |log[stage]| + 1 && r[stage][..|log[stage]|] == log[stage]
         && r[stage][|log[stage]|] == ButtonPress(currTime - prevTime, button)))
  {
    var r := Logged(log, stage, button, currTime, prevTime);
    if stage in log {
      assert r[stage][..|log[stage]|] == log[stage];
    }
  }

  /** `addSuggestionToInput` (lines 212-219). */
  function Suggested(input: string, text: string): (r: string)
    ensures |r| >= |input| + |text| + 1 && r[..|input|] == input && r[|r| - 1] == ' '
    ensures r[|r| - 1 - |text|..|r| - 1] == text
    ensures |r| == |input| + |text| + 1 <==> input == "" || input[|input| - 1] == ' '
    ensures |r| == |input| + |text| + 2 <==> !(input == "" || input[|input| - 1] == ' ')
    ensures |r| == |input| + |text| + 2 ==> r[|input|] == ' '
  {
    if (|input| > 0 && input[|input| - 1] == ' ') || |input| == 0 then input + text + " "
    else input + " " + text + " "
  }

  /** `handleShift` (lines 176-179). */
  function ToggledLayout(name: string): (r: string)
    ensures r == "default" || r == "shift"
    ensures (name == "default" || name == "shift") ==> r != name
  {
    if name == "default" then "shift" else "default"
  }

  lemma ToggledLayoutTwice(name: string)
    requires name == "default" || name == "shift"
    ensures ToggledLayout(ToggledLayout(name)) == name
  {
  }

  // ------------------------------------------------------------ the component

  class App {
    var input: string
    var layoutName: string
    var stage: int
    var prevTime: int
    var fullInput: map<int, seq<ButtonPress>>
    var outputTextList: seq<OutputText>
    var autoCompleteSuggestions: Value
    var isAdvanced: bool
    /** The `isAdvanced` that the memoised `onSpeakButtonClick` closed over:
        the callback depends on `ttsParams` alone (line 250), so it keeps the
        value `isAdvanced` had when `ttsParams` was last replaced. */
    var speakIsAdvanced: bool
    var ttsParams: AC.TtsParams
    var lastRecordedText: Value
    var recordingEnabled: bool
    var isAudioPlaying: bool
    /** The source of the last `Audio` element created, if any. */
    var audio: Option<Value>
    var mousePosBatch: seq<MouseSample>
    /** Whether the socket exists: it is opened once the configuration loads. */
    var connected: bool
    var sent: seq<Value>

    /** Three output cards, and one of the two keyboard layouts. */
    ghost predicate Valid()
      reads this
    {
      |outputTextList| == 3 && (layoutName == "default" || layoutName == "shift")
    }

    /** The initial state of lines 16-32. */
    constructor (renderTime: int)
      ensures Valid() && !connected && sent == []
      ensures input == "" && layoutName == "default" && stage == 0 && prevTime == renderTime
      ensures fullInput == map[] && outputTextList == [OutputText(Str(""), Mixed), OutputText(Str(""), Mixed), OutputText(Str(""), Mixed)]
      ensures autoCompleteSuggestions == Arr([Str("aaa"), Str("bbb"), Str("ccc")])
      ensures isAdvanced && speakIsAdvanced && ttsParams.keys == [] && ttsParams.entries == map[]
      ensures lastRecordedText == Str("") && !recordingEnabled && !isAudioPlaying && audio == None && mousePosBatch == []
    {
      input, layoutName, stage, prevTime := "", "default", 0, renderTime;
      fullInput := map[];
      outputTextList := [OutputText(Str(""), Mixed), OutputText(Str(""), Mixed), OutputText(Str(""), Mixed)];
      autoCompleteSuggestions := Arr([Str("aaa"), Str("bbb"), Str("ccc")]);
      isAdvanced, speakIsAdvanced := true, true;
      ttsParams := new AC.TtsParams([], map[]);
      lastRecordedText := Str("");
      recordingEnabled, isAudioPlaying, audio := false, false, None;
      mousePosBatch := [];
      connected, sent := false, [];
    }

    /** Lines 39-111 once the configuration has arrived: the parameters are
        replaced, which re-creates the speak callback, and the socket opens. */
    method ConfigLoaded(params: AC.TtsParams)
      requires !connected
      modifies this`ttsParams, this`speakIsAdvanced, this`connected
      ensures ttsParams == params && speakIsAdvanced == isAdvanced && connected
    {
      ttsParams := params;
      speakIsAdvanced := isAdvanced;
      connected := true;
    }

    /** `socketRef.current.emit('message', ...)`. */
    method Send(message: Value)
      requires connected
      modifies this`sent
      ensures sent == old(sent) + [message]
    {
      sent := sent + [message];
    }

    method TrackEvent(eventType: string, eventData: Value, timestamp: string)
      requires connected
      modifies this`sent
      ensures sent == old(sent) + [EventMessage(eventType, eventData, timestamp)]
    {
      Send(EventMessage(eventType, eventData, timestamp));
    }

    method TrackButtons(button: string, renderTime: int)
      modifies this`fullInput, this`prevTime
      ensures fullInput == Logged(old(fullInput), stage, button, renderTime, old(prevTime))
      ensures prevTime == renderTime
    {
      var entry := if stage !in fullInput then [ButtonPress(0, button)]
        else fullInput[stage] + [ButtonPress(renderTime - prevTime, button)];
      fullInput := fullInput[stage := entry];
      prevTime := renderTime;
    }

    /** `setInput` followed by the effect of lines 165-169: a changed,
        non-empty input is sent for completion. */
    method SetInput(newInput: string)
      requires connected
      modifies this`input, this`sent
      ensures input == newInput
      ensures sent == old(sent) + if newInput != old(input) && newInput != "" then [AutocompleteRequest(newInput)] else []
    {
      var changed := newInput != input;
      input := newInput;
      if changed && |newInput| != 0 {
        Send(AutocompleteRequest(newInput));
      }
    }

    /** `onChange` (lines 171-174). */
    method OnChange(newInput: string, timestamp: string)
      requires connected
      modifies this`input, this`sent
      ensures input == newInput
      ensures sent == old(sent) + [EventMessage("keyboard_input", Obj(map["input" := Str(newInput)]), timestamp)]
        + if newInput != old(input) && newInput != "" then [AutocompleteRequest(newInput)] else []
    {
      TrackEvent("keyboard_input", Obj(map["input" := Str(newInput)]), timestamp);
      SetInput(newInput);
    }

    method HandleShift()
      requires Valid()
      modifies this`layoutName
      ensures Valid() && layoutName == ToggledLayout(old(layoutName))
    {
      layoutName := if layoutName == "default" then "shift" else "default";
    }

    /** `onKeyPress` (lines 181-185). */
    method OnKeyPress(button: string, renderTime: int, timestamp: string)
      requires Valid() && connected
      modifies this`fullInput, this`prevTime, this`layoutName, this`sent
      ensures Valid()
      ensures fullInput == Logged(old(fullInput), stage, button, renderTime, old(prevTime)) && prevTime == renderTime
      ensures layoutName == if button == "{shift}" || button == "{lock}" then ToggledLayout(old(layoutName)) else old(layoutName)
      ensures sent == old(sent) + [EventMessage("key_press", Obj(map["button" := Str(button)]), timestamp)]
    {
      TrackButtons(button, renderTime);
      if button == "{shift}" || button == "{lock}" {
        HandleShift();
      }
      TrackEvent("key_press", Obj(map["button" := Str(button)]), timestamp);
    }

    /** `onClearButtonClick` (lines 205-210): an empty input is never sent
        for completion. */
    method OnClearButtonClick(renderTime: int, timestamp: string)
      requires connected
      modifies this`input, this`fullInput, this`prevTime, this`sent
      ensures input == ""
      ensures fullInput == Logged(old(fullInput), stage, "CLEAR", renderTime, old(prevTime)) && prevTime == renderTime
      ensures sent == old(sent) + [EventMessage("button_click", Obj(map["button" := Str("Clear")]), timestamp)]
    {
      input := "";
      TrackButtons("CLEAR", renderTime);
      TrackEvent("button_click", Obj(map["button" := Str("Clear")]), timestamp);
    }

    /** `addSuggestionToInput` (lines 212-223): the new input is always
        longer, so it is always sent for completion. */
    method AddSuggestionToInput(text: string, renderTime: int, timestamp: string)
      requires connected
      modifies this`input, this`fullInput, this`prevTime, this`sent
      ensures input == Suggested(old(input), text)
      ensures fullInput == Logged(old(fullInput), stage, text, renderTime, old(prevTime)) && prevTime == renderTime
      ensures sent == old(sent)
        + [EventMessage("button_click", Obj(map["button" := Str("Suggestion"), "suggestion" := Str(text)]), timestamp)]
        + [AutocompleteRequest(input)]
    {
      TrackButtons(text, renderTime);
      var newInput;
      if (|input| > 0 && input[|input| - 1] == ' ') || |input| == 0 {
        newInput := input + text + " ";
      } else {
        newInput := input + " " + text + " ";
      }
      TrackEvent("button_click", Obj(map["button" := Str("Suggestion"), "suggestion" := Str(text)]), timestamp);
      SetInput(newInput);
    }

    /** `onCreateButtonClick` (lines 225-229). */
    method OnCreateButtonClick(renderTime: int, timestamp: string)
      requires connected
      modifies this`fullInput, this`prevTime, this`sent
      ensures fullInput == Logged(old(fullInput), stage, "PREDICT", renderTime, old(prevTime)) && prevTime == renderTime
      ensures sent == old(sent) + [PredictRequest(input), EventMessage("button_click", Obj(map["button" := Str("Create")]), timestamp)]
    {
      Send(PredictRequest(input));
      TrackButtons("PREDICT", renderTime);
      TrackEvent("button_click", Obj(map["button" := Str("Create")]), timestamp);
    }

    /** `onSpeakButtonClick` (lines 231-250): the parameter values are read
        from the shared object as they are now, the advanced flag as it was
        captured. */
    method OnSpeakButtonClick(text: Value, mood: Value)
      requires connected
      modifies this`sent
      ensures sent == old(sent) + [SpeakRequest(text, mood, TtsData(ttsParams.entries), speakIsAdvanced)]
    {
      Send(SpeakRequest(text, mood, TtsData(ttsParams.entries), speakIsAdvanced));
    }

    /** `handleAudioReady` (lines 113-119). */
    method HandleAudioReady(base64data: string)
      requires connected
      modifies this`sent
      ensures sent == old(sent) + [AudioRequest(base64data)]
    {
      Send(AudioRequest(base64data));
    }

    /** Whether the recorder may record (line 319). */
    predicate RecorderActive()
      reads this
    {
      recordingEnabled && !isAudioPlaying
    }

    /** The response handler of lines 81-105, with the three random moods of
        lines 86-89 as inputs. A response that throws changes nothing. */
    method OnResponse(response: Value, mood1: Mood, mood2: Mood, mood3: Mood)
      requires Valid()
      modifies this`outputTextList, this`isAudioPlaying, this`audio, this`autoCompleteSuggestions, this`lastRecordedText
      ensures Valid()
      ensures var a := Classify(response);
        && outputTextList == (if a.ShowOptions?
          then [OutputText(a.texts[0], mood1), OutputText(a.texts[1], mood2), OutputText(a.texts[2], mood3)]
          else old(outputTextList))
        && isAudioPlaying == (a.PlayAudio? || old(isAudioPlaying))
        && audio == (if a.PlayAudio? then Some(a.url) else old(audio))
        && autoCompleteSuggestions == (if a.ShowSuggestions? then a.options else old(autoCompleteSuggestions))
        && lastRecordedText == (if a.ShowRecorded? then a.text else old(lastRecordedText))
      ensures Classify(response).PlayAudio? ==> !RecorderActive()
    {
      var action := Classify(response);
      match action
      case ShowOptions(texts) =>
        outputTextList := [OutputText(texts[0], mood1), OutputText(texts[1], mood2), OutputText(texts[2], mood3)];
      case PlayAudio(url) =>
        audio := Some(url);
        isAudioPlaying := true;
      case ShowSuggestions(options) =>
        autoCompleteSuggestions := options;
      case ShowRecorded(text) =>
        lastRecordedText := text;
      case Ignore =>
      case Throw(_) =>
    }

    /** The audio element's `onended` (line 255). */
    method OnAudioEnded()
      modifies this`isAudioPlaying
      ensures !isAudioPlaying && (recordingEnabled ==> RecorderActive())
    {
      isAudioPlaying := false;
    }

    /** `handleMouseMove` (lines 129-132). */
    method HandleMouseMove(sample: MouseSample)
      modifies this`mousePosBatch
      ensures mousePosBatch == old(mousePosBatch) + [sample]
    {
      mousePosBatch := mousePosBatch + [sample];
    }

    /** `sendMouseData` (lines 149-152): one event with the whole batch, even
        an empty one, then an empty batch. */
    method SendMouseData(timestamp: string)
      requires connected
      modifies this`mousePosBatch, this`sent
      ensures mousePosBatch == []
      ensures sent == old(sent) + [EventMessage("mouse_move", BatchData(old(mousePosBatch)), timestamp)]
    {
      TrackEvent("mouse_move", BatchData(mousePosBatch), timestamp);
      mousePosBatch := [];
    }

    /** `toggleAdvanced` (lines 121-123): the speak callback keeps its flag. */
    method ToggleAdvanced()
      modifies this`isAdvanced
      ensures isAdvanced == !old(isAdvanced) && speakIsAdvanced == old(speakIsAdvanced)
    {
      isAdvanced := !isAdvanced;
    }

    method ToggleRecording()
      modifies this`recordingEnabled
      ensures recordingEnabled == !old(recordingEnabled)
    {
      recordingEnabled := !recordingEnabled;
    }

    /** The `trackEvent` and `TrackButtons` callbacks the control surface
        calls with a report (AdvancedControl.js lines 86-87, 148-149). */
    method Track(report: AC.Tracking, renderTime: int, timestamp: string)
      requires connected
      modifies this`fullInput, this`prevTime, this`sent
      ensures fullInput == Logged(old(fullInput), stage, report.button, renderTime, old(prevTime)) && prevTime == renderTime
      ensures sent == old(sent) + [EventMessage(report.eventType, report.eventData, timestamp)]
    {
      TrackEvent(report.eventType, report.eventData, timestamp);
      TrackButtons(report.button, renderTime);
    }
  }

  /** Samples recorded between two flushes are sent in arrival order: the
      flushed batch is the earlier batch followed by the new samples. */
  lemma BatchDataAppends(batch: seq<MouseSample>, more: seq<MouseSample>)
    ensures BatchData(batch + more).fields["positions"].items
      == BatchData(batch).fields["positions"].items + BatchData(more).fields["positions"].items
  {
    var r := BatchData(batch + more).fields["positions"].items;
    var s := BatchData(batch).fields["positions"].items + BatchData(more).fields["positions"].items;
    assert |r| == |s|;
    forall i | 0 <= i < |r| ensures r[i] == s[i] {
      if i < |batch| {
        assert (batch + more)[i] == batch[i];
      } else {
        assert (batch + more)[i] == more[i - |batch|];
      }
    }
  }
}

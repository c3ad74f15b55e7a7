/** A request from the browser client answered by the speech server and
    applied by the client.

    The client serialises its request with `JSON.stringify` and the server
    decodes it with `json.loads` (`Protocol.Wire`). The server's reply is
    built from decoded JSON, constant strings and the backend's results, so
    `json.dumps` followed by `JSON.parse` gives it back unchanged. */
module EndToEnd {
  import opened Values
  import P = Protocol
  import S = ServerFunctions
  import W = WebsocketServer
  import C = ClientApp

  /** What the client ends up doing: nothing, because the server raised
      instead of replying, or the action its response handler takes. */
  datatype Outcome = NoReply(fault: Fault) | Applied(action: C.Action)

  function Exchange(request: Value, backend: S.Backend): Outcome
  {
    match W.Response(P.Wire(request), backend)
    case Err(f) => NoReply(f)
    case Ok(reply) => Applied(C.Classify(reply))
  }

  /** An envelope keeps both members across the wire when its data is set. */
  lemma WireRequest(t: P.RequestType, data: Value)
    requires !data.Undefined?
    ensures P.Wire(P.Request(t, data)) == P.Envelope(Str(P.Name(t)), P.Wire(data))
  {
    var f0: map<string, Value> := map[];
    var f1 := f0["request_type" := Str(P.Name(t))];
    assert P.Wire(Obj(f0)) == Obj(f0);
    WireUpdate(f0, "request_type", Str(P.Name(t)));
    WireUpdate(f1, "data", data);
  }

  /** A string-only object crosses the wire unchanged. */
  lemma WireStrings(f: map<string, Value>)
    requires forall k :: k in f ==> f[k].Str?
    ensures P.Wire(Obj(f)) == Obj(f)
  {
    P.WireKeepsDefined(Obj(f));
  }

  /** The three completions of a non-empty input come back as suggestions;
      an empty input makes the server raise, so nothing comes back. */
  lemma AutocompleteExchange(input: string, backend: S.Backend)
    ensures Exchange(C.AutocompleteRequest(input), backend) ==
      if input == "" then NoReply(IndexError)
      else Applied(C.ShowSuggestions(Arr([Str(input + "word 1"), Str(input + "word 2"), Str(input + "word 3")])))
  {
    var data := Obj(map["input" := Str(input)]);
    WireRequest(P.Autocomplete, data);
    WireStrings(map["input" := Str(input)]);
    var request := P.Wire(C.AutocompleteRequest(input));
    W.ResponseOutcomes(request, backend);
    if input != "" {
      C.AutocompleteReplyShown([Str(input + "word 1"), Str(input + "word 2"), Str(input + "word 3")]);
    }
  }

  /** The first three completions of the input become the three cards; fewer
      than three, or a failed completion, leaves the cards as they were. */
  lemma PredictExchange(input: string, backend: S.Backend)
    ensures var c := backend.complete(S.PredictPrompt(backend), Str(input));
      && (c.Err? ==> Exchange(C.PredictRequest(input), backend) == NoReply(c.fault))
      && (c.Ok? && |c.value| < 3 ==> Exchange(C.PredictRequest(input), backend) == NoReply(IndexError))
      && (c.Ok? && |c.value| >= 3 ==> Exchange(C.PredictRequest(input), backend) == Applied(C.ShowOptions(c.value[..3])))
  {
    var data := Obj(map["text" := Str(input)]);
    WireRequest(P.Predict, data);
    WireStrings(map["text" := Str(input)]);
    var request := P.Wire(C.PredictRequest(input));
    W.ResponseOutcomes(request, backend);
    var c := backend.complete(S.PredictPrompt(backend), Str(input));
    if c.Ok? && |c.value| >= 3 {
      C.PredictReplyShown(c.value[..3]);
      assert c.value[..3][..3] == c.value[..3];
    }
  }

  /** Every tracked event is answered with `null`, which the client ignores. */
  lemma EventExchange(eventType: string, eventData: Value, timestamp: string, backend: S.Backend)
    ensures Exchange(C.EventMessage(eventType, eventData, timestamp), backend) == Applied(C.Ignore)
  {
    var data := Obj(map["eventType" := Str(eventType), "eventData" := eventData, "timestamp" := Str(timestamp)]);
    WireRequest(P.Event, data);
    var request := P.Wire(C.EventMessage(eventType, eventData, timestamp));
    W.ResponseOutcomes(request, backend);
    C.AudioReplyShown(Null);
  }

  /** A recording comes back as the transcription, or as the fixed no-speech
      text when it cannot be decoded, and is shown as the last recorded text. */
  lemma AudioExchange(base64data: string, backend: S.Backend)
    ensures Exchange(C.AudioRequest(base64data), backend) == Applied(C.ShowRecorded(Str(
      if S.ProcessAudioData(Str(base64data), backend.convert).None? then S.NoSpeech
      else S.Transcription(backend.transcription, backend.render))))
  {
    var data := Obj(map["audio" := Str(base64data)]);
    WireRequest(P.AudioData, data);
    WireStrings(map["audio" := Str(base64data)]);
    var request := P.Wire(C.AudioRequest(base64data));
    W.ResponseOutcomes(request, backend);
    assert W.Response(request, backend) == S.Recognition(Str("AUDIO_DATA"), data, backend);
    if S.ProcessAudioData(Str(base64data), backend.convert).None? {
      C.AudioReplyShown(Str(S.NoSpeech));
    } else {
      var text := Str(S.Transcription(backend.transcription, backend.render));
      RecognisedReplyShown(text);
    }
  }

  /** The transcription reply carries a third member, `language`, which the
      client does not read. */
  lemma RecognisedReplyShown(text: Value)
    ensures C.Classify(Obj(map["request_type" := Str("AUDIO_DATA"), "data" := text, "language" := Str("en")])) == C.ShowRecorded(text)
  {
    assert P.ParseRequestType(Str("AUDIO_DATA")) == Some(P.AudioData);
  }

  /** The parameters the server receives: only those whose value is set,
      because `JSON.stringify` drops the members holding `undefined`. */
  function SetValues(entries: map<string, C.AC.Param>): (r: map<string, Value>)
    ensures r.Keys == set k | k in entries && entries[k].value.Some?
    ensures forall k :: k in r ==> r[k] == Num(entries[k].value.value)
  {
    map k | k in entries && entries[k].value.Some? :: Num(entries[k].value.value)
  }

  lemma WireTtsData(entries: map<string, C.AC.Param>)
    ensures P.Wire(C.TtsData(entries)) == Obj(SetValues(entries))
  {
    var f := C.TtsData(entries).fields;
    var g := map k | k in f && !f[k].Undefined? :: P.Wire(f[k]);
    assert g.Keys == SetValues(entries).Keys;
    forall k | k in g ensures g[k] == SetValues(entries)[k] {
      assert f[k] == Num(entries[k].value.value);
    }
  }

  /** Setting a defined member commutes with crossing the wire. */
  lemma WireUpdate(f: map<string, Value>, k: string, v: Value)
    requires !v.Undefined?
    ensures P.Wire(Obj(f[k := v])) == Obj(P.Wire(Obj(f)).fields[k := P.Wire(v)])
  {
    var g := P.Wire(Obj(f)).fields[k := P.Wire(v)];
    var h := P.Wire(Obj(f[k := v])).fields;
    assert h.Keys == g.Keys;
    forall j | j in h ensures h[j] == g[j] {
      if j != k {
        assert f[k := v][j] == f[j];
      }
    }
  }

  /** The SYNTHESISE request as the server decodes it. */
  lemma WireSpeakRequest(text: string, mood: string, entries: map<string, C.AC.Param>, isAdvanced: bool)
    ensures P.Wire(C.SpeakRequest(Str(text), Str(mood), C.TtsData(entries), isAdvanced))
      == P.Envelope(Str("SYNTHESISE"), Obj(map["text" := Str(text), "mood" := Str(mood),
           "ttsData" := Obj(SetValues(entries)), "isAdvanced" := Bool(isAdvanced)]))
  {
    var f0: map<string, Value> := map[];
    var f1 := f0["text" := Str(text)];
    var f2 := f1["mood" := Str(mood)];
    var f3 := f2["ttsData" := C.TtsData(entries)];
    var f4 := f3["isAdvanced" := Bool(isAdvanced)];
    assert P.Wire(Obj(f0)) == Obj(f0);
    WireUpdate(f0, "text", Str(text));
    WireUpdate(f1, "mood", Str(mood));
    WireUpdate(f2, "ttsData", C.TtsData(entries));
    WireTtsData(entries);
    WireUpdate(f3, "isAdvanced", Bool(isAdvanced));
    WireRequest(P.Synthesise, Obj(f4));
  }

  /** Speaking a card asks the TTS server for the text with the query built
      from the set parameters alone; a successful download plays the file. */
  lemma SpeakExchange(text: string, mood: string, entries: map<string, C.AC.Param>, isAdvanced: bool, backend: S.Backend)
    ensures var say := S.SayString(backend.ttsServer, text, S.Query(S.Collected(backend.ttsParams, SetValues(entries), backend.render)));
      && S.SynthesisFetch(P.Wire(C.SpeakRequest(Str(text), Str(mood), C.TtsData(entries), isAdvanced)).fields["data"], backend) == Some(say)
      && Exchange(C.SpeakRequest(Str(text), Str(mood), C.TtsData(entries), isAdvanced), backend)
        == if backend.fetch(say) then Applied(C.PlayAudio(Str(S.AudioUrl(backend)))) else NoReply(ForeignError("HTTPError"))
  {
    WireSpeakRequest(text, mood, entries, isAdvanced);
    var request := P.Wire(C.SpeakRequest(Str(text), Str(mood), C.TtsData(entries), isAdvanced));
    W.ResponseOutcomes(request, backend);
    C.SynthesiseReplyPlayed(Str(S.AudioUrl(backend)));
  }

  /** The server never reads `isAdvanced`: the flag the speak callback sends,
      stale or not, does not change the reply. */
  lemma AdvancedFlagIgnored(text: string, mood: string, entries: map<string, C.AC.Param>, backend: S.Backend)
    ensures Exchange(C.SpeakRequest(Str(text), Str(mood), C.TtsData(entries), true), backend)
      == Exchange(C.SpeakRequest(Str(text), Str(mood), C.TtsData(entries), false), backend)
  {
    SpeakExchange(text, mood, entries, true, backend);
    SpeakExchange(text, mood, entries, false, backend);
  }

  /** Some configured parameter named in `ttsData` is sent under `key`. */
  predicate SentUnder(config: seq<S.TtsParamConfig>, ttsData: map<string, Value>, key: string)
  {
    exists i :: 0 <= i < |config| && config[i].name in ttsData && config[i].urlParam == key
  }

  lemma {:induction false} ValuesForNonEmpty(config: seq<S.TtsParamConfig>, ttsData: map<string, Value>, render: Value -> string, key: string)
    ensures S.ValuesFor(config, ttsData, render, key) != [] <==> SentUnder(config, ttsData, key)
    decreases |config|
  {
    if config != [] {
      var init := config[..|config| - 1];
      ValuesForNonEmpty(init, ttsData, render, key);
      if SentUnder(init, ttsData, key) {
        var i :| 0 <= i < |init| && init[i].name in ttsData && init[i].urlParam == key;
        assert config[i] == init[i];
      }
      if SentUnder(config, ttsData, key) {
        var i :| 0 <= i < |config| && config[i].name in ttsData && config[i].urlParam == key;
        if i < |init| {
          assert init[i] == config[i];
        }
      }
    }
  }

  /** A query parameter reaches the TTS server exactly when a parameter
      configured under it has a value set in the control. */
  lemma QueryCarriesSetParams(config: seq<S.TtsParamConfig>, entries: map<string, C.AC.Param>, render: Value -> string, key: string)
    ensures key in S.Collected(config, SetValues(entries), render).lists <==>
      exists i :: 0 <= i < |config| && config[i].name in entries && entries[config[i].name].value.Some? && config[i].urlParam == key
  {
    S.CollectedByParam(config, SetValues(entries), render, key);
    ValuesForNonEmpty(config, SetValues(entries), render, key);
  }
}

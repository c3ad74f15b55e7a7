/** The socket message handler of the speech server (websocketserver.py).

    A message is already-decoded JSON; the response is what `handle_message`
    emits, or the exception that stops it emitting anything. */
module WebsocketServer {
  import opened Values
  import P = Protocol
  import opened ServerFunctions

  /** The five functions a message can be routed to. */
  datatype Handler = PredictHandler | SynthesiseHandler | AutocorrectHandler | SpeechRecognitionHandler | LogEventHandler

  function HandlerFor(t: P.RequestType): Handler
  {
    match t
    case Predict => PredictHandler
    case Synthesise => SynthesiseHandler
    case Autocomplete => AutocorrectHandler
    case AudioData => SpeechRecognitionHandler
    case Event => LogEventHandler
  }

  /** The if/elif chain of lines 34-43: each of the five names selects its
      own handler, and every other value (a non-string included) none. */
  function Route(requestType: Value): (h: Option<Handler>)
    ensures forall t: P.RequestType :: h == Some(HandlerFor(t)) <==> requestType == Str(P.Name(t))
    ensures h.None? <==> forall t: P.RequestType :: requestType != Str(P.Name(t))
  {
    match P.ParseRequestType(requestType)
    case None => None
    case Some(t) => Some(HandlerFor(t))
  }

  /** The call of the selected handler, with the message's own
      `request_type` and `data`. */
  function Dispatched(h: Handler, requestType: Value, data: Value, backend: Backend): Result<Value>
  {
    match h
    case PredictHandler => Prediction(requestType, data, backend)
    case SynthesiseHandler => Synthesis(requestType, data, backend)
    case AutocorrectHandler => Autocorrect(requestType, data)
    case SpeechRecognitionHandler => Recognition(requestType, data, backend)
    case LogEventHandler => Ok(LogEvent(requestType, data))
  }

  /** `handle_message` (lines 26-45) as a function of the message. */
  function Response(message: Value, backend: Backend): Result<Value>
  {
    var requestType :- Subscript(message, "request_type");
    var data :- Subscript(message, "data");
    match Route(requestType)
    case None => Err(UnboundLocalError("response"))
    case Some(h) => Dispatched(h, requestType, data, backend)
  }

  /** Lines 26-45: `Ok` is the payload emitted, `Err` the exception raised
      instead of emitting. */
  method HandleMessage(message: Value, backend: Backend) returns (r: Result<Value>)
    ensures r == Response(message, backend)
  {
    var requestType := Subscript(message, "request_type");
    if requestType.Err? {
      return Err(requestType.fault);
    }
    var data := Subscript(message, "data");
    if data.Err? {
      return Err(data.fault);
    }
    var rt := requestType.value;
    if rt == Str("PREDICT") {
      r := Predict(rt, data.value, backend);
    } else if rt == Str("SYNTHESISE") {
      var fetched;
      r, fetched := Synthesise(rt, data.value, backend);
    } else if rt == Str("AUTOCOMPLETE") {
      r := Autocorrect(rt, data.value);
    } else if rt == Str("AUDIO_DATA") {
      r := SpeechRecognition(rt, data.value, backend);
    } else if rt == Str("EVENT") {
      r := Ok(LogEvent(rt, data.value));
    } else {
      r := Err(UnboundLocalError("response"));
    }
  }

  /** A message missing either field fails before routing; an unknown type
      emits nothing; an event is answered with JSON `null`; every other known
      type is answered by its handler, called with the message's fields. */
  lemma ResponseOutcomes(message: Value, backend: Backend)
    ensures message.Obj? && "request_type" !in message.fields ==> Response(message, backend) == Err(KeyError("request_type"))
    ensures message.Obj? && "request_type" in message.fields && "data" !in message.fields ==>
      Response(message, backend) == Err(KeyError("data"))
    ensures !message.Obj? ==> Response(message, backend) == Err(TypeError)
    ensures message.Obj? && "request_type" in message.fields && "data" in message.fields ==>
      var rt := message.fields["request_type"];
      var data := message.fields["data"];
      && (rt == Str("EVENT") ==> Response(message, backend) == Ok(Null))
      && (rt == Str("AUTOCOMPLETE") ==> Response(message, backend) == Autocorrect(rt, data))
      && (rt == Str("PREDICT") ==> Response(message, backend) == Prediction(rt, data, backend))
      && (rt == Str("SYNTHESISE") ==> Response(message, backend) == Synthesis(rt, data, backend))
      && (rt == Str("AUDIO_DATA") ==> Response(message, backend) == Recognition(rt, data, backend))
      && ((forall t: P.RequestType :: rt != Str(P.Name(t))) ==> Response(message, backend) == Err(UnboundLocalError("response")))
  {
    if message.Obj? && "request_type" in message.fields && "data" in message.fields {
      var rt := message.fields["request_type"];
      if rt == Str("EVENT") { assert Route(rt) == Some(LogEventHandler) by { assert rt == Str(P.Name(P.Event)); } }
      if rt == Str("AUTOCOMPLETE") { assert Route(rt) == Some(AutocorrectHandler) by { assert rt == Str(P.Name(P.Autocomplete)); } }
      if rt == Str("PREDICT") { assert Route(rt) == Some(PredictHandler) by { assert rt == Str(P.Name(P.Predict)); } }
      if rt == Str("SYNTHESISE") { assert Route(rt) == Some(SynthesiseHandler) by { assert rt == Str(P.Name(P.Synthesise)); } }
      if rt == Str("AUDIO_DATA") { assert Route(rt) == Some(SpeechRecognitionHandler) by { assert rt == Str(P.Name(P.AudioData)); } }
    }
  }
}

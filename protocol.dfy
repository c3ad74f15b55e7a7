/** The message protocol between the gaze keyboard and its server: every
    message, in both directions, is an envelope `{request_type, data}` whose
    `request_type` is one of five names. */
module Protocol {
  import opened Values

  datatype RequestType = Predict | Synthesise | Autocomplete | AudioData | Event

  function Name(t: RequestType): string
  {
    match t
    case Predict => "PREDICT"
    case Synthesise => "SYNTHESISE"
    case Autocomplete => "AUTOCOMPLETE"
    case AudioData => "AUDIO_DATA"
    case Event => "EVENT"
  }

  /** Recognises a `request_type` by exact string equality, as both the
      server's if/elif chain and the client's switch do. */
  function ParseRequestType(v: Value): (r: Option<RequestType>)
    ensures r.Some? ==> v == Str(Name(r.value))
    ensures forall t: RequestType :: v == Str(Name(t)) ==> r == Some(t)
  {
    match v
    case Str(s) =>
      if s == "PREDICT" then Some(Predict)
      else if s == "SYNTHESISE" then Some(Synthesise)
      else if s == "AUTOCOMPLETE" then Some(Autocomplete)
      else if s == "AUDIO_DATA" then Some(AudioData)
      else if s == "EVENT" then Some(Event)
      else None
    case _ => None
  }

  /** `{request_type: requestType, data: data}` */
  function Envelope(requestType: Value, data: Value): Value
  {
    Obj(map["request_type" := requestType, "data" := data])
  }

  /** An envelope as the client builds it, naming its type by a literal. */
  function Request(t: RequestType, data: Value): Value
  {
    Envelope(Str(Name(t)), data)
  }

  /** What a value becomes after the client's `JSON.stringify` and the
      server's `json.loads`: object members whose value is `undefined` are
      dropped, and `undefined` list elements become `null`. */
  function Wire(v: Value): (r: Value)
    ensures !r.Undefined? || v.Undefined?
  {
    match v
    case Arr(items) => Arr(seq(|items|, i requires 0 <= i < |items| => if items[i].Undefined? then Null else Wire(items[i])))
    case Obj(f) => Obj(map k | k in f && !f[k].Undefined? :: Wire(f[k]))
    case _ => v
  }

  /** Values without `undefined` cross the wire unchanged. */
  predicate Defined(v: Value)
  {
    match v
    case Undefined => false
    case Arr(items) => forall i :: 0 <= i < |items| ==> Defined(items[i])
    case Obj(f) => forall k :: k in f ==> Defined(f[k])
    case _ => true
  }

  /** `json.loads` never yields `undefined`: whatever was sent, unless it
      was `undefined` itself, arrives with no `undefined` at any depth. */
  lemma {:induction false} WireDefined(v: Value)
    requires !v.Undefined?
    ensures Defined(Wire(v))
  {
    match v
    case Arr(items) =>
      forall i | 0 <= i < |items| && !items[i].Undefined? ensures Defined(Wire(items[i])) {
        WireDefined(items[i]);
      }
    case Obj(f) =>
      forall k | k in f && !f[k].Undefined? ensures Defined(Wire(f[k])) {
        WireDefined(f[k]);
      }
    case _ =>
  }

  lemma {:induction false} WireKeepsDefined(v: Value)
    requires Defined(v)
    ensures Wire(v) == v
  {
    match v
    case Arr(items) =>
      forall i | 0 <= i < |items| ensures Wire(items[i]) == items[i] {
        WireKeepsDefined(items[i]);
      }
    case Obj(f) =>
      forall k | k in f ensures Wire(f[k]) == f[k] {
        WireKeepsDefined(f[k]);
      }
    case _ =>
  }
}

/** The request handlers of the speech server (serverfunctions.py).

    Each handler's calls to the outside world (the OpenAI completion, the TTS
    and transcription servers, the sqlite database, base64 decoding and the
    audio conversion, `uuid4`) are replaced by the results those calls
    produced, gathered in a `Backend` record; what remains is the string and
    sequence logic around them. Python exceptions are `Err` results. */
module ServerFunctions {
  import opened Values
  import opened Text
  import Protocol

  /** Python's `str(v)` (and f-string formatting) of a JSON-decoded value:
      a string is itself; anything else is rendered by `render`, which stands
      for Python's own formatting of numbers, lists and dicts. */
  function PyStr(render: Value -> string, v: Value): string
  {
    if v.Str? then v.s else render(v)
  }

  /** Python truthiness of a JSON-decoded value. */
  predicate PyTruthy(v: Value)
  {
    match v
    case Undefined => false
    case Null => false
    case Bool(b) => b
    case Num(n) => n != 0.0
    case Str(s) => s != ""
    case Arr(items) => items != []
    case Obj(f) => f != map[]
  }

  // ------------------------------------------------- TTS query string

  /** One entry of the configuration's `tts_params`, in configuration order:
      the key the client uses in `ttsData` and the query parameter the TTS
      server expects for it. */
  datatype TtsParamConfig = TtsParamConfig(name: string, urlParam: string)

  /** The `defaultdict(list)` of lines 310-313: its keys in insertion order
      and the list under each. */
  datatype OrderedLists = OrderedLists(order: seq<string>, lists: map<string, seq<string>>)

  ghost predicate Wf(o: OrderedLists)
  {
    && (forall i, j :: 0 <= i < j < |o.order| ==> o.order[i] != o.order[j])
    && (forall k :: k in o.lists <==> k in o.order)
  }

  /** `url_params_dict[key].append(v)`: a new key is inserted last. */
  function Append(o: OrderedLists, key: string, v: string): OrderedLists
  {
    if key in o.lists then o.(lists := o.lists[key := o.lists[key] + [v]])
    else OrderedLists(o.order + [key], o.lists[key := [v]])
  }

  /** The loop of lines 311-313 over a `ttsData` object: each configured
      parameter present in it, in configuration order, adds the rendering of
      its value under its query parameter. */
  function Collected(config: seq<TtsParamConfig>, ttsData: map<string, Value>, render: Value -> string): (o: OrderedLists)
    ensures Wf(o)
    decreases |config|
  {
    if config == [] then OrderedLists([], map[])
    else
      var acc := Collected(config[..|config| - 1], ttsData, render);
      var c := config[|config| - 1];
      if c.name in ttsData then Append(acc, c.urlParam, PyStr(render, ttsData[c.name])) else acc
  }

  /** Reference definition: the rendered values of the present parameters
      configured under `key`, in configuration order. */
  function ValuesFor(config: seq<TtsParamConfig>, ttsData: map<string, Value>, render: Value -> string, key: string): seq<string>
    decreases |config|
  {
    if config == [] then []
    else
      var c := config[|config| - 1];
      ValuesFor(config[..|config| - 1], ttsData, render, key)
      + (if c.name in ttsData && c.urlParam == key then [PyStr(render, ttsData[c.name])] else [])
  }

  /** A query parameter appears exactly when some parameter configured under
      it is present in `ttsData`, and it carries the values of all such
      parameters in configuration order; absent parameters contribute nothing. */
  lemma {:induction false} CollectedByParam(config: seq<TtsParamConfig>, ttsData: map<string, Value>, render: Value -> string, key: string)
    ensures key in Collected(config, ttsData, render).lists <==> ValuesFor(config, ttsData, render, key) != []
    ensures key in Collected(config, ttsData, render).lists ==>
      Collected(config, ttsData, render).lists[key] == ValuesFor(config, ttsData, render, key)
    decreases |config|
  {
    if config != [] {
      CollectedByParam(config[..|config| - 1], ttsData, render, key);
    }
  }

  /** The `key=v1,v2` pieces of lines 315-317, one per query parameter. */
  function Pieces(o: OrderedLists): seq<string>
    requires forall k :: k in o.order ==> k in o.lists
  {
    seq(|o.order|, i requires 0 <= i < |o.order| => o.order[i] + "=" + Join(",", o.lists[o.order[i]]))
  }

  /** `"&".join(...)` of line 318. */
  function Query(o: OrderedLists): string
    requires Wf(o)
  {
    Join("&", Pieces(o))
  }

  /** Lines 310-318 over a `ttsData` object. */
  method BuildUrlParams(config: seq<TtsParamConfig>, ttsData: map<string, Value>, render: Value -> string) returns (query: string)
    ensures query == Query(Collected(config, ttsData, render))
  {
    var order: seq<string> := [];
    var lists: map<string, seq<string>> := map[];
    var i := 0;
    while i < |config|
      invariant 0 <= i <= |config|
      invariant OrderedLists(order, lists) == Collected(config[..i], ttsData, render)
    {
      var c := config[i];
      assert config[..i + 1][..i] == config[..i] && config[..i + 1][i] == c;
      ghost var before := OrderedLists(order, lists);
      if c.name in ttsData {
        var v := PyStr(render, ttsData[c.name]);
        if c.urlParam !in lists {
          order := order + [c.urlParam];
          lists := lists[c.urlParam := []];
          assert lists[c.urlParam] + [v] == [v];
        }
        lists := lists[c.urlParam := lists[c.urlParam] + [v]];
        assert lists == Append(before, c.urlParam, v).lists;
      }
      i := i + 1;
    }
    assert config[..i] == config;
    var pieces: seq<string> := [];
    var j := 0;
    while j < |order|
      invariant 0 <= j <= |order|
      invariant pieces == Pieces(OrderedLists(order, lists))[..j]
    {
      pieces := pieces + [order[j] + "=" + Join(",", lists[order[j]])];
      j := j + 1;
    }
    assert pieces == Pieces(OrderedLists(order, lists));
    query := Join("&", pieces);
  }

  /** With no `&` in any query parameter or value, splitting the query at
      `&` recovers one `key=v1,v2` piece per query parameter. */
  lemma QueryRoundTrip(o: OrderedLists)
    requires Wf(o) && o.order != []
    requires forall k :: k in o.lists ==> '&' !in k && forall i :: 0 <= i < |o.lists[k]| ==> '&' !in o.lists[k][i]
    ensures Split(Query(o), '&') == Pieces(o)
  {
    var ps := Pieces(o);
    forall i | 0 <= i < |ps| ensures '&' !in ps[i] {
      var k := o.order[i];
      JoinExcludes(",", o.lists[k], '&');
      assert ps[i] == k + "=" + Join(",", o.lists[k]);
    }
    JoinSplit(ps, '&');
  }

  /** `param in tts_data` (line 312) for any JSON value: key membership for
      an object, element membership for a list, substring for a string; any
      other value raises. */
  function Contains(container: Value, name: string): Result<bool>
  {
    match container
    case Obj(f) => Ok(name in f)
    case Arr(items) => Ok(Str(name) in items)
    case Str(s) => Ok(Occurs(name, s))
    case _ => Err(TypeError)
  }

  /** The loop of lines 311-313 when `ttsData` is not an object: a
      parameter found in it cannot be subscripted by name, and a value that
      supports no `in` test fails on the first parameter. */
  function NonObjectParams(config: seq<TtsParamConfig>, ttsData: Value): (r: Result<string>)
    requires !ttsData.Obj?
    ensures r.Ok? <==> forall i :: 0 <= i < |config| ==> Contains(ttsData, config[i].name) == Ok(false)
    ensures r.Ok? ==> r.value == ""
    ensures r.Err? ==> r.fault == TypeError
  {
    if config == [] then Ok("")
    else match Contains(ttsData, config[0].name)
      case Err(f) => Err(f)
      case Ok(found) =>
        if found then Err(TypeError)
        else
          var rest := NonObjectParams(config[1..], ttsData);
          assert forall i :: 1 <= i < |config| ==> config[i] == config[1..][i - 1];
          rest
  }

  // ------------------------------------------------- transcript history

  /** A row of the `transcriptions` table: its text and whether the user's
      own voice synthesised it. */
  datatype Row = Row(text: string, isSynthesized: bool)

  /** Line 192-193: the speaker prefix, a space, the text. */
  function Line(row: Row): string
  {
    (if row.isSynthesized then "user:" else "other:") + " " + row.text
  }

  function Lines(rows: seq<Row>): seq<string>
  {
    seq(|rows|, i requires 0 <= i < |rows| => Line(rows[i]))
  }

  /** Lines 190-195: one line per row, in row order, joined by newlines. */
  method FormatRows(rows: seq<Row>) returns (s: string)
    ensures s == Join("\n", Lines(rows))
  {
    var transcriptions: seq<string> := [];
    var i := 0;
    while i < |rows|
      invariant 0 <= i <= |rows|
      invariant transcriptions == Lines(rows)[..i]
    {
      var prefix := if rows[i].isSynthesized then "user:" else "other:";
      transcriptions := transcriptions + [prefix + " " + rows[i].text];
      i := i + 1;
    }
    assert transcriptions == Lines(rows);
    s := Join("\n", transcriptions);
  }

  /** When no text contains a newline, the formatted history splits back
      into one line per row, each naming its speaker. */
  lemma FormattedRowsRoundTrip(rows: seq<Row>)
    requires rows != []
    requires forall i :: 0 <= i < |rows| ==> '\n' !in rows[i].text
    ensures Split(Join("\n", Lines(rows)), '\n') == Lines(rows)
    ensures forall i :: 0 <= i < |rows| ==>
      Lines(rows)[i] == (if rows[i].isSynthesized then "user: " else "other: ") + rows[i].text
  {
    var ls := Lines(rows);
    forall i | 0 <= i < |ls| ensures '\n' !in ls[i] {
      assert ls[i] == (if rows[i].isSynthesized then "user:" else "other:") + " " + rows[i].text;
    }
    JoinSplit(ls, '\n');
  }

  /** The history length above which leading lines are dropped (line 197). */
  const HistoryLimit := 4000

  /** Lines 197-202: while the text is too long and holds a newline, drop its
      first line. */
  function Truncated(s: string): string
    decreases |s|
  {
    if |s| <= HistoryLimit || Find(s, '\n').None? then s
    else Truncated(s[Find(s, '\n').value + 1..])
  }

  /** Truncation stops once the text fits or has no newline left. */
  lemma TruncatedStop(s: string)
    requires |s| <= HistoryLimit || Find(s, '\n').None?
    ensures Truncated(s) == s
  {
  }

  /** Otherwise it drops the first line and goes on. */
  lemma TruncatedStep(s: string, i: nat)
    requires |s| > HistoryLimit && Find(s, '\n') == Some(i)
    ensures Truncated(s) == Truncated(s[i + 1..])
  {
  }

  method Truncate(s: string) returns (r: string)
    ensures r == Truncated(s)
  {
    r := s;
    if |r| > HistoryLimit {
      while |r| > HistoryLimit
        invariant Truncated(r) == Truncated(s)
        decreases |r|
      {
        var pos := Find(r, '\n');
        if pos.None? {
          break;
        }
        TruncatedStep(r, pos.value);
        r := r[pos.value + 1..];
      }
    }
    TruncatedStop(r);
  }

  /** Position `k` of `s` begins a line. */
  predicate LineStart(s: string, k: int)
  {
    k == 0 || (0 < k <= |s| && s[k - 1] == '\n')
  }

  /** Truncation keeps a suffix that begins a line; it stops only once the
      text fits or no newline is left; and it keeps a text that already fits. */
  lemma {:induction false} TruncatedShape(s: string)
    ensures var r := Truncated(s);
      && |r| <= |s| && r == s[|s| - |r|..]
      && LineStart(s, |s| - |r|)
      && (|r| <= HistoryLimit || '\n' !in r)
      && (|s| <= HistoryLimit ==> r == s)
    decreases |s|
  {
    if |s| > HistoryLimit && Find(s, '\n').Some? {
      var i := Find(s, '\n').value;
      var t := s[i + 1..];
      TruncatedStep(s, i);
      TruncatedShape(t);
      var r := Truncated(t);
      if |r| < |t| {
        assert s[|s| - |r| - 1] == t[|t| - |r| - 1];
      } else {
        assert s[i] == '\n';
      }
    }
  }

  /** Truncation drops no more lines than needed: cutting at any earlier
      line start would still leave more than the limit. */
  lemma {:induction false} TruncatedMinimal(s: string, k: int)
    requires 0 <= k < |s| - |Truncated(s)| && LineStart(s, k)
    ensures |s| - k > HistoryLimit
    decreases |s|
  {
    if |s| > HistoryLimit && Find(s, '\n').Some? {
      var i := Find(s, '\n').value;
      var t := s[i + 1..];
      TruncatedStep(s, i);
      if 0 < k <= i {
        assert false;
      } else if k > i {
        if k - i - 1 > 0 {
          assert t[k - i - 2] == s[k - 1];
        }
        TruncatedMinimal(t, k - i - 1);
      }
    }
  }

  // ------------------------------------------------- transcription

  const TranscriptionFailed := "Error transcribing audio."
  const NoAudibleVoice := "No audible voice."

  /** `segment.get("text", "")` of line 139; a segment that is not a dict
      has no `get`. */
  function SegmentText(segment: Value): Result<Value>
  {
    match segment
    case Obj(f) => Ok(if "text" in f then f["text"] else Str(""))
    case _ => Err(AttributeError)
  }

  /** `concatenated_text` after the loop of lines 138-147: each truthy text,
      rendered, followed by one space. */
  function Accumulated(segments: seq<Value>, render: Value -> string): (r: Result<string>)
    ensures r.Err? ==> r.fault == AttributeError
    decreases |segments|
  {
    if segments == [] then Ok("")
    else
      var acc :- Accumulated(segments[..|segments| - 1], render);
      var text :- SegmentText(segments[|segments| - 1]);
      Ok(if PyTruthy(text) then acc + PyStr(render, text) + " " else acc)
  }

  /** Lines 150-154: the stripped concatenation, or the fallback when
      nothing was collected. */
  function SegmentsText(segments: seq<Value>, render: Value -> string): Result<string>
  {
    var acc :- Accumulated(segments, render);
    Ok(if acc != "" then Strip(acc) else NoAudibleVoice)
  }

  /** Reference definition: the rendered truthy texts, in segment order. */
  function Spoken(segments: seq<Value>, render: Value -> string): seq<string>
    decreases |segments|
  {
    if segments == [] then []
    else
      var last := segments[|segments| - 1];
      var text := if last.Obj? && "text" in last.fields then last.fields["text"] else Str("");
      Spoken(segments[..|segments| - 1], render) + (if PyTruthy(text) then [PyStr(render, text)] else [])
  }

  /** Concatenation is the space-joined spoken texts with one trailing space;
      a segment that is not a dict fails the whole loop. */
  lemma AccumulatedIsJoin(segments: seq<Value>, render: Value -> string)
    ensures (forall i :: 0 <= i < |segments| ==> segments[i].Obj?) ==>
      Accumulated(segments, render)
      == Ok(if Spoken(segments, render) == [] then "" else Join(" ", Spoken(segments, render)) + " ")
    ensures (exists i :: 0 <= i < |segments| && !segments[i].Obj?) ==>
      Accumulated(segments, render) == Err(AttributeError)
  {
    if forall i :: 0 <= i < |segments| ==> segments[i].Obj? {
      AccumulatedJoins(segments, render);
    } else {
      var i :| 0 <= i < |segments| && !segments[i].Obj?;
      AccumulatedFails(segments, render, i);
    }
  }

  lemma {:induction false} AccumulatedJoins(segments: seq<Value>, render: Value -> string)
    requires forall i :: 0 <= i < |segments| ==> segments[i].Obj?
    ensures Accumulated(segments, render)
      == Ok(if Spoken(segments, render) == [] then "" else Join(" ", Spoken(segments, render)) + " ")
    decreases |segments|
  {
    if segments != [] {
      var init := segments[..|segments| - 1];
      assert forall i :: 0 <= i < |init| ==> init[i] == segments[i];
      AccumulatedJoins(init, render);
      var sp := Spoken(init, render);
      var last := segments[|segments| - 1];
      assert last.Obj?;
      var text := if "text" in last.fields then last.fields["text"] else Str("");
      assert SegmentText(last) == Ok(text);
      var acc := if sp == [] then "" else Join(" ", sp) + " ";
      assert Accumulated(segments, render) == Ok(if PyTruthy(text) then acc + PyStr(render, text) + " " else acc);
      if PyTruthy(text) {
        var t := PyStr(render, text);
        JoinSnoc(" ", sp, t);
        assert Spoken(segments, render) == sp + [t];
        assert acc + t + " " == Join(" ", sp + [t]) + " ";
      } else {
        assert Spoken(segments, render) == sp;
      }
    }
  }

  lemma {:induction false} AccumulatedFails(segments: seq<Value>, render: Value -> string, i: int)
    requires 0 <= i < |segments| && !segments[i].Obj?
    ensures Accumulated(segments, render) == Err(AttributeError)
    decreases |segments|
  {
    var init := segments[..|segments| - 1];
    if i < |init| {
      assert !init[i].Obj?;
      AccumulatedFails(init, render, i);
    }
  }

  /** The text of a list of dicts is the stripped space-join of the spoken
      texts, or the fallback when nothing was spoken; a segment that is not a
      dict fails with AttributeError. */
  lemma SegmentsTextJoins(segments: seq<Value>, render: Value -> string)
    ensures (forall i :: 0 <= i < |segments| ==> segments[i].Obj?) ==>
      SegmentsText(segments, render)
      == Ok(if Spoken(segments, render) == [] then NoAudibleVoice else Strip(Join(" ", Spoken(segments, render))))
    ensures (exists i :: 0 <= i < |segments| && !segments[i].Obj?) ==>
      SegmentsText(segments, render) == Err(AttributeError)
  {
    AccumulatedIsJoin(segments, render);
    var sp := Spoken(segments, render);
    if sp != [] {
      StripSnoc(Join(" ", sp), ' ');
    }
  }

  /** When the first spoken text does not start and the last does not end
      with whitespace, the strip removes nothing: the result is exactly the
      space-joined texts. */
  lemma SegmentsTextUnpadded(segments: seq<Value>, render: Value -> string)
    requires forall i :: 0 <= i < |segments| ==> segments[i].Obj?
    requires var sp := Spoken(segments, render);
      sp != [] && sp[0] != [] && !IsSpace(sp[0][0])
      && sp[|sp| - 1] != [] && !IsSpace(sp[|sp| - 1][|sp[|sp| - 1]| - 1])
    ensures SegmentsText(segments, render) == Ok(Join(" ", Spoken(segments, render)))
  {
    AccumulatedJoins(segments, render);
    JoinSpaceStrips(" ", Spoken(segments, render));
  }

  /** As written, a text of whitespace only is truthy, is collected, and
      strips away, so spoken texts that are all whitespace give the empty
      string rather than the fallback. */
  lemma WhitespaceOnlyGivesEmpty(segments: seq<Value>, render: Value -> string)
    requires forall i :: 0 <= i < |segments| ==> segments[i].Obj?
    requires Spoken(segments, render) != []
    requires forall i :: 0 <= i < |Spoken(segments, render)| ==> AllSpace(Spoken(segments, render)[i])
    ensures SegmentsText(segments, render) == Ok("")
  {
    SegmentsTextJoins(segments, render);
    var sp := Spoken(segments, render);
    JoinAllSpace(" ", sp);
    AllSpaceStrips(Join(" ", sp));
  }

  /** Lines 136-154 from the first segment on. */
  method ConcatenateSegments(segments: seq<Value>, render: Value -> string) returns (r: Result<string>)
    ensures r == SegmentsText(segments, render)
  {
    var concatenated := "";
    var i := 0;
    while i < |segments|
      invariant 0 <= i <= |segments|
      invariant Accumulated(segments[..i], render) == Ok(concatenated)
    {
      assert segments[..i + 1][..i] == segments[..i];
      var segment := segments[i];
      if !segment.Obj? {
        AccumulatedIsJoin(segments, render);
        return Err(AttributeError);
      }
      var text := if "text" in segment.fields then segment.fields["text"] else Str("");
      if PyTruthy(text) {
        concatenated := concatenated + PyStr(render, text) + " ";
      }
      i := i + 1;
    }
    assert segments[..i] == segments;
    r := Ok(if concatenated != "" then Strip(concatenated) else NoAudibleVoice);
  }

  /** `len(x)` of a JSON-decoded value. */
  function Len(v: Value): Result<nat>
  {
    match v
    case Arr(items) => Ok(|items|)
    case Str(s) => Ok(|s|)
    case Obj(f) => Ok(|f|)
    case _ => Err(TypeError)
  }

  /** Lines 131-135 on the decoded reply: `Some` of the segment list to walk,
      `None` when there is none to walk. A non-empty `segments` that is a
      string or a dict yields strings, which have no `get`. */
  function SegmentList(result: Value): Result<Option<seq<Value>>>
  {
    match result
    case Obj(f) =>
      if "segments" !in f then Ok(None)
      else
        var n :- Len(f["segments"]);
        if n == 0 then Ok(None)
        else if f["segments"].Arr? then Ok(Some(f["segments"].items))
        else Err(AttributeError)
    case Arr(items) => if Str("segments") in items then Err(TypeError) else Ok(None)
    case Str(s) => if Occurs("segments", s) then Err(TypeError) else Ok(None)
    case _ => Err(TypeError)
  }

  /** What the transcription server did with the upload: unreachable (the
      request raised), or answered with a status and a body that is JSON
      (`Some`) or not (`None`, so `response.json()` raises). */
  datatype TranscriptionReply = Unreachable | Reply(status: nat, body: Option<Value>)

  /** `transcribe_audio` (lines 116-162) as a function of the reply. */
  function Transcription(reply: TranscriptionReply, render: Value -> string): string
  {
    match reply
    case Unreachable => TranscriptionFailed
    case Reply(status, body) =>
      if body.None? then TranscriptionFailed
      else if status != 200 then TranscriptionFailed + " <Response [" + Decimal(status) + "]>"
      else match SegmentList(body.value)
        case Err(_) => TranscriptionFailed
        case Ok(None) => NoAudibleVoice
        case Ok(Some(segments)) =>
          match SegmentsText(segments, render)
          case Err(_) => TranscriptionFailed
          case Ok(text) => text
  }

  method TranscribeAudio(reply: TranscriptionReply, render: Value -> string) returns (r: string)
    ensures r == Transcription(reply, render)
  {
    if reply.Unreachable? || reply.body.None? {
      return TranscriptionFailed;
    }
    if reply.status != 200 {
      return TranscriptionFailed + " <Response [" + Decimal(reply.status) + "]>";
    }
    var segments := SegmentList(reply.body.value);
    if segments.Err? {
      return TranscriptionFailed;
    }
    if segments.value.None? {
      return NoAudibleVoice;
    }
    var text := ConcatenateSegments(segments.value.value, render);
    r := if text.Err? then TranscriptionFailed else text.value;
  }

  /** What lines 131-139 make of an object reply: no `segments`, or an empty
      one, leaves nothing to walk; a non-empty list is walked; a non-empty
      string or dict fails on `get`; anything without a length fails `len`. */
  lemma SegmentListOutcomes(f: map<string, Value>)
    ensures "segments" !in f ==> SegmentList(Obj(f)) == Ok(None)
    ensures "segments" in f ==> var g := f["segments"];
      && (g.Arr? ==> SegmentList(Obj(f)) == if g.items == [] then Ok(None) else Ok(Some(g.items)))
      && (g.Str? ==> SegmentList(Obj(f)) == if g.s == [] then Ok(None) else Err(AttributeError))
      && (g.Obj? ==> SegmentList(Obj(f)) == if g.fields == map[] then Ok(None) else Err(AttributeError))
      && (!g.Arr? && !g.Str? && !g.Obj? ==> SegmentList(Obj(f)) == Err(TypeError))
  {
    if "segments" in f && f["segments"].Obj? && f["segments"].fields != map[] {
      var k :| k in f["segments"].fields;
      assert |f["segments"].fields| > 0;
    }
  }

  /** Every failure reads as the transcription error, and a refused request
      names its status code, which can be read back from the message. */
  lemma TranscriptionFailures(reply: TranscriptionReply, render: Value -> string)
    ensures reply.Unreachable? || reply.body.None? ==> Transcription(reply, render) == TranscriptionFailed
    ensures reply.Reply? && reply.body.Some? && reply.status != 200 ==>
      var r := Transcription(reply, render);
      && r[..|TranscriptionFailed|] == TranscriptionFailed
      && r[|TranscriptionFailed|..|TranscriptionFailed| + 12] == " <Response ["
      && DecimalValue(r[|TranscriptionFailed| + 12..|r| - 2]) == reply.status
    ensures reply.Reply? && reply.status == 200 && reply.body.Some? && SegmentList(reply.body.value).Err? ==>
      Transcription(reply, render) == TranscriptionFailed
    ensures (&& reply.Reply? && reply.status == 200 && reply.body.Some? && SegmentList(reply.body.value).Ok?
             && SegmentList(reply.body.value).value.Some?) ==>
      var segments := SegmentList(reply.body.value).value.value;
      (exists i :: 0 <= i < |segments| && !segments[i].Obj?) ==> Transcription(reply, render) == TranscriptionFailed
  {
    if reply.Reply? && reply.body.Some? && reply.status != 200 {
      var r := Transcription(reply, render);
      var d := Decimal(reply.status);
      assert r == TranscriptionFailed + " <Response [" + d + "]>";
      assert r[|TranscriptionFailed| + 12..|r| - 2] == d;
      DecimalRoundTrip(reply.status);
    }
    if reply.Reply? && reply.status == 200 && reply.body.Some? && SegmentList(reply.body.value).Ok?
      && SegmentList(reply.body.value).value.Some? {
      SegmentsTextJoins(SegmentList(reply.body.value).value.value, render);
    }
  }

  /** An accepted reply with nothing to walk gives the fallback; one whose
      segments are all dicts gives their stripped space-joined texts, or the
      fallback when none was spoken. */
  lemma TranscriptionOfSegments(reply: TranscriptionReply, render: Value -> string)
    ensures reply.Reply? && reply.status == 200 && reply.body.Some? && SegmentList(reply.body.value) == Ok(None) ==>
      Transcription(reply, render) == NoAudibleVoice
    ensures (&& reply.Reply? && reply.status == 200 && reply.body.Some? && SegmentList(reply.body.value).Ok?
             && SegmentList(reply.body.value).value.Some?) ==>
      var segments := SegmentList(reply.body.value).value.value;
      (forall i :: 0 <= i < |segments| ==> segments[i].Obj?) ==>
        Transcription(reply, render)
        == if Spoken(segments, render) == [] then NoAudibleVoice else Strip(Join(" ", Spoken(segments, render)))
  {
    if reply.Reply? && reply.status == 200 && reply.body.Some? && SegmentList(reply.body.value).Ok?
      && SegmentList(reply.body.value).value.Some? {
      SegmentsTextJoins(SegmentList(reply.body.value).value.value, render);
    }
  }

  // ------------------------------------------------- audio upload

  /** Lines 232-234: `=` characters up to the next multiple of four. */
  function Pad(s: string): (r: string)
    ensures |r| % 4 == 0 && |s| <= |r| < |s| + 4
    ensures r[..|s|] == s && forall i :: |s| <= i < |r| ==> r[i] == '='
    ensures |s| % 4 == 0 ==> r == s
  {
    if |s| % 4 != 0 then s + Repeat('=', 4 - |s| % 4) else s
  }

  /** Line 236: the piece after the first comma, up to the next one. */
  function Payload(s: string): Result<string>
  {
    var parts := Split(s, ',');
    if |parts| < 2 then Err(IndexError) else Ok(parts[1])
  }

  /** The payload exists exactly when there is a comma, and it is the text
      between the first comma and the next comma or the end. */
  lemma PayloadAfterFirstComma(s: string)
    ensures Payload(s).Ok? <==> ',' in s
    ensures Payload(s).Ok? ==>
      var i := Find(s, ',').value;
      var p := Payload(s).value;
      && ',' !in p
      && i + 1 + |p| <= |s| && s[i + 1..i + 1 + |p|] == p
      && (i + 1 + |p| == |s| || s[i + 1 + |p|] == ',')
  {
    if ',' in s {
      var i := Find(s, ',').value;
      var t := s[i + 1..];
      assert Split(s, ',')[1] == Split(t, ',')[0];
      match Find(t, ',')
      case None =>
      case Some(j) =>
        assert Split(t, ',')[0] == t[..j];
    }
  }

  /** As written, the padding counts the data-URL header too, so a payload
      whose own length is a multiple of four gains padding it did not need. */
  lemma PaddingCountsHeader()
    ensures Payload(Pad("h,AAAA")) == Ok("AAAA==")
  {
    assert Pad("h,AAAA") == "h,AAAA==";
    assert Find("h,AAAA==", ',') == Some(1);
    assert Find("AAAA==", ',') == None;
  }

  /** `process_audio_data` (lines 227-256): `convert` stands for decoding,
      conversion and saving, giving the saved file's path or failing. Any
      exception, including a non-string upload, gives `None`. */
  function ProcessAudioData(audio: Value, convert: string -> Option<string>): Option<string>
  {
    if !audio.Str? then None
    else match Payload(Pad(audio.s))
      case Err(_) => None
      case Ok(payload) => convert(payload)
  }

  // ------------------------------------------------- handlers

  /** The results the handlers' calls to the outside world produce. */
  datatype Backend = Backend(
    systemPrompt: string,              // contents of SystemPrompt.txt
    recentRows: Option<seq<Row>>,      // the last ten minutes of rows, or a database failure
    complete: (string, Value) -> Result<seq<Value>>,  // the chat completion: message contents of its choices
    ttsServer: string,
    fileServer: string,
    ttsParams: seq<TtsParamConfig>,
    fileId: string,                    // str(uuid.uuid4())
    fetch: string -> bool,             // whether downloading the TTS audio succeeds
    render: Value -> string,           // Python's str() of a non-string value
    convert: string -> Option<string>, // base64 decoding, conversion to WAV and saving
    transcription: TranscriptionReply) // the transcription server's reply

  /** `get_last_ten_minutes_transcriptions` (lines 165-207). */
  function RecentHistory(rows: Option<seq<Row>>): string
  {
    if rows.None? then "Error retrieving transcriptions." else Truncated(Join("\n", Lines(rows.value)))
  }

  method RecentTranscriptions(rows: Option<seq<Row>>) returns (history: string)
    ensures history == RecentHistory(rows)
  {
    if rows.None? {
      return "Error retrieving transcriptions.";
    }
    var formatted := FormatRows(rows.value);
    history := Truncate(formatted);
  }

  function Options(options: seq<Value>): Value
  {
    Obj(map["options" := Arr(options)])
  }

  /** `autocorrect` (lines 339-355): three completions of the input, or the
      error the input raises. */
  function Autocorrect(requestType: Value, data: Value): (r: Result<Value>)
    ensures data.Obj? && "input" !in data.fields ==> r == Err(KeyError("input"))
    ensures data.Obj? && "input" in data.fields && data.fields["input"] == Str("") ==> r == Err(IndexError)
    ensures r.Ok? <==> data.Obj? && "input" in data.fields && data.fields["input"].Str? && data.fields["input"].s != ""
    ensures r.Ok? ==> var text := data.fields["input"].s;
      r.value == Protocol.Envelope(requestType, Options([Str(text + "word 1"), Str(text + "word 2"), Str(text + "word 3")]))
  {
    var text :- Subscript(data, "input");
    if !text.Str? then Err(TypeError)
    else if text.s == "" then Err(IndexError)
    else Ok(Protocol.Envelope(requestType, Options([Str(text.s + "word 1"), Str(text.s + "word 2"), Str(text.s + "word 3")])))
  }

  /** The prompt of lines 269-281: the system prompt followed by the history. */
  function PredictPrompt(backend: Backend): string
  {
    backend.systemPrompt + RecentHistory(backend.recentRows)
  }

  /** `predict` (lines 264-294) as a function of the completion. */
  function Prediction(requestType: Value, data: Value, backend: Backend): Result<Value>
  {
    var text :- Subscript(data, "text");
    var choices :- backend.complete(PredictPrompt(backend), text);
    if |choices| < 3 then Err(IndexError)
    else Ok(Protocol.Envelope(requestType, Options(choices[..3])))
  }

  method Predict(requestType: Value, data: Value, backend: Backend) returns (r: Result<Value>)
    ensures r == Prediction(requestType, data, backend)
  {
    var text := Subscript(data, "text");
    if text.Err? {
      return Err(text.fault);
    }
    var history := RecentTranscriptions(backend.recentRows);
    var choices := backend.complete(backend.systemPrompt + history, text.value);
    if choices.Err? {
      return Err(choices.fault);
    }
    if |choices.value| < 3 {
      return Err(IndexError);
    }
    r := Ok(Protocol.Envelope(requestType, Options(choices.value[..3])));
  }

  /** A prediction echoes the request type and offers the first three
      choices in order; fewer than three choices fail. */
  lemma PredictionOptions(requestType: Value, data: Value, backend: Backend)
    requires data.Obj? && "text" in data.fields
    ensures var c := backend.complete(PredictPrompt(backend), data.fields["text"]);
      && (c.Ok? && |c.value| < 3 ==> Prediction(requestType, data, backend) == Err(IndexError))
      && (c.Ok? && |c.value| >= 3 ==>
        && Prediction(requestType, data, backend).Ok?
        && Prediction(requestType, data, backend).value.fields["request_type"] == requestType
        && Prediction(requestType, data, backend).value.fields["data"].fields["options"].items
          == [c.value[0], c.value[1], c.value[2]])
  {
  }

  /** The TTS query for any `ttsData` value (lines 310-318). */
  function QueryFor(config: seq<TtsParamConfig>, ttsData: Value, render: Value -> string): Result<string>
  {
    if ttsData.Obj? then Ok(Query(Collected(config, ttsData.fields, render)))
    else NonObjectParams(config, ttsData)
  }

  /** Line 326: the URL fetched from the TTS server. */
  function SayString(ttsServer: string, text: string, query: string): string
  {
    ttsServer + text + "\"&" + query
  }

  function AudioUrl(backend: Backend): string
  {
    backend.fileServer + "/uploadedfiles/" + backend.fileId + ".wav"
  }

  /** `synthesise` (lines 297-336) as a function of the backend. */
  function Synthesis(requestType: Value, data: Value, backend: Backend): Result<Value>
  {
    var text :- Subscript(data, "text");
    var ttsData :- Subscript(data, "ttsData");
    var query :- QueryFor(backend.ttsParams, ttsData, backend.render);
    if backend.fetch(SayString(backend.ttsServer, PyStr(backend.render, text), query))
    then Ok(Protocol.Envelope(requestType, Obj(map["audio_url" := Str(AudioUrl(backend))])))
    else Err(ForeignError("HTTPError"))
  }

  /** The URL `synthesise` asks the TTS server for, if it gets that far. */
  function SynthesisFetch(data: Value, backend: Backend): Option<string>
  {
    match Subscript(data, "text")
    case Err(_) => None
    case Ok(text) =>
      match Subscript(data, "ttsData")
      case Err(_) => None
      case Ok(ttsData) =>
        match QueryFor(backend.ttsParams, ttsData, backend.render)
        case Err(_) => None
        case Ok(query) => Some(SayString(backend.ttsServer, PyStr(backend.render, text), query))
  }

  /** Returns the response and the URL fetched from the TTS server. */
  method Synthesise(requestType: Value, data: Value, backend: Backend) returns (r: Result<Value>, fetched: Option<string>)
    ensures r == Synthesis(requestType, data, backend) && fetched == SynthesisFetch(data, backend)
  {
    var text := Subscript(data, "text");
    if text.Err? {
      return Err(text.fault), None;
    }
    var ttsData := Subscript(data, "ttsData");
    if ttsData.Err? {
      return Err(ttsData.fault), None;
    }
    var query: string;
    if ttsData.value.Obj? {
      query := BuildUrlParams(backend.ttsParams, ttsData.value.fields, backend.render);
    } else {
      var q := NonObjectParams(backend.ttsParams, ttsData.value);
      if q.Err? {
        return Err(q.fault), None;
      }
      query := q.value;
    }
    var say := SayString(backend.ttsServer, PyStr(backend.render, text.value), query);
    fetched := Some(say);
    if !backend.fetch(say) {
      return Err(ForeignError("HTTPError")), fetched;
    }
    r := Ok(Protocol.Envelope(requestType, Obj(map["audio_url" := Str(AudioUrl(backend))])));
  }

  /** The request fails on a missing field before any fetch; otherwise the
      fetched URL is the TTS server, the text, a quote, `&` and the query,
      and a successful fetch answers with the audio's public URL. */
  lemma SynthesisOutcomes(requestType: Value, data: Value, backend: Backend)
    ensures data.Obj? && "text" !in data.fields ==>
      Synthesis(requestType, data, backend) == Err(KeyError("text")) && SynthesisFetch(data, backend) == None
    ensures data.Obj? && "text" in data.fields && "ttsData" !in data.fields ==>
      Synthesis(requestType, data, backend) == Err(KeyError("ttsData")) && SynthesisFetch(data, backend) == None
    ensures SynthesisFetch(data, backend).Some? ==>
      var say := SynthesisFetch(data, backend).value;
      var q := QueryFor(backend.ttsParams, data.fields["ttsData"], backend.render);
      && q.Ok?
      && say == backend.ttsServer + PyStr(backend.render, data.fields["text"]) + "\"&" + q.value
      && Synthesis(requestType, data, backend)
        == if backend.fetch(say) then Ok(Protocol.Envelope(requestType, Obj(map["audio_url" := Str(AudioUrl(backend))])))
           else Err(ForeignError("HTTPError"))
    ensures SynthesisFetch(data, backend).None? ==> Synthesis(requestType, data, backend).Err?
  {
  }

  /** `speech_recognition` (lines 358-380) as a function of the backend. */
  function Recognition(requestType: Value, data: Value, backend: Backend): Result<Value>
  {
    var audio :- Subscript(data, "audio");
    if ProcessAudioData(audio, backend.convert).None?
    then Ok(Protocol.Envelope(requestType, Str(NoSpeech)))
    else Ok(Obj(map["request_type" := requestType,
                    "data" := Str(Transcription(backend.transcription, backend.render)),
                    "language" := Str("en")]))
  }

  const NoSpeech := "No speech detected in the audio segment."

  method SpeechRecognition(requestType: Value, data: Value, backend: Backend) returns (r: Result<Value>)
    ensures r == Recognition(requestType, data, backend)
  {
    var audio := Subscript(data, "audio");
    if audio.Err? {
      return Err(audio.fault);
    }
    var path := ProcessAudioData(audio.value, backend.convert);
    if path.None? {
      return Ok(Protocol.Envelope(requestType, Str(NoSpeech)));
    }
    var transcription := TranscribeAudio(backend.transcription, backend.render);
    r := Ok(Obj(map["request_type" := requestType, "data" := Str(transcription), "language" := Str("en")]));
  }

  /** A message without `audio` raises. An upload that cannot be decoded
      (not a string, no comma, or refused by the converter) answers the fixed
      no-speech text with the echoed type; any other answers the echoed type,
      the transcription, and the language. */
  lemma RecognitionOutcomes(requestType: Value, data: Value, backend: Backend)
    ensures !data.Obj? ==> Recognition(requestType, data, backend) == Err(TypeError)
    ensures data.Obj? && "audio" !in data.fields ==> Recognition(requestType, data, backend) == Err(KeyError("audio"))
    ensures data.Obj? && "audio" in data.fields ==> var audio := data.fields["audio"];
      && (!audio.Str? || ',' !in audio.s ==> ProcessAudioData(audio, backend.convert).None?)
      && (ProcessAudioData(audio, backend.convert).None? ==>
        Recognition(requestType, data, backend) == Ok(Protocol.Envelope(requestType, Str(NoSpeech))))
      && (ProcessAudioData(audio, backend.convert).Some? ==>
        Recognition(requestType, data, backend)
        == Ok(Obj(map["request_type" := requestType,
                      "data" := Str(Transcription(backend.transcription, backend.render)),
                      "language" := Str("en")])))
  {
    if !data.Obj? || "audio" !in data.fields {
      return;
    }
    var audio := data.fields["audio"];
    if audio.Str? && ',' !in audio.s {
      var padded := Pad(audio.s);
      PayloadAfterFirstComma(padded);
      assert ',' !in padded by {
        forall i | 0 <= i < |padded| ensures padded[i] != ',' {
          if i < |audio.s| {
            assert padded[i] == audio.s[i];
          }
        }
      }
    }
  }

  /** `log_event` (lines 210-224): the row written is not modelled, and the
      function returns nothing. */
  function LogEvent(eventType: Value, eventData: Value): Value
  {
    Null
  }
}

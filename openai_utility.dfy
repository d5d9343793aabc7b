/** The HTTP/JSON completion adapter `OpenAIClient`: the request body it
    builds for an endpoint, how it reads a reply, and how it turns an
    event-stream reply into one string. The HTTP exchange itself is a
    parameter: the reply (or the transport error text) and the JSON decoder
    are handed in. */
module OpenAIUtility {
  import opened PyValues
  import opened PyStrings

  const ChatPath: string := "/v1/chat/completions"
  const EmbeddingsPath: string := "/v1/embeddings"
  const DataPrefix: string := "data: "
  const DoneSentinel: string := "[DONE]"

  /** Which of the two request functions a client uses. */
  datatype RequestFunc = RequestHttp | StreamingRequestHttp

  /** Which body the client builds: the endpoint paths are checked in this order. */
  datatype EndpointKind = Chat | Embeddings | Completion

  function KindOf(endpoint: string): EndpointKind {
    if Contains(endpoint, ChatPath) then Chat
    else if Contains(endpoint, EmbeddingsPath) then Embeddings
    else Completion
  }

  /** The keys of the body before the model name and the caller's overrides. */
  function BaseKeys(kind: EndpointKind): set<string> {
    match kind
    case Chat => {"messages", "temperature", "seed", "stream"}
    case Embeddings => {"input", "encoding_format"}
    case Completion => {"prompt", "temperature", "top_p", "seed", "stream"}
  }

  /** The caller's overrides: `if extra_param:` skips None and the empty dict. */
  function Overrides(extraParam: Option<map<string, Json>>): map<string, Json> {
    match extraParam
    case Some(m) => m
    case None => map[]
  }

  /** Key `k` of the body holds `v`, unless the caller overrode it. */
  predicate Keeps(data: map<string, Json>, extraParam: Option<map<string, Json>>, k: string, v: Json) {
    k in Overrides(extraParam) || (k in data && data[k] == v)
  }

  class OpenAIClient {
    const host: Json
    const streaming: bool
    const modelName: Json
    const requestFunc: RequestFunc

    /** `streaming` defaults to false and `model_name` to None in Python. */
    constructor (host: Json, streaming: bool, modelName: Json)
      ensures this.host == host && this.streaming == streaming && this.modelName == modelName
      ensures requestFunc == StreamingRequestHttp <==> streaming
    {
      this.host := host;
      this.streaming := streaming;
      this.modelName := modelName;
      this.requestFunc := if streaming then StreamingRequestHttp else RequestHttp;
    }

    /** The JSON body for `endpoint`: a chat body carries the query itself, the
        other two its "text"; the model name is added when it is truthy and the
        caller's overrides are merged last. */
    method ConstructRequestData(endpoint: string, query: Json, extraParam: Option<map<string, Json>>, streaming: bool)
      returns (out: Outcome<map<string, Json>>)
      // only a non-chat body reads query["text"], and its failure escapes
      ensures out.Raised? <==> KindOf(endpoint) != Chat && Subscript(query, "text").Raised?
      ensures out.Raised? ==> out.error == Subscript(query, "text").error
      // exactly the base keys, "model" when the model name is truthy, and the overrides
      ensures out.Returned? ==>
        out.value.Keys == BaseKeys(KindOf(endpoint)) + (if Truthy(modelName) then {"model"} else {})
                          + Overrides(extraParam).Keys
      // an override wins over every other key
      ensures out.Returned? ==> forall k :: k in Overrides(extraParam) ==> out.value[k] == Overrides(extraParam)[k]
      ensures out.Returned? && Truthy(modelName) ==> Keeps(out.value, extraParam, "model", modelName)
      ensures out.Returned? && KindOf(endpoint) == Chat ==>
        && Keeps(out.value, extraParam, "messages", query)
        && Keeps(out.value, extraParam, "temperature", JFloat(0.1))
        && Keeps(out.value, extraParam, "seed", JInt(1037))
        && Keeps(out.value, extraParam, "stream", JBool(streaming))
      ensures out.Returned? && KindOf(endpoint) == Embeddings ==>
        && Keeps(out.value, extraParam, "input", Subscript(query, "text").value)
        && Keeps(out.value, extraParam, "encoding_format", JFloat(0.1))
      ensures out.Returned? && KindOf(endpoint) == Completion ==>
        && Keeps(out.value, extraParam, "prompt", Subscript(query, "text").value)
        && Keeps(out.value, extraParam, "temperature", JFloat(1.0))
        && Keeps(out.value, extraParam, "top_p", JFloat(0.9))
        && Keeps(out.value, extraParam, "seed", JInt(1037))
        && Keeps(out.value, extraParam, "stream", JBool(streaming))
    {
      var data: map<string, Json>;
      if Contains(endpoint, ChatPath) {
        data := map["messages" := query, "temperature" := JFloat(0.1), "seed" := JInt(1037),
                    "stream" := JBool(streaming)];
      } else {
        var text := Subscript(query, "text");
        if text.Raised? {
          return Raised(text.error);
        }
        if Contains(endpoint, EmbeddingsPath) {
          data := map["input" := text.value, "encoding_format" := JFloat(0.1)];
        } else {
          data := map["prompt" := text.value, "temperature" := JFloat(1.0), "top_p" := JFloat(0.9),
                      "seed" := JInt(1037), "stream" := JBool(streaming)];
        }
      }
      if Truthy(modelName) {
        data := data["model" := modelName];
      }
      if extraParam.Some? && extraParam.value != map[] {
        data := data + extraParam.value;
      }
      return Returned(data);
    }

    /** The reply to a plain request is its first choice whatever the endpoint. */
    static function ParseResponse(endpoint: string, message: Json): (r: Outcome<Json>)
      ensures r == FirstChoice(message)
    {
      if Contains(endpoint, ChatPath) then FirstChoice(message)
      else if Contains(endpoint, EmbeddingsPath) then FirstChoice(message)
      else FirstChoice(message)
    }

    /** The token one event-stream message contributes. For a chat endpoint the
        message's `choices[0].delta` is read first, and a falsy content in it is
        overwritten with "" in place; then a truthy "error" is the token; else the
        delta content (chat) or `choices[0].text` (the other endpoints), "" when
        missing. */
    static function ParseStreamingResponse(endpoint: string, message: Json): Outcome<Json>
    {
      var chat := Contains(endpoint, ChatPath);
      var patched :- if chat then ClearFalsyContent(message) else Returned(message);
      var error :- Get(patched, "error", JNull);
      if Truthy(error) then Returned(error)
      else if chat then DeltaContent(patched)
      else ChoiceText(patched)
    }

    /** A plain request: build the body, send it, and read the first choice of
        the decoded reply. A transport or decoding error makes the test fail. */
    method Request(endpoint: string, query: Json, extraParam: Option<map<string, Json>>, reply: Result<Json>)
      returns (out: Outcome<Json>)
      ensures KindOf(endpoint) != Chat && Subscript(query, "text").Raised?
        ==> out == Raised(Subscript(query, "text").error)
      ensures !(KindOf(endpoint) != Chat && Subscript(query, "text").Raised?) ==>
        out == match reply
               case Err(msg) => Raised(Failed("Test failed due to an unexpected exception: " + msg))
               case Ok(message) => FirstChoice(message)
    {
      var data := ConstructRequestData(endpoint, query, extraParam, false);
      if data.Raised? {
        return Raised(data.error);
      }
      match reply
      case Err(msg) =>
        return Raised(Failed("Test failed due to an unexpected exception: " + msg));
      case Ok(message) =>
        return ParseResponse(endpoint, message);
    }

    /** A streaming request: build the body, send it, and fold the reply's lines.
        A transport error, or a payload that does not decode, is returned as its
        text; other errors escape. */
    method StreamingRequest(endpoint: string, query: Json, extraParam: Option<map<string, Json>>,
                            reply: Result<seq<string>>, decode: string -> Result<Json>)
      returns (out: Outcome<string>)
      ensures KindOf(endpoint) != Chat && Subscript(query, "text").Raised?
        ==> out == Raised(Subscript(query, "text").error)
      ensures !(KindOf(endpoint) != Chat && Subscript(query, "text").Raised?) ==>
        out == match reply
               case Err(msg) => Returned(msg)
               case Ok(lines) => StreamText(endpoint, lines, decode)
    {
      var data := ConstructRequestData(endpoint, query, extraParam, true);
      if data.Raised? {
        return Raised(data.error);
      }
      if reply.Err? {
        return Returned(reply.message);
      }
      out := ReadStream(endpoint, reply.value, decode);
    }

    /** The loop over the reply's lines: each payload is decoded and parsed
        into a token, and the tokens are joined at the end. */
    static method ReadStream(endpoint: string, lines: seq<string>, decode: string -> Result<Json>)
      returns (out: Outcome<string>)
      ensures out == StreamText(endpoint, lines, decode)
    {
      ghost var parse := TokenParser(endpoint);
      var tokens: seq<Json> := [];
      var i := 0;
      while i < |lines|
        invariant 0 <= i <= |lines|
        invariant Collect(Picked(lines, Payload), decode, parse)
                  == Prepend(tokens, Collect(Picked(lines[i..], Payload), decode, parse))
      {
        ghost var rest := Collect(Picked(lines[i + 1..], Payload), decode, parse);
        CollectFrom(lines, i, Payload, decode, parse);
        var parts := Partition(lines[i], DataPrefix);
        if parts.found != "" && parts.after != DoneSentinel {
          assert Payload(lines[i]) == Some(parts.after);
          var message := decode(parts.after);
          if message.Err? {
            return Returned(message.message);
          }
          var token := ParseStreamingResponse(endpoint, message.value);
          assert parse(message.value) == token;
          if token.Raised? {
            return Raised(token.error);
          }
          PrependPrepend(tokens, [token.value], rest);
          tokens := tokens + [token.value];
        } else {
          assert Payload(lines[i]) == None;
        }
        i := i + 1;
      }
      assert lines[i..] == [];
      assert tokens + [] == tokens;
      return Join(tokens);
    }
  }

  /** `message["choices"][0]`. */
  function FirstChoice(message: Json): (r: Outcome<Json>)
    ensures message.JObj? && "choices" in message.fields && message.fields["choices"].JArr?
            && message.fields["choices"].items != []
            ==> r == Returned(message.fields["choices"].items[0])
    ensures message.JObj? && "choices" !in message.fields ==> r == Raised(KeyError("choices"))
    ensures !message.JObj? ==> r == Raised(TypeError)
  {
    var choices :- Subscript(message, "choices");
    Index0(choices)
  }

  /** `message["choices"][0]["delta"]`. */
  function ChatDelta(message: Json): Outcome<Json> {
    var first :- FirstChoice(message);
    Subscript(first, "delta")
  }

  /** `m["choices"][0].get("delta", {}).get("content", "")`. */
  function DeltaContent(m: Json): Outcome<Json> {
    var first :- FirstChoice(m);
    var delta :- Get(first, "delta", JObj(map[]));
    Get(delta, "content", JStr(""))
  }

  /** `m["choices"][0].get("text", "")`. */
  function ChoiceText(m: Json): Outcome<Json> {
    var first :- FirstChoice(m);
    Get(first, "text", JStr(""))
  }

  /** A falsy delta content becomes "" in place; StreamingTokenRules relies on
      ClearFalsyContentSpec for what it changes. */
  function ClearFalsyContent(message: Json): Outcome<Json> {
    var delta :- ChatDelta(message);
    var content :- Get(delta, "content", JNull);
    if Truthy(content) then Returned(message) else Returned(SetDeltaContent(message, JStr("")))
  }

  /** The message with `choices[0]["delta"]["content"]` set to `v`. */
  function SetDeltaContent(message: Json, v: Json): Json
    requires ChatDelta(message).Returned? && ChatDelta(message).value.JObj?
  {
    var m := message.fields;
    var xs := m["choices"].items;
    var c := xs[0].fields;
    var d := c["delta"].fields;
    JObj(m["choices" := JArr(xs[0 := JObj(c["delta" := JObj(d["content" := v])])])])
  }

  /** A message whose first choice holds a delta dict. */
  predicate HasDeltaDict(message: Json) {
    && message.JObj? && "choices" in message.fields && message.fields["choices"].JArr?
    && message.fields["choices"].items != [] && message.fields["choices"].items[0].JObj?
    && "delta" in message.fields["choices"].items[0].fields
    && message.fields["choices"].items[0].fields["delta"].JObj?
  }

  /** Setting the delta content changes that one entry: every other top-level
      key, every later choice and every other key of the first choice and of
      its delta stay as they were. */
  lemma SetDeltaContentSpec(message: Json, v: Json)
    requires ChatDelta(message).Returned? && ChatDelta(message).value.JObj?
    ensures HasDeltaDict(message) && HasDeltaDict(SetDeltaContent(message, v))
    ensures forall k :: k != "choices" ==> Lookup(SetDeltaContent(message, v).fields, k) == Lookup(message.fields, k)
    ensures SetDeltaContent(message, v).fields["choices"].items[1..] == message.fields["choices"].items[1..]
    ensures forall k :: k != "delta" ==>
      Lookup(SetDeltaContent(message, v).fields["choices"].items[0].fields, k)
        == Lookup(message.fields["choices"].items[0].fields, k)
    ensures ChatDelta(SetDeltaContent(message, v)) == Returned(JObj(ChatDelta(message).value.fields["content" := v]))
  {
    var m := message.fields;
    var xs := m["choices"].items;
    var r := SetDeltaContent(message, v);
    assert r.fields["choices"].items[0] == JObj(xs[0].fields["delta" := JObj(xs[0].fields["delta"].fields["content" := v])]);
  }

  /** Clearing a falsy content needs the delta to be a dict; it keeps the
      message's error and leaves a content that is truthy, or "". */
  lemma ClearFalsyContentSpec(message: Json)
    ensures ChatDelta(message).Raised? ==> ClearFalsyContent(message) == Raised(ChatDelta(message).error)
    ensures ChatDelta(message).Returned? && !ChatDelta(message).value.JObj?
      ==> ClearFalsyContent(message) == Raised(AttributeError("get"))
    ensures ChatDelta(message).Returned? && ChatDelta(message).value.JObj? ==>
      && message.JObj?
      && var r := ClearFalsyContent(message);
      && r.Returned? && r.value.JObj?
      && Lookup(r.value.fields, "error") == Lookup(message.fields, "error")
      && ChatDelta(r.value).Returned? && ChatDelta(r.value).value.JObj?
      && var content := Lookup(ChatDelta(message).value.fields, "content");
      Lookup(ChatDelta(r.value).value.fields, "content") == if Truthy(content) then content else JStr("")
  {
    if ChatDelta(message).Returned? && ChatDelta(message).value.JObj? {
      SetDeltaContentSpec(message, JStr(""));
    }
  }

  /** The token of one stream message, case by case: for the other endpoints
      a truthy "error" is returned without looking at the choices; for a chat
      endpoint the delta must be there even when the message reports an error,
      and the error wins over the content, which wins over "". */
  lemma StreamingTokenRules(endpoint: string, message: Json)
    ensures !Contains(endpoint, ChatPath) && message.JObj? && Truthy(Lookup(message.fields, "error"))
      ==> OpenAIClient.ParseStreamingResponse(endpoint, message) == Returned(message.fields["error"])
    ensures !Contains(endpoint, ChatPath) && !message.JObj?
      ==> OpenAIClient.ParseStreamingResponse(endpoint, message) == Raised(AttributeError("get"))
    ensures !Contains(endpoint, ChatPath) && message.JObj? && !Truthy(Lookup(message.fields, "error"))
      ==> OpenAIClient.ParseStreamingResponse(endpoint, message) == ChoiceText(message)
    ensures Contains(endpoint, ChatPath) && ChatDelta(message).Raised?
      ==> OpenAIClient.ParseStreamingResponse(endpoint, message) == Raised(ChatDelta(message).error)
    ensures Contains(endpoint, ChatPath) && ChatDelta(message).Returned? && !ChatDelta(message).value.JObj?
      ==> OpenAIClient.ParseStreamingResponse(endpoint, message) == Raised(AttributeError("get"))
    ensures Contains(endpoint, ChatPath) && ChatDelta(message).Returned? && ChatDelta(message).value.JObj?
      ==> message.JObj? &&
          var error := Lookup(message.fields, "error");
          var content := Lookup(ChatDelta(message).value.fields, "content");
          OpenAIClient.ParseStreamingResponse(endpoint, message)
            == Returned(if Truthy(error) then error else if Truthy(content) then content else JStr(""))
  {
    ClearFalsyContentSpec(message);
    if Contains(endpoint, ChatPath) && ChatDelta(message).Returned? && ChatDelta(message).value.JObj? {
      var patched := ClearFalsyContent(message).value;
      assert ChatDelta(patched).Returned? && ChatDelta(patched).value.JObj?;
      assert DeltaContent(patched) == Get(ChatDelta(patched).value, "content", JStr(""));
    }
  }

  /** The payload of one event-stream line: the part after the first "data: ",
      unless there is none or it is the "[DONE]" sentinel. */
  function Payload(line: string): Option<string> {
    var parts := Partition(line, DataPrefix);
    if parts.found != "" && parts.after != DoneSentinel then Some(parts.after) else None
  }

  /** A line has a payload exactly when "data: " occurs in it and what follows
      its first occurrence is not "[DONE]"; the payload is the rest of the line
      after that first occurrence, wherever in the line it stands. */
  lemma PayloadFollowsFirstPrefix(line: string)
    ensures Payload(line).Some? <==> Contains(line, DataPrefix) && Partition(line, DataPrefix).after != DoneSentinel
    ensures Payload(line).Some? ==>
      var k := |line| - |Payload(line).value| - |DataPrefix|;
      && 0 <= k && OccursAt(line, DataPrefix, k)
      && line[k + |DataPrefix|..] == Payload(line).value
      && forall j: nat :: OccursAt(line, DataPrefix, j) ==> k <= j
  {
    PartitionSplitsAtFirst(line, DataPrefix);
    var p := Partition(line, DataPrefix);
    if p.found == DataPrefix {
      assert line[|p.before| + |DataPrefix|..] == p.after;
    }
  }

  /** A line that starts with "data: " carries the rest of the line, unless
      that is the "[DONE]" sentinel. */
  lemma DataLinePayload(rest: string)
    ensures Payload(DataPrefix + rest) == if rest == DoneSentinel then None else Some(rest)
  {
    var line := DataPrefix + rest;
    assert line[0..|DataPrefix|] == DataPrefix;
    assert line[|DataPrefix|..] == rest;
  }

  /** Tokens gathered so far, or the result that ended the fold early. */
  datatype Fold = Tokens(tokens: seq<Json>) | Stopped(result: Outcome<string>)

  function Prepend(ts: seq<Json>, f: Fold): Fold {
    match f
    case Tokens(us) => Tokens(ts + us)
    case Stopped(_) => f
  }

  /** What `pick` finds in the lines, in order (a line without anything is
      skipped). */
  function Picked(lines: seq<string>, pick: string -> Option<string>): seq<string> {
    if lines == [] then []
    else (if pick(lines[0]).Some? then [pick(lines[0]).value] else []) + Picked(lines[1..], pick)
  }

  /** Decode each payload and take its token with `parse`; the first payload
      that does not decode ends the fold with the decoder's error text, the
      first message `parse` rejects ends it with that exception. */
  function Collect(payloads: seq<string>, decode: string -> Result<Json>, parse: Json -> Outcome<Json>): Fold {
    if payloads == [] then Tokens([])
    else Step(decode(payloads[0]), parse, Collect(payloads[1..], decode, parse))
  }

  /** One decoded payload in front of the fold `rest` of the payloads after it. */
  function Step(message: Result<Json>, parse: Json -> Outcome<Json>, rest: Fold): Fold {
    if message.Err? then Stopped(Returned(message.message))
    else if parse(message.value).Raised? then Stopped(Raised(parse(message.value).error))
    else Prepend([parse(message.value).value], rest)
  }

  /** `"".join(tokens)`: every token must be a str. */
  function Join(tokens: seq<Json>): Outcome<string> {
    if tokens == [] then Returned("")
    else if tokens[0].JStr? then
      var rest :- Join(tokens[1..]);
      Returned(tokens[0].s + rest)
    else Raised(TypeError)
  }

  function Finish(f: Fold): Outcome<string> {
    match f
    case Tokens(ts) => Join(ts)
    case Stopped(o) => o
  }

  /** The per-message parser of a streaming client for `endpoint`. */
  function TokenParser(endpoint: string): Json -> Outcome<Json> {
    message => OpenAIClient.ParseStreamingResponse(endpoint, message)
  }

  /** What the streaming request makes of the reply's lines. */
  function StreamText(endpoint: string, lines: seq<string>, decode: string -> Result<Json>): Outcome<string> {
    Finish(Collect(Picked(lines, Payload), decode, TokenParser(endpoint)))
  }

  /** The fold over what is picked from lines[i..] takes line i, then the rest. */
  lemma CollectFrom(lines: seq<string>, i: nat, pick: string -> Option<string>,
                    decode: string -> Result<Json>, parse: Json -> Outcome<Json>)
    requires i < |lines|
    ensures pick(lines[i]).None? ==>
      Collect(Picked(lines[i..], pick), decode, parse) == Collect(Picked(lines[i + 1..], pick), decode, parse)
    ensures pick(lines[i]).Some? ==>
      Collect(Picked(lines[i..], pick), decode, parse)
      == Step(decode(pick(lines[i]).value), parse, Collect(Picked(lines[i + 1..], pick), decode, parse))
  {
    assert lines[i..][0] == lines[i] && lines[i..][1..] == lines[i + 1..];
    var ps := Picked(lines[i..], pick);
    if pick(lines[i]).Some? {
      assert ps == [pick(lines[i]).value] + Picked(lines[i + 1..], pick);
      assert ps[0] == pick(lines[i]).value && ps[1..] == Picked(lines[i + 1..], pick);
    } else {
      assert ps == [] + Picked(lines[i + 1..], pick);
      assert [] + Picked(lines[i + 1..], pick) == Picked(lines[i + 1..], pick);
    }
  }

  lemma PrependPrepend(a: seq<Json>, b: seq<Json>, f: Fold)
    ensures Prepend(a, Prepend(b, f)) == Prepend(a + b, f)
  {
    if f.Tokens? {
      assert a + (b + f.tokens) == (a + b) + f.tokens;
    }
  }

  /** What is picked from two runs of lines is what is picked from each, in
      order. */
  lemma {:induction false} PickedAppend(a: seq<string>, b: seq<string>, pick: string -> Option<string>)
    ensures Picked(a + b, pick) == Picked(a, pick) + Picked(b, pick)
  {
    if a == [] {
      assert a + b == b;
    } else {
      assert (a + b)[0] == a[0] && (a + b)[1..] == a[1..] + b;
      PickedAppend(a[1..], b, pick);
    }
  }

  /** A line without a payload (no "data: ", or the "[DONE]" sentinel after
      it) changes nothing, wherever it stands in the stream. */
  lemma LineWithoutPayloadIgnored(endpoint: string, a: seq<string>, line: string, b: seq<string>,
                                  decode: string -> Result<Json>)
    requires Payload(line).None?
    ensures StreamText(endpoint, a + [line] + b, decode) == StreamText(endpoint, a + b, decode)
  {
    PickedAppend(a + [line], b, Payload);
    PickedAppend(a, [line], Payload);
    PickedAppend(a, b, Payload);
    assert Picked([line], Payload) == [] by {
      assert [line][0] == line && [line][1..] == [];
    }
    assert Picked(a, Payload) + [] == Picked(a, Payload);
    assert Picked(a + [line] + b, Payload) == Picked(a + b, Payload);
  }

  /** When every payload decodes to a message whose token is the string
      strs[i], the fold gathers exactly those strings and joins them in
      order. */
  lemma {:induction false} CollectStrings(payloads: seq<string>, decode: string -> Result<Json>,
                                          parse: Json -> Outcome<Json>, strs: seq<string>)
    requires |strs| == |payloads|
    requires forall i :: 0 <= i < |payloads| ==>
               decode(payloads[i]).Ok? && parse(decode(payloads[i]).value) == Returned(JStr(strs[i]))
    ensures Collect(payloads, decode, parse).Tokens?
    ensures Join(Collect(payloads, decode, parse).tokens) == Returned(Concat(strs))
  {
    if payloads != [] {
      CollectStrings(payloads[1..], decode, parse, strs[1..]);
      var ts := Collect(payloads[1..], decode, parse).tokens;
      assert Collect(payloads, decode, parse) == Tokens([JStr(strs[0])] + ts);
      assert ([JStr(strs[0])] + ts)[1..] == ts;
    }
  }

  lemma StreamTextIsConcatenation(endpoint: string, lines: seq<string>, decode: string -> Result<Json>,
                                  strs: seq<string>)
    requires |strs| == |Picked(lines, Payload)|
    requires forall i :: 0 <= i < |strs| ==>
               decode(Picked(lines, Payload)[i]).Ok?
               && OpenAIClient.ParseStreamingResponse(endpoint, decode(Picked(lines, Payload)[i]).value)
                  == Returned(JStr(strs[i]))
    ensures StreamText(endpoint, lines, decode) == Returned(Concat(strs))
  {
    CollectStrings(Picked(lines, Payload), decode, TokenParser(endpoint), strs);
  }

  /** A payload that does not decode ends the stream with the decoder's error
      text; the tokens gathered before it are discarded. */
  lemma {:induction false} CollectDecodeError(payloads: seq<string>, decode: string -> Result<Json>,
                                              parse: Json -> Outcome<Json>, k: nat)
    requires k < |payloads| && decode(payloads[k]).Err?
    requires forall i :: 0 <= i < k ==> decode(payloads[i]).Ok? && parse(decode(payloads[i]).value).Returned?
    ensures Collect(payloads, decode, parse) == Stopped(Returned(decode(payloads[k]).message))
  {
    if k > 0 {
      CollectDecodeError(payloads[1..], decode, parse, k - 1);
    }
  }

  lemma StreamTextDecodeError(endpoint: string, lines: seq<string>, decode: string -> Result<Json>, k: nat)
    requires k < |Picked(lines, Payload)| && decode(Picked(lines, Payload)[k]).Err?
    requires forall i :: 0 <= i < k ==>
               decode(Picked(lines, Payload)[i]).Ok?
               && OpenAIClient.ParseStreamingResponse(endpoint, decode(Picked(lines, Payload)[i]).value).Returned?
    ensures StreamText(endpoint, lines, decode) == Returned(decode(Picked(lines, Payload)[k]).message)
  {
    CollectDecodeError(Picked(lines, Payload), decode, TokenParser(endpoint), k);
  }
}

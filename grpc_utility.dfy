/** The text-generation RPC adapter `TGISGRPCPlugin`: the requests it builds
    from a query, the record it makes of a unary reply, and the fold it runs
    over a streamed reply. The channel and the RPC itself are parameters: the
    reply (or the RPC error's details) is handed in. */
module GrpcUtility {
  import opened PyValues
  import opened PyStrings

  const MissingArguments: string := "Model name and host are required arguments."

  /** The decoding method of a request; the adapter always asks for GREEDY. */
  datatype DecodingMethod = Greedy | Sample

  datatype StoppingCriteria = StoppingCriteria(maxNewTokens: Json, minNewTokens: Json)

  /** `generatedTokens` is the `ResponseOptions(generated_tokens=...)` flag. */
  datatype Parameters = Parameters(decoding: DecodingMethod, stopping: StoppingCriteria, generatedTokens: bool)

  datatype GenerationRequest = GenerationRequest(text: Json)

  datatype BatchedGenerationRequest =
    BatchedGenerationRequest(modelId: string, requests: seq<GenerationRequest>, params: Parameters)

  datatype SingleGenerationRequest =
    SingleGenerationRequest(modelId: string, request: GenerationRequest, params: Parameters)

  /** One generation response; `tokens` holds the texts of the token details
      the server attached, `stopReason` is the enum's number (0 is
      NOT_FINISHED). */
  datatype GenerationResponse = GenerationResponse(
    inputTokenCount: nat, generatedTokenCount: nat, text: string, stopReason: nat, tokens: seq<string>)

  /** The dict the request functions return. */
  datatype GenerationResult =
    GenerationResult(inputTokens: Json, stopReason: Json, outputText: string, outputTokens: Json)

  datatype RequestFunc = MakeGrpcRequestFunc | MakeGrpcRequestStreamFunc

  /** The parameters both requests carry: greedy decoding with at least and at
      most `query["output_tokens"]` new tokens. */
  function RequestParams(query: map<string, Json>, generatedTokens: bool): Outcome<Parameters> {
    var n :- Subscript(JObj(query), "output_tokens");
    Returned(Parameters(Greedy, StoppingCriteria(n, n), generatedTokens))
  }

  /** The unary request: one generation request for `query.get("text")`. */
  function BatchedRequest(modelId: string, query: map<string, Json>): (r: Outcome<BatchedGenerationRequest>)
    ensures r.Raised? <==> "output_tokens" !in query
    ensures r.Raised? ==> r.error == KeyError("output_tokens")
    ensures r.Returned? ==>
      && r.value.modelId == modelId
      && r.value.requests == [GenerationRequest(Lookup(query, "text"))]
      && r.value.params.decoding == Greedy
      && r.value.params.stopping.minNewTokens == r.value.params.stopping.maxNewTokens == query["output_tokens"]
      && !r.value.params.generatedTokens
  {
    var params :- RequestParams(query, false);
    Returned(BatchedGenerationRequest(modelId, [GenerationRequest(Lookup(query, "text"))], params))
  }

  /** The streaming request: the same text and stopping criteria, and it asks
      for the generated tokens so that each response says whether it has any. */
  function SingleRequest(modelId: string, query: map<string, Json>): (r: Outcome<SingleGenerationRequest>)
    ensures r.Raised? <==> "output_tokens" !in query
    ensures r.Raised? ==> r.error == KeyError("output_tokens")
    ensures r.Returned? ==>
      && r.value.modelId == modelId
      && r.value.request == GenerationRequest(Lookup(query, "text"))
      && r.value.params.decoding == Greedy
      && r.value.params.stopping.minNewTokens == r.value.params.stopping.maxNewTokens == query["output_tokens"]
      && r.value.params.generatedTokens
  {
    var params :- RequestParams(query, true);
    Returned(SingleGenerationRequest(modelId, GenerationRequest(Lookup(query, "text")), params))
  }

  /** The record a unary reply's first response becomes: a generated-token
      count of 0 is replaced by the requested count. */
  function UnaryResult(response: GenerationResponse, requested: Json): GenerationResult {
    GenerationResult(
      JInt(response.inputTokenCount), JInt(response.stopReason), response.text,
      if response.generatedTokenCount != 0 then JInt(response.generatedTokenCount) else requested)
  }

  /** The record of the response that ends a stream, over the texts gathered. */
  function StopRecord(response: GenerationResponse, texts: seq<string>): GenerationResult {
    GenerationResult(JInt(response.inputTokenCount), JInt(response.stopReason), Concat(texts),
                     JInt(response.generatedTokenCount))
  }

  /** The record when a stream ends without a stop reason. */
  function FallbackRecord(query: map<string, Json>, texts: seq<string>): GenerationResult {
    GenerationResult(Lookup(query, "input_tokens"), JNull, Concat(texts), JInt(|texts|))
  }

  /** A response the stream loop takes a text from. */
  predicate HasTokens(r: GenerationResponse) {
    r.tokens != []
  }

  /** A response that ends the stream loop. */
  predicate Stops(r: GenerationResponse) {
    HasTokens(r) && r.stopReason != 0
  }

  /** How the stream loop ends: at a stopping response with its record, or
      with the texts gathered when the responses run out. */
  datatype StreamEnd = StoppedWith(result: GenerationResult) | Exhausted(texts: seq<string>)

  /** The stream loop over `rs` with the texts gathered so far. */
  function Run(rs: seq<GenerationResponse>, texts: seq<string>): StreamEnd {
    if rs == [] then Exhausted(texts)
    else if !HasTokens(rs[0]) then Run(rs[1..], texts)
    else if rs[0].stopReason != 0 then StoppedWith(StopRecord(rs[0], texts + [rs[0].text]))
    else Run(rs[1..], texts + [rs[0].text])
  }

  /** What the streaming request returns for the responses received before
      the stream ended, and the RPC error that ended it, if any: an error that
      comes after the stopping response is never seen. */
  function StreamResult(query: map<string, Json>, rs: seq<GenerationResponse>, rpcError: Option<string>)
    : Option<GenerationResult>
  {
    match Run(rs, [])
    case StoppedWith(record) => Some(record)
    case Exhausted(texts) => if rpcError.Some? then None else Some(FallbackRecord(query, texts))
  }

  /** The texts of the responses that carry tokens, in order. */
  function Texts(rs: seq<GenerationResponse>): seq<string> {
    if rs == [] then [] else (if HasTokens(rs[0]) then [rs[0].text] else []) + Texts(rs[1..])
  }

  /** The index of the first stopping response. */
  function FirstStop(rs: seq<GenerationResponse>): (r: Option<nat>)
    ensures r.Some? ==> r.value < |rs| && Stops(rs[r.value])
    ensures r.Some? ==> forall j :: 0 <= j < r.value ==> !Stops(rs[j])
    ensures r.None? ==> forall j :: 0 <= j < |rs| ==> !Stops(rs[j])
  {
    if rs == [] then None
    else if Stops(rs[0]) then Some(0)
    else match FirstStop(rs[1..])
      case Some(k) => Some(k + 1)
      case None => None
  }

  class TGISGRPCPlugin {
    const modelName: string
    const host: string
    const streaming: bool
    const useTls: bool
    const requestFunc: RequestFunc

    /** The Python constructor raises ValueError unless both are non-empty; New models
        that check. */
    constructor (host: string, modelName: string, streaming: bool, useTls: bool)
      requires modelName != "" && host != ""
      ensures this.modelName == modelName && this.host == host
      ensures this.streaming == streaming && this.useTls == useTls
      ensures requestFunc == MakeGrpcRequestStreamFunc <==> streaming
    {
      this.modelName := modelName;
      this.host := host;
      this.streaming := streaming;
      this.useTls := useTls;
      this.requestFunc := if streaming then MakeGrpcRequestStreamFunc else MakeGrpcRequestFunc;
    }

    /** Construction, with the check that both the model name and the host
        are given. */
    static method New(host: string, modelName: string, streaming: bool, useTls: bool)
      returns (out: Outcome<TGISGRPCPlugin>)
      ensures out.Raised? <==> modelName == "" || host == ""
      ensures out.Raised? ==> out.error == ValueError(MissingArguments)
      ensures out.Returned? ==> fresh(out.value) && out.value.modelName == modelName && out.value.host == host
                                && out.value.streaming == streaming && out.value.useTls == useTls
                                && (out.value.requestFunc == MakeGrpcRequestStreamFunc <==> streaming)
    {
      if modelName == "" || host == "" {
        return Raised(ValueError(MissingArguments));
      }
      var plugin := new TGISGRPCPlugin(host, modelName, streaming, useTls);
      return Returned(plugin);
    }

    /** A unary request. `reply` is what the RPC hands back: its responses, or
        the details of the RPC error, which the method logs and turns into
        None. A reply without responses is an IndexError that escapes. */
    method MakeGrpcRequest(query: map<string, Json>, reply: Result<seq<GenerationResponse>>)
      returns (out: Outcome<Option<GenerationResult>>)
      ensures "output_tokens" !in query ==> out == Raised(KeyError("output_tokens"))
      ensures "output_tokens" in query && reply.Err? ==> out == Returned(None)
      ensures "output_tokens" in query && reply.Ok? && reply.value == [] ==> out == Raised(IndexError)
      ensures "output_tokens" in query && reply.Ok? && reply.value != [] ==>
        var first := reply.value[0];
        && out.Returned? && out.value.Some?
        && out.value.value.inputTokens == JInt(first.inputTokenCount)
        && out.value.value.stopReason == JInt(first.stopReason)
        && out.value.value.outputText == first.text
        // a count of 0 is falsy: the requested count stands in for it
        && out.value.value.outputTokens
           == (if first.generatedTokenCount != 0 then JInt(first.generatedTokenCount) else query["output_tokens"])
    {
      var request := BatchedRequest(modelName, query);
      if request.Raised? {
        return Raised(request.error);
      }
      match reply
      case Err(_) =>
        return Returned(None);
      case Ok(responses) =>
        if responses == [] {
          return Raised(IndexError);
        }
        return Returned(Some(UnaryResult(responses[0], query["output_tokens"])));
    }

    /** A streaming request over the responses `stream` received, and the RPC
        error that ended the stream early, if any. Each response that carries
        tokens adds its text; the first of them with a stop reason ends the
        loop with its own counts. */
    method MakeGrpcRequestStream(query: map<string, Json>, stream: seq<GenerationResponse>, rpcError: Option<string>)
      returns (out: Outcome<Option<GenerationResult>>)
      ensures "output_tokens" !in query ==> out == Raised(KeyError("output_tokens"))
      ensures "output_tokens" in query ==> out == Returned(StreamResult(query, stream, rpcError))
    {
      var request := SingleRequest(modelName, query);
      if request.Raised? {
        return Raised(request.error);
      }
      var tokens: seq<string> := [];
      var i := 0;
      while i < |stream|
        invariant 0 <= i <= |stream|
        invariant Run(stream, []) == Run(stream[i..], tokens)
      {
        assert stream[i..][0] == stream[i] && stream[i..][1..] == stream[i + 1..];
        var resp := stream[i];
        if resp.tokens != [] {
          tokens := tokens + [resp.text];
          if resp.stopReason != 0 {
            return Returned(Some(StopRecord(resp, tokens)));
          }
        }
        i := i + 1;
      }
      if rpcError.Some? {
        return Returned(None);
      }
      return Returned(Some(FallbackRecord(query, tokens)));
    }
  }

  lemma {:induction false} TextsAppend(a: seq<GenerationResponse>, b: seq<GenerationResponse>)
    ensures Texts(a + b) == Texts(a) + Texts(b)
  {
    if a == [] {
      assert a + b == b;
    } else {
      assert (a + b)[0] == a[0] && (a + b)[1..] == a[1..] + b;
      TextsAppend(a[1..], b);
    }
  }

  /** The loop stops at the first response that carries tokens and a stop
      reason, with the texts of every token-bearing response up to and
      including it; without one it gathers the texts of them all. */
  lemma {:induction false} RunStopsAtFirstStop(rs: seq<GenerationResponse>, texts: seq<string>)
    ensures FirstStop(rs).Some? ==>
      var k := FirstStop(rs).value;
      Run(rs, texts) == StoppedWith(StopRecord(rs[k], texts + Texts(rs[..k + 1])))
    ensures FirstStop(rs).None? ==> Run(rs, texts) == Exhausted(texts + Texts(rs))
  {
    if rs != [] {
      var t := if HasTokens(rs[0]) then [rs[0].text] else [];
      assert Texts(rs) == t + Texts(rs[1..]);
      if Stops(rs[0]) {
        assert rs[..1][0] == rs[0] && rs[..1][1..] == [];
        assert Texts(rs[..1]) == [rs[0].text];
      } else {
        RunStopsAtFirstStop(rs[1..], texts + t);
        assert texts + [] == texts;
        assert Run(rs, texts) == Run(rs[1..], texts + t);
        if FirstStop(rs[1..]).Some? {
          var k := FirstStop(rs[1..]).value;
          assert Texts(rs[..k + 2]) == t + Texts(rs[1..][..k + 1]) by {
            assert rs[..k + 2][0] == rs[0] && rs[..k + 2][1..] == rs[1..][..k + 1];
          }
          assert texts + t + Texts(rs[1..][..k + 1]) == texts + (t + Texts(rs[1..][..k + 1]));
        } else {
          assert texts + t + Texts(rs[1..]) == texts + (t + Texts(rs[1..]));
        }
      }
    }
  }

  /** The streamed result in terms of the first stopping response: its counts
      and the texts up to it; without one, and without an RPC error, the
      query's "input_tokens", no stop reason and as many output tokens as
      token-bearing responses. */
  lemma StreamResultByFirstStop(query: map<string, Json>, rs: seq<GenerationResponse>, rpcError: Option<string>)
    ensures FirstStop(rs).Some? ==>
      var k := FirstStop(rs).value;
      StreamResult(query, rs, rpcError)
        == Some(GenerationResult(JInt(rs[k].inputTokenCount), JInt(rs[k].stopReason),
                                 Concat(Texts(rs[..k + 1])), JInt(rs[k].generatedTokenCount)))
    ensures FirstStop(rs).None? && rpcError.Some? ==> StreamResult(query, rs, rpcError) == None
    ensures FirstStop(rs).None? && rpcError.None? ==>
      StreamResult(query, rs, rpcError)
        == Some(GenerationResult(Lookup(query, "input_tokens"), JNull, Concat(Texts(rs)), JInt(|Texts(rs)|)))
  {
    RunStopsAtFirstStop(rs, []);
    if FirstStop(rs).Some? {
      assert [] + Texts(rs[..FirstStop(rs).value + 1]) == Texts(rs[..FirstStop(rs).value + 1]);
    } else {
      assert [] + Texts(rs) == Texts(rs);
    }
  }

  /** Once the loop has stopped, neither later responses nor a later RPC
      error change the result. */
  lemma {:induction false} StopEndsStream(query: map<string, Json>, a: seq<GenerationResponse>,
                                          b: seq<GenerationResponse>, e1: Option<string>, e2: Option<string>)
    requires FirstStop(a).Some?
    ensures StreamResult(query, a + b, e1) == StreamResult(query, a, e2)
  {
    var k := FirstStop(a).value;
    assert (a + b)[..k + 1] == a[..k + 1];
    assert forall j :: 0 <= j <= k ==> (a + b)[j] == a[j];
    assert FirstStop(a + b) == Some(k);
    StreamResultByFirstStop(query, a + b, e1);
    StreamResultByFirstStop(query, a, e2);
  }

  /** A response without tokens is skipped, even when it has a stop reason. */
  lemma {:induction false} TokenlessIgnored(a: seq<GenerationResponse>, r: GenerationResponse,
                                            b: seq<GenerationResponse>, texts: seq<string>)
    requires !HasTokens(r)
    ensures Run(a + [r] + b, texts) == Run(a + b, texts)
  {
    if a == [] {
      assert a + [r] + b == [r] + b && ([r] + b)[1..] == b;
      assert a + b == b;
    } else {
      assert (a + [r] + b)[0] == a[0] && (a + [r] + b)[1..] == a[1..] + [r] + b;
      assert (a + b)[0] == a[0] && (a + b)[1..] == a[1..] + b;
      var t := if HasTokens(a[0]) then texts + [a[0].text] else texts;
      TokenlessIgnored(a[1..], r, b, t);
    }
  }

  /** A run of responses without a stop changes nothing about where the
      stream stops: the first stop after it is the overall first. */
  lemma {:induction false} FirstStopAfter(a: seq<GenerationResponse>, b: seq<GenerationResponse>)
    requires FirstStop(a).None?
    ensures FirstStop(b).Some? ==> FirstStop(a + b) == Some(|a| + FirstStop(b).value)
    ensures FirstStop(b).None? ==> FirstStop(a + b).None?
  {
    if a == [] {
      assert a + b == b;
    } else {
      assert !Stops(a[0]) && FirstStop(a[1..]).None?;
      assert (a + b)[0] == a[0] && (a + b)[1..] == a[1..] + b;
      FirstStopAfter(a[1..], b);
    }
  }

  /** A stream split in two where the first part has no stop: the output text
      is that of the first part followed by that of the second, up to and
      including its stop, or to its end when neither part stops. */
  lemma StreamTextsSplit(query: map<string, Json>, a: seq<GenerationResponse>, b: seq<GenerationResponse>,
                         rpcError: Option<string>)
    requires FirstStop(a).None?
    ensures FirstStop(b).Some? ==>
      var k := FirstStop(b).value;
      && StreamResult(query, a + b, rpcError).Some?
      && StreamResult(query, a + b, rpcError).value.outputText == Concat(Texts(a)) + Concat(Texts(b[..k + 1]))
    ensures FirstStop(b).None? && rpcError.None? ==>
      && StreamResult(query, a + b, rpcError).Some?
      && StreamResult(query, a + b, rpcError).value.outputText == Concat(Texts(a)) + Concat(Texts(b))
      && StreamResult(query, a + b, rpcError).value.outputTokens == JInt(|Texts(a)| + |Texts(b)|)
  {
    FirstStopAfter(a, b);
    StreamResultByFirstStop(query, a + b, rpcError);
    if FirstStop(b).Some? {
      var k := FirstStop(b).value;
      assert (a + b)[..|a| + k + 1] == a + b[..k + 1];
      TextsAppend(a, b[..k + 1]);
      ConcatAppend(Texts(a), Texts(b[..k + 1]));
    } else {
      TextsAppend(a, b);
      ConcatAppend(Texts(a), Texts(b));
    }
  }
}

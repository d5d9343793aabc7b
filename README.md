# model-serving-tests: verified model of the inference adapters and test helpers

This project is a Dafny model of the logic at the core of the
`model-serving-tests` suite, which exercises model-serving endpoints. It
covers three parts:

- **`OpenAIClient`** (`OpenAIUtility`, `openai_utility.dfy`) is the HTTP/JSON
  completion adapter. It models the request-function choice and the request
  body built for the chat, embeddings and completion endpoints. It also
  models how a reply is read, and how an event-stream reply is turned into a
  single string, one `data: ` line at a time.
- **`TGISGRPCPlugin`** (`GrpcUtility`, `grpc_utility.dfy`) is the
  text-generation RPC adapter. It models the constructor's argument check and
  the unary and streaming requests built from a query. It also models the
  record made of a unary reply, and the loop over a streamed reply with its
  early stop, its fallback record and the RPC-error outcome.
- **The test helpers** (`TestUtils`, `utils.dfy`) are:
  - the contexts that the serving-runtime and inference-service manifests
    are rendered with, including the accelerator table and the argument
    checks;
  - the `<name>.yaml` / `<name>_updated.yaml` file pair;
  - the search for a service's predictor pod;
  - the flattening of chat replies.

Two shared modules sit underneath:

- `PyValues` (`py_values.dfy`) holds decoded JSON values (`Json`) and the
  Python exceptions (`PyError`). A call's outcome is `Outcome`: `Returned(v)`
  or `Raised(e)`. It also holds the dict and list operations the code uses:
  `d[k]`, `x[0]`, `d.get(k, default)`, and truthiness.
- `PyStrings` (`py_strings.dfy`) holds the str operations the code uses:
  `in`, `partition`, `lower`, `strip` and `join`.

What the code does not compute itself is handed in as a parameter:

- the HTTP reply, or the text of the transport error;
- the JSON decoder;
- the RPC reply, or the details of the RPC error;
- the pods of a namespace.

A manifest builder yields the job it would hand to the template renderer:
the template path, the context and the output path.

The model follows the code where the code is surprising:

- For a chat endpoint, a stream message's `choices[0].delta` is read before
  its `"error"` is looked at. A chat message that reports an error but has
  no choices therefore raises `KeyError` rather than returning the error
  (`StreamingTokenRules`).
- A streamed gRPC response with a stop reason but no tokens does not end the
  stream (`TokenlessIgnored`).
- A unary reply whose generated-token count is 0 reports the requested count
  instead (`MakeGrpcRequest`).

## Model

| member | source | states |
|---|---|---|
| PyStrings.ContainsIffOccurs | model_serving_tests/endpoint_utility/openai_utility.py:156 | `sub in s` holds exactly when `sub` occurs at some index of `s` |
| PyStrings.PartitionSplitsAtFirst | model_serving_tests/endpoint_utility/openai_utility.py:102 | `partition` splits at the first occurrence of the separator: the three parts rebuild the line, `found` is the separator exactly when it occurs, no occurrence lies before it, and without one the line is all `before` |
| PyStrings.Lower | model_serving_tests/tests/utils.py:181 | `lower()` keeps the length and lower-cases each (ASCII) letter in place |
| PyStrings.Strip | model_serving_tests/tests/utils.py:155 | `strip()` returns a middle part of the string; everything cut off is whitespace, and the result neither starts nor ends with whitespace |
| PyStrings.ConcatAppend | model_serving_tests/endpoint_utility/openai_utility.py:111 | joining two lists of strings joins each and concatenates the results |
| OpenAIUtility.OpenAIClient.constructor | model_serving_tests/endpoint_utility/openai_utility.py:25-40 | keeps host, streaming flag and model name; the streaming request function is chosen exactly when streaming |
| OpenAIUtility.OpenAIClient.ConstructRequestData | model_serving_tests/endpoint_utility/openai_utility.py:141-183 | the chat test precedes the embeddings test. A chat body is messages = query, temperature 0.1, seed 1037 and the stream flag. An embeddings body is input = query["text"] with encoding_format 0.1. Any other endpoint gets prompt = query["text"], temperature 1.0, top_p 0.9, seed 1037 and the stream flag. "model" is added only when the model name is truthy, and the caller's overrides win. The key set is exactly these keys. A missing "text" raises only for non-chat endpoints |
| OpenAIUtility.OpenAIClient.ParseResponse | model_serving_tests/endpoint_utility/openai_utility.py:185-204 | every endpoint's reply is read as `message["choices"][0]` |
| OpenAIUtility.FirstChoice | model_serving_tests/endpoint_utility/openai_utility.py:198 | `message["choices"][0]` is the first choice of a non-empty list, KeyError without "choices", TypeError for a non-dict message |
| OpenAIUtility.OpenAIClient.Request | model_serving_tests/endpoint_utility/openai_utility.py:42-74 | a body error escapes; a transport or decoding error fails the test with "Test failed due to an unexpected exception: " and the error text; otherwise the reply's first choice |
| OpenAIUtility.OpenAIClient.StreamingRequest | model_serving_tests/endpoint_utility/openai_utility.py:76-111 | a body error escapes; a transport error is returned as its text; otherwise the result is the stream fold `StreamText` of the reply's lines |
| OpenAIUtility.OpenAIClient.ReadStream | model_serving_tests/endpoint_utility/openai_utility.py:101-111 | the loop over the lines (partition, skip lines without payload or with "[DONE]", decode, parse, append) computes exactly `StreamText` |
| OpenAIUtility.SetDeltaContentSpec | model_serving_tests/endpoint_utility/openai_utility.py:218 | setting the delta content changes that entry only. Every other top-level key, every later choice, every other key of the first choice and every other key of its delta are unchanged |
| OpenAIUtility.ClearFalsyContentSpec | model_serving_tests/endpoint_utility/openai_utility.py:217-218 | the delta must exist and be a dict, or the error escapes. Afterwards the content is the old one if truthy, else "", and "error" is untouched |
| OpenAIUtility.StreamingTokenRules | model_serving_tests/endpoint_utility/openai_utility.py:206-222 | each case of the token `OpenAIClient.ParseStreamingResponse` gives for a stream message: chat needs the delta even when an error is reported. A truthy "error" wins, then a truthy delta content (chat) or `choices[0].get("text", "")`, then "". A non-dict message has no `get` |
| OpenAIUtility.PayloadFollowsFirstPrefix | model_serving_tests/endpoint_utility/openai_utility.py:102-103 | a line has a payload iff "data: " occurs in it and what follows its first occurrence is not "[DONE]"; the payload is the rest of the line after that first occurrence |
| OpenAIUtility.DataLinePayload | model_serving_tests/endpoint_utility/openai_utility.py:102-103 | a line "data: " + rest carries rest, except the "[DONE]" sentinel |
| OpenAIUtility.CollectFrom | model_serving_tests/endpoint_utility/openai_utility.py:101-106 | the fold over lines[i..] is line i's step in front of the fold over the rest, and a line without payload is skipped |
| OpenAIUtility.PickedAppend | model_serving_tests/endpoint_utility/openai_utility.py:101-103 | the payloads of two runs of lines are those of each, in order |
| OpenAIUtility.LineWithoutPayloadIgnored | model_serving_tests/endpoint_utility/openai_utility.py:101-106 | a line without payload, wherever it stands, does not change the streamed result |
| OpenAIUtility.CollectStrings | model_serving_tests/endpoint_utility/openai_utility.py:104-111 | when every payload decodes and parses to a str token, the fold gathers those tokens and joins them in order |
| OpenAIUtility.StreamTextIsConcatenation | model_serving_tests/endpoint_utility/openai_utility.py:101-111 | the streamed result is then the concatenation of the tokens in line order |
| OpenAIUtility.CollectDecodeError | model_serving_tests/endpoint_utility/openai_utility.py:104-109 | the first payload that does not decode ends the fold with the decoder's error text |
| OpenAIUtility.StreamTextDecodeError | model_serving_tests/endpoint_utility/openai_utility.py:101-109 | the streamed result is then that error text, and the tokens gathered before it are discarded |
| GrpcUtility.BatchedRequest | model_serving_tests/endpoint_utility/grpc_utility.py:52-64 | the unary request carries the model id and one request for `query.get("text")`. It asks for GREEDY with min = max = query["output_tokens"] and no generated tokens. A missing "output_tokens" raises KeyError |
| GrpcUtility.SingleRequest | model_serving_tests/endpoint_utility/grpc_utility.py:84-95 | the streaming request carries the same text and stopping criteria and asks for the generated tokens; a missing "output_tokens" raises KeyError |
| GrpcUtility.FirstStop | model_serving_tests/endpoint_utility/grpc_utility.py:99-108 | the least index of a response with tokens and a stop reason, or none when there is no such response |
| GrpcUtility.TGISGRPCPlugin.constructor | model_serving_tests/endpoint_utility/grpc_utility.py:24-28 | keeps the model name, host, streaming and TLS flags; the stream request function is chosen exactly when streaming |
| GrpcUtility.TGISGRPCPlugin.New | model_serving_tests/endpoint_utility/grpc_utility.py:21-28 | ValueError "Model name and host are required arguments." exactly when either is empty; otherwise a fresh plugin with those fields |
| GrpcUtility.TGISGRPCPlugin.MakeGrpcRequest | model_serving_tests/endpoint_utility/grpc_utility.py:48-77 | a missing "output_tokens" raises KeyError; an RPC error gives None; a reply without responses raises IndexError; otherwise the first response's record, with the requested count standing in for a zero generated-token count |
| GrpcUtility.TGISGRPCPlugin.MakeGrpcRequestStream | model_serving_tests/endpoint_utility/grpc_utility.py:79-118 | a missing "output_tokens" raises KeyError; otherwise the loop computes exactly `StreamResult` of the responses received and the RPC error, if any |
| GrpcUtility.TextsAppend | model_serving_tests/endpoint_utility/grpc_utility.py:99-101 | the texts gathered from two runs of responses are those of each, in order |
| GrpcUtility.FirstStopAfter | model_serving_tests/endpoint_utility/grpc_utility.py:99-108 | after a run of responses without a stop, the first stop overall is the first stop of the rest, shifted by the run's length |
| GrpcUtility.StreamTextsSplit | model_serving_tests/endpoint_utility/grpc_utility.py:99-118 | when the first part of a stream has no stop, the output text is that part's texts joined, followed by the rest's texts up to and including its stop. With no stop and no RPC error, it runs to the end, and the output token count is the sum of both parts' counts |
| GrpcUtility.RunStopsAtFirstStop | model_serving_tests/endpoint_utility/grpc_utility.py:99-108 | the loop stops at the first response with tokens and a stop reason, with the texts up to and including it; otherwise it gathers every token-bearing response's text |
| GrpcUtility.StreamResultByFirstStop | model_serving_tests/endpoint_utility/grpc_utility.py:99-118 | the stopping response's input count, stop reason and generated count with the joined texts. With no stop and an RPC error, None. With no stop and no error: the query's "input_tokens", stop reason None, and as many output tokens as token-bearing responses |
| GrpcUtility.StopEndsStream | model_serving_tests/endpoint_utility/grpc_utility.py:102-111 | once the loop has stopped, neither later responses nor a later RPC error change the result |
| GrpcUtility.TokenlessIgnored | model_serving_tests/endpoint_utility/grpc_utility.py:100-102 | a response without tokens is skipped wherever it stands, even with a stop reason |
| TestUtils.UpdatedNameDistinct | model_serving_tests/tests/utils.py:185-186 | the `_updated.yaml` output never names its own template, and distinct names never share an output |
| TestUtils.CreateRuntimeManifestFromTemplate | model_serving_tests/tests/utils.py:160-186 | a deployment type that lower-cases to "rawdeployment" gets the adapter entrypoint, the image and the h2c/TCP port on raw_port, with no deployment_mode. Any other type gets only the image and deployment_mode in its original case. The template is read from runtimes/vLLM/<name>.yaml and the output written beside it as <name>_updated.yaml |
| TestUtils.GpuLocatorIgnoresCase | model_serving_tests/tests/utils.py:220-231 | the accelerator lookup gives the same answer for a name and its lower-cased form |
| TestUtils.GpuLocatorTable | model_serving_tests/tests/utils.py:220-231 | for every name: nvidia.com/gpu exactly for "nvidia" and amd.com/gpu exactly for "amd", in any case. habana.ai/gaudi exactly for "intel", "gaudi" and "habana". No resource for any other name |
| TestUtils.GpuLocatorGpuTable | model_serving_tests/tests/utils.py:224-227 | examples: "NVIDIA" maps to nvidia.com/gpu and "Amd" to amd.com/gpu |
| TestUtils.GpuLocatorGaudiAndCpu | model_serving_tests/tests/utils.py:228-231 | examples: "Gaudi" maps to habana.ai/gaudi and "cpu" to no resource |
| TestUtils.DescribeService | model_serving_tests/tests/utils.py:214-242 | a non-str, non-None accelerator raises AttributeError from `lower`. Otherwise deployment_mode and model_name appear only when truthy, and gpu_locator only when the accelerator names a resource. model_format, runtime_name, storage_uri and gpu_count appear only when not None, copied verbatim. No other key appears |
| TestUtils.AddPlacement | model_serving_tests/tests/utils.py:232-242 | the four values that are not None are copied into the context. Every key set before keeps its value, and no key other than those four is added |
| TestUtils.NewArgsKeepDescription | model_serving_tests/tests/utils.py:249 | adding new_args leaves every describing key as it was |
| TestUtils.CreateIsvcManifestFromTemplate | model_serving_tests/tests/utils.py:189-259 | errors come in source order: the accelerator's `lower`, "new_args must be a list or None", "env_vars must be a list or None", "Each item in env_vars must be a dictionary", then TypeError for a non-str model name in the path. When every check passes it returns the described context plus new_args when given, never env_vars, read from model_inference/<name>/<name>.yaml and written beside it as <name>_updated.yaml |
| TestUtils.GetPredictorPod | model_serving_tests/tests/utils.py:91-110 | returns the first pod in list order whose name contains `<is_name>-predictor`, succeeding exactly when one does; otherwise PodNotFoundError "No predictor pod found in namespace <namespace>" |
| TestUtils.FlattenOneShape | model_serving_tests/tests/utils.py:154-156 | a reply's "error" value is passed through whatever it is; any other reply that flattens gives a str without surrounding whitespace |
| TestUtils.FlattenOneDefaults | model_serving_tests/tests/utils.py:155 | a reply with neither "error" nor "choices" flattens to "" |
| TestUtils.FlattenOneContent | model_serving_tests/tests/utils.py:155 | a well-formed reply flattens to its first choice's stripped message content; a non-str content raises AttributeError from `strip` |
| TestUtils.FlattenResponses | model_serving_tests/tests/utils.py:154-156 | one entry per reply, in order, each the reply's flattened value; it fails exactly when some reply does, with the error of the first failing reply |

## Left out

- Transport is not modelled. This covers `requests.post`, `raise_for_status`, `time.sleep`, logging and `pytest.fail`'s own machinery: a failed exchange is an `Err` carrying its error text, and `pytest.fail` is the `Failed` exception.
- An `iter_lines` failure in the middle of a stream is not modelled. The reply's lines are taken as complete: a transport error is modelled only before the first line is read.
- A stream payload that is not valid UTF-8 is not modelled. `json.loads` raises `UnicodeDecodeError` on such bytes. That error is not a `JSONDecodeError`, so it escapes the streaming request. The model's decoder can only fail with a text that the request returns.
- `get_request_http` (`openai_utility.py:113-139`) is not modelled. It is a GET pass-through of the reply's "data".
- gRPC channel creation and TLS certificate fetching (`grpc_utility.py:30-46`) are not modelled, nor is `get_model_info` (`grpc_utility.py:120-131`). They are foreign transport calls; the RPC reply is a parameter.
- Protocol-buffer field type checks are not modelled. A non-int "output_tokens" or a non-str "text" would be refused by the message constructors; the request datatypes take any JSON value.
- `TGISGRPCPlugin` takes its model name and host as str. The falsy check is the empty-string check; non-str arguments are not modelled.
- `parse_resource_template` is not modelled: Jinja2 rendering, YAML parsing and dumping, and file reads and writes (`utils.py:60-88`). A builder returns the template path, context and output path it would render with.
- `_send_chat_completion` and the `asyncio.gather` fan-out (`utils.py:113-152`) are not modelled. The flattening takes the already-decoded replies, in request order.
- Flattening assumes each reply is a decoded JSON object. A top-level JSON array or scalar would take another path through the `in` test.
- `create_s3_secret_manifest` (`utils.py:262-268`) is not modelled. It reads environment variables and renders a template.
- The test modules, the pytest fixtures and the path constants are not part of this model. Paths are kept as segments below the package directory.
- Paths are modelled as plain segment lists. A model or runtime name containing "/" or starting at the root would be split or re-rooted by the path library.
- Python's full Unicode lower-casing is not modelled: `Lower` maps only ASCII letters.
- JSON floats are modelled by the real they denote, with no rounding.
- Dict key order is not modelled, so the key order of a request body is not stated.
- Only a dict, or None, is modelled as the caller's extra parameters. Other iterables that `dict.update` accepts are not.
- Python's exception messages are not modelled. A missing key is `KeyError(key)`; the integer key of `[0]` on a dict is written "0".

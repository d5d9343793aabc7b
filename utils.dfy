/** The test helpers' logic: the contexts the runtime and inference-service
    manifests are rendered with, the files they are read from and written to,
    the search for a service's predictor pod, and the flattening of chat
    completion replies. Rendering, YAML and the cluster are outside the model:
    a manifest builder yields the job it hands to the renderer. */
module TestUtils {
  import opened PyValues
  import opened PyStrings

  /** A path as its segments below the package directory. */
  type Path = seq<string>

  const RuntimeDir: Path := ["model_config", "runtimes"]
  const InferenceDir: Path := ["model_config", "model_inference"]

  const Entrypoint: string := "vllm_tgis_adapter"
  const RawDeployment: string := "rawdeployment"
  const NewArgsMessage: string := "new_args must be a list or None"
  const EnvVarsMessage: string := "env_vars must be a list or None"
  const EnvVarItemMessage: string := "Each item in env_vars must be a dictionary"

  /** `p / segment`: an empty segment leaves the path as it is. */
  function Child(p: Path, segment: string): Path {
    if segment == "" then p else p + [segment]
  }

  function TemplateName(name: string): string {
    name + ".yaml"
  }

  function UpdatedName(name: string): string {
    name + "_updated.yaml"
  }

  /** What a manifest builder hands to the renderer: the template to read, the
      context to render it with, and the file to write. */
  datatype TemplateJob = TemplateJob(template: Path, context: map<string, Json>, output: Path)

  /** The rendered manifest is written beside its template, under a name
      that ends in "_updated.yaml" instead of ".yaml". */
  predicate Beside(job: TemplateJob, dir: Path, name: string) {
    job.template == dir + [TemplateName(name)] && job.output == dir + [UpdatedName(name)]
  }

  /** The output never overwrites the template it was rendered from, and two
      names never share an output. */
  lemma UpdatedNameDistinct(a: string, b: string)
    ensures UpdatedName(a) != TemplateName(a)
    ensures UpdatedName(a) == UpdatedName(b) ==> a == b
  {
    assert |UpdatedName(a)| == |a| + 13 && |TemplateName(a)| == |a| + 5;
    if UpdatedName(a) == UpdatedName(b) {
      assert |a| == |b|;
      assert a == UpdatedName(a)[..|a|] == UpdatedName(b)[..|b|] == b;
    }
  }

  /** The context of a serving-runtime manifest: a raw deployment (in any
      letter case) gets the adapter entrypoint and the h2c port on `rawPort`;
      any other deployment type gets `deployment_mode`, in its own case,
      instead of both. */
  method CreateRuntimeManifestFromTemplate(deploymentType: string, runtimeImage: string, runtimeName: string,
                                           rawPort: int)
    returns (job: TemplateJob)
    ensures Lower(deploymentType) == RawDeployment ==>
      job.context == map["entrypoint" := JStr(Entrypoint), "runtime_image" := JStr(runtimeImage),
                         "tgi_raw_port" := JObj(map["port" := JInt(rawPort), "name" := JStr("h2c"),
                                                    "protocol" := JStr("TCP")])]
    ensures Lower(deploymentType) != RawDeployment ==>
      job.context == map["runtime_image" := JStr(runtimeImage), "deployment_mode" := JStr(deploymentType)]
    ensures Beside(job, RuntimeDir + ["vLLM"], runtimeName)
  {
    var data := map["entrypoint" := JStr(Entrypoint), "runtime_image" := JStr(runtimeImage),
                    "tgi_raw_port" := JObj(map["port" := JInt(rawPort), "name" := JStr("h2c"),
                                               "protocol" := JStr("TCP")])];
    if Lower(deploymentType) != RawDeployment {
      data := data - {"tgi_raw_port"};
      data := data - {"entrypoint"};
      data := data["deployment_mode" := JStr(deploymentType)];
    }
    var dir := Child(RuntimeDir, "vLLM");
    job := TemplateJob(Child(dir, TemplateName(runtimeName)), data, Child(dir, UpdatedName(runtimeName)));
  }

  /** The resource an accelerator is requested under, by its lower-cased
      name; anything else runs on CPU and names no resource. */
  function GpuLocator(accelerator: string): Option<string> {
    var kind := Lower(accelerator);
    if kind == "nvidia" then Some("nvidia.com/gpu")
    else if kind == "amd" then Some("amd.com/gpu")
    else if kind in ["intel", "gaudi", "habana"] then Some("habana.ai/gaudi")
    else None
  }

  /** The accelerator lookup ignores letter case. */
  lemma GpuLocatorIgnoresCase(accelerator: string)
    ensures GpuLocator(Lower(accelerator)) == GpuLocator(accelerator)
  {
    LowerIdempotent(accelerator);
  }

  /** The whole accelerator table: which lower-cased names select which
      resource, and that every other name selects none. */
  lemma GpuLocatorTable(accelerator: string)
    ensures GpuLocator(accelerator) == Some("nvidia.com/gpu") <==> Lower(accelerator) == "nvidia"
    ensures GpuLocator(accelerator) == Some("amd.com/gpu") <==> Lower(accelerator) == "amd"
    ensures GpuLocator(accelerator) == Some("habana.ai/gaudi") <==> Lower(accelerator) in ["intel", "gaudi", "habana"]
    ensures GpuLocator(accelerator).None? <==> Lower(accelerator) !in ["nvidia", "amd", "intel", "gaudi", "habana"]
  {
  }

  /** Examples: the table in mixed case. */
  lemma GpuLocatorGpuTable()
    ensures GpuLocator("NVIDIA") == Some("nvidia.com/gpu")
    ensures GpuLocator("Amd") == Some("amd.com/gpu")
  {
    assert Lower("NVIDIA") == "nvidia";
    assert Lower("Amd") == "amd";
  }

  /** Examples: an accelerator of the habana family, and a CPU-only run. */
  lemma GpuLocatorGaudiAndCpu()
    ensures GpuLocator("Gaudi") == Some("habana.ai/gaudi")
    ensures GpuLocator("cpu") == None
  {
    assert Lower("Gaudi") == "gaudi";
    assert Lower("cpu") == "cpu";
  }

  /** The arguments of the inference-service manifest builder; a Python None
      is JNull. */
  datatype IsvcArgs = IsvcArgs(
    deploymentMode: Json, modelName: Json, acceleratorType: Json, modelFormat: Json, runtimeName: Json,
    storageUri: Json, gpuCount: Json, newArgs: Json, envVars: Json)

  /** `accelerator_type.lower()` fails on anything but None and a str. */
  predicate AcceleratorRefused(a: Json) {
    a != JNull && !a.JStr?
  }

  predicate NotListOrNone(v: Json) {
    v != JNull && !v.JArr?
  }

  /** An environment variable entry: a dict with a name and a value. */
  predicate ValidEnvVar(item: Json) {
    item.JObj? && "name" in item.fields && "value" in item.fields
  }

  predicate BadEnvVars(v: Json) {
    v.JArr? && exists i :: 0 <= i < |v.items| && !ValidEnvVar(v.items[i])
  }

  /** Every check the builder makes passes. */
  predicate Accepted(args: IsvcArgs) {
    && !AcceleratorRefused(args.acceleratorType)
    && !NotListOrNone(args.newArgs)
    && !NotListOrNone(args.envVars)
    && !BadEnvVars(args.envVars)
    && args.modelName.JStr?
  }

  /** Key `k` is in the context with value `v` when `o` is Some(v), and absent
      when it is None. */
  predicate OptEntry(context: map<string, Json>, k: string, o: Option<Json>) {
    match o
    case Some(v) => k in context && context[k] == v
    case None => k !in context
  }

  function IfTruthy(v: Json): Option<Json> {
    if Truthy(v) then Some(v) else None
  }

  function IfNotNone(v: Json): Option<Json> {
    if v != JNull then Some(v) else None
  }

  function LocatorEntry(a: Json): Option<Json> {
    if a.JStr? && GpuLocator(a.s).Some? then Some(JStr(GpuLocator(a.s).value)) else None
  }

  const IsvcKeys: set<string> := {"deployment_mode", "model_name", "gpu_locator", "model_format", "runtime_name",
                                  "storage_uri", "gpu_count", "new_args"}

  /** The context of an inference-service manifest, built key by key: the
      deployment mode and model name when truthy, the accelerator's resource
      when it names one, the other values when not None; the argument lists
      are checked, in order, and env_vars is never put in the context. */
  method CreateIsvcManifestFromTemplate(args: IsvcArgs) returns (out: Outcome<TemplateJob>)
    ensures AcceleratorRefused(args.acceleratorType) ==> out == Raised(AttributeError("lower"))
    ensures !AcceleratorRefused(args.acceleratorType) && NotListOrNone(args.newArgs)
      ==> out == Raised(ValueError(NewArgsMessage))
    ensures !AcceleratorRefused(args.acceleratorType) && !NotListOrNone(args.newArgs)
            && NotListOrNone(args.envVars)
      ==> out == Raised(ValueError(EnvVarsMessage))
    ensures !AcceleratorRefused(args.acceleratorType) && !NotListOrNone(args.newArgs)
            && !NotListOrNone(args.envVars) && BadEnvVars(args.envVars)
      ==> out == Raised(ValueError(EnvVarItemMessage))
    // the template path needs a str model name
    ensures !AcceleratorRefused(args.acceleratorType) && !NotListOrNone(args.newArgs)
            && !NotListOrNone(args.envVars) && !BadEnvVars(args.envVars) && !args.modelName.JStr?
      ==> out == Raised(TypeError)
    ensures Accepted(args) ==> out.Returned?
    ensures out.Returned? ==>
      var context := out.value.context;
      && context.Keys <= IsvcKeys
      && DescribedContext(context, args)
      && OptEntry(context, "new_args", IfNotNone(args.newArgs))
    ensures out.Returned? ==> Beside(out.value, Child(InferenceDir, args.modelName.s), args.modelName.s)
  {
    var described := DescribeService(args);
    if described.Raised? {
      return Raised(described.error);
    }
    var data := described.value;
    if args.newArgs != JNull {
      if !args.newArgs.JArr? {
        return Raised(ValueError(NewArgsMessage));
      }
      NewArgsKeepDescription(data, args, args.newArgs);
      data := data["new_args" := args.newArgs];
    }
    if args.envVars != JNull {
      if !args.envVars.JArr? {
        return Raised(ValueError(EnvVarsMessage));
      }
      if !(forall i :: 0 <= i < |args.envVars.items| ==> ValidEnvVar(args.envVars.items[i])) {
        return Raised(ValueError(EnvVarItemMessage));
      }
    }
    if !args.modelName.JStr? {
      return Raised(TypeError);
    }
    var name := args.modelName.s;
    var dir := Child(InferenceDir, name);
    return Returned(TemplateJob(Child(dir, TemplateName(name)), data, Child(dir, UpdatedName(name))));
  }

  /** The keys that describe the service, each as its argument asks. */
  predicate DescribedContext(context: map<string, Json>, args: IsvcArgs) {
    ModelEntries(context, args) && PlacementEntries(context, args)
  }

  /** The deployment mode and model name when truthy, the accelerator's
      resource when it names one. */
  predicate ModelEntries(context: map<string, Json>, args: IsvcArgs) {
    && OptEntry(context, "deployment_mode", IfTruthy(args.deploymentMode))
    && OptEntry(context, "model_name", IfTruthy(args.modelName))
    && OptEntry(context, "gpu_locator", LocatorEntry(args.acceleratorType))
  }

  /** The model format, runtime name, storage URI and GPU count when not None. */
  predicate PlacementEntries(context: map<string, Json>, args: IsvcArgs) {
    && OptEntry(context, "model_format", IfNotNone(args.modelFormat))
    && OptEntry(context, "runtime_name", IfNotNone(args.runtimeName))
    && OptEntry(context, "storage_uri", IfNotNone(args.storageUri))
    && OptEntry(context, "gpu_count", IfNotNone(args.gpuCount))
  }

  lemma NewArgsKeepDescription(context: map<string, Json>, args: IsvcArgs, v: Json)
    requires DescribedContext(context, args)
    ensures DescribedContext(context["new_args" := v], args)
  {
  }

  const ModelKeys: set<string> := {"deployment_mode", "model_name", "gpu_locator"}

  /** The first part of the inference-service builder: the keys that describe
      the service, before the argument lists are checked. */
  method DescribeService(args: IsvcArgs) returns (out: Outcome<map<string, Json>>)
    ensures out.Raised? <==> AcceleratorRefused(args.acceleratorType)
    ensures out.Raised? ==> out.error == AttributeError("lower")
    ensures out.Returned? ==>
      && out.value.Keys <= IsvcKeys - {"new_args"}
      && DescribedContext(out.value, args)
  {
    var data: map<string, Json> := map[];
    if Truthy(args.deploymentMode) {
      data := data["deployment_mode" := args.deploymentMode];
    }
    if Truthy(args.modelName) {
      data := data["model_name" := args.modelName];
    }
    if args.acceleratorType != JNull {
      if !args.acceleratorType.JStr? {
        return Raised(AttributeError("lower"));
      }
      var locator := GpuLocator(args.acceleratorType.s);
      if locator.Some? {
        data := data["gpu_locator" := JStr(locator.value)];
      }
    }
    data := AddPlacement(data, args);
    return Returned(data);
  }

  /** The four keys copied when not None, after the three that describe the
      model; the entries already there are kept as they are. */
  method AddPlacement(data: map<string, Json>, args: IsvcArgs) returns (r: map<string, Json>)
    requires data.Keys <= ModelKeys
    ensures r.Keys <= ModelKeys + {"model_format", "runtime_name", "storage_uri", "gpu_count"}
    ensures forall k :: k in data ==> k in r && r[k] == data[k]
    ensures forall k :: k in r && k !in data ==> k in {"model_format", "runtime_name", "storage_uri", "gpu_count"}
    ensures ModelEntries(data, args) ==> ModelEntries(r, args)
    ensures PlacementEntries(r, args)
  {
    r := data;
    if args.modelFormat != JNull {
      r := r["model_format" := args.modelFormat];
    }
    if args.runtimeName != JNull {
      r := r["runtime_name" := args.runtimeName];
    }
    if args.storageUri != JNull {
      r := r["storage_uri" := args.storageUri];
    }
    if args.gpuCount != JNull {
      r := r["gpu_count" := args.gpuCount];
    }
  }

  /** A pod as the cluster lists it. */
  datatype Pod = Pod(name: string)

  /** The pod belongs to the predictor of the inference service `isName`. */
  predicate IsPredictorOf(pod: Pod, isName: string) {
    Contains(pod.name, isName + "-predictor")
  }

  /** pods[k] is the first predictor pod of `isName` in list order. */
  predicate FirstPredictorAt(pods: seq<Pod>, isName: string, k: int) {
    0 <= k < |pods| && IsPredictorOf(pods[k], isName)
    && forall j :: 0 <= j < k ==> !IsPredictorOf(pods[j], isName)
  }

  /** The first pod of the namespace, in the order the cluster lists them,
      whose name contains the service name followed by "-predictor". */
  method GetPredictorPod(pods: seq<Pod>, namespace: string, isName: string) returns (out: Outcome<Pod>)
    ensures out.Returned? <==> exists i :: 0 <= i < |pods| && IsPredictorOf(pods[i], isName)
    ensures out.Returned? ==> exists k :: FirstPredictorAt(pods, isName, k) && out.value == pods[k]
    ensures out.Raised? ==> out.error == PodNotFoundError("No predictor pod found in namespace " + namespace)
  {
    for i := 0 to |pods|
      invariant forall j :: 0 <= j < i ==> !IsPredictorOf(pods[j], isName)
    {
      if Contains(pods[i].name, isName + "-predictor") {
        assert FirstPredictorAt(pods, isName, i);
        return Returned(pods[i]);
      }
    }
    return Raised(PodNotFoundError("No predictor pod found in namespace " + namespace));
  }

  /** One chat completion reply, flattened: its "error" value when it has
      one, whatever that is; else the stripped content of the first choice's
      message, with "" for a missing choices list, message or content. */
  function FlattenOne(response: map<string, Json>): Outcome<Json> {
    if "error" in response then Returned(response["error"])
    else
      var content :- ReplyContent(response);
      if content.JStr? then Returned(JStr(Strip(content.s))) else Raised(AttributeError("strip"))
  }

  /** `response.get('choices', [{}])[0].get('message', {}).get('content', '')`. */
  function ReplyContent(response: map<string, Json>): Outcome<Json> {
    var first :- Index0(if "choices" in response then response["choices"] else JArr([JObj(map[])]));
    var message :- Get(first, "message", JObj(map[]));
    Get(message, "content", JStr(""))
  }

  /** `s` neither starts nor ends with whitespace. */
  predicate Stripped(s: string) {
    s == "" || (!IsSpace(s[0]) && !IsSpace(s[|s| - 1]))
  }

  /** An "error" value is passed through whatever it is; anything else that
      flattens is a str without surrounding whitespace. */
  lemma FlattenOneShape(response: map<string, Json>)
    ensures "error" in response ==> FlattenOne(response) == Returned(response["error"])
    ensures "error" !in response && FlattenOne(response).Returned? ==>
      FlattenOne(response).value.JStr? && Stripped(FlattenOne(response).value.s)
  {
    if "error" !in response && FlattenOne(response).Returned? {
      var content := ReplyContent(response).value;
      assert FlattenOne(response) == Returned(JStr(Strip(content.s)));
    }
  }

  /** A reply with neither "error" nor "choices" flattens to "". */
  lemma FlattenOneDefaults(response: map<string, Json>)
    requires "error" !in response && "choices" !in response
    ensures FlattenOne(response) == Returned(JStr(""))
  {
    assert ReplyContent(response) == Returned(JStr(""));
    assert Strip("") == "" by {
      var i: nat :| TrimmedAt("", Strip(""), i);
    }
  }

  /** A well-formed reply flattens to its first choice's message content,
      stripped; a content that is not a str has no `strip`. */
  lemma FlattenOneContent(response: map<string, Json>, message: map<string, Json>)
    requires "error" !in response && "choices" in response && response["choices"].JArr?
    requires response["choices"].items != [] && response["choices"].items[0].JObj?
    requires "message" in response["choices"].items[0].fields
    requires response["choices"].items[0].fields["message"] == JObj(message) && "content" in message
    ensures FlattenOne(response)
            == if message["content"].JStr? then Returned(JStr(Strip(message["content"].s)))
               else Raised(AttributeError("strip"))
  {
    var first := response["choices"].items[0];
    assert Index0(response["choices"]) == Returned(first);
    assert Get(first, "message", JObj(map[])) == Returned(JObj(message));
    assert ReplyContent(response) == Returned(message["content"]);
  }

  /** `[flatten(resp) for resp in responses]`: one entry per reply, in order;
      the first reply that cannot be flattened raises its error. */
  function FlattenResponses(responses: seq<map<string, Json>>): (r: Outcome<seq<Json>>)
    ensures r.Returned? <==> forall i :: 0 <= i < |responses| ==> FlattenOne(responses[i]).Returned?
    ensures r.Returned? ==>
      |r.value| == |responses| && forall i :: 0 <= i < |responses| ==> r.value[i] == FlattenOne(responses[i]).value
    ensures r.Raised? ==> exists k :: FirstFailureAt(responses, k) && r.error == FlattenOne(responses[k]).error
  {
    if responses == [] then Returned([])
    else
      var head :- FlattenOne(responses[0]);
      var tail :- FlattenResponses(responses[1..]);
      assert forall i :: 1 <= i < |responses| ==> responses[i] == responses[1..][i - 1];
      Returned([head] + tail)
  }

  /** responses[k] is the first reply that cannot be flattened. */
  predicate FirstFailureAt(responses: seq<map<string, Json>>, k: int) {
    0 <= k < |responses| && FlattenOne(responses[k]).Raised?
    && forall j :: 0 <= j < k ==> FlattenOne(responses[j]).Returned?
  }
}

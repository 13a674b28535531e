/**
 * Construction of a ChatLlamaCpp instance and the parameters it sends to the
 * native llama.cpp binding: the declared field defaults, the assembly of the
 * native constructor's keyword arguments, the grammar resolution done once at
 * construction, and the per-call sampling parameters.
 */
module LlamaCppParams {
  import opened PyValues

  /** The declared fields of ChatLlamaCpp. Fields that hold numbers, flags,
      paths or lists are kept as Python values, since the class accepts None
      for most of them and forwards them untouched. */
  datatype Settings = Settings(
    client: Value,
    modelPath: string,
    loraBase: Value,
    loraPath: Value,
    nCtx: Value,
    nParts: Value,
    seed: Value,
    f16Kv: Value,
    logitsAll: Value,
    vocabOnly: Value,
    useMlock: Value,
    nThreads: Value,
    nBatch: Value,
    nGpuLayers: Value,
    suffix: Value,
    maxTokens: Value,
    temperature: Value,
    topP: Value,
    logprobs: Value,
    echo: Value,
    stop: Value,
    repeatPenalty: Value,
    topK: Value,
    lastNTokensSize: Value,
    useMmap: Value,
    ropeFreqScale: Value,
    ropeFreqBase: Value,
    modelKwargs: map<string, Value>,
    streaming: Value,
    grammarPath: Value,
    grammar: Value,
    verbose: Value)

  /** An instance built from the model path alone: every other field at its
      declared default (`client` is typed Any, which defaults to None). */
  function Defaults(modelPath: string): (s: Settings)
    ensures s.modelPath == modelPath
    ensures s.nGpuLayers == PyNone && s.grammar == PyNone && s.grammarPath == PyNone
    ensures s.modelKwargs == map[] && s.stop == PyList([])
  {
    Settings(
      client := PyNone,
      modelPath := modelPath,
      loraBase := PyNone,
      loraPath := PyNone,
      nCtx := PyInt(512),
      nParts := PyInt(-1),
      seed := PyInt(-1),
      f16Kv := PyBool(true),
      logitsAll := PyBool(false),
      vocabOnly := PyBool(false),
      useMlock := PyBool(false),
      nThreads := PyNone,
      nBatch := PyInt(8),
      nGpuLayers := PyNone,
      suffix := PyNone,
      maxTokens := PyInt(256),
      temperature := PyFloat(0.8),
      topP := PyFloat(0.95),
      logprobs := PyNone,
      echo := PyBool(false),
      stop := PyList([]),
      repeatPenalty := PyFloat(1.1),
      topK := PyInt(40),
      lastNTokensSize := PyInt(64),
      useMmap := PyBool(true),
      ropeFreqScale := PyFloat(1.0),
      ropeFreqBase := PyFloat(10000.0),
      modelKwargs := map[],
      streaming := PyBool(true),
      grammarPath := PyNone,
      grammar := PyNone,
      verbose := PyBool(true))
  }

  /** `getattr(self, name)` for the fields that are forwarded by name. */
  function Attr(s: Settings, name: string): Value {
    match name
    case "rope_freq_scale" => s.ropeFreqScale
    case "rope_freq_base" => s.ropeFreqBase
    case "lora_path" => s.loraPath
    case "lora_base" => s.loraBase
    case "n_ctx" => s.nCtx
    case "n_parts" => s.nParts
    case "seed" => s.seed
    case "f16_kv" => s.f16Kv
    case "logits_all" => s.logitsAll
    case "vocab_only" => s.vocabOnly
    case "use_mlock" => s.useMlock
    case "n_threads" => s.nThreads
    case "n_batch" => s.nBatch
    case "use_mmap" => s.useMmap
    case "last_n_tokens_size" => s.lastNTokensSize
    case "verbose" => s.verbose
    case "n_gpu_layers" => s.nGpuLayers
    case "max_tokens" => s.maxTokens
    case "temperature" => s.temperature
    case "top_p" => s.topP
    case "top_k" => s.topK
    case "logprobs" => s.logprobs
    case "stop" => s.stop
    case "repeat_penalty" => s.repeatPenalty
    case "grammar" => s.grammar
    case _ => PyNone
  }

  /** The sixteen fields always forwarded to the native constructor. */
  const ModelParamKeys: set<string> := {
    "rope_freq_scale", "rope_freq_base", "lora_path", "lora_base", "n_ctx",
    "n_parts", "seed", "f16_kv", "logits_all", "vocab_only", "use_mlock",
    "n_threads", "n_batch", "use_mmap", "last_n_tokens_size", "verbose"
  }

  /** The keyword arguments given to the native constructor: the allow-listed
      fields, `n_gpu_layers` only when it is not None, and then the entries of
      `model_kwargs`, which win over both. */
  function ModelParams(s: Settings): (p: map<string, Value>)
    ensures p.Keys == ModelParamKeys + s.modelKwargs.Keys
                      + (if s.nGpuLayers != PyNone then {"n_gpu_layers"} else {})
    ensures forall k :: k in s.modelKwargs ==> p[k] == s.modelKwargs[k]
    ensures forall k :: k in ModelParamKeys && k !in s.modelKwargs ==> p[k] == Attr(s, k)
    ensures s.nGpuLayers != PyNone && "n_gpu_layers" !in s.modelKwargs ==> p["n_gpu_layers"] == s.nGpuLayers
  {
    var named := map k | k in ModelParamKeys :: Attr(s, k);
    var withGpu := if s.nGpuLayers != PyNone then named["n_gpu_layers" := s.nGpuLayers] else named;
    withGpu + s.modelKwargs
  }

  /** The foreign calls made during construction: the `Llama` constructor
      (model path and keyword arguments) and the two grammar compilers
      `LlamaGrammar.from_string` and `LlamaGrammar.from_file`. */
  datatype NativeLib = NativeLib(
    llama: (string, map<string, Value>) -> Native<Value>,
    grammarFromString: string -> Native<Value>,
    grammarFromFile: Value -> Native<Value>)

  datatype InitError =
    | ModelLoadError(modelPath: string, cause: string)    // ValueError wrapping the constructor's exception
    | GrammarConflict(grammar: Value, grammarPath: Value) // ValueError: both grammar sources given
    | GrammarLoadError(cause: string)                     // the grammar compiler's own exception, propagated

  /** What the root validator returns (or raises): the client is built first,
      then the grammar is resolved. */
  function Validated(s: Settings, lib: NativeLib): (r: Result<Settings, InitError>)
    ensures r.Err? && r.error.ModelLoadError? <==> lib.llama(s.modelPath, ModelParams(s)).Raised?
    ensures r.Ok? ==> r.value.modelPath == s.modelPath && r.value.modelKwargs == s.modelKwargs
                      && r.value.grammarPath == s.grammarPath
  {
    match lib.llama(s.modelPath, ModelParams(s))
    case Raised(e) => Err(ModelLoadError(s.modelPath, e))
    case Returned(client) => ResolveGrammar(s.(client := client), lib)
  }

  /** The grammar rule: both sources truthy is an error; a string grammar is
      compiled from the string; otherwise a truthy path is compiled from the
      file; otherwise the grammar stays as it is. */
  function ResolveGrammar(s: Settings, lib: NativeLib): (r: Result<Settings, InitError>)
    ensures r.Ok? ==> r.value == s.(grammar := r.value.grammar)
    ensures r.Ok? && r.value.grammar != s.grammar ==> s.grammar.PyStr? || Truthy(s.grammarPath)
    ensures r.Err? ==> r.error.GrammarConflict? || r.error.GrammarLoadError?
    ensures r.Err? && r.error.GrammarConflict? <==> Truthy(s.grammar) && Truthy(s.grammarPath)
  {
    if Truthy(s.grammar) && Truthy(s.grammarPath) then
      Err(GrammarConflict(s.grammar, s.grammarPath))
    else if s.grammar.PyStr? then
      match lib.grammarFromString(s.grammar.s)
      case Raised(e) => Err(GrammarLoadError(e))
      case Returned(compiled) => Ok(s.(grammar := compiled))
    else if Truthy(s.grammarPath) then
      match lib.grammarFromFile(s.grammarPath)
      case Raised(e) => Err(GrammarLoadError(e))
      case Returned(compiled) => Ok(s.(grammar := compiled))
    else
      Ok(s)
  }

  /** The root validator, step by step over the field values: assemble the
      constructor parameters, build the client, then check and resolve the
      grammar. */
  method ValidateEnvironment(values: Settings, lib: NativeLib) returns (r: Result<Settings, InitError>)
    ensures r == Validated(values, lib)
  {
    var modelPath := values.modelPath;
    var modelParams := map k | k in ModelParamKeys :: Attr(values, k);
    if values.nGpuLayers != PyNone {
      modelParams := modelParams["n_gpu_layers" := values.nGpuLayers];
    }
    modelParams := modelParams + values.modelKwargs;

    var client := lib.llama(modelPath, modelParams);
    if client.Raised? {
      return Err(ModelLoadError(modelPath, client.message));
    }
    var out := values.(client := client.value);

    if Truthy(out.grammar) && Truthy(out.grammarPath) {
      return Err(GrammarConflict(out.grammar, out.grammarPath));
    } else if out.grammar.PyStr? {
      var compiled := lib.grammarFromString(out.grammar.s);
      if compiled.Raised? {
        return Err(GrammarLoadError(compiled.message));
      }
      out := out.(grammar := compiled.value);
    } else if Truthy(out.grammarPath) {
      var compiled := lib.grammarFromFile(out.grammarPath);
      if compiled.Raised? {
        return Err(GrammarLoadError(compiled.message));
      }
      out := out.(grammar := compiled.value);
    }
    r := Ok(out);
  }

  /** A successful validation sets the client to what the native constructor
      returned for the model path and the assembled parameters, may replace
      the grammar, and leaves every other field as it was. */
  lemma ValidatedChangesOnlyClientAndGrammar(s: Settings, lib: NativeLib)
    requires Validated(s, lib).Ok?
    ensures lib.llama(s.modelPath, ModelParams(s)) == Returned(Validated(s, lib).value.client)
    ensures Validated(s, lib).value == s.(client := Validated(s, lib).value.client,
                                          grammar := Validated(s, lib).value.grammar)
  {
  }

  /** The native constructor is called before the grammar is looked at: if it
      raises, that error is reported whatever the grammar settings are. */
  lemma LoadFailureReportedFirst(s: Settings, lib: NativeLib)
    requires lib.llama(s.modelPath, ModelParams(s)).Raised?
    ensures Validated(s, lib) == Err(ModelLoadError(s.modelPath, lib.llama(s.modelPath, ModelParams(s)).message))
  {
  }

  /** Both grammar sources truthy: construction never succeeds, and once the
      client has loaded the error is the grammar conflict. */
  lemma GrammarConflictRejected(s: Settings, lib: NativeLib)
    requires Truthy(s.grammar) && Truthy(s.grammarPath)
    ensures Validated(s, lib).Err?
    ensures lib.llama(s.modelPath, ModelParams(s)).Returned?
            ==> Validated(s, lib) == Err(GrammarConflict(s.grammar, s.grammarPath))
  {
  }

  /** The resulting grammar once construction gets past the conflict check:
      a string is compiled from the string, otherwise a truthy path is compiled
      from the file, otherwise the grammar is kept as it was; a compiler error
      is the only other outcome. */
  lemma GrammarResolution(s: Settings, lib: NativeLib)
    requires !(Truthy(s.grammar) && Truthy(s.grammarPath))
    requires lib.llama(s.modelPath, ModelParams(s)).Returned?
    ensures s.grammar.PyStr? ==>
      (Validated(s, lib).Ok? <==> lib.grammarFromString(s.grammar.s).Returned?)
      && (Validated(s, lib).Ok? ==> Validated(s, lib).value.grammar == lib.grammarFromString(s.grammar.s).value)
    ensures !s.grammar.PyStr? && Truthy(s.grammarPath) ==>
      (Validated(s, lib).Ok? <==> lib.grammarFromFile(s.grammarPath).Returned?)
      && (Validated(s, lib).Ok? ==> Validated(s, lib).value.grammar == lib.grammarFromFile(s.grammarPath).value)
    ensures !s.grammar.PyStr? && !Truthy(s.grammarPath) ==>
      Validated(s, lib).Ok? && Validated(s, lib).value.grammar == s.grammar
  {
  }

  /** An empty grammar string is falsy, so it passes the conflict check next to
      a truthy path, and is then compiled as a string: the path is ignored. */
  lemma EmptyGrammarStringShadowsPath(s: Settings, lib: NativeLib)
    requires s.grammar == PyStr("") && Truthy(s.grammarPath)
    requires lib.llama(s.modelPath, ModelParams(s)).Returned?
    requires lib.grammarFromString("").Returned?
    ensures Validated(s, lib).Ok?
    ensures Validated(s, lib).value.grammar == lib.grammarFromString("").value
  {
  }

  /** The keys of the default call parameters. */
  const CallParamKeys: set<string> := {
    "max_tokens", "temperature", "top_p", "top_k", "logprobs", "stop_sequences", "repeat_penalty"
  }

  /** The attribute a default call parameter is read from: the stop sequences
      go out under the conventional key `stop_sequences`. */
  function AttributeOf(key: string): string {
    if key == "stop_sequences" then "stop" else key
  }

  /** The default parameters for a chat completion: a fixed key set, plus the
      grammar only when it is truthy, each read from its attribute. */
  function DefaultParams(s: Settings): (p: map<string, Value>)
    ensures p.Keys == CallParamKeys + (if Truthy(s.grammar) then {"grammar"} else {})
    ensures forall k :: k in CallParamKeys ==> p[k] == Attr(s, AttributeOf(k))
    ensures "grammar" in p ==> p["grammar"] == s.grammar
  {
    var fixed := map k | k in CallParamKeys :: Attr(s, AttributeOf(k));
    if Truthy(s.grammar) then fixed["grammar" := s.grammar] else fixed
  }

  /** The parameters in the form the native binding expects: the defaults
      with `stop_sequences` renamed to `stop`, whose value falls back to an
      empty list when the configured stop is falsy. */
  method GetParameters(s: Settings) returns (params: map<string, Value>)
    ensures params.Keys == DefaultParams(s).Keys - {"stop_sequences"} + {"stop"}
    ensures "stop_sequences" !in params
    ensures params["stop"] == Or(s.stop, PyList([]))
    ensures forall k :: k in params && k != "stop" ==> params[k] == DefaultParams(s)[k]
    ensures "grammar" in params <==> Truthy(s.grammar)
  {
    params := DefaultParams(s);
    assert "stop_sequences" in params;
    params := params - {"stop_sequences"};
    params := params["stop" := Or(s.stop, PyList([]))];
  }

  /** `{**params, **kwargs}`: per-call keyword arguments override the
      configured parameters. */
  function CallParams(params: map<string, Value>, kwargs: map<string, Value>): (r: map<string, Value>)
    ensures r.Keys == params.Keys + kwargs.Keys
    ensures forall k :: k in kwargs ==> r[k] == kwargs[k]
    ensures forall k :: k in params && k !in kwargs ==> r[k] == params[k]
  {
    params + kwargs
  }

  /** A constructed instance reports the sampling values it was given in its
      default call parameters (the stop list under `stop_sequences`). */
  lemma {:induction false} DefaultParamsReflectConfiguration(s: Settings, lib: NativeLib, key: string)
    requires Validated(s, lib).Ok?
    requires key in CallParamKeys
    ensures key in DefaultParams(Validated(s, lib).value)
    ensures DefaultParams(Validated(s, lib).value)[key] == Attr(s, AttributeOf(key))
  {
    ValidatedChangesOnlyClientAndGrammar(s, lib);
    var out := Validated(s, lib).value;
    AttrIgnoresClientAndGrammar(s, out.client, out.grammar, AttributeOf(key));
  }

  /** Every forwarded attribute but the grammar reads the same after the
      client and the grammar are replaced. */
  lemma AttrIgnoresClientAndGrammar(s: Settings, client: Value, grammar: Value, name: string)
    requires name != "grammar"
    ensures Attr(s.(client := client, grammar := grammar), name) == Attr(s, name)
  {
  }

  /** With every field at its default, the native constructor receives exactly
      the sixteen allow-listed fields: no `n_gpu_layers`, no extra entries. */
  lemma DefaultsForwardOnlyAllowList(modelPath: string)
    ensures ModelParams(Defaults(modelPath)).Keys == ModelParamKeys
    ensures ModelParams(Defaults(modelPath))["n_ctx"] == PyInt(512)
  {
  }
}

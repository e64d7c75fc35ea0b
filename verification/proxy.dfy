/**
 * The proxy server of main.py: the two in-memory stores `signatures` and `compiled_modules`,
 * the LM settings, and the four request handlers that read and update them.
 * The prompting library is not modelled: building a signature from its text, running a module,
 * compiling with BootstrapFewShot and building an LM client are parameters that may fail.
 */
module Proxy {
  import opened Wrappers
  import opened ModuleIds
  import opened LmSettings
  import opened Errors
  import opened Fields

  /**
   * An executable module: a fresh strategy bound to a signature, or what the optimizer returned.
   * `CompiledProgram` only sketches the shape of the optimizer's result; the model never builds
   * or inspects it, since `compile` may return any module.
   */
  datatype Module =
    | PredictModule(sig: Signature)
    | ChainOfThoughtModule(sig: Signature)
    | CompiledProgram(student: Module, demos: seq<Example>)

  /** The active language-model settings. */
  datatype LmConfig =
    | DummyLm
    | RemoteLm(model: string, apiKey: string, maxTokens: int)

  /** The module a predict request runs (main.py:110-121): a non-empty compiled id wins over the module type. */
  function SelectModule(sig: Signature, moduleType: string, compiledId: Option<string>,
                        store: map<string, Module>): (r: Result<Module, Failure>)
    ensures Truthy(compiledId) ==> (r.Ok? <==> compiledId.value in store)
    ensures Truthy(compiledId) && r.Ok? ==> r.value == store[compiledId.value]
    ensures Truthy(compiledId) && r.Err? ==> r.error == CompiledModuleNotFound
    ensures !Truthy(compiledId) ==> (r.Ok? <==> moduleType == "Predict" || moduleType == "ChainOfThought")
    ensures !Truthy(compiledId) ==>
      (r == Ok(PredictModule(sig)) <==> moduleType == "Predict") &&
      (r == Ok(ChainOfThoughtModule(sig)) <==> moduleType == "ChainOfThought")
    ensures !Truthy(compiledId) && r.Err? ==> r.error == UnknownModuleType(moduleType)
  {
    if Truthy(compiledId) then
      if compiledId.value !in store then Err(CompiledModuleNotFound) else Ok(store[compiledId.value])
    else if moduleType == "Predict" then Ok(PredictModule(sig))
    else if moduleType == "ChainOfThought" then Ok(ChainOfThoughtModule(sig))
    else Err(UnknownModuleType(moduleType))
  }

  /** Once a non-empty compiled id is given, the module type plays no part. */
  lemma CompiledIdTakesPriority(sig: Signature, type1: string, type2: string, compiledId: Option<string>,
                                store: map<string, Module>)
    requires Truthy(compiledId)
    ensures SelectModule(sig, type1, compiledId, store) == SelectModule(sig, type2, compiledId, store)
  {
  }

  /**
   * What a prediction returns (main.py:127-134): exactly the prediction's attributes that are named
   * by a signature field or are "rationale", each with the prediction's value.
   */
  predicate IsProjection(output: map<string, Value>, fields: seq<Field>, attrs: map<string, Value>) {
    output.Keys == (FieldNames(fields) + {"rationale"}) * attrs.Keys
    && forall k :: k in output ==> output[k] == attrs[k]
  }

  method ProjectOutput(fields: seq<Field>, attrs: map<string, Value>) returns (output: map<string, Value>)
    ensures output.Keys == (FieldNames(fields) + {"rationale"}) * attrs.Keys
    ensures forall k :: k in output ==> output[k] == attrs[k]
  {
    output := map[];
    for i := 0 to |fields|
      invariant output.Keys == FieldNames(fields[..i]) * attrs.Keys
      invariant forall k :: k in output ==> output[k] == attrs[k]
    {
      var key := fields[i].name;
      assert fields[..i + 1] == fields[..i] + [fields[i]];
      assert FieldNames(fields[..i + 1]) == FieldNames(fields[..i]) + {key};
      if key in attrs {
        output := output[key := attrs[key]];
      }
    }
    assert fields[..|fields|] == fields;
    if "rationale" in attrs {
      output := output["rationale" := attrs["rationale"]];
    }
  }

  class Server {
    var signatures: map<string, Signature>
    var compiledModules: map<string, Module>
    var lm: Option<LmConfig>

    /** Every compiled-module id ends in a counter below the store size, so the next id is fresh. */
    ghost predicate Valid()
      reads this
    {
      WellNumbered(compiledModules)
    }

    /** Process start: both stores empty, no LM configured. */
    constructor ()
      ensures Valid()
      ensures signatures == map[] && compiledModules == map[] && lm == None
    {
      signatures := map[];
      compiledModules := map[];
      lm := None;
    }

    /** `configure_lm` (main.py:46-85); returns the model name reported to the client. */
    method Configure(provider: string, model: string, apiKey: Option<string>, maxTokens: int,
                     env: map<string, string>, buildLm: LmConfig -> Option<string>)
      returns (r: Result<string, Failure>)
      modifies this`lm
      ensures provider == "dummy" ==> r == Ok("dummy") && lm == Some(DummyLm)
      ensures provider != "dummy" && ResolveApiKey(provider, apiKey, env).None? ==>
        r == Err(ApiKeyRequired(provider)) && lm == old(lm)
      ensures provider != "dummy" && ResolveApiKey(provider, apiKey, env).Some? ==>
        var config := RemoteLm(ModelName(provider, model), ResolveApiKey(provider, apiKey, env).value, maxTokens);
        match buildLm(config)
        case Some(detail) => r == Err(LmConstructionFailed(detail)) && lm == old(lm)
        case None => r == Ok(ModelName(provider, model)) && lm == Some(config)
      ensures r.Err? ==> lm == old(lm)
    {
      if provider == "dummy" {
        lm := Some(DummyLm);
        return Ok("dummy");
      }
      var key := ResolveApiKey(provider, apiKey, env);
      if key.None? {
        return Err(ApiKeyRequired(provider));
      }
      var modelName := ModelName(provider, model);
      var config := RemoteLm(modelName, key.value, maxTokens);
      var failure := buildLm(config);
      if failure.Some? {
        return Err(LmConstructionFailed(failure.value));
      }
      lm := Some(config);
      r := Ok(modelName);
    }

    /** `register_signature` (main.py:88-99); returns the field names of the stored signature. */
    method Register(name: string, signatureText: string, instructions: Option<string>,
                    makeSignature: (string, string) -> Result<Signature, string>)
      returns (r: Result<seq<string>, Failure>)
      requires Valid()
      modifies this`signatures
      ensures Valid()
      ensures compiledModules == old(compiledModules)
      ensures match makeSignature(signatureText, if Truthy(instructions) then instructions.value else "")
        case Err(detail) => r == Err(InvalidSignature(detail)) && signatures == old(signatures)
        case Ok(sig) => r == Ok(Names(sig.fields)) && signatures == old(signatures)[name := sig]
    {
      var made := makeSignature(signatureText, if Truthy(instructions) then instructions.value else "");
      if made.Err? {
        return Err(InvalidSignature(made.error));
      }
      signatures := signatures[name := made.value];
      r := Ok(Names(made.value.fields));
    }

    /** `predict` (main.py:102-141); changes neither store. */
    method Predict(signatureName: string, inputs: map<string, Value>, moduleType: string,
                   compiledId: Option<string>,
                   execute: (Option<LmConfig>, Module, map<string, Value>) -> Result<map<string, Value>, string>)
      returns (r: Result<map<string, Value>, Failure>)
      ensures signatureName !in signatures <==> r == Err(SignatureNotFound)
      ensures signatureName in signatures ==>
        match SelectModule(signatures[signatureName], moduleType, compiledId, compiledModules)
        case Err(e) => r == Err(e)
        case Ok(m) =>
          match execute(lm, m, inputs)
          case Err(detail) => r == Err(ExecutionFailed(detail))
          case Ok(attrs) =>
            r.Ok? && IsProjection(r.value, signatures[signatureName].fields, attrs)
    {
      if signatureName !in signatures {
        return Err(SignatureNotFound);
      }
      var sig := signatures[signatureName];
      var program: Module;
      if Truthy(compiledId) {
        if compiledId.value !in compiledModules {
          return Err(CompiledModuleNotFound);
        }
        program := compiledModules[compiledId.value];
      } else if moduleType == "Predict" {
        program := PredictModule(sig);
      } else if moduleType == "ChainOfThought" {
        program := ChainOfThoughtModule(sig);
      } else {
        return Err(UnknownModuleType(moduleType));
      }
      var result := execute(lm, program, inputs);
      if result.Err? {
        return Err(ExecutionFailed(result.error));
      }
      var output := ProjectOutput(sig.fields, result.value);
      r := Ok(output);
    }

    /**
     * `optimize` (main.py:144-188): on success stores the compiled program under
     * `signatureName + "_opt_" + str(old store size)`, a key not present before.
     */
    method Optimize(signatureName: string, trainData: seq<map<string, Value>>, metricName: string,
                    optimizer: string, maxBootstraps: int,
                    compile: (Option<LmConfig>, Module, seq<Example>, Metric, int) -> Result<Module, string>)
      returns (r: Result<string, Failure>)
      requires Valid()
      modifies this`compiledModules
      ensures Valid()
      ensures signatureName !in signatures <==> r == Err(SignatureNotFound)
      ensures signatureName in signatures ==>
        var sig := signatures[signatureName];
        match ChooseMetric(metricName, sig)
        case Err(e) => r == Err(e)
        case Ok(metric) =>
          if optimizer != "BootstrapFewShot" then r == Err(UnsupportedOptimizer)
          else
            match compile(lm, ChainOfThoughtModule(sig), Trainset(sig, trainData), metric, maxBootstraps)
            case Err(detail) => r == Err(CompileFailed(detail))
            case Ok(program) =>
              r == Ok(MakeId(signatureName, |old(compiledModules)|))
              && compiledModules == old(compiledModules)[r.value := program]
      ensures r.Err? ==> compiledModules == old(compiledModules)
      ensures r.Ok? ==> r.value !in old(compiledModules) && r.value in compiledModules
      ensures r.Ok? ==> |compiledModules| == |old(compiledModules)| + 1
      ensures r.Ok? ==> forall id :: id in old(compiledModules) ==>
        id in compiledModules && compiledModules[id] == old(compiledModules)[id]
    {
      if signatureName !in signatures {
        return Err(SignatureNotFound);
      }
      var sig := signatures[signatureName];
      var trainset := Trainset(sig, trainData);
      var metric := ChooseMetric(metricName, sig);
      if metric.Err? {
        return Err(metric.error);
      }
      if optimizer != "BootstrapFewShot" {
        return Err(UnsupportedOptimizer);
      }
      var student := ChainOfThoughtModule(sig);
      var program := compile(lm, student, trainset, metric.value, maxBootstraps);
      if program.Err? {
        return Err(CompileFailed(program.error));
      }
      var moduleId := MakeId(signatureName, |compiledModules|);
      InsertFresh(compiledModules, signatureName, program.value);
      compiledModules := compiledModules[moduleId := program.value];
      r := Ok(moduleId);
    }
  }

  /** Two successful optimizations, even of the same signature, store under two different ids, both kept. */
  method OptimizeTwice(server: Server, signatureName: string, trainData: seq<map<string, Value>>,
                       compile: (Option<LmConfig>, Module, seq<Example>, Metric, int) -> Result<Module, string>)
    returns (first: Result<string, Failure>, second: Result<string, Failure>)
    requires server.Valid()
    modifies server
    ensures server.Valid()
    ensures first.Ok? && second.Ok? ==>
      first.value != second.value && first.value in server.compiledModules && second.value in server.compiledModules
  {
    first := server.Optimize(signatureName, trainData, "exact_match", "BootstrapFewShot", 4, compile);
    second := server.Optimize(signatureName, trainData, "exact_match", "BootstrapFewShot", 4, compile);
  }

  /** The signature `question -> answer` as the library builds it. */
  function QuestionAnswer(): Signature {
    Signature([Field("question", Input), Field("answer", Output)], "")
  }

  /**
   * Register `question -> answer` and predict directly with a backend that answers "Paris":
   * the output holds the answer and nothing else.
   */
  method CapitalScenario() returns (answer: Result<map<string, Value>, Failure>)
    ensures answer == Ok(map["answer" := "Paris"])
  {
    var qa := QuestionAnswer();
    var server := new Server();
    var registered := server.Register("qa", "question -> answer", None, (text, instructions) => Ok(qa));
    var backend: (Option<LmConfig>, Module, map<string, Value>) -> Result<map<string, Value>, string> :=
      (config, program, given) => Ok(map["answer" := "Paris"]);
    var inputs := map["question" := "What is the capital of France?"];
    assert server.signatures == map["qa" := qa];
    answer := server.Predict("qa", inputs, "Predict", None, backend);
    assert IsProjection(answer.value, qa.fields, map["answer" := "Paris"]);
    assert FieldNames(qa.fields) == {"question", "answer"};
    assert answer.value.Keys == {"answer"};
    assert answer.value["answer"] == "Paris";
    assert answer.value == map["answer" := "Paris"];
  }

  /** A compiled id that was never stored fails with not-found, whatever the backend would answer. */
  method UnknownCompiledIdScenario(
    execute: (Option<LmConfig>, Module, map<string, Value>) -> Result<map<string, Value>, string>)
    returns (r: Result<map<string, Value>, Failure>)
    ensures r == Err(CompiledModuleNotFound)
  {
    var server := new Server();
    var registered := server.Register("qa", "question -> answer", None, (text, instructions) => Ok(QuestionAnswer()));
    assert "qa" in server.signatures;
    r := server.Predict("qa", map["question" := "What is the capital of Portugal?"], "Predict", Some("qa_opt_0"), execute);
  }
}

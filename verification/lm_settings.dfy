/** The pure string rules of `configure_lm` (main.py:47-77): API-key resolution and model-name building. */
module LmSettings {
  import opened Wrappers

  /** Python truthiness of an optional string: neither `None` nor the empty string. */
  predicate Truthy(s: Option<string>) {
    s.Some? && s.value != ""
  }

  /** `os.environ.get(name)`. */
  function EnvGet(env: map<string, string>, name: string): Option<string> {
    if name in env then Some(env[name]) else None
  }

  function UpperChar(c: char): char {
    if 'a' <= c <= 'z' then (c as int - 'a' as int + 'A' as int) as char else c
  }

  /** `str.upper()` on ASCII letters; every other character is kept. */
  function Upper(s: string): (r: string)
    ensures |r| == |s|
    ensures forall i :: 0 <= i < |s| ==> r[i] == UpperChar(s[i])
  {
    if s == [] then [] else [UpperChar(s[0])] + Upper(s[1..])
  }

  /** The environment variable consulted for a provider: `PROVIDER_API_KEY`. */
  function EnvVarName(provider: string): (name: string)
    ensures |name| == |provider| + 8
    ensures name[..|provider|] == Upper(provider)
    ensures name[|provider|..] == "_API_KEY"
  {
    Upper(provider) + "_API_KEY"
  }

  /** API-key resolution for a non-dummy provider (main.py:56-67); `None` means the request is refused. */
  function ResolveApiKey(provider: string, apiKey: Option<string>, env: map<string, string>): (r: Option<string>)
    ensures r.Some? ==> r.value != ""
    ensures Truthy(apiKey) ==> r == apiKey
    ensures !Truthy(apiKey) ==>
      (r.Some? <==> Truthy(EnvGet(env, EnvVarName(provider))))
    ensures !Truthy(apiKey) && r.Some? ==> r.value == env[EnvVarName(provider)]
  {
    OpenAiFallbackIsGeneralRule();
    var fromRequest := apiKey;
    var fromEnv := if Truthy(fromRequest) then fromRequest else EnvGet(env, EnvVarName(provider));
    var withFallback :=
      if !Truthy(fromEnv) && provider == "openai" then EnvGet(env, "OPENAI_API_KEY") else fromEnv;
    if Truthy(withFallback) then withFallback else None
  }

  /** The separate OpenAI fallback (main.py:63-64) reads the same variable as the general rule. */
  lemma OpenAiFallbackIsGeneralRule()
    ensures EnvVarName("openai") == "OPENAI_API_KEY"
  {
    assert Upper("openai") == "OPENAI";
  }

  /** The model string handed to the LM client (main.py:71-77). */
  function ModelName(provider: string, model: string): (r: string)
    ensures '/' in model ==> r == model
    ensures '/' !in model ==> r == provider + "/" + model
    ensures '/' in r
    ensures |r| >= |model| && r[|r| - |model|..] == model
  {
    if '/' in model then model
    else if provider != "openai" then provider + "/" + model
    else "openai/" + model
  }
}

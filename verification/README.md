# dspy-proxy: the registry and dispatch layer, in Dafny

The DSPy proxy server is a small HTTP service around the DSPy prompting library. It keeps two
process-wide in-memory stores: `signatures`, keyed by a user-chosen name, and `compiled_modules`,
keyed by generated ids. It also holds the library's active language-model settings. The service
handles four requests:

- `configure` picks a provider and model and resolves an API key;
- `register` stores a signature under a name, silently replacing any earlier one;
- `predict` runs a fresh `Predict`/`ChainOfThought` module or a stored compiled module, then
  copies the signature's fields (and `rationale`) out of the prediction;
- `optimize` compiles a `ChainOfThought` student with `BootstrapFewShot` and stores the result
  under `<name>_opt_<store size>`.

This project models that layer. The library itself is not modelled. Building a signature from
its text, running a module, compiling, and constructing an LM client are passed to the handlers
as function parameters whose result may be an error.

Files and modules:

- `wrappers.dfy` (`Wrappers`): `Option` and `Result`.
- `errors.dfy` (`Errors`): the failure kinds of the four handlers and the HTTP status each one
  reaches the client with.
- `ids.dfy` (`ModuleIds`): Python's `str(n)` as `Decimal`, and the id `name + "_opt_" + str(n)`.
  It also holds the proof that the id built from the current store size is never already a key.
  The reason is that the counter can be read back from the end of any id (`TrailingNumber`), and
  every stored id carries a counter below the store size (`WellNumbered`).
- `lm_settings.dfy` (`LmSettings`): API-key resolution and model-name building of `configure_lm`.
- `fields.dfy` (`Fields`): signatures as ordered role-tagged fields, the input/output key lists,
  the metric choice of `optimize`, the default metric, and the training-set construction.
- `proxy.dfy` (`Proxy`): the `Server` class with the two stores and the LM settings as fields,
  the handlers as methods, the module selection and output projection of `predict`, and two
  client scenarios.

Facts about the code that shape the model:

- The service has exactly the four requests above; there is no separate evaluation request.
- No metric name is rejected. Any metric name other than `"exact_match"` selects the
  last-output-field metric.
- An unknown compiled id, an unknown module type and an unsupported optimizer are raised as
  404/400 inside a `try`. They reach the client as 500, which `Errors.StatusCode` states.
- Registration relays whatever the library reports as one 400 error (`InvalidSignature`). It does
  not distinguish syntax errors from duplicate field names.
- `optimize` hands the optimizer a `ChainOfThought` student. Teacher construction belongs to the
  library.

## Model

| member | source | states |
|---|---|---|
| `ModuleIds.Decimal` | main.py:180 | `str(n)` is a non-empty run of decimal digits with no leading zero |
| `ModuleIds.MakeId` | main.py:180 | an id starts with the signature name followed by `_opt_` and ends in a digit |
| `ModuleIds.TrailingNumberOfDecimal` | main.py:180 | `str(n)` appended to a text that does not end in a digit reads back as `n` |
| `ModuleIds.DecimalRoundTrip` | main.py:180 | reading `str(n)` back as a number gives `n` |
| `ModuleIds.CountOfId` | main.py:180 | the counter an id was built from can be recovered from the id alone |
| `ModuleIds.MakeIdInjective` | main.py:180 | two ids are equal iff they come from the same signature name and the same counter, so repeated optimizations of one signature get distinct ids |
| `ModuleIds.FreshId` | main.py:180-181 | in a store whose keys all end in a counter below its size, the id built from the current size is not a key |
| `ModuleIds.InsertFresh` | main.py:180-181 | inserting under that id grows the store by exactly one and keeps every key's counter below the new size |
| `LmSettings.Upper` | main.py:59 | upper-casing keeps the length and maps each character to its upper case |
| `LmSettings.EnvVarName` | main.py:59 | the key variable is the upper-cased provider followed by `_API_KEY` |
| `LmSettings.ResolveApiKey` | main.py:56-67 | a non-empty key in the request wins; otherwise the key is `PROVIDER_API_KEY` from the environment; an unset or empty variable gives no key; a resolved key is never empty |
| `LmSettings.OpenAiFallbackIsGeneralRule` | main.py:59-64 | the separate OpenAI fallback reads `OPENAI_API_KEY`, the variable the general rule already read |
| `LmSettings.ModelName` | main.py:71-77 | a model containing `/` is kept; otherwise it becomes `provider/model` (also for openai); the result contains `/` and ends with the requested model |
| `Errors.StatusCode` | main.py:108-141 | only a missing signature gives 404; only rejected signature text and a missing API key give 400; everything else, including the 404/400 raised inside `try`, gives 500 |
| `Errors.IntendedStatusCode` | main.py:110-121 | the status each failure was raised with: 404 for a missing signature or compiled id, 400 for bad signature text, missing key, unknown module type or unsupported optimizer |
| `Errors.ClientErrorsSurfaceAsServerErrors` | main.py:167-188 | an unknown compiled id, an unknown module type and an unsupported optimizer reach the client as 500, not as raised |
| `Errors.OtherStatusesAgree` | main.py:103-104 | every other failure reaches the client with the status it was raised with |
| `Fields.Names` | main.py:96 | the registered field names, in declaration order |
| `Fields.KeysWithRole` | main.py:152 | a name is selected iff a field with that name and role is declared; no more names than fields |
| `Fields.KeysWithRoleAppend` | main.py:152 | selection keeps declaration order: it distributes over concatenation of field lists |
| `Fields.RolesPartitionNames` | main.py:162 | input keys and output keys together are exactly the field names, each once |
| `Fields.LastOutputKey` | main.py:162-163 | there is no last output key iff every field is an input; otherwise it names a declared output field |
| `Fields.LastOutputKeyAfterInput` | main.py:162-163 | a trailing input field does not change the last output key |
| `Fields.LastOutputKeyAfterOutput` | main.py:162-163 | a trailing output field is the last output key, whatever precedes it |
| `Fields.LastOutputKeyIsLast` | main.py:162-163 | the last output key is `k` iff some field named `k` is an output and every field declared after it is an input |
| `Fields.ChooseMetric` | main.py:157-165 | `"exact_match"` selects the library metric; any other name selects equality on the last output key (`output_keys[-1]`), and fails iff the signature has no output field |
| `Fields.DefaultMetricScore` | main.py:164-165 | the default metric has a result iff both example and prediction carry the field |
| `Fields.DefaultMetricReadsOneField` | main.py:164-165 | the default metric depends on its one field only |
| `Fields.DefaultMetricAgreement` | main.py:164-165 | the default metric is true iff the prediction repeats the example's value for the field |
| `Fields.Trainset` | main.py:154 | one example per training record, in order, carrying that record's data; in each, a key is marked as an input iff the signature declares an input field of that name |
| `Proxy.SelectModule` | main.py:110-121 | a non-empty compiled id selects the stored module or fails with not-found; otherwise only "Predict" and "ChainOfThought" build a module for the signature, any other type fails |
| `Proxy.CompiledIdTakesPriority` | main.py:110-121 | with a non-empty compiled id the module type plays no part |
| `Proxy.ProjectOutput` | main.py:127-134 | the output keys are exactly the prediction's attributes named by a signature field or `rationale`, each with the prediction's value |
| `Proxy.Server.constructor` | main.py:17-18 | the server starts with both stores empty and no LM configured |
| `Proxy.Server.Configure` | main.py:46-85 | provider "dummy" configures without any key; otherwise no key fails and leaves the settings unchanged; a rejected LM client fails and leaves them unchanged; on success the settings hold the built model name and the resolved key |
| `Proxy.Server.Register` | main.py:88-99 | on success the signature is stored under the name, replacing any earlier one, and its field names are returned; on rejection nothing changes; the compiled store is never touched |
| `Proxy.Server.Predict` | main.py:102-141 | fails with not-found iff the signature is missing; then the module selection's failure; then an execution failure; otherwise returns the projection of the prediction onto the signature's fields; never changes either store |
| `Proxy.Server.Optimize` | main.py:144-188 | fails with not-found iff the signature is missing, then on a signature without outputs under the default metric, then on an optimizer other than "BootstrapFewShot", then on a compile failure, each leaving the store unchanged; on success inserts exactly one new key `name_opt_<old size>` that was absent before, keeps every earlier entry, and keeps all counters below the size |
| `Proxy.OptimizeTwice` | main.py:180-181 | two successful optimizations of the same signature store under two different ids, both present afterwards |
| `Proxy.CapitalScenario` | main.py:127-136 | after registering `question -> answer`, a direct prediction answered "Paris" returns exactly `{"answer": "Paris"}` |
| `Proxy.UnknownCompiledIdScenario` | main.py:110-112 | a prediction through a compiled id that was never stored fails with compiled-module-not-found |

## Left out

- The HTTP layer: FastAPI routing, the pydantic request models and their defaults, JSON response
  envelopes. Each handler returns only the data part of its response: field names, model name or
  module id.
- Signature parsing (`make_signature`): a parameter of `Register`, so field-name uniqueness and the
  `a, b -> c` grammar are not modelled.
- Module execution (`dspy.Predict`, `dspy.ChainOfThought`, calling a compiled program): a parameter
  of `Predict`. The prediction's attributes are a map.
- `BootstrapFewShot.compile`: a parameter of `Optimize`. The demonstration cap and the selection
  of demonstrations happen inside the library and are not modelled.
- `answer_exact_match` is library code: `Metric.AnswerExactMatch` only names it.
- `DummyLM` and `dspy.settings`: the settings are the `lm` field, and the dummy LM is one value of it.
- `temperature` is a float passed straight to the LM client, so it is not modelled; `max_tokens`
  is only carried along.
- The environment is a map parameter, not `load_dotenv`/`os.environ`. Server startup and
  traceback printing are not modelled.
- `LmSettings.Upper`: upper-cases ASCII letters only and keeps the length; Python's `str.upper`
  also maps other Unicode letters and can change the length (`"ß".upper() == "SS"`).
- JSON values are modelled as strings, since the service only copies them and compares them
  for equality.
- `Fields.DefaultMetricScore`: a missing attribute (`AttributeError`) gives no result. What the
  optimizer does with that exception is library behaviour.
- Concurrency: requests are sequential here. The source has no locking around the id counter.

## Findings

| source | as written | input that shows it | evidently intended | confidence | as-written member | corrected member |
|---|---|---|---|---|---|---|
| main.py:110-141 | the 404 for an unknown compiled id and the 400s for an unknown module type and an unsupported optimizer (main.py:112, 121, 172) are raised inside `try` and re-raised by `except Exception` as 500 | predict with `compiled_module_id` "missing" on a registered signature | the client receives 404 (resp. 400) as raised | not executed; high | `Errors.ClientErrorsSurfaceAsServerErrors` | `Errors.IntendedStatusCode` |

The handlers in `Proxy` return the failure kind itself (`CompiledModuleNotFound`,
`UnknownModuleType`, `UnsupportedOptimizer`), so the model keeps the distinction the code loses.
`Errors.StatusCode` gives the status as written and `Errors.IntendedStatusCode` the corrected one.

# Model settings of the agent service, in Dafny

The agent service turns a user's goal into a loop of tasks run by a language
model. Every request carries a *model settings* record with five fields: the
model, a custom API key, a temperature, a token budget (`max_tokens`) and an
output language. The service accepts a record only when all of these hold:

- its temperature lies in [0, 2];
- its `max_tokens` is at least 0;
- its `max_tokens` does not exceed the ceiling of the chosen model.

There are three models. Their ceilings are 4000 for `RWKV-world-7B`, 16000
for `gpt-3.5-turbo-16k` and 8000 for `gpt-4`. The web client keeps its own
copy of the model names and of a ceiling table, and its copy gives `gpt-4`
only 4000.

This project models the following:

- the closed model set, the loop-step labels and the service's ceiling table
  (module `Schemas`, file `schemas.dfy`);
- the validation rule, as one predicate `Valid` over the whole record plus a
  smart constructor that either returns the record or lists what is wrong;
  the rule does not depend on the order in which fields are read;
- the request and response shapes with their defaults;
- the client's names and ceiling table (module `FrontendModelSettings`, file
  `model_settings_frontend.dfy`), with lemmas comparing it against the
  service's table;
- `Option` and `Result` (module `Wrappers`, file `wrappers.dfy`).

All of it is pure code: datatypes, functions and lemmas.

Modelling choices:

- The temperature is a `real`. No floating-point arithmetic is involved; only
  the range check is modelled.
- `max_tokens` is an unbounded `int`, like a Python integer.
- The analysis attached to an execute request is defined in a file outside
  this model. It is a type parameter of `AgentTaskExecute`.
- Each task request holds its run as a field, instead of inheriting from it.
- A request's nested settings arrive as raw fields (`RawModelSettings`): each field may be left out, and the model is still a name. When the request is parsed, each omitted field takes its own default, the model name is read, and the record is validated.
- The client's `ModelSettings` interface is the datatype `ClientModelSettings`. Its field `language` is kept as text, because its type is defined outside this model. Its TypeScript `number` fields are a `real` for the temperature and an `int` for `customMaxLoops` and `maxTokens`. No operation of the client uses the record.

## Model

| member | source | states |
|---|---|---|
| `Schemas.ParseModel` | platform/reworkd_platform/schemas.py:8-12 | exactly the three model literals are accepted, each as the model it names; any other name is refused |
| `Schemas.ModelNameRoundTrip` | platform/reworkd_platform/schemas.py:8-12 | naming a model and reading the name back yields the same model (so names are distinct) |
| `Schemas.MaxTokensTableTotal` | platform/reworkd_platform/schemas.py:21-25 | the ceiling table has an entry for every model |
| `Schemas.MaxTokensEntries` | platform/reworkd_platform/schemas.py:21-25 | the ceilings are 4000, 16000 and 8000 for RWKV-world-7B, gpt-3.5-turbo-16k and gpt-4 |
| `Schemas.ParseLoopStep` | platform/reworkd_platform/schemas.py:14-19 | exactly the four step literals are accepted, each as the step it names |
| `Schemas.LoopStepNames` | platform/reworkd_platform/schemas.py:14-19 | the accepted step names are exactly start, analyze, execute and create, and each step round-trips through its name |
| `Schemas.ValidateMaxTokens` | platform/reworkd_platform/schemas.py:35-42 | accepted exactly when the value is at most the model's ceiling; an accepted value is returned unchanged; a rejection names the model and its ceiling |
| `Schemas.SettingsErrors` | platform/reworkd_platform/schemas.py:31-42 | the error list is empty exactly for a valid record; it reports the temperature error exactly when the temperature is outside [0, 2], the negativity error exactly when `max_tokens` < 0, the ceiling error exactly when `max_tokens` exceeds the ceiling, and nothing else |
| `Schemas.CheckModelSettings` | platform/reworkd_platform/schemas.py:28-42 | a record is accepted exactly when it is valid, and comes back unchanged; otherwise the non-empty list of its errors is returned |
| `Schemas.NewModelSettings` | platform/reworkd_platform/schemas.py:28-42 | an unknown model name is rejected with an unknown-model error, together with the temperature error exactly when the temperature is out of range and the negativity error exactly when `max_tokens` < 0, and nothing else; a known name gives the whole-record check; an accepted record holds exactly the given fields and is valid |
| `Schemas.CeilingIsSharp` | platform/reworkd_platform/schemas.py:36-40 | for every model, `max_tokens` equal to the ceiling is accepted and the ceiling plus one is rejected, both by the validator and by `Valid` |
| `Schemas.NegativeMaxTokensRejected` | platform/reworkd_platform/schemas.py:32 | any negative `max_tokens` is rejected, with the negativity error, whatever the model |
| `Schemas.TemperatureBoundaries` | platform/reworkd_platform/schemas.py:31 | a temperature below 0 or above 2 is rejected; 0 and 2 are accepted when the rest of the record is valid |
| `Schemas.CheckIsIdempotent` | platform/reworkd_platform/schemas.py:42 | validating an accepted record again gives the same result: validation never changes a valid value |
| `Schemas.DefaultSettingsValid` | platform/reworkd_platform/schemas.py:29-33 | the defaults are (RWKV-world-7B, "", 1.5, 500, "English") and they pass validation |
| `Schemas.DefaultMaxTokensFitsEveryModel` | platform/reworkd_platform/schemas.py:21-32 | the default 500 tokens is within every model's ceiling, so a record that keeps the default budget passes the cross-field check for any model |
| `Schemas.LookupCeiling` | platform/reworkd_platform/schemas.py:21-25 | a dictionary lookup in the ceiling table finds an entry only for a model-name key, and then finds that model's ceiling |
| `Schemas.ValidateMaxTokensAsWritten` | platform/reworkd_platform/schemas.py:35-42 | the validator as written returns the value unchanged exactly when it is at most the model's ceiling |
| `Schemas.AsWrittenRejectionIsKeyError` | platform/reworkd_platform/schemas.py:37-40 | the validator as written accepts exactly what the intended rule accepts, but every rejection raises a `KeyError` on the ceiling and never the intended `ValueError` |
| `Schemas.AsWrittenGpt4Counterexample` | platform/reworkd_platform/schemas.py:37-40 | gpt-4 with 8001 tokens raises `KeyError(8000)` as written, where the intended rule reports the ceiling 8000 |
| `Schemas.RequestSettings` | platform/reworkd_platform/schemas.py:47 | an omitted settings object becomes the default record; in a given one each omitted field takes its own default, the model name is read (an unknown name is rejected with an unknown-model error), and the record is accepted exactly when valid, holding every given field; accepted settings are always valid |
| `Schemas.OmittedFieldsTakeDefaults` | platform/reworkd_platform/schemas.py:29-33 | each field left out of a nested settings object takes its declared default; an empty object gives the default record; `{model: gpt-4, max_tokens: 8000}` gives (gpt-4, "", 1.5, 8000, "English") |
| `Schemas.NestedOverCeilingRejected` | platform/reworkd_platform/schemas.py:35-42 | a nested `{model: gpt-4, max_tokens: 9000}` is rejected with the single error that 9000 is over gpt-4's ceiling of 8000 |
| `Schemas.NewAgentRunCreate` | platform/reworkd_platform/schemas.py:45-47 | accepted exactly when its settings are, failing with their errors otherwise; keeps the goal and carries the validated given or default settings |
| `Schemas.NewAgentRun` | platform/reworkd_platform/schemas.py:50-51 | as for `AgentRunCreate`, and keeps the run identifier |
| `Schemas.NewAgentTaskAnalyze` | platform/reworkd_platform/schemas.py:54-57 | accepted exactly when its settings are; keeps run and task; omitted tool names become the empty list |
| `Schemas.NewAgentTaskExecute` | platform/reworkd_platform/schemas.py:60-62 | accepted exactly when its settings are; keeps run and task; the analysis stays absent when omitted |
| `Schemas.NewAgentTaskCreate` | platform/reworkd_platform/schemas.py:65-69 | accepted exactly when its settings are; omitted pending and completed task lists become empty; an omitted last task or result stays absent |
| `Schemas.RequestDefaults` | platform/reworkd_platform/schemas.py:45-69 | a request that omits every optional field is always accepted and equals the shape filled with the default settings, empty lists and absent values |
| `Schemas.RequestsRejectBadSettings` | platform/reworkd_platform/schemas.py:28-69 | every request shape whose nested settings name an unknown model is rejected with an unknown-model error, and one whose budget exceeds its model's ceiling is rejected with the ceiling error naming that model and its ceiling, in every shape |
| `FrontendModelSettings.GptModelNamesDistinct` | next/src/types/modelSettings.ts:3-8 | the client's name list holds exactly three distinct names, in the order RWKV-world-7B, gpt-3.5-turbo-16k, gpt-4 |
| `FrontendModelSettings.MaxTokensTableTotal` | next/src/types/modelSettings.ts:11-15 | the client's ceiling table has an entry for exactly the names of the union type |
| `FrontendModelSettings.MaxTokensEntries` | next/src/types/modelSettings.ts:11-15 | the client's ceilings are 4000, 16000 and 4000 |
| `FrontendModelSettings.NameSetsAgree` | next/src/types/modelSettings.ts:9 | a name is in the client's list exactly when the service accepts it as a model |
| `FrontendModelSettings.NameSetsEqual` | next/src/types/modelSettings.ts:3-9 | the set of client names equals the set of service model names |
| `FrontendModelSettings.ToServiceModel` | next/src/types/modelSettings.ts:9 | each client name stands for the service model of that name |
| `FrontendModelSettings.FromServiceModel` | next/src/types/modelSettings.ts:9 | each service model has a client name, its own literal |
| `FrontendModelSettings.TranslationRoundTrip` | next/src/types/modelSettings.ts:9 | the two name translations are inverse to each other |
| `FrontendModelSettings.ClientCeilingAtMostService` | next/src/types/modelSettings.ts:11-15 | for every model, the client's ceiling is at most the service's |
| `FrontendModelSettings.ClientAllowedPassesService` | next/src/types/modelSettings.ts:11-15 | any token count within the client's table passes the service's cross-field check unchanged, and makes a valid record when the temperature is in range |
| `FrontendModelSettings.ClientTableByModel` | next/src/types/modelSettings.ts:11-15 | the client's table, keyed by service model, has the same keys as the service's, holding the client's ceiling of each model's name, and is pointwise not above the service's |
| `FrontendModelSettings.TablesDifferAtGpt4` | next/src/types/modelSettings.ts:14 | the client's and the service's ceilings agree except at gpt-4 (4000 against 8000), where the client is strictly lower |
| `FrontendModelSettings.TablesNotEqual` | next/src/types/modelSettings.ts:11-15 | the client's table, keyed by model, is not the service's table |

## Findings

| source | as written | input that shows it | evidently intended | confidence | as-written member | corrected member |
|---|---|---|---|---|---|---|
| platform/reworkd_platform/schemas.py:37-39 | line 37 binds `model` to the ceiling (an integer). Line 39 then builds the message by looking up `LLM_MODEL_MAX_TOKENS[model]`, but the table's keys are model names, so the lookup raises `KeyError` before the `ValueError` exists. The framework turns only `ValueError`-like errors into a validation error, so the caller gets an uncaught `KeyError` | `model="gpt-4", max_tokens=8001` raises `KeyError(8000)` (`Schemas.AsWrittenGpt4Counterexample`; all inputs: `Schemas.AsWrittenRejectionIsKeyError`) | a validation error saying that the model supports only its ceiling, e.g. "Model gpt-4 only supports 8000 tokens" | not executed; high confidence that the lookup fails, since the table has only string keys | `Schemas.ValidateMaxTokensAsWritten` | `Schemas.ValidateMaxTokens` |

The rest of the model uses the corrected validator. Its rejection
`MaxTokensAboveCeiling(model, maxTokens, ceiling)` carries the model and its
ceiling, which is what the message was meant to report. The two versions
accept exactly the same inputs.

The intended behaviour is read from the code itself: schemas.py:38-40
raises `ValueError(f"Model {…} only supports {…} tokens")`, a validation
error naming the model and its ceiling. Because of the lookup on line 39 the
code raises `KeyError` first. The model follows the intended behaviour in
its main path and records the code's behaviour in the finding above.

## Left out

- Prompt templates (platform/reworkd_platform/web/api/agent/prompts.py): they are string constants handed to an outside templating library. The repository has no logic of its own there.
- Client page head (next/src/components/AppHead.tsx): static markup, not part of this model.
- `RunCount` and `UserBase`: they hold timestamps and identity fields, and the code enforces no rule on them. `RunCount` can hold a first run later than its last run.
- `Analysis`: it is defined in a file that is not part of this model, so it is kept as a type parameter.
- The `newTasks` alias of `NewTasksResponse.new_tasks`: it belongs to the serialisation framework. Only the shape is modelled.
- Type coercion, validator ordering and the sharing of default instances: these are framework behaviour. Validation is modelled as one function over the whole record.
- The exact exception type and message text on rejection: the model says only that a record is rejected and why. The source has two exception-type discrepancies: the one under Findings, and the unknown-model case in the line below.
- Schemas.NewModelSettings, Schemas.RequestSettings, Schemas.RequestsRejectBadSettings and the request constructors (`Schemas.NewAgentRunCreate`, `Schemas.NewAgentRun`, `Schemas.NewAgentTaskAnalyze`, `Schemas.NewAgentTaskExecute`, `Schemas.NewAgentTaskCreate`): with an unknown model name and an explicit `max_tokens` of 0 or more, the source's validator reads a model field that was never set (schemas.py:37) and fails with a `KeyError` instead of a validation error. With a negative `max_tokens` the `ge=0` constraint fails first and the validator never runs, so the source reports both errors as the model does. With `max_tokens` omitted the validator does not run either. In every case the model reports the unknown model as a rejection and skips the ceiling check.
- The framework skips the cross-field validator when `max_tokens` keeps its default. The model always runs the check; `Schemas.DefaultMaxTokensFitsEveryModel` shows that this changes no outcome.
- Temperature as a floating-point number (including NaN): it is modelled as a real, and only the range check is verified.
- The step-loop driver, calls to the language model and HTTP handling: none of them is in the modelled files.

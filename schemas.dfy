/** The request and response shapes of the agent service, with the one rule
    they enforce: a settings record may not ask for more tokens than its
    model supports (platform/reworkd_platform/schemas.py). */
module Schemas {
  import opened Wrappers

  // ---------------------------------------------------------------------
  // Model identifiers and their token ceilings
  // ---------------------------------------------------------------------

  /** The closed set of language models a run may use (`LLM_Model`). */
  datatype LlmModel = RwkvWorld7B | Gpt35Turbo16k | Gpt4

  /** The literal by which each model is named on the wire. */
  function ModelName(m: LlmModel): string
  {
    match m
    case RwkvWorld7B => "RWKV-world-7B"
    case Gpt35Turbo16k => "gpt-3.5-turbo-16k"
    case Gpt4 => "gpt-4"
  }

  /** Reading the `model` field: exactly the three literals are accepted,
      each as the model it names. */
  function ParseModel(name: string): (r: Option<LlmModel>)
    ensures r.Some? ==> ModelName(r.value) == name
    ensures r.None? ==> forall m :: ModelName(m) != name
  {
    if name == "RWKV-world-7B" then Some(RwkvWorld7B)
    else if name == "gpt-3.5-turbo-16k" then Some(Gpt35Turbo16k)
    else if name == "gpt-4" then Some(Gpt4)
    else None
  }

  /** Naming a model and reading the name back gives the same model; hence
      no two models share a name. */
  lemma ModelNameRoundTrip(m: LlmModel)
    ensures ParseModel(ModelName(m)) == Some(m)
  {
  }

  /** `LLM_MODEL_MAX_TOKENS`: the largest `max_tokens` each model accepts. */
  const LlmModelMaxTokens: map<LlmModel, nat> :=
    map[RwkvWorld7B := 4000, Gpt35Turbo16k := 16000, Gpt4 := 8000]

  /** The table is total: every model has an entry. */
  lemma MaxTokensTableTotal()
    ensures forall m: LlmModel :: m in LlmModelMaxTokens
  {
    forall m: LlmModel ensures m in LlmModelMaxTokens {
      match m
      case RwkvWorld7B =>
      case Gpt35Turbo16k =>
      case Gpt4 =>
    }
  }

  /** The ceiling of one model. */
  function MaxTokens(m: LlmModel): nat
  {
    MaxTokensTableTotal();
    LlmModelMaxTokens[m]
  }

  /** The entries of the table. */
  lemma MaxTokensEntries()
    ensures MaxTokens(RwkvWorld7B) == 4000
    ensures MaxTokens(Gpt35Turbo16k) == 16000
    ensures MaxTokens(Gpt4) == 8000
  {
  }

  // ---------------------------------------------------------------------
  // Loop steps
  // ---------------------------------------------------------------------

  /** The four phases a run cycles through (`Loop_Step`). */
  datatype LoopStep = Start | Analyze | Execute | Create

  function StepName(s: LoopStep): string
  {
    match s
    case Start => "start"
    case Analyze => "analyze"
    case Execute => "execute"
    case Create => "create"
  }

  /** Reading a step literal: exactly the four names are accepted. */
  function ParseLoopStep(name: string): (r: Option<LoopStep>)
    ensures r.Some? ==> StepName(r.value) == name
    ensures r.None? ==> forall s :: StepName(s) != name
  {
    if name == "start" then Some(Start)
    else if name == "analyze" then Some(Analyze)
    else if name == "execute" then Some(Execute)
    else if name == "create" then Some(Create)
    else None
  }

  /** The accepted step names are exactly start, analyze, execute and
      create, and each reads back as the step it names. */
  lemma LoopStepNames(name: string)
    ensures ParseLoopStep(name).Some? <==> name in ["start", "analyze", "execute", "create"]
    ensures forall s :: ParseLoopStep(StepName(s)) == Some(s)
  {
  }

  // ---------------------------------------------------------------------
  // Model settings
  // ---------------------------------------------------------------------

  /** `ModelSettings`. Temperature is a real number standing for the
      source's float; `maxTokens` is an unbounded integer like Python's. */
  datatype ModelSettings = ModelSettings(
    model: LlmModel,
    customApiKey: string,
    temperature: real,
    maxTokens: int,
    language: string)

  /** `ModelSettings()` with every field left at its default. */
  const DefaultModelSettings: ModelSettings :=
    ModelSettings(RwkvWorld7B, "", 1.5, 500, "English")

  /** The `ge=0.0, le=2.0` constraint on `temperature`. */
  predicate TemperatureInRange(t: real)
  {
    0.0 <= t <= 2.0
  }

  /** A settings record the service accepts: temperature in [0, 2], and
      `maxTokens` between 0 and the ceiling of the chosen model. One
      predicate over the whole record, whatever the order fields are read. */
  predicate Valid(s: ModelSettings)
  {
    TemperatureInRange(s.temperature) && 0 <= s.maxTokens <= MaxTokens(s.model)
  }

  /** Why a settings record is rejected. `MaxTokensAboveCeiling` carries the
      model and the ceiling it exceeds, as the validator's message intends. */
  datatype SettingsError =
    | UnknownModel(name: string)
    | TemperatureOutOfRange(temperature: real)
    | NegativeMaxTokens(maxTokens: int)
    | MaxTokensAboveCeiling(model: LlmModel, maxTokens: int, ceiling: nat)

  /** `validate_max_tokens`: a value above the model's ceiling is rejected;
      any other value is returned unchanged. */
  function ValidateMaxTokens(model: LlmModel, v: int): (r: Result<int, SettingsError>)
    ensures r.Success? <==> v <= MaxTokens(model)
    ensures r.Success? ==> r.value == v
    ensures r.Failure? ==> r.error == MaxTokensAboveCeiling(model, v, MaxTokens(model))
  {
    if v > MaxTokens(model) then Failure(MaxTokensAboveCeiling(model, v, MaxTokens(model)))
    else Success(v)
  }

  /** The errors found in one record: the temperature constraint, then for
      `maxTokens` its `ge=0` constraint or, when that holds, the
      cross-field validator. The list is empty exactly for a valid record
      and names every check that fails. */
  function SettingsErrors(s: ModelSettings): (errs: seq<SettingsError>)
    ensures errs == [] <==> Valid(s)
    ensures TemperatureOutOfRange(s.temperature) in errs <==> !TemperatureInRange(s.temperature)
    ensures NegativeMaxTokens(s.maxTokens) in errs <==> s.maxTokens < 0
    ensures MaxTokensAboveCeiling(s.model, s.maxTokens, MaxTokens(s.model)) in errs
        <==> s.maxTokens > MaxTokens(s.model)
    ensures forall e :: e in errs ==>
        e == TemperatureOutOfRange(s.temperature) || e == NegativeMaxTokens(s.maxTokens)
        || e == MaxTokensAboveCeiling(s.model, s.maxTokens, MaxTokens(s.model))
  {
    var temperatureErrors :=
      if TemperatureInRange(s.temperature) then [] else [TemperatureOutOfRange(s.temperature)];
    var maxTokensErrors :=
      if s.maxTokens < 0 then [NegativeMaxTokens(s.maxTokens)]
      else match ValidateMaxTokens(s.model, s.maxTokens)
        case Success(_) => []
        case Failure(e) => [e];
    temperatureErrors + maxTokensErrors
  }

  /** Validating a settings record: a valid record comes back unchanged,
      any other is rejected with the list of what is wrong with it. */
  function CheckModelSettings(s: ModelSettings): (r: Result<ModelSettings, seq<SettingsError>>)
    ensures r.Success? <==> Valid(s)
    ensures r.Success? ==> r.value == s
    ensures r.Failure? ==> r.error != [] && r.error == SettingsErrors(s)
  {
    var errs := SettingsErrors(s);
    if errs == [] then Success(s) else Failure(errs)
  }

  /** Building `ModelSettings` from the fields of a request, the model given
      by its name. An unknown name is rejected; otherwise the record is
      checked as a whole and, when accepted, holds exactly the given fields. */
  function NewModelSettings(
    model: string, customApiKey: string, temperature: real, maxTokens: int, language: string
  ): (r: Result<ModelSettings, seq<SettingsError>>)
    ensures ParseModel(model).None? ==>
      && r.Failure? && UnknownModel(model) in r.error
      && (TemperatureOutOfRange(temperature) in r.error <==> !TemperatureInRange(temperature))
      && (NegativeMaxTokens(maxTokens) in r.error <==> maxTokens < 0)
      && (forall e :: e in r.error ==>
            e == UnknownModel(model) || e == TemperatureOutOfRange(temperature) || e == NegativeMaxTokens(maxTokens))
    ensures ParseModel(model).Some? ==>
        r == CheckModelSettings(ModelSettings(ParseModel(model).value, customApiKey, temperature, maxTokens, language))
    ensures r.Success? ==>
        ModelName(r.value.model) == model && r.value.customApiKey == customApiKey
        && r.value.temperature == temperature && r.value.maxTokens == maxTokens
        && r.value.language == language && Valid(r.value)
  {
    match ParseModel(model)
    case None =>
      var temperatureErrors :=
        if TemperatureInRange(temperature) then [] else [TemperatureOutOfRange(temperature)];
      var maxTokensErrors := if maxTokens < 0 then [NegativeMaxTokens(maxTokens)] else [];
      Failure([UnknownModel(model)] + temperatureErrors + maxTokensErrors)
    case Some(m) =>
      CheckModelSettings(ModelSettings(m, customApiKey, temperature, maxTokens, language))
  }

  // ---------------------------------------------------------------------
  // Properties of the settings rule
  // ---------------------------------------------------------------------

  /** The ceiling is a sharp boundary: for every model, `maxTokens` equal to
      the ceiling is accepted and one more is rejected. */
  lemma CeilingIsSharp(m: LlmModel)
    ensures ValidateMaxTokens(m, MaxTokens(m)) == Success(MaxTokens(m))
    ensures ValidateMaxTokens(m, MaxTokens(m) + 1).Failure?
    ensures forall t :: TemperatureInRange(t) ==>
        Valid(DefaultModelSettings.(model := m, temperature := t, maxTokens := MaxTokens(m)))
        && !Valid(DefaultModelSettings.(model := m, temperature := t, maxTokens := MaxTokens(m) + 1))
  {
  }

  /** A negative `maxTokens` is rejected whatever the model and the other fields. */
  lemma NegativeMaxTokensRejected(s: ModelSettings)
    requires s.maxTokens < 0
    ensures CheckModelSettings(s).Failure?
    ensures NegativeMaxTokens(s.maxTokens) in CheckModelSettings(s).error
  {
  }

  /** A temperature below 0 or above 2 is rejected; 0 and 2 themselves are
      accepted when the rest of the record is valid. */
  lemma TemperatureBoundaries(s: ModelSettings)
    ensures (s.temperature < 0.0 || s.temperature > 2.0) ==>
        TemperatureOutOfRange(s.temperature) in SettingsErrors(s) && !Valid(s)
    ensures 0 <= s.maxTokens <= MaxTokens(s.model) ==>
        Valid(s.(temperature := 0.0)) && Valid(s.(temperature := 2.0))
  {
  }

  /** Validation never alters what it accepts, and validating its output
      again accepts the same record. This follows at once from
      `CheckModelSettings` returning an accepted record unchanged; it is
      kept to state idempotence in its own terms. */
  lemma CheckIsIdempotent(s: ModelSettings)
    requires CheckModelSettings(s).Success?
    ensures CheckModelSettings(CheckModelSettings(s).value) == CheckModelSettings(s)
  {
  }

  /** The default record is valid: 0 <= 500 <= 4000, temperature 1.5. */
  lemma DefaultSettingsValid()
    ensures DefaultModelSettings.model == RwkvWorld7B && DefaultModelSettings.customApiKey == ""
    ensures DefaultModelSettings.temperature == 1.5 && DefaultModelSettings.maxTokens == 500
    ensures DefaultModelSettings.language == "English"
    ensures CheckModelSettings(DefaultModelSettings) == Success(DefaultModelSettings)
  {
  }

  /** The default `max_tokens` of 500 is within every model's ceiling, so a
      record that leaves `maxTokens` at its default never fails the
      cross-field check, whichever model it names. */
  lemma DefaultMaxTokensFitsEveryModel(m: LlmModel)
    ensures ValidateMaxTokens(m, DefaultModelSettings.maxTokens).Success?
    ensures Valid(DefaultModelSettings.(model := m))
  {
  }

  // ---------------------------------------------------------------------
  // Finding: the rejection path of validate_max_tokens as written
  // ---------------------------------------------------------------------

  /** A key of a Python dictionary: the ceiling table's keys are the model
      names (strings); the error message looks the table up with an integer. */
  datatype PyKey = StrKey(s: string) | IntKey(i: int)

  /** Looking up `LLM_MODEL_MAX_TOKENS[k]`: only model names are present. */
  function LookupCeiling(k: PyKey): (r: Option<nat>)
    ensures r.Some? <==> k.StrKey? && ParseModel(k.s).Some?
    ensures r.Some? ==> r.value == MaxTokens(ParseModel(k.s).value)
  {
    match k
    case StrKey(s) => (match ParseModel(s) case Some(m) => Some(MaxTokens(m)) case None => None)
    case IntKey(_) => None
  }

  /** What the Python validator does: return the value, raise a `ValueError`
      (which the framework turns into a validation error, carrying the model
      name and the ceiling for the message) or raise a `KeyError` (which the
      framework does not convert). */
  datatype ValidatorOutcome =
    | Returned(v: int)
    | RaisedValueError(modelName: string, ceiling: nat)
    | RaisedKeyError(key: PyKey)

  /** `validate_max_tokens` as written: the walrus binds `model` to the
      ceiling, and the message then looks the table up by that integer. */
  function ValidateMaxTokensAsWritten(model: LlmModel, v: int): (o: ValidatorOutcome)
    ensures o.Returned? <==> v <= MaxTokens(model)
    ensures o.Returned? ==> o.v == v
  {
    var ceiling := MaxTokens(model);
    if v > ceiling then
      match LookupCeiling(IntKey(ceiling))
      case Some(c) => RaisedValueError(ModelName(model), c)
      case None => RaisedKeyError(IntKey(ceiling))
    else Returned(v)
  }

  /** As written, the validator accepts and rejects exactly what the
      intended rule does, but every rejection is a `KeyError` on the
      ceiling, never the `ValueError` the message was meant to carry. */
  lemma AsWrittenRejectionIsKeyError(m: LlmModel, v: int)
    ensures ValidateMaxTokensAsWritten(m, v).Returned? <==> ValidateMaxTokens(m, v).Success?
    ensures ValidateMaxTokensAsWritten(m, v).Returned? ==> ValidateMaxTokensAsWritten(m, v).v == v
    ensures v > MaxTokens(m) ==> ValidateMaxTokensAsWritten(m, v) == RaisedKeyError(IntKey(MaxTokens(m)))
    ensures !ValidateMaxTokensAsWritten(m, v).RaisedValueError?
  {
  }

  /** A concrete input: `gpt-4` with 8001 tokens raises `KeyError(8000)`. */
  lemma AsWrittenGpt4Counterexample()
    ensures ValidateMaxTokensAsWritten(Gpt4, 8001) == RaisedKeyError(IntKey(8000))
    ensures ValidateMaxTokens(Gpt4, 8001) == Failure(MaxTokensAboveCeiling(Gpt4, 8001, 8000))
  {
  }

  // ---------------------------------------------------------------------
  // Request and response shapes
  // ---------------------------------------------------------------------

  /** `AgentRunCreate`: a goal and the settings to pursue it with. */
  datatype AgentRunCreate = AgentRunCreate(goal: string, modelSettings: ModelSettings)

  /** `AgentRun`: an `AgentRunCreate` with the identifier of its run. */
  datatype AgentRun = AgentRun(goal: string, modelSettings: ModelSettings, runId: string)

  /** `AgentTaskAnalyze`: a run, the task to analyse and the tools on offer. */
  datatype AgentTaskAnalyze = AgentTaskAnalyze(run: AgentRun, task: string, toolNames: seq<string>)

  /** `AgentTaskExecute`: a run, the task to carry out and, possibly, the
      analysis chosen for it. The analysis type is defined outside this
      model, so it is a parameter. */
  datatype AgentTaskExecute<Analysis> = AgentTaskExecute(run: AgentRun, task: string, analysis: Option<Analysis>)

  /** `AgentTaskCreate`: a run with its pending tasks, the last task and its
      result when there is one, and the tasks already completed. */
  datatype AgentTaskCreate = AgentTaskCreate(
    run: AgentRun,
    tasks: seq<string>,
    lastTask: Option<string>,
    result: Option<string>,
    completedTasks: seq<string>)

  /** `NewTasksResponse`: the run and the tasks created for it, in order. */
  datatype NewTasksResponse = NewTasksResponse(runId: string, newTasks: seq<string>)

  /** The `model_settings` object of a request body as it arrives: each
      field may be left out (None), and the model is still a name. */
  datatype RawModelSettings = RawModelSettings(
    model: Option<string>,
    customApiKey: Option<string>,
    temperature: Option<real>,
    maxTokens: Option<int>,
    language: Option<string>)

  /** The model name of a nested record, the default model's when omitted. */
  function RawModelName(raw: RawModelSettings): string
  {
    raw.model.GetOr(ModelName(DefaultModelSettings.model))
  }

  /** The settings of a request: the default record when the field is
      omitted; otherwise the given fields, each omitted one taking its own
      default, once they pass validation. */
  function RequestSettings(settings: Option<RawModelSettings>): (r: Result<ModelSettings, seq<SettingsError>>)
    ensures settings.None? ==> r == Success(DefaultModelSettings)
    ensures settings.Some? && ParseModel(RawModelName(settings.value)).None? ==>
      r.Failure? && UnknownModel(RawModelName(settings.value)) in r.error
    ensures settings.Some? && ParseModel(RawModelName(settings.value)).Some? ==>
      var raw := settings.value;
      (r.Success? <==> Valid(ModelSettings(ParseModel(RawModelName(raw)).value,
                                           raw.customApiKey.GetOr(DefaultModelSettings.customApiKey),
                                           raw.temperature.GetOr(DefaultModelSettings.temperature),
                                           raw.maxTokens.GetOr(DefaultModelSettings.maxTokens),
                                           raw.language.GetOr(DefaultModelSettings.language))))
    ensures r.Success? ==> Valid(r.value)
    ensures r.Success? && settings.Some? ==>
      var raw := settings.value;
      && ModelName(r.value.model) == RawModelName(raw)
      && r.value.customApiKey == raw.customApiKey.GetOr(DefaultModelSettings.customApiKey)
      && r.value.temperature == raw.temperature.GetOr(DefaultModelSettings.temperature)
      && r.value.maxTokens == raw.maxTokens.GetOr(DefaultModelSettings.maxTokens)
      && r.value.language == raw.language.GetOr(DefaultModelSettings.language)
  {
    match settings
    case None => DefaultSettingsValid(); Success(DefaultModelSettings)
    case Some(raw) =>
      NewModelSettings(
        RawModelName(raw),
        raw.customApiKey.GetOr(DefaultModelSettings.customApiKey),
        raw.temperature.GetOr(DefaultModelSettings.temperature),
        raw.maxTokens.GetOr(DefaultModelSettings.maxTokens),
        raw.language.GetOr(DefaultModelSettings.language))
  }

  /** Every field left out of a nested record takes its own default: an
      empty record gives the default settings, and `{"model": "gpt-4",
      "max_tokens": 8000}` gives gpt-4 with the default key, temperature and
      language. */
  lemma OmittedFieldsTakeDefaults(raw: RawModelSettings)
    ensures RequestSettings(Some(RawModelSettings(None, None, None, None, None))) == Success(DefaultModelSettings)
    ensures RequestSettings(Some(raw)).Success? ==>
      var s := RequestSettings(Some(raw)).value;
      && (raw.model.None? ==> s.model == RwkvWorld7B)
      && (raw.customApiKey.None? ==> s.customApiKey == "")
      && (raw.temperature.None? ==> s.temperature == 1.5)
      && (raw.maxTokens.None? ==> s.maxTokens == 500)
      && (raw.language.None? ==> s.language == "English")
    ensures RequestSettings(Some(RawModelSettings(Some("gpt-4"), None, None, Some(8000), None)))
      == Success(ModelSettings(Gpt4, "", 1.5, 8000, "English"))
  {
  }

  /** `{"model": "gpt-4", "max_tokens": 9000}` is rejected with exactly one
      error: 9000 is over gpt-4's ceiling of 8000. */
  lemma NestedOverCeilingRejected()
    ensures RequestSettings(Some(RawModelSettings(Some("gpt-4"), None, None, Some(9000), None)))
      == Failure([MaxTokensAboveCeiling(Gpt4, 9000, 8000)])
  {
    var over := ModelSettings(Gpt4, "", 1.5, 9000, "English");
    var errs: seq<SettingsError> := [MaxTokensAboveCeiling(Gpt4, 9000, 8000)];
    assert [] + errs == errs;
    assert SettingsErrors(over) == errs;
  }

  /** Parsing an `AgentRunCreate`; `settings` is None when the request omits it. */
  function NewAgentRunCreate(goal: string, settings: Option<RawModelSettings>): (r: Result<AgentRunCreate, seq<SettingsError>>)
    ensures r.Success? <==> RequestSettings(settings).Success?
    ensures r.Success? ==> (r.value.goal == goal && Valid(r.value.modelSettings)
      && r.value.modelSettings == RequestSettings(settings).value)
    ensures r.Failure? ==> r.error == RequestSettings(settings).error
  {
    match RequestSettings(settings)
    case Success(s) => Success(AgentRunCreate(goal, s))
    case Failure(e) => Failure(e)
  }

  /** Parsing an `AgentRun`. */
  function NewAgentRun(goal: string, settings: Option<RawModelSettings>, runId: string): (r: Result<AgentRun, seq<SettingsError>>)
    ensures r.Success? <==> RequestSettings(settings).Success?
    ensures r.Success? ==> (r.value.goal == goal && r.value.runId == runId && Valid(r.value.modelSettings)
      && r.value.modelSettings == RequestSettings(settings).value)
    ensures r.Failure? ==> r.error == RequestSettings(settings).error
  {
    match NewAgentRunCreate(goal, settings)
    case Success(c) => Success(AgentRun(c.goal, c.modelSettings, runId))
    case Failure(e) => Failure(e)
  }

  /** Parsing an `AgentTaskAnalyze`; omitted `toolNames` default to none. */
  function NewAgentTaskAnalyze(
    goal: string, settings: Option<RawModelSettings>, runId: string, task: string, toolNames: Option<seq<string>>
  ): (r: Result<AgentTaskAnalyze, seq<SettingsError>>)
    ensures r.Success? <==> RequestSettings(settings).Success?
    ensures r.Success? ==> (r.value.run == NewAgentRun(goal, settings, runId).value
      && r.value.task == task && r.value.toolNames == toolNames.GetOr([]))
    ensures r.Failure? ==> r.error == RequestSettings(settings).error
  {
    match NewAgentRun(goal, settings, runId)
    case Success(run) => Success(AgentTaskAnalyze(run, task, toolNames.GetOr([])))
    case Failure(e) => Failure(e)
  }

  /** Parsing an `AgentTaskExecute`; an omitted analysis stays absent. */
  function NewAgentTaskExecute<Analysis>(
    goal: string, settings: Option<RawModelSettings>, runId: string, task: string, analysis: Option<Analysis>
  ): (r: Result<AgentTaskExecute<Analysis>, seq<SettingsError>>)
    ensures r.Success? <==> RequestSettings(settings).Success?
    ensures r.Success? ==> (r.value.run == NewAgentRun(goal, settings, runId).value
      && r.value.task == task && r.value.analysis == analysis)
    ensures r.Failure? ==> r.error == RequestSettings(settings).error
  {
    match NewAgentRun(goal, settings, runId)
    case Success(run) => Success(AgentTaskExecute(run, task, analysis))
    case Failure(e) => Failure(e)
  }

  /** Parsing an `AgentTaskCreate`; omitted task lists default to empty,
      an omitted last task or result stays absent. */
  function NewAgentTaskCreate(
    goal: string, settings: Option<RawModelSettings>, runId: string,
    tasks: Option<seq<string>>, lastTask: Option<string>, result: Option<string>,
    completedTasks: Option<seq<string>>
  ): (r: Result<AgentTaskCreate, seq<SettingsError>>)
    ensures r.Success? <==> RequestSettings(settings).Success?
    ensures r.Success? ==> (r.value.run == NewAgentRun(goal, settings, runId).value
      && r.value.tasks == tasks.GetOr([]) && r.value.lastTask == lastTask
      && r.value.result == result && r.value.completedTasks == completedTasks.GetOr([]))
    ensures r.Failure? ==> r.error == RequestSettings(settings).error
  {
    match NewAgentRun(goal, settings, runId)
    case Success(run) => Success(AgentTaskCreate(run, tasks.GetOr([]), lastTask, result, completedTasks.GetOr([])))
    case Failure(e) => Failure(e)
  }

  /** A request that omits every optional field is always accepted, with
      the default settings, no tool names, no analysis, empty task lists
      and no last task or result. */
  lemma RequestDefaults<Analysis>(goal: string, runId: string, task: string)
    ensures NewAgentRunCreate(goal, None) == Success(AgentRunCreate(goal, DefaultModelSettings))
    ensures NewAgentRun(goal, None, runId) == Success(AgentRun(goal, DefaultModelSettings, runId))
    ensures NewAgentTaskAnalyze(goal, None, runId, task, None)
        == Success(AgentTaskAnalyze(AgentRun(goal, DefaultModelSettings, runId), task, []))
    ensures NewAgentTaskExecute<Analysis>(goal, None, runId, task, None)
        == Success(AgentTaskExecute(AgentRun(goal, DefaultModelSettings, runId), task, None))
    ensures NewAgentTaskCreate(goal, None, runId, None, None, None, None)
        == Success(AgentTaskCreate(AgentRun(goal, DefaultModelSettings, runId), [], None, None, []))
  {
  }

  /** A request whose nested settings name a model outside the three is
      rejected, whichever request shape it is, and the rejection names it;
      an over-ceiling budget is rejected the same way. */
  lemma RequestsRejectBadSettings<Analysis>(
    goal: string, raw: RawModelSettings, runId: string, task: string, analysis: Option<Analysis>)
    ensures raw.model.Some? && ParseModel(raw.model.value).None? ==>
      && UnknownModel(raw.model.value) in NewAgentRunCreate(goal, Some(raw)).error
      && UnknownModel(raw.model.value) in NewAgentRun(goal, Some(raw), runId).error
      && UnknownModel(raw.model.value) in NewAgentTaskAnalyze(goal, Some(raw), runId, task, None).error
      && UnknownModel(raw.model.value) in NewAgentTaskExecute(goal, Some(raw), runId, task, analysis).error
      && UnknownModel(raw.model.value) in NewAgentTaskCreate(goal, Some(raw), runId, None, None, None, None).error
    ensures (ParseModel(RawModelName(raw)).Some? && raw.maxTokens.Some?
      && raw.maxTokens.value > MaxTokens(ParseModel(RawModelName(raw)).value)) ==>
      var m := ParseModel(RawModelName(raw)).value;
      var e := MaxTokensAboveCeiling(m, raw.maxTokens.value, MaxTokens(m));
      && e in NewAgentRunCreate(goal, Some(raw)).error
      && e in NewAgentRun(goal, Some(raw), runId).error
      && e in NewAgentTaskAnalyze(goal, Some(raw), runId, task, None).error
      && e in NewAgentTaskExecute(goal, Some(raw), runId, task, analysis).error
      && e in NewAgentTaskCreate(goal, Some(raw), runId, None, None, None, None).error
  {
  }
}

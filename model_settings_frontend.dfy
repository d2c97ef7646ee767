/** The web client's own copy of the model names and their token ceilings
    (next/src/types/modelSettings.ts), and how it compares with the
    service's table. */
module FrontendModelSettings {
  import opened Wrappers
  import Schemas

  /** `GPT_MODEL_NAMES`, in the order the client lists them. The client's
      constants `GPT_35_TURBO`, `GPT_35_TURBO_16K` and `GPT_4` are its three
      entries, the first of which holds "RWKV-world-7B". */
  const GptModelNames: seq<string> := ["RWKV-world-7B", "gpt-3.5-turbo-16k", "gpt-4"]

  /** `GPTModelNames`: the union of the three literal names. */
  type GptModelName = name: string | name in GptModelNames witness "gpt-4"

  /** `MAX_TOKENS`: the client's ceiling for each model name. */
  const MaxTokensTable: map<GptModelName, nat> :=
    map["RWKV-world-7B" := 4000, "gpt-3.5-turbo-16k" := 16000, "gpt-4" := 4000]

  /** The client's settings record (`ModelSettings`). The language type is
      defined outside this model, so it is kept as its text; TypeScript
      numbers are kept as reals for the temperature and as integers for
      the counts. */
  datatype ClientModelSettings = ClientModelSettings(
    language: string,
    customApiKey: string,
    customModelName: GptModelName,
    customTemperature: real,
    customMaxLoops: int,
    maxTokens: int)

  /** The name list holds exactly three distinct names, in this order. */
  lemma GptModelNamesDistinct()
    ensures |GptModelNames| == 3
    ensures GptModelNames[0] == "RWKV-world-7B" && GptModelNames[1] == "gpt-3.5-turbo-16k"
      && GptModelNames[2] == "gpt-4"
    ensures forall i, j :: 0 <= i < j < |GptModelNames| ==> GptModelNames[i] != GptModelNames[j]
  {
  }

  /** `MAX_TOKENS` is a `Record` over the name union: it has an entry for
      every name and for nothing else. */
  lemma MaxTokensTableTotal(name: string)
    ensures name in MaxTokensTable <==> name in GptModelNames
  {
  }

  /** The client's ceiling for one model name. */
  function MaxTokens(name: GptModelName): nat
  {
    MaxTokensTableTotal(name);
    MaxTokensTable[name]
  }

  /** The client's ceilings: 4000, 16000 and 4000. */
  lemma MaxTokensEntries()
    ensures MaxTokens("RWKV-world-7B") == 4000
    ensures MaxTokens("gpt-3.5-turbo-16k") == 16000
    ensures MaxTokens("gpt-4") == 4000
  {
  }

  // ---------------------------------------------------------------------
  // Agreement with the service
  // ---------------------------------------------------------------------

  /** The client's names are exactly the names the service accepts. */
  lemma NameSetsAgree(name: string)
    ensures name in GptModelNames <==> Schemas.ParseModel(name).Some?
  {
  }

  /** The service model a client name stands for. */
  function ToServiceModel(name: GptModelName): (m: Schemas.LlmModel)
    ensures Schemas.ModelName(m) == name
  {
    NameSetsAgree(name);
    Schemas.ParseModel(name).value
  }

  /** The client name of a service model. */
  function FromServiceModel(m: Schemas.LlmModel): (name: GptModelName)
    ensures name == Schemas.ModelName(m)
  {
    Schemas.ModelNameRoundTrip(m);
    NameSetsAgree(Schemas.ModelName(m));
    Schemas.ModelName(m)
  }

  /** The two name translations are inverse to each other. */
  lemma TranslationRoundTrip(name: GptModelName, m: Schemas.LlmModel)
    ensures FromServiceModel(ToServiceModel(name)) == name
    ensures ToServiceModel(FromServiceModel(m)) == m
  {
  }

  /** For every model, the client's ceiling is at most the service's. */
  lemma ClientCeilingAtMostService(name: GptModelName)
    ensures MaxTokens(name) <= Schemas.MaxTokens(ToServiceModel(name))
  {
  }

  /** Hence any token count the client's table allows passes the service's
      cross-field check, and a request with a temperature in range built
      from it is a valid settings record. */
  lemma ClientAllowedPassesService(name: GptModelName, maxTokens: int, s: Schemas.ModelSettings)
    requires 0 <= maxTokens <= MaxTokens(name)
    ensures Schemas.ValidateMaxTokens(ToServiceModel(name), maxTokens) == Success(maxTokens)
    ensures (s.model == ToServiceModel(name) && s.maxTokens == maxTokens
      && Schemas.TemperatureInRange(s.temperature)) ==> Schemas.Valid(s)
  {
  }

  /** The two tables differ, and only at `gpt-4`: 4000 in the client,
      8000 in the service. So the client may refuse a count the service
      would accept. */
  lemma TablesDifferAtGpt4(name: GptModelName)
    ensures MaxTokens(name) == Schemas.MaxTokens(ToServiceModel(name)) <==> name != "gpt-4"
    ensures MaxTokens("gpt-4") == 4000 && Schemas.MaxTokens(Schemas.Gpt4) == 8000
    ensures exists n: GptModelName :: MaxTokens(n) < Schemas.MaxTokens(ToServiceModel(n))
  {
  }

  /** The client's table keyed by service model instead of by name: an
      entry for every model, holding the client's ceiling of that model's
      name, and so never above the service's ceiling. */
  function ClientTableByModel(): (t: map<Schemas.LlmModel, nat>)
    ensures t.Keys == Schemas.LlmModelMaxTokens.Keys
    ensures forall m :: m in t ==> t[m] == MaxTokens(FromServiceModel(m))
    ensures forall m :: m in t ==> t[m] <= Schemas.MaxTokens(m)
  {
    Schemas.MaxTokensTableTotal();
    var t := map m: Schemas.LlmModel | m in Schemas.LlmModelMaxTokens :: MaxTokens(FromServiceModel(m));
    forall m | m in t ensures t[m] <= Schemas.MaxTokens(m) {
      TranslationRoundTrip(FromServiceModel(m), m);
      ClientCeilingAtMostService(FromServiceModel(m));
    }
    t
  }

  /** The set of names the client offers is the set of models the
      service accepts. */
  lemma NameSetsEqual()
    ensures (set n | n in GptModelNames) == (set m: Schemas.LlmModel :: Schemas.ModelName(m))
  {
    forall n ensures n in GptModelNames <==> exists m: Schemas.LlmModel :: Schemas.ModelName(m) == n {
      NameSetsAgree(n);
      if n in GptModelNames {
        assert Schemas.ModelName(Schemas.ParseModel(n).value) == n;
      }
    }
  }

  /** The two tables, keyed alike, are not the same table. */
  lemma TablesNotEqual()
    ensures ClientTableByModel() != Schemas.LlmModelMaxTokens
  {
    assert ClientTableByModel()[Schemas.Gpt4] == 4000;
  }
}

/**
 * Model-identifier routing: an identifier `prefix/native-name` selects
 * one of four provider clients, and a reasoning identifier is resolved
 * without its `-thinking` suffix and wrapped so that the text inside the
 * `thinking` tag is separated from the answer.
 *
 * Provider clients and the reasoning middleware are library code; a
 * handle records which client it came from, the name passed to it, and
 * the middleware wrapped around it.
 */
module Providers {
  import opened Wrappers
  import opened Strings

  /** The four provider clients, each built once from its own API key. */
  datatype Provider = OpenAI | Anthropic | Google | OpenRouter

  /** `extractReasoningMiddleware({ tagName })`. */
  datatype Middleware = ExtractReasoning(tagName: string)

  /** A language-model handle: the client, the provider-native model name, and its wrapping. */
  datatype LanguageModel = LanguageModel(provider: Provider, nativeName: string, middleware: Option<Middleware>)

  const THINKING_SUFFIX: string := "-thinking"
  const REASONING_MARKER: string := "reasoning"
  const REASONING_TAG: string := "thinking"
  const UNKNOWN_PREFIX_MESSAGE: string := "Unknown provider prefix: "
  const AUXILIARY_MODEL: string := "gpt-4.1-mini"

  /** The prefix that selects a provider. */
  function PrefixName(provider: Provider): string
  {
    match provider
    case OpenAI => "openai"
    case Anthropic => "anthropic"
    case Google => "google"
    case OpenRouter => "openrouter"
  }

  /** The `switch` on the prefix: one provider per known prefix, none otherwise. */
  function ProviderFor(prefix: string): (provider: Option<Provider>)
    ensures provider.Some? ==> PrefixName(provider.value) == prefix
    ensures provider.None? ==> forall p: Provider :: PrefixName(p) != prefix
  {
    match prefix
    case "openai" => Some(OpenAI)
    case "anthropic" => Some(Anthropic)
    case "google" => Some(Google)
    case "openrouter" => Some(OpenRouter)
    case _ => None
  }

  /** Every provider is selected by its own prefix and by no other. */
  lemma ProviderForPrefixName(provider: Provider, prefix: string)
    ensures ProviderFor(prefix) == Some(provider) <==> prefix == PrefixName(provider)
  {
  }

  /** The text before the first `/` (all of it when there is none). */
  function Prefix(modelId: string): string
  {
    Split(modelId, '/')[0]
  }

  /** The rest after the first `/`, its pieces joined back with `/`; empty when there is no `/`. */
  function ModelName(modelId: string): string
  {
    Join(Split(modelId, '/')[1..], '/')
  }

  /**
   * Splitting on the first `/`: when the identifier has one, the prefix
   * holds none, and prefix, `/` and model name spell the identifier; when
   * it has none, the prefix is the whole identifier and the name is empty.
   */
  lemma {:induction false} SplitOnFirstSlash(modelId: string)
    ensures '/' !in Prefix(modelId)
    ensures '/' in modelId ==> Prefix(modelId) + "/" + ModelName(modelId) == modelId
    ensures '/' !in modelId ==> Prefix(modelId) == modelId && ModelName(modelId) == ""
  {
    var parts := Split(modelId, '/');
    JoinSplit(modelId, '/');
    if '/' in modelId {
      assert |parts| >= 2;
      assert Join(parts, '/') == parts[0] + ['/'] + Join(parts[1..], '/');
    } else {
      SplitNoSeparator(modelId, '/');
    }
  }

  /** Prefix and model name are recovered from any identifier built as `prefix/name`. */
  lemma {:induction false} PrefixAndModelNameOf(prefix: string, name: string)
    requires '/' !in prefix
    ensures Prefix(prefix + "/" + name) == prefix
    ensures ModelName(prefix + "/" + name) == name
  {
    SplitAfterField(prefix, '/', name);
    var parts := Split(prefix + "/" + name, '/');
    assert parts == [prefix] + Split(name, '/');
    assert parts[1..] == Split(name, '/');
    JoinSplit(name, '/');
  }

  /** `resolveModel`: the provider's client applied to the model name, or the unknown-prefix error. */
  function ResolveModel(modelId: string): (model: Result<LanguageModel, string>)
    ensures model.Ok? <==> ProviderFor(Prefix(modelId)).Some?
    ensures model.Ok? ==> model.value.provider == ProviderFor(Prefix(modelId)).value
    ensures model.Ok? ==> model.value.nativeName == ModelName(modelId) && model.value.middleware.None?
    ensures model.Err? ==> model.error == UNKNOWN_PREFIX_MESSAGE + Prefix(modelId)
  {
    var prefix := Prefix(modelId);
    var modelName := ModelName(modelId);
    match ProviderFor(prefix)
    case Some(provider) => Ok(LanguageModel(provider, modelName, None))
    case None => Err(UNKNOWN_PREFIX_MESSAGE + prefix)
  }

  /** An identifier `prefix/name` with a known prefix resolves to that provider and exactly that name. */
  lemma ResolveKnownPrefix(provider: Provider, name: string)
    ensures ResolveModel(PrefixName(provider) + "/" + name) == Ok(LanguageModel(provider, name, None))
  {
    PrefixAndModelNameOf(PrefixName(provider), name);
  }

  /** An identifier `prefix/name` with any other prefix fails, naming that prefix. */
  lemma ResolveUnknownPrefix(prefix: string, name: string)
    requires '/' !in prefix
    requires forall p: Provider :: PrefixName(p) != prefix
    ensures ResolveModel(prefix + "/" + name) == Err(UNKNOWN_PREFIX_MESSAGE + prefix)
  {
    PrefixAndModelNameOf(prefix, name);
  }

  /** A native name may itself hold `/`: only the first `/` separates the prefix. */
  lemma NestedNativeName()
    ensures ResolveModel("openrouter/deepseek/deepseek-r1") == Ok(LanguageModel(OpenRouter, "deepseek/deepseek-r1", None))
  {
    var id, name := "openrouter/deepseek/deepseek-r1", "deepseek/deepseek-r1";
    assert id[..10] == PrefixName(OpenRouter);
    assert id[10] == '/';
    assert id[11..] == name;
    assert id == id[..10] + "/" + id[11..];
    ResolveKnownPrefix(OpenRouter, name);
  }

  /** `modelId.replace(/-thinking$/, "")`: drops one trailing `-thinking`, if there is one. */
  function StripThinkingSuffix(modelId: string): (base: string)
    ensures EndsWith(modelId, THINKING_SUFFIX) ==> base + THINKING_SUFFIX == modelId
    ensures !EndsWith(modelId, THINKING_SUFFIX) ==> base == modelId
  {
    if EndsWith(modelId, THINKING_SUFFIX) then modelId[..|modelId| - |THINKING_SUFFIX|] else modelId
  }

  /** Only one suffix goes: `x-thinking-thinking` becomes `x-thinking`. */
  lemma StripsOneSuffixOnly(base: string)
    ensures StripThinkingSuffix(base + THINKING_SUFFIX) == base
  {
    var id := base + THINKING_SUFFIX;
    assert id[|id| - |THINKING_SUFFIX|..] == THINKING_SUFFIX;
    assert id[..|id| - |THINKING_SUFFIX|] == base;
  }

  /** An identifier names a reasoning model when it contains `reasoning` or ends with `-thinking`. */
  predicate IsReasoningModel(modelId: string)
  {
    Includes(modelId, REASONING_MARKER) || EndsWith(modelId, THINKING_SUFFIX)
  }

  /**
   * `getLanguageModel` outside the test environment: a reasoning
   * identifier resolves without its suffix and is wrapped with reasoning
   * extraction on the `thinking` tag; any other resolves as it is.
   */
  function GetLanguageModel(modelId: string): (model: Result<LanguageModel, string>)
    ensures IsReasoningModel(modelId) ==>
      match ResolveModel(StripThinkingSuffix(modelId))
      case Ok(base) => model == Ok(base.(middleware := Some(ExtractReasoning(REASONING_TAG))))
      case Err(e) => model == Err(e)
    ensures !IsReasoningModel(modelId) ==> model == ResolveModel(modelId)
    ensures model.Ok? ==> (model.value.middleware.Some? <==> IsReasoningModel(modelId))
  {
    if IsReasoningModel(modelId) then
      var baseModelId := StripThinkingSuffix(modelId);
      match ResolveModel(baseModelId)
      case Ok(base) => Ok(base.(middleware := Some(ExtractReasoning(REASONING_TAG))))
      case Err(e) => Err(e)
    else
      ResolveModel(modelId)
  }

  /**
   * A `-thinking` identifier with a known prefix reaches its provider with
   * the suffix removed from the native name, wrapped for reasoning.
   */
  lemma ThinkingModelResolves(provider: Provider, name: string)
    ensures GetLanguageModel(PrefixName(provider) + "/" + name + THINKING_SUFFIX) ==
            Ok(LanguageModel(provider, name, Some(ExtractReasoning(REASONING_TAG))))
  {
    var id := PrefixName(provider) + "/" + name + THINKING_SUFFIX;
    assert id == (PrefixName(provider) + "/" + name) + THINKING_SUFFIX;
    StripsOneSuffixOnly(PrefixName(provider) + "/" + name);
    ResolveKnownPrefix(provider, name);
  }

  /** `openai/gpt-4.1-mini` is no reasoning identifier and resolves to the OpenAI client. */
  lemma AuxiliaryModelIsPlain()
    ensures GetLanguageModel("openai/" + AUXILIARY_MODEL) == Ok(LanguageModel(OpenAI, AUXILIARY_MODEL, None))
  {
    var id := "openai/" + AUXILIARY_MODEL;
    MissingCharacterExcludes(id, REASONING_MARKER, 'r');
    assert id[|id| - 1] != THINKING_SUFFIX[|THINKING_SUFFIX| - 1];
    assert id == PrefixName(OpenAI) + "/" + AUXILIARY_MODEL;
    ResolveKnownPrefix(OpenAI, AUXILIARY_MODEL);
  }

  /** An identifier `prefix/name` with a known prefix always resolves, to that provider, wrapped or not. */
  lemma KnownPrefixResolves(provider: Provider, name: string)
    ensures GetLanguageModel(PrefixName(provider) + "/" + name).Ok?
    ensures GetLanguageModel(PrefixName(provider) + "/" + name).value.provider == provider
  {
    var id := PrefixName(provider) + "/" + name;
    ResolveKnownPrefix(provider, name);
    if EndsWith(id, THINKING_SUFFIX) {
      SuffixAfterSeparator(PrefixName(provider), '/', name, THINKING_SUFFIX);
      var base := name[..|name| - |THINKING_SUFFIX|];
      assert name == base + THINKING_SUFFIX;
      assert id == PrefixName(provider) + "/" + base + THINKING_SUFFIX;
      ThinkingModelResolves(provider, base);
    }
  }

  /** `getTitleModel` outside the test environment: the same handle as the id `openai/gpt-4.1-mini`. */
  function GetTitleModel(): (model: LanguageModel)
    ensures GetLanguageModel("openai/" + AUXILIARY_MODEL) == Ok(model)
  {
    AuxiliaryModelIsPlain();
    LanguageModel(OpenAI, AUXILIARY_MODEL, None)
  }

  /** `getArtifactModel` outside the test environment: the same handle as the id `openai/gpt-4.1-mini`. */
  function GetArtifactModel(): (model: LanguageModel)
    ensures GetLanguageModel("openai/" + AUXILIARY_MODEL) == Ok(model)
  {
    AuxiliaryModelIsPlain();
    LanguageModel(OpenAI, AUXILIARY_MODEL, None)
  }
}

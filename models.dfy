/**
 * The chat-model catalogue and its grouping by provider tag, with the
 * facts that tie the catalogue to the router: every shipped identifier
 * resolves, and only one of them is a reasoning identifier.
 */
module Models {
  import opened Wrappers
  import opened Strings
  import opened Providers

  /** One catalogue entry. `provider` is a display group, not necessarily the routing prefix. */
  datatype ChatModel = ChatModel(id: string, name: string, provider: string, description: string)

  const DEFAULT_CHAT_MODEL: string := "openai/gpt-4.1-mini"

  const CHAT_MODELS: seq<ChatModel> := [
    ChatModel("openai/gpt-4.1-mini", "GPT-4.1 Mini", "openai", "Fast and cost-effective for simple tasks"),
    ChatModel("openai/gpt-4.1", "GPT-4.1", "openai", "Flagship OpenAI model, great all-rounder"),
    ChatModel("openai/gpt-4o", "GPT-4o", "openai", "Fast multimodal model with vision support"),
    ChatModel("anthropic/claude-haiku-4.5", "Claude Haiku 4.5", "anthropic", "Fast and affordable, great for everyday tasks"),
    ChatModel("anthropic/claude-sonnet-4.5", "Claude Sonnet 4.5", "anthropic", "Best balance of speed, intelligence, and cost"),
    ChatModel("anthropic/claude-opus-4.5", "Claude Opus 4.5", "anthropic", "Most capable Anthropic model"),
    ChatModel("google/gemini-2.5-flash", "Gemini 2.5 Flash", "google", "Ultra fast and affordable"),
    ChatModel("google/gemini-2.5-pro", "Gemini 2.5 Pro", "google", "Most capable Google model"),
    ChatModel("openrouter/deepseek/deepseek-r1", "DeepSeek R1", "openrouter", "Strong reasoning model, open-source"),
    ChatModel("openrouter/meta-llama/llama-4-maverick", "Llama 4 Maverick", "openrouter", "Meta's most capable open model"),
    ChatModel("openrouter/mistralai/mistral-large-2411", "Mistral Large", "openrouter", "Mistral's flagship model"),
    ChatModel("anthropic/claude-3.7-sonnet-thinking", "Claude 3.7 Sonnet", "reasoning", "Extended thinking for complex problems"),
    ChatModel("openai/o4-mini", "o4-mini", "reasoning", "OpenAI reasoning model, fast and efficient")
  ]

  /** The provider tags that occur in `models`. */
  function ProvidersOf(models: seq<ChatModel>): set<string>
  {
    set m | m in models :: m.provider
  }

  /**
   * The entries tagged `provider`, in the order they were pushed: the
   * group of all but the last entry, then the last entry if it belongs.
   */
  function ModelsOf(models: seq<ChatModel>, provider: string): (group: seq<ChatModel>)
    ensures forall m :: m in group ==> m in models && m.provider == provider
    ensures |group| <= |models|
  {
    if models == [] then []
    else
      var last := models[|models| - 1];
      ModelsOf(models[..|models| - 1], provider) + (if last.provider == provider then [last] else [])
  }

  /** The grouped catalogue: one array per tag that occurs, holding that tag's entries in order. */
  function Grouped(models: seq<ChatModel>): (groups: map<string, seq<ChatModel>>)
  {
    map p | p in ProvidersOf(models) :: ModelsOf(models, p)
  }

  /**
   * `modelsByProvider`: the reduce that pushes each entry onto the array
   * of its tag, creating the array the first time the tag is seen.
   */
  method GroupByProvider(models: seq<ChatModel>) returns (groups: map<string, seq<ChatModel>>)
    ensures groups == Grouped(models)
  {
    groups := map[];
    var i := 0;
    while i < |models|
      invariant 0 <= i <= |models|
      invariant groups == Grouped(models[..i])
    {
      var model := models[i];
      PushOntoGroups(models[..i], model);
      assert models[..i + 1] == models[..i] + [model];
      if model.provider !in groups {
        groups := groups[model.provider := []];
      }
      groups := groups[model.provider := groups[model.provider] + [model]];
      i := i + 1;
    }
    assert models[..|models|] == models;
  }

  /** Pushing one more entry extends its own group by that entry, creating it if needed, and leaves the others alone. */
  lemma PushOntoGroups(done: seq<ChatModel>, model: ChatModel)
    ensures var before := Grouped(done);
            var created := if model.provider in before then before else before[model.provider := []];
            Grouped(done + [model]) == created[model.provider := created[model.provider] + [model]]
  {
    var next := done + [model];
    var p := model.provider;
    var before := Grouped(done);
    var created := if p in before then before else before[p := []];
    var after := created[p := created[p] + [model]];
    ProvidersAfterPush(done, model);
    assert before.Keys == ProvidersOf(done);
    if p !in ProvidersOf(done) {
      AbsentTagHasNoEntries(done, p);
    }
    forall q | q in after
      ensures Grouped(next)[q] == after[q]
    {
      GroupAfterPush(done, model, q);
    }
  }

  lemma ProvidersAfterPush(done: seq<ChatModel>, model: ChatModel)
    ensures ProvidersOf(done + [model]) == ProvidersOf(done) + {model.provider}
  {
    var next := done + [model];
    forall q | q in ProvidersOf(next) ensures q in ProvidersOf(done) + {model.provider} {
      var m :| m in next && m.provider == q;
    }
  }

  lemma GroupAfterPush(done: seq<ChatModel>, model: ChatModel, provider: string)
    ensures ModelsOf(done + [model], provider) == ModelsOf(done, provider) + (if model.provider == provider then [model] else [])
  {
    var next := done + [model];
    assert next[..|next| - 1] == done;
  }

  lemma AbsentTagHasNoEntries(models: seq<ChatModel>, provider: string)
    requires provider !in ProvidersOf(models)
    ensures ModelsOf(models, provider) == []
  {
  }

  /** A group exists only for a tag some entry carries, so no group is empty. */
  lemma {:induction false} GroupsAreNonEmpty(models: seq<ChatModel>, provider: string)
    requires provider in ProvidersOf(models)
    ensures |ModelsOf(models, provider)| > 0
  {
    var last := models[|models| - 1];
    if last.provider != provider {
      var init := models[..|models| - 1];
      var m :| m in models && m.provider == provider;
      assert m in init by {
        assert m == last || m in init by {
          assert models == init + [last];
        }
      }
      GroupsAreNonEmpty(init, provider);
    }
  }

  /** Entries go into groups in catalogue order: the group of `a + b` is the group of `a`, then that of `b`. */
  lemma {:induction false} GroupsKeepOrder(a: seq<ChatModel>, b: seq<ChatModel>, provider: string)
    ensures ModelsOf(a + b, provider) == ModelsOf(a, provider) + ModelsOf(b, provider)
  {
    if b == [] {
      assert a + b == a;
    } else {
      var last := b[|b| - 1];
      assert (a + b)[..|a + b| - 1] == a + b[..|b| - 1];
      GroupsKeepOrder(a, b[..|b| - 1], provider);
    }
  }

  /** Each entry lies in the group of its own tag. */
  lemma {:induction false} EntryInOwnGroup(models: seq<ChatModel>, i: nat)
    requires i < |models|
    ensures models[i] in ModelsOf(models, models[i].provider)
  {
    if i < |models| - 1 {
      var init := models[..|models| - 1];
      assert init[i] == models[i];
      EntryInOwnGroup(init, i);
    }
  }

  /** The tags of `models`, each once, in order of first appearance. */
  function DistinctProviders(models: seq<ChatModel>): (keys: seq<string>)
    ensures forall p :: p in keys <==> p in ProvidersOf(models)
    ensures forall j, k :: 0 <= j < k < |keys| ==> keys[j] != keys[k]
  {
    if models == [] then []
    else
      var init := models[..|models| - 1];
      var last := models[|models| - 1];
      assert models == init + [last];
      var keys := DistinctProviders(init);
      if last.provider in keys then keys else keys + [last.provider]
  }

  /**
   * The `j`-th key is the tag of some entry `i`, and the tags of the entries
   * before `i` are exactly the first `j` keys: `i` is where that tag first
   * appears, and the keys are ordered by first appearance.
   */
  lemma {:induction false} KeysInFirstAppearanceOrder(models: seq<ChatModel>, j: int)
    requires 0 <= j < |DistinctProviders(models)|
    ensures exists i ::
      && 0 <= i < |models|
      && models[i].provider == DistinctProviders(models)[j]
      && forall p :: p in ProvidersOf(models[..i]) <==> p in DistinctProviders(models)[..j]
  {
    var init := models[..|models| - 1];
    var last := models[|models| - 1];
    assert models == init + [last];
    var keys0, keys := DistinctProviders(init), DistinctProviders(models);
    if j < |keys0| {
      KeysInFirstAppearanceOrder(init, j);
      var i :|
        && 0 <= i < |init|
        && init[i].provider == keys0[j]
        && forall p :: p in ProvidersOf(init[..i]) <==> p in keys0[..j];
      assert models[..i] == init[..i];
      assert keys[..j] == keys0[..j];
      assert models[i] == init[i];
    } else {
      var i := |init|;
      assert models[..i] == init;
      assert keys[..j] == keys0;
      assert models[i] == last;
    }
  }

  /** The sum of the sizes of the groups named by `keys`. */
  function GroupSizes(keys: seq<string>, models: seq<ChatModel>): nat
  {
    if keys == [] then 0 else |ModelsOf(models, keys[0])| + GroupSizes(keys[1..], models)
  }

  lemma {:induction false} GroupSizesAppendKey(keys: seq<string>, p: string, models: seq<ChatModel>)
    ensures GroupSizes(keys + [p], models) == GroupSizes(keys, models) + |ModelsOf(models, p)|
  {
    if keys != [] {
      assert (keys + [p])[1..] == keys[1..] + [p];
      GroupSizesAppendKey(keys[1..], p, models);
    }
  }

  lemma {:induction false} GroupSizesAppendModel(keys: seq<string>, models: seq<ChatModel>, m: ChatModel)
    requires forall j, k :: 0 <= j < k < |keys| ==> keys[j] != keys[k]
    ensures GroupSizes(keys, models + [m]) == GroupSizes(keys, models) + (if m.provider in keys then 1 else 0)
  {
    if keys != [] {
      assert (models + [m])[..|models + [m]| - 1] == models;
      GroupSizesAppendModel(keys[1..], models, m);
      assert m.provider in keys <==> m.provider == keys[0] || m.provider in keys[1..];
      if m.provider == keys[0] {
        assert m.provider !in keys[1..];
      }
    }
  }

  /** Every entry lies in exactly one group, so the group sizes add up to the number of entries. */
  lemma {:induction false} GroupSizesSum(models: seq<ChatModel>)
    ensures GroupSizes(DistinctProviders(models), models) == |models|
  {
    if models != [] {
      var init := models[..|models| - 1];
      var last := models[|models| - 1];
      assert models == init + [last];
      var keys := DistinctProviders(init);
      GroupSizesSum(init);
      GroupSizesAppendModel(keys, init, last);
      if last.provider !in keys {
        GroupSizesAppendKey(keys, last.provider, models);
        AbsentTagHasNoEntries(init, last.provider);
        GroupAfterPush(init, last, last.provider);
      }
    }
  }

  /** The default chat model is one of the catalogue's entries. */
  lemma DefaultModelInCatalogue()
    ensures exists m :: m in CHAT_MODELS && m.id == DEFAULT_CHAT_MODEL
  {
    assert CHAT_MODELS[0] in CHAT_MODELS;
  }

  /** The provider whose `prefix/` an identifier starts with, if any. */
  function RoutePrefix(modelId: string): (provider: Option<Provider>)
    ensures provider.Some? ==> PrefixName(provider.value) + "/" <= modelId
  {
    if "openai/" <= modelId then Some(OpenAI)
    else if "anthropic/" <= modelId then Some(Anthropic)
    else if "google/" <= modelId then Some(Google)
    else if "openrouter/" <= modelId then Some(OpenRouter)
    else None
  }

  /** An identifier that starts with `prefix/` for a known prefix resolves to that provider, wrapped or not. */
  lemma StartsWithKnownPrefix(modelId: string)
    requires RoutePrefix(modelId).Some?
    ensures GetLanguageModel(modelId).Ok?
    ensures GetLanguageModel(modelId).value.provider == RoutePrefix(modelId).value
  {
    var provider := RoutePrefix(modelId).value;
    var prefix := PrefixName(provider);
    var name := modelId[|prefix| + 1..];
    assert modelId == prefix + "/" + name;
    KnownPrefixResolves(provider, name);
  }

  /** The OpenAI entries of the catalogue are routed to OpenAI. */
  lemma OpenAIEntriesRouted(i: nat)
    requires i < 3 || i == 12
    ensures RoutePrefix(CHAT_MODELS[i].id) == Some(OpenAI)
  {
    assert "openai/" <= CHAT_MODELS[i].id;
  }

  /** The Anthropic entries of the catalogue are routed to Anthropic. */
  lemma AnthropicEntriesRouted(i: nat)
    requires 3 <= i < 6 || i == 11
    ensures RoutePrefix(CHAT_MODELS[i].id) == Some(Anthropic)
  {
    assert "anthropic/" <= CHAT_MODELS[i].id;
    assert CHAT_MODELS[i].id[0] == 'a';
  }

  /** The Google entries of the catalogue are routed to Google. */
  lemma GoogleEntriesRouted(i: nat)
    requires 6 <= i < 8
    ensures RoutePrefix(CHAT_MODELS[i].id) == Some(Google)
  {
    assert "google/" <= CHAT_MODELS[i].id;
    assert CHAT_MODELS[i].id[0] == 'g';
  }

  /** The OpenRouter entries of the catalogue are routed to OpenRouter. */
  lemma OpenRouterEntriesRouted(i: nat)
    requires 8 <= i < 11
    ensures RoutePrefix(CHAT_MODELS[i].id) == Some(OpenRouter)
  {
    assert "openrouter/" <= CHAT_MODELS[i].id;
    assert CHAT_MODELS[i].id[0] == 'o';
    assert !("openai/" <= CHAT_MODELS[i].id) by {
      assert CHAT_MODELS[i].id[4] == 'r' != "openai/"[4];
    }
  }

  /** Every catalogue identifier starts with `openai/`, `anthropic/`, `google/` or `openrouter/`. */
  lemma EntryIsRouted(i: nat)
    requires i < |CHAT_MODELS|
    ensures RoutePrefix(CHAT_MODELS[i].id).Some?
  {
    if i < 3 || i == 12 {
      OpenAIEntriesRouted(i);
    } else if i < 6 || i == 11 {
      AnthropicEntriesRouted(i);
    } else if i < 8 {
      GoogleEntriesRouted(i);
    } else {
      OpenRouterEntriesRouted(i);
    }
  }

  /** So no catalogue identifier meets the unknown-prefix error: each one resolves. */
  lemma CatalogueResolves()
    ensures forall i :: 0 <= i < |CHAT_MODELS| ==> GetLanguageModel(CHAT_MODELS[i].id).Ok?
  {
    forall i | 0 <= i < |CHAT_MODELS|
      ensures GetLanguageModel(CHAT_MODELS[i].id).Ok?
    {
      EntryIsRouted(i);
      StartsWithKnownPrefix(CHAT_MODELS[i].id);
    }
  }

  /** An identifier lacking one letter of `reasoning` and not ending in `g` is not a reasoning identifier. */
  lemma PlainIdentifier(id: string, c: char)
    requires c in REASONING_MARKER && c !in id
    requires id != [] && id[|id| - 1] != THINKING_SUFFIX[|THINKING_SUFFIX| - 1]
    ensures !IsReasoningModel(id)
  {
    MissingCharacterExcludes(id, REASONING_MARKER, c);
    if |THINKING_SUFFIX| <= |id| {
      assert id[|id| - |THINKING_SUFFIX|..][|THINKING_SUFFIX| - 1] == id[|id| - 1];
    }
  }

  /** The OpenAI identifiers of the catalogue have no `r` and do not end in `g`. */
  lemma OpenAIIdsArePlain()
    ensures !IsReasoningModel("openai/gpt-4.1-mini")
    ensures !IsReasoningModel("openai/gpt-4.1")
    ensures !IsReasoningModel("openai/gpt-4o")
    ensures !IsReasoningModel("openai/o4-mini")
  {
    PlainIdentifier("openai/gpt-4.1-mini", 'r');
    PlainIdentifier("openai/gpt-4.1", 'r');
    PlainIdentifier("openai/gpt-4o", 'r');
    PlainIdentifier("openai/o4-mini", 'r');
  }

  /** The plain Anthropic identifiers lack an `s` or a `g`; the `-thinking` one is a reasoning identifier. */
  lemma AnthropicIds()
    ensures !IsReasoningModel("anthropic/claude-haiku-4.5")
    ensures !IsReasoningModel("anthropic/claude-sonnet-4.5")
    ensures !IsReasoningModel("anthropic/claude-opus-4.5")
    ensures IsReasoningModel("anthropic/claude-3.7-sonnet-thinking")
  {
    PlainIdentifier("anthropic/claude-haiku-4.5", 's');
    PlainIdentifier("anthropic/claude-sonnet-4.5", 'g');
    PlainIdentifier("anthropic/claude-opus-4.5", 'g');
    assert "anthropic/claude-3.7-sonnet-thinking" == "anthropic/claude-3.7-sonnet" + THINKING_SUFFIX;
  }

  /** The Google identifiers lack an `r` or an `s`. */
  lemma GoogleIdsArePlain()
    ensures !IsReasoningModel("google/gemini-2.5-flash")
    ensures !IsReasoningModel("google/gemini-2.5-pro")
  {
    PlainIdentifier("google/gemini-2.5-flash", 'r');
    PlainIdentifier("google/gemini-2.5-pro", 's');
  }

  /**
   * The OpenRouter identifiers: two lack a `g`; the Mistral one holds
   * every letter of `reasoning`, but never an `n` followed by a `g`.
   */
  lemma OpenRouterIdsArePlain()
    ensures !IsReasoningModel("openrouter/deepseek/deepseek-r1")
    ensures !IsReasoningModel("openrouter/meta-llama/llama-4-maverick")
    ensures !IsReasoningModel("openrouter/mistralai/mistral-large-2411")
  {
    PlainIdentifier("openrouter/deepseek/deepseek-r1", 'g');
    PlainIdentifier("openrouter/meta-llama/llama-4-maverick", 'g');
    MistralIdIsPlain();
  }

  /** The Mistral identifier: its only `g` follows an `r`, and no `n` comes after it, so it holds no `ng`. */
  lemma MistralIdIsPlain()
    ensures !IsReasoningModel("openrouter/mistralai/mistral-large-2411")
  {
    var a, b := "openrouter/mistralai/mistral-lar", "ge-2411";
    var id := a + b;
    assert id == "openrouter/mistralai/mistral-large-2411";
    StraddlingPairExcludes(a, b, REASONING_MARKER, 7);
    assert id[|id| - 9..][8] == id[|id| - 1];
  }

  /**
   * Exactly one catalogue entry is a reasoning identifier: the
   * `-thinking` one. The entry tagged `reasoning` whose identifier is
   * `openai/o4-mini` is not.
   */
  lemma EntryIsReasoning(i: nat)
    requires i < |CHAT_MODELS|
    ensures IsReasoningModel(CHAT_MODELS[i].id) <==> i == 11
  {
    if i < 3 || i == 12 {
      OpenAIIdsArePlain();
    } else if i < 6 || i == 11 {
      AnthropicIds();
    } else if i < 8 {
      GoogleIdsArePlain();
    } else {
      OpenRouterIdsArePlain();
    }
  }

  /** A routed identifier resolves, and its handle is wrapped exactly when it is a reasoning identifier. */
  lemma RoutedMiddleware(modelId: string)
    requires RoutePrefix(modelId).Some?
    ensures GetLanguageModel(modelId).Ok?
    ensures GetLanguageModel(modelId).value.middleware.Some? <==> IsReasoningModel(modelId)
  {
    StartsWithKnownPrefix(modelId);
  }

  /** Entry `i` resolves, and its handle is wrapped exactly when `i` is entry 11. */
  lemma EntryMiddleware(i: nat)
    requires i < |CHAT_MODELS|
    ensures GetLanguageModel(CHAT_MODELS[i].id).Ok?
    ensures GetLanguageModel(CHAT_MODELS[i].id).value.middleware.Some? <==> i == 11
  {
    var id := CHAT_MODELS[i].id;
    EntryIsRouted(i);
    RoutedMiddleware(id);
    EntryIsReasoning(i);
  }

  /** The catalogue entries whose handle carries the reasoning middleware are exactly entry 11, the `-thinking` one. */
  lemma OnlyThinkingEntryIsReasoning()
    ensures CHAT_MODELS[11].id == "anthropic/claude-3.7-sonnet-thinking"
    ensures CHAT_MODELS[12].provider == "reasoning"
    ensures forall i :: 0 <= i < |CHAT_MODELS| ==>
      GetLanguageModel(CHAT_MODELS[i].id).Ok? &&
      (GetLanguageModel(CHAT_MODELS[i].id).value.middleware.Some? <==> i == 11)
  {
    forall i | 0 <= i < |CHAT_MODELS|
      ensures GetLanguageModel(CHAT_MODELS[i].id).Ok?
      ensures GetLanguageModel(CHAT_MODELS[i].id).value.middleware.Some? <==> i == 11
    {
      EntryMiddleware(i);
    }
  }
}

# A verified model of the chatbot's database tool, model router, credential envelope and model catalogue

This Dafny project models four small pieces of the Next.js AI chatbot that sit around its "agent with a database tool" feature, and proves what each of them promises:

- **The `queryMongo` tool** (`query_mongo.dfy`). This is what happens when the language model calls the read-only document-store tool:
  - the `limit` is clamped;
  - the filter text is parsed, and a syntax error counts the same as `null`;
  - one `find` or one `aggregate` request is shaped;
  - the outcome becomes a returned value: documents, a timeout message or a failure message.

  `JSON.parse`, the document store and the `MONGODB_URI` setting are parameters. A timeout is the store raising an `AbortError`.
- **Model-identifier routing** (`providers.dfy`). `resolveModel` splits `prefix/native-name` on the first `/` and dispatches over four provider clients; any other prefix raises the unknown-prefix error. `getLanguageModel` treats an identifier that contains `reasoning` or ends with `-thinking` as a reasoning model. It resolves such an identifier without the suffix and wraps it in reasoning extraction on the `thinking` tag. `getTitleModel` and `getArtifactModel` return the OpenAI `gpt-4.1-mini` handle. A handle is a value that records the provider, the native name and the middleware.
- **The credential envelope** (`crypto.dfy`). `encrypt` writes `hex(iv):hex(tag):hex(ciphertext)` under the `ENCRYPTION_KEY` setting. `decrypt` splits the string on `:` and opens the first three fields. AES-256-GCM (NIST SP 800-38D) is a pair of functions `seal`/`open`, and the round trip is proved for every pair that satisfies the `Authenticated` predicate. The 12-byte iv is a parameter.
- **The model catalogue** (`models.dfy`). It holds the thirteen catalogue entries and the default model. `modelsByProvider` becomes a method whose loop pushes each entry onto the array of its provider tag, proved against a specification map. The module also proves what the catalogue and the router guarantee together: every catalogue identifier resolves, and exactly one of them is wrapped for reasoning.

Three support modules define the shared vocabulary:

- `wrappers.dfy`: `Option` and `Result`.
- `strings.dfy`: JavaScript `split`, `join`, `endsWith` and `includes` for a one-character separator.
- `json.dfy`: JSON values, and the `typeof`/`Array.isArray` tests.

The code does not have these three behaviours, so the model does not have them either:

- a per-user credential lookup or a missing-credential error (provider keys are process-wide settings);
- sanitisation of store error messages (the raw `error.message` is forwarded);
- a field-count check in `decrypt`.

## Model

| member | source | states |
|---|---|---|
| QueryMongo.EffectiveLimit | lib/ai/tools/query-mongo.ts:51 | The limit sent to the store is never above 50. It is 10 when none is given, the requested value when that is at most 50, and 50 otherwise. |
| QueryMongo.SchemaLimitInRange | lib/ai/tools/query-mongo.ts:41-51 | For any input the schema accepts, the effective limit lies in 1..50. |
| QueryMongo.ParseJson | lib/ai/tools/query-mongo.ts:8-14 | The result is `null` exactly when parsing fails or yields `null`. Otherwise it is the parsed value. |
| QueryMongo.FindFilter | lib/ai/tools/query-mongo.ts:73-76 | The `find` filter is the parsed value when `typeof` calls it an object and it is no array (an object, or `null`). It is `{}` otherwise. |
| QueryMongo.FindOption | lib/ai/tools/query-mongo.ts:78-83 | Projection and sort are `{}` when absent, empty, unparsable or `null`. Otherwise they are the parsed value. |
| QueryMongo.AggregatePipeline | lib/ai/tools/query-mongo.ts:94-95 | The pipeline is one longer than the model's stages. It holds those stages unchanged and in order, then `{$limit: limit}` last. |
| QueryMongo.AggregateCannotBypassLimit | lib/ai/tools/query-mongo.ts:94-95 | Whatever stages the model writes, the last stage sent is a `$limit` of at most 50. |
| QueryMongo.ClassifyError | lib/ai/tools/query-mongo.ts:113-120 | An `AbortError` gives the timeout message. Any other `Error` gives "Query failed: " plus its message. A non-Error gives "Query failed: Unknown error". |
| QueryMongo.TimeoutIsDistinct | lib/ai/tools/query-mongo.ts:113-120 | The timeout message comes from an `AbortError` and from nothing else, whatever other messages say. |
| QueryMongo.GetMongoClient | lib/db/mongo.ts:5-10 | Obtaining the client fails with "MONGODB_URI is not defined" exactly when the setting is unset or empty. |
| QueryMongo.Execute | lib/ai/tools/query-mongo.ts:49-120 | A filter that fails to parse or is `null` returns exactly the invalid-filter error, and an unset connection string returns "Query failed: MONGODB_URI is not defined"; neither issues a request. Otherwise exactly one request is issued: `find` with the filter, projection, sort and limit above, or `aggregate` with the limited pipeline for any other operation. Documents give a result echoing collection and operation with `count` equal to their number; a raised value gives the classified error; nothing is thrown. |
| QueryMongo.OversizedLimitIsCapped | lib/ai/tools/query-mongo.ts:51-95 | A one-stage pipeline that asks for 1000 documents is sent as that stage followed by `{$limit: 50}`. |
| Strings.Split | lib/ai/providers.ts:22 | There is always at least one piece, and no piece holds the separator. There is exactly one piece when the separator is absent. The first piece is a prefix of the string. |
| Strings.JoinSplit | lib/ai/providers.ts:22-23 | Joining the pieces of a split with the same separator gives back the string. |
| Providers.ProviderFor | lib/ai/providers.ts:25-36 | A selected provider is the one whose prefix is the text. When none is selected, no provider has that prefix. |
| Providers.ProviderForPrefixName | lib/ai/providers.ts:25-36 | Each provider is selected by its own prefix and by no other. |
| Providers.SplitOnFirstSlash | lib/ai/providers.ts:22-23 | The prefix holds no `/`. With a `/`, prefix + "/" + model name is the identifier. Without one, the prefix is the whole identifier and the model name is empty. |
| Providers.PrefixAndModelNameOf | lib/ai/providers.ts:22-23 | For `prefix/name` with no `/` in the prefix, the prefix and the name (slashes included) come back exactly. |
| Providers.ResolveModel | lib/ai/providers.ts:21-37 | It succeeds exactly when the prefix is one of the four. It then gives that provider with the rejoined model name, unwrapped. Otherwise it fails with "Unknown provider prefix: " plus the prefix. |
| Providers.ResolveKnownPrefix | lib/ai/providers.ts:21-37 | `prefix/name` with a known prefix resolves to that provider and exactly that name. |
| Providers.ResolveUnknownPrefix | lib/ai/providers.ts:34-35 | `prefix/name` with any other prefix fails, naming that prefix. |
| Providers.NestedNativeName | lib/ai/providers.ts:22-33 | "openrouter/deepseek/deepseek-r1" resolves to OpenRouter with native name "deepseek/deepseek-r1". |
| Providers.StripThinkingSuffix | lib/ai/providers.ts:69 | With a trailing `-thinking`, the result plus `-thinking` is the identifier. Without one, the identifier is unchanged. |
| Providers.StripsOneSuffixOnly | lib/ai/providers.ts:39 | Exactly one `-thinking` is removed, even when the base itself ends with `-thinking`. |
| Providers.GetLanguageModel | lib/ai/providers.ts:60-78 | A reasoning identifier resolves without its suffix and is wrapped with extraction on `thinking`, or carries the resolution error. Any other identifier is `resolveModel` of itself. A handle is wrapped exactly when the identifier is a reasoning one. |
| Providers.ThinkingModelResolves | lib/ai/providers.ts:65-74 | `prefix/name-thinking` with a known prefix gives that provider, native name `name` and the `thinking` extraction. |
| Providers.KnownPrefixResolves | lib/ai/providers.ts:60-78 | Any identifier with a known prefix resolves, wrapped or not, to that prefix's provider. |
| Providers.AuxiliaryModelIsPlain | lib/ai/providers.ts:84 | "openai/gpt-4.1-mini" is no reasoning identifier and resolves to the unwrapped OpenAI handle. |
| Providers.GetTitleModel | lib/ai/providers.ts:80-85 | The title model is the handle that "openai/gpt-4.1-mini" resolves to. |
| Providers.GetArtifactModel | lib/ai/providers.ts:87-92 | The artifact model is the handle that "openai/gpt-4.1-mini" resolves to. |
| Crypto.HexEncode | lib/crypto.ts:26 | The encoding has two characters per byte, all of them hex digits. |
| Crypto.HexDecode | lib/crypto.ts:35 | Lenient decoding gives at most one byte per two characters. |
| Crypto.HexRoundTrip | lib/crypto.ts:26-39 | Decoding the hex encoding gives back the bytes. |
| Crypto.HexHasNoColon | lib/crypto.ts:26-31 | A hex encoding never holds the `:` separator. |
| Crypto.GetEncryptionKey | lib/crypto.ts:9-15 | It fails with the not-defined error exactly when the setting is unset or empty. Otherwise the key is the hex-decoded setting. |
| Crypto.ErrorMessage | lib/crypto.ts:11-13 | A missing key is reported as "ENCRYPTION_KEY is not defined". That is the only error whose text the module writes itself. |
| Crypto.FormatEnvelope | lib/crypto.ts:26 | Splitting the envelope on `:` gives exactly hex(iv), hex(tag) and hex(ciphertext), in that order. |
| Crypto.ParseEnvelope | lib/crypto.ts:31-37 | Destructuring fails exactly when the string has fewer than three `:`-separated fields. |
| Crypto.EnvelopeRoundTrip | lib/crypto.ts:26-37 | Splitting and decoding a written envelope gives back its iv, tag and ciphertext. |
| Crypto.Encrypt | lib/crypto.ts:17-27 | An unset key fails before any cipher work. It succeeds exactly when the key decodes to 32 bytes. The result splits into hex(iv), hex(tag) and hex(ciphertext) of the sealed text, and its first field is 24 characters. |
| Crypto.Decrypt | lib/crypto.ts:29-42 | An unset key fails before any cipher work. A key that is not 32 bytes fails with the invalid-length error. With a good key, fewer than three fields fail with the missing-field error. A text comes back exactly when the key is good, there are three fields and the cipher opens them. It is then the opened text, and a tag that does not verify fails instead. |
| Crypto.EncryptDecryptRoundTrip | lib/crypto.ts:17-42 | With the same key and an authenticated cipher, decrypting what `encrypt` wrote gives back the text. |
| Crypto.DistinctIvsGiveDistinctEnvelopes | lib/crypto.ts:19-26 | Envelopes written under different ivs differ, whatever the texts. |
| Crypto.DecryptIgnoresExtraFields | lib/crypto.ts:31 | Anything after a third `:` does not change the outcome of `decrypt`. |
| Models.ModelsOf | lib/ai/models.ts:96-105 | Every entry of a provider's group carries that provider tag and comes from the catalogue. |
| Models.GroupByProvider | lib/ai/models.ts:96-105 | The grouped object is the specification map: one key per tag that occurs, holding that tag's entries in catalogue order. |
| Models.PushOntoGroups | lib/ai/models.ts:97-102 | One step of the reduce: create the tag's array if it is missing, then push. This extends only that tag's group. |
| Models.GroupsAreNonEmpty | lib/ai/models.ts:98-100 | A key exists only for a tag some entry carries, so no group is empty. |
| Models.GroupsKeepOrder | lib/ai/models.ts:101 | The group of `a + b` is the group of `a` followed by that of `b`: pushing keeps catalogue order. |
| Models.EntryInOwnGroup | lib/ai/models.ts:96-105 | Every entry lies in the group of its own tag. |
| Models.DistinctProviders | lib/ai/models.ts:96-105 | The keys are exactly the tags that occur, each once. |
| Models.KeysInFirstAppearanceOrder | lib/ai/models.ts:97-99 | Key `j` first appears at an entry whose predecessors carry exactly the first `j` keys, so keys are in order of first appearance. For non-numeric tags such as the catalogue's, this is the insertion order of the grouped object's keys. |
| Models.GroupSizesSum | lib/ai/models.ts:96-105 | The group sizes add up to the number of entries, so each entry is in exactly one group. |
| Models.DefaultModelInCatalogue | lib/ai/models.ts:1-13 | `DEFAULT_CHAT_MODEL` is the id of a catalogue entry. |
| Models.RoutePrefix | lib/ai/models.ts:10-94 | A found provider's `prefix/` begins the identifier. |
| Models.StartsWithKnownPrefix | lib/ai/providers.ts:60-78 | An identifier beginning with a known `prefix/` resolves to that provider. |
| Models.EntryIsRouted | lib/ai/models.ts:10-94 | Every catalogue id begins with `openai/`, `anthropic/`, `google/` or `openrouter/`. |
| Models.CatalogueResolves | lib/ai/models.ts:10-94 | No catalogue id meets the unknown-prefix error: each one resolves. |
| Models.OpenAIIdsArePlain | lib/ai/models.ts:13-89 | None of the four OpenAI ids, "openai/o4-mini" included, is a reasoning identifier. |
| Models.AnthropicIds | lib/ai/models.ts:32-83 | The three Claude 4.5 ids are no reasoning identifiers. "anthropic/claude-3.7-sonnet-thinking" is one. |
| Models.GoogleIdsArePlain | lib/ai/models.ts:51-57 | Neither Gemini id is a reasoning identifier. |
| Models.OpenRouterIdsArePlain | lib/ai/models.ts:64-76 | No OpenRouter id is a reasoning identifier. This includes the Mistral one, which holds every letter of `reasoning`. |
| Models.EntryIsReasoning | lib/ai/models.ts:10-94 | Entry `i` is a reasoning identifier exactly when it is the `-thinking` entry. |
| Models.EntryMiddleware | lib/ai/models.ts:10-94 | Entry `i` resolves, and its handle is wrapped exactly when it is the `-thinking` entry. |
| Models.OnlyThinkingEntryIsReasoning | lib/ai/models.ts:82-93 | Only "anthropic/claude-3.7-sonnet-thinking" is wrapped for reasoning. The other entry tagged `reasoning` ("openai/o4-mini") is not. |

## Left out

- QueryMongo.Execute: the tool's `needsApproval: true` flag (lib/ai/tools/query-mongo.ts:48) is not modelled. The AI SDK runtime asks the user before it calls `execute`.
- The test-environment branch of the router, which returns mock models (lib/ai/providers.ts:41-63 and the guards at 61, 81, 88). The model is the production path.
- The `setTimeout`/`AbortController` timer and its cancellation (lib/ai/tools/query-mongo.ts:63-67, 103-105). These are timing and concurrency. A timeout appears only as the store raising an `AbortError`.
- The client singleton and its connection pool in `getMongoClient`. Only its missing-setting failure is modelled.
- The driver's `db()`/`collection()` handles and the documents themselves. Documents are JSON values.
- JSON numbers are integers, and `JSON.parse` is a parameter, not a parser.
- QueryMongo.EffectiveLimit: an input `limit` is an integer, so a fractional or `NaN` limit is not modelled. The schema only bounds it to 1..50 and does not require an integer.
- Crypto.EncryptDecryptRoundTrip: texts are sequences of Unicode scalar values, because a Dafny `char` cannot be a surrogate. The source's round trip fails for a string holding a lone surrogate, since `cipher.update(text, "utf8")` encodes it as U+FFFD. The model does not capture that.
- Crypto.Encrypt: `randomBytes` is not modelled. The iv is a parameter, so nonce freshness is not claimed.
- Crypto.Decrypt: node's checks on a decoded iv that is empty or of unusual length are folded into the abstract `open` failing.
- Crypto.ErrorMessage: the texts of the errors node throws (bad key length, missing field, failed authentication) are library behaviour and are not modelled.
- Crypto.Decrypt: with fewer than three fields, node first checks the decoded iv in `createDecipheriv` and the tag length in `setAuthTag`, and only then throws on `Buffer.from(undefined)`. The model reports the missing field first. Either way the call throws, but the kind of error can differ.
- The AI SDK provider constructors, `wrapLanguageModel` and the stream splitting of `extractReasoningMiddleware`. These are library code, and a handle is only a record.
- Models.GroupByProvider: the grouped object is a map, so it has no key order. `Models.KeysInFirstAppearanceOrder` states that order separately, and it matches JavaScript only for tags that are not integer-like, because a JavaScript object lists integer-like keys first.
- Models.GroupByProvider: an accumulator key that collides with an `Object.prototype` member (a tag such as `constructor`) is not modelled. No catalogue tag does this.
- Prompts, the entitlement table, the admin seed script and the UI and API-route files are not part of this model.

# Vertex AI / Gemini context caching: local store and cache-aside orchestration

This project models the context-caching layer that LiteLLM puts in front of
the Vertex AI and Google AI Studio (Gemini) `cachedContents` API, and proves
properties of the model.

A request's cacheable prefix of messages is hashed into a content key. A
process-local store maps a scoped key to the name of a remote cached-content
object, and a request whose scoped key is live in that store is answered
without a network call. That scoped key is
the content key plus the Vertex project, location and a short MD5 digest.
Only when the store has no live entry does the orchestrator list the remote
caches. Only when the listing yields no non-empty name does it create a
remote cache and record the new name locally. That covers no match, a match
without a name, a refused (403) listing, and on the async path a match whose
expiry has passed.

Files:

- `wrappers.dfy` (module `Wrappers`): `Option`, `Result`, and Python truthiness of an optional string (`NonEmpty`).
- `local_cache_manager.dfy` (module `LocalCache`): covers `CacheEntry` as a datatype and `LocalCacheManager` as a class.
  - The class holds `var cache: map<string, CacheEntry>`. Its methods update that map in place.
  - The specification functions `Lookup` and `AfterLookup` are what a read answers and what it leaves behind.
  - `ExpiredKeys` and `Unexpired` describe the bulk expiry.
- `ttl_parsing.dfy` (module `TtlParsing`):
  - `parse_ttl_to_seconds`, with a recogniser for `[0-9]*\.?[0-9]+s` proved equal to the grammar it implements;
  - the exact decimal value of a matching string;
  - `parse_expire_time_to_remaining_ttl`.
- `vertex_ai_context_caching.dfy` (module `ContextCaching`) covers the URL selection, the remote listing's verdicts and the create outcome.
  - The class `ContextCachingEndpoints` holds the shared `LocalCacheManager` and a ghost trace `remoteCalls` of the list and create requests it makes.
  - Its methods are the two remote lookups and the two orchestrators.
  - The request parameters are a class `ParamsDict`, because `optional_params.pop("tools")` changes the caller's dict in place.

How the outside world appears in the model:

- Time is an explicit `now: real` argument. TTLs are exact reals.
- The MD5 hex digest is a function `md5Hex` given to the manager.
- Everything the orchestrator only calls is a field of `Collaborators`. That covers:
  - the message partitioner, the content-key hash and the request-body transform;
  - the TTL carried by the messages and ISO 8601 parsing;
  - the custom-proxy hook;
  - the remote list and create operations, which answer with a value, an HTTP status, a timeout or another failure.
- A raised `VertexAIError` is `Failure(VertexAIError(status))`. Any other exception that escapes is `Failure(Uncaught)`.

Behaviours of the store, as the code has them:

- The stored TTL is `ttl - 5` only when `ttl > 5`. A TTL of 5 seconds or less is stored unchanged; it is not clamped to `max(0, ttl - 5)`.
- A Gemini key and a Vertex key that lacks project or location are both the bare content key. So those two share an entry (`ScopedKey`'s first ensures).
- Nothing escapes a colon inside a project or location. So `("a:b", "c")` and `("a", "b:c")` give the same scoped key (`ColonInScopeCollides`). Domain-scoped project ids such as `example.com:proj` contain a colon.
- The provider name is not part of the scope. So `vertex_ai` and `vertex_ai_beta` share every scoped key (`VertexProvidersShareKeys`).

## Model

| member | source | states |
|---|---|---|
| LocalCache.TimeUntilExpiry | litellm/llms/vertex_ai/context_caching/local_cache_manager.py:48-50 | The seconds left always reach the expiry time exactly from now, so they are negative past it, and they are zero or negative exactly when the entry is expired |
| LocalCache.NewEntry | litellm/llms/vertex_ai/context_caching/local_cache_manager.py:38-42 | A fresh entry keeps the id and TTL, is created now and expires exactly TTL seconds later, so it is live at once exactly when the TTL is positive |
| LocalCache.ExpiryIsPermanent | litellm/llms/vertex_ai/context_caching/local_cache_manager.py:44-46 | An entry expired at some time stays expired at every later time. A fresh entry is expired once its TTL has elapsed since its creation |
| LocalCache.AdjustedTtl | litellm/llms/vertex_ai/context_caching/local_cache_manager.py:128-130 | A TTL above 5 s is cut by exactly 5 s; one of at most 5 s is left unchanged (both directions). So the stored TTL is never above the given one, and a positive TTL stays positive |
| LocalCache.Take16 | litellm/llms/vertex_ai/context_caching/local_cache_manager.py:97 | `[:16]` gives the prefix of exactly 16 characters, or the whole string when it is shorter |
| LocalCache.ScopedKey | litellm/llms/vertex_ai/context_caching/local_cache_manager.py:88-101 | The key differs from the bare content key exactly when the provider is not gemini and both project and location are non-empty. It is then content key, project, location and the first 16 characters of the digest of the first three, joined by colons |
| LocalCache.ScopedKeyExtendsBareKey | litellm/llms/vertex_ai/context_caching/local_cache_manager.py:93-98 | A scoped key starts with the content key and a colon and is strictly longer than both |
| LocalCache.ScopedKeysDistinct | litellm/llms/vertex_ai/context_caching/local_cache_manager.py:93-98 | For one content key, two different colon-free (project, location) pairs give different scoped keys, whatever the digest |
| LocalCache.ScopeIsolation | tests/test_litellm/llms/vertex_ai/context_caching/test_multi_project_cache.py:11-96 | Writing the entry for one project/location never changes what a read for another project/location of the same content answers |
| LocalCache.LocalCacheManager.constructor | litellm/llms/vertex_ai/context_caching/local_cache_manager.py:63-65 | A new manager starts with an empty map |
| LocalCache.LocalCacheManager.SetCache | litellm/llms/vertex_ai/context_caching/local_cache_manager.py:103-131 | The map gains (or has replaced) the entry at the scoped key: this id, created now, with the buffered TTL, expiring at now plus that TTL. Nothing else changes |
| LocalCache.LocalCacheManager.GetCache | litellm/llms/vertex_ai/context_caching/local_cache_manager.py:133-167 | The id is returned exactly when the scoped key is present and unexpired. An expired entry at that key is deleted. An absent key leaves the map unchanged, and no other key is touched |
| LocalCache.LocalCacheManager.HasValidCache | litellm/llms/vertex_ai/context_caching/local_cache_manager.py:169-190 | True exactly when a read would return an id; it has the same effect on the map as that read |
| LocalCache.LocalCacheManager.InvalidateCache | litellm/llms/vertex_ai/context_caching/local_cache_manager.py:192-214 | Only the scoped key is removed; an absent key leaves the map as it was |
| LocalCache.LocalCacheManager.ClearAll | litellm/llms/vertex_ai/context_caching/local_cache_manager.py:216-219 | The map is empty afterwards |
| LocalCache.LocalCacheManager.CleanupExpired | litellm/llms/vertex_ai/context_caching/local_cache_manager.py:221-235 | The count returned is the number of entries expired beforehand. No expired entry remains, and every unexpired entry is kept unchanged |
| LocalCache.LocalCacheManager.GetStats | litellm/llms/vertex_ai/context_caching/local_cache_manager.py:237-254 | The state is unchanged. The total is the map size, the expired count is the number of expired entries, and the valid count is the number left unexpired. Valid plus expired equals the total, and the keys are the map's keys |
| LocalCache.ExpiredAndUnexpiredPartition | litellm/llms/vertex_ai/context_caching/local_cache_manager.py:245-247 | The expired keys and the unexpired entries partition the map, so their sizes add up to its size |
| LocalCache.SetThenGet | litellm/llms/vertex_ai/context_caching/local_cache_manager.py:123-167 | A read of the key just written, before the buffered expiry, answers the written id |
| LocalCache.LastWriteWins | litellm/llms/vertex_ai/context_caching/local_cache_manager.py:131 | A second write to the same scoped key replaces the first entry entirely |
| LocalCache.WriteElsewhere | litellm/llms/vertex_ai/context_caching/local_cache_manager.py:131 | A write to one scoped key leaves a read of any other key unchanged |
| LocalCache.ReadTouchesOnlyItsKey | litellm/llms/vertex_ai/context_caching/local_cache_manager.py:156-167 | A read deletes at most its own key, and only when that key is expired; every other entry is unchanged |
| LocalCache.ColonInScopeCollides | litellm/llms/vertex_ai/context_caching/local_cache_manager.py:93-98 | Colons inside project or location are not escaped: ("a:b", "c") and ("a", "b:c") give the same scoped key |
| LocalCache.VertexProvidersShareKeys | litellm/llms/vertex_ai/context_caching/local_cache_manager.py:88-98 | Only "gemini" is told apart: vertex_ai and vertex_ai_beta give the same scoped key for every project and location |
| LocalCache.ShortTtlTimeline | tests/test_litellm/llms/vertex_ai/context_caching/test_local_cache_optimization.py:137-157 | A 3 s entry, kept whole by the buffer rule, is still answered after 2 s and gone after 4 s |
| LocalCache.BufferedTtlTimeline | litellm/llms/vertex_ai/context_caching/local_cache_manager.py:128-131 | A 10 s entry is valid locally at 4 s and expired at 5 s, before the remote copy |
| LocalCache.LocalExpiryWithinTtl | litellm/llms/vertex_ai/context_caching/local_cache_manager.py:128-131 | A stored entry never outlives the TTL it was given |
| TtlParsing.ParseTtlToSeconds | litellm/llms/vertex_ai/context_caching/vertex_ai_context_caching.py:34-57 | The result is never negative. It is 3600 for None, the empty string and any string not of the form `[0-9]*\.?[0-9]+s` |
| TtlParsing.IsDecimalMatchesGrammar | litellm/llms/vertex_ai/context_caching/vertex_ai_context_caching.py:48 | The recogniser accepts exactly the language of `[0-9]*\.?[0-9]+`: optional digits, an optional dot, then at least one digit |
| TtlParsing.ParseWholeSeconds | litellm/llms/vertex_ai/context_caching/vertex_ai_context_caching.py:48-55 | `"<digits>s"` reads as the number the digits write |
| TtlParsing.ParseFractionalSeconds | litellm/llms/vertex_ai/context_caching/vertex_ai_context_caching.py:48-55 | `"<digits>.<digits>s"` reads as whole part plus fraction, exactly |
| TtlParsing.ParseRejectsOthers | litellm/llms/vertex_ai/context_caching/vertex_ai_context_caching.py:44-52 | Every string outside the grammar followed by `s` reads as 3600 |
| TtlParsing.ParseTtlRoundTrip | litellm/llms/vertex_ai/context_caching/vertex_ai_context_caching.py:34-57 | For every n, the decimal spelling of n followed by `s` reads back as n seconds |
| TtlParsing.ParseTtlHourExample | litellm/llms/vertex_ai/context_caching/vertex_ai_context_caching.py:39-42 | "3600s" reads as 3600 |
| TtlParsing.ParseTtlFractionExample | litellm/llms/vertex_ai/context_caching/vertex_ai_context_caching.py:39-42 | "1.5s" reads as 1.5 |
| TtlParsing.ParseTtlLeadingDotExample | litellm/llms/vertex_ai/context_caching/vertex_ai_context_caching.py:48-55 | ".5s", with no whole part, reads as 0.5 |
| TtlParsing.ParseTtlRejectExamples | litellm/llms/vertex_ai/context_caching/vertex_ai_context_caching.py:48-52 | "1.s" and "3600" (no unit) read as 3600 |
| TtlParsing.ReplaceAll | litellm/llms/vertex_ai/context_caching/vertex_ai_context_caching.py:76 | A single character becomes the replacement when it is the one replaced and stays otherwise. A string without it is unchanged, and replacing with text free of it leaves no occurrence |
| TtlParsing.ReplaceAllAppend | litellm/llms/vertex_ai/context_caching/vertex_ai_context_caching.py:76 | Replacing in a concatenation is replacing in each part, so every other character is kept in order and each occurrence becomes the replacement |
| TtlParsing.NormalizeZulu | litellm/llms/vertex_ai/context_caching/vertex_ai_context_caching.py:75-76 | A single trailing 'Z' becomes "+00:00" with the rest kept. After any trailing 'Z' no 'Z' remains, and a timestamp not ending in 'Z' is passed on unchanged |
| TtlParsing.ParseExpireTimeToRemainingTtl | litellm/llms/vertex_ai/context_caching/vertex_ai_context_caching.py:60-89 | None exactly for an empty or unparsable timestamp, or one not after now. Otherwise the remaining seconds, positive, with now plus them equal to the expiry |
| ContextCaching.TokenAndUrl | litellm/llms/vertex_ai/context_caching/vertex_ai_context_caching.py:119-138 | Gemini gets no header and the AI Studio URL carrying the key. Vertex gets the given header and host, then the version segment handed to the proxy hook, then project, location and `cachedContents`. The host has no region for `global` and is regional otherwise |
| ContextCaching.RequestUrl | litellm/llms/vertex_ai/context_caching/vertex_ai_context_caching.py:141-153 | Both remote operations use the proxy hook's result for the pre-proxy URL. For Gemini that is the AI Studio URL with the API key, with version "v1" handed to the hook. For Vertex it is host, version segment, project, location and `cachedContents`, with the same version handed to the hook |
| ContextCaching.FirstMatch | litellm/llms/vertex_ai/context_caching/vertex_ai_context_caching.py:220-223 | The index found holds the content key as displayName and no earlier item does; None means no item does |
| ContextCaching.FindFirstMatch | litellm/llms/vertex_ai/context_caching/vertex_ai_context_caching.py:220-225 | The scan over the listing stops exactly at the first match |
| ContextCaching.ListVerdict | litellm/llms/vertex_ai/context_caching/vertex_ai_context_caching.py:199-225 | An error is raised exactly for a non-403 HTTP status, which it carries, or another failure, which gives 500. A 403 or a body without `cachedContents` means not cached. Otherwise the answer is the first match's name |
| ContextCaching.RemoteEntryTtl | litellm/llms/vertex_ai/context_caching/vertex_ai_context_caching.py:296-308 | No expireTime gives 3600; a non-empty one gives the remaining seconds or None once passed; any TTL given is positive |
| ContextCaching.RemoteHit | litellm/llms/vertex_ai/context_caching/vertex_ai_context_caching.py:298-318 | A local write is due exactly when the first match has a non-empty name and a TTL (default or still remaining). It writes that name with that positive TTL |
| ContextCaching.AsyncListVerdict | litellm/llms/vertex_ai/context_caching/vertex_ai_context_caching.py:284-322 | Fails exactly when the sync lookup does, with the same error. Any name it answers is the sync answer |
| ContextCaching.AsyncVerdictDiffersOnlyOnExpiredHit | litellm/llms/vertex_ai/context_caching/vertex_ai_context_caching.py:292-322 | The async answer differs from the sync one exactly when the first match has a name and an expired or unreadable expireTime. There the sync lookup answers the name and the async one "not cached" |
| ContextCaching.RemoteHitIsAnswered | litellm/llms/vertex_ai/context_caching/vertex_ai_context_caching.py:298-320 | The async lookup writes locally exactly when it answers a non-empty name; that name is written, with a positive TTL |
| ContextCaching.RemoteHitExpiresLocallyFirst | litellm/llms/vertex_ai/context_caching/vertex_ai_context_caching.py:298-318 | A remote hit copied locally is the first match's name and expires locally no later than its remote expireTime; without one it gets 3600 |
| ContextCaching.CreatedCacheTtl | litellm/llms/vertex_ai/context_caching/vertex_ai_context_caching.py:468-474 | A truthy string `ttl` in the body is parsed. A truthy non-string one, and only that, raises an error other than VertexAIError (the regex's TypeError). Otherwise the messages' TTL is parsed, which includes the 3600 fallback. The result is never negative |
| ContextCaching.CreateVerdict | litellm/llms/vertex_ai/context_caching/vertex_ai_context_caching.py:448-474 | An HTTP error status is raised with that status and a timeout as 408. Any other failure passes through. A created response gives its name with the TTL derived from the body and messages, or the error deriving it raised. Every success is such a response |
| ContextCaching.CreateBody | litellm/llms/vertex_ai/context_caching/vertex_ai_context_caching.py:424-435 | The create body is the transformed body with `tools` set to the popped tools; every other key and value is the transform's |
| ContextCaching.ParamsDict.Pop | litellm/llms/vertex_ai/context_caching/vertex_ai_context_caching.py:361 | The value under the key, or the default, is returned, and the key is gone from the dict |
| ContextCaching.ContextCachingEndpoints.constructor | litellm/llms/vertex_ai/context_caching/vertex_ai_context_caching.py:99-100 | The endpoints hold the given shared manager and have made no remote call |
| ContextCaching.ContextCachingEndpoints.CheckCache | litellm/llms/vertex_ai/context_caching/vertex_ai_context_caching.py:155-225 | Exactly one list request is made to the request URL. The answer is the listing's verdict, and the local store is not written |
| ContextCaching.ContextCachingEndpoints.AsyncCheckCache | litellm/llms/vertex_ai/context_caching/vertex_ai_context_caching.py:227-322 | Exactly one list request is made, and the answer is the async verdict. The local store gains the remote hit, under the request's scope and with the remaining TTL buffered. It gains nothing when there is no hit |
| ContextCaching.ContextCachingEndpoints.CreateAndStore | litellm/llms/vertex_ai/context_caching/vertex_ai_context_caching.py:423-483 | One create request is made, carrying the transformed body with the tools. On success the new name is written under the request's scope with the derived TTL. On any failure the store is untouched |
| ContextCaching.ContextCachingEndpoints.ResolveRemotely | litellm/llms/vertex_ai/context_caching/vertex_ai_context_caching.py:407-483 | The listing comes first. An error ends the call with one list request. A truthy name is returned with no create and no local write. Otherwise a create follows, and its name is written locally only on success |
| ContextCaching.ContextCachingEndpoints.AsyncResolveRemotely | litellm/llms/vertex_ai/context_caching/vertex_ai_context_caching.py:570-645 | As the sync remote half, except that a remote hit is also written locally, and an expired remote hit leads to a create |
| ContextCaching.ContextCachingEndpoints.CheckAndCreateCache | litellm/llms/vertex_ai/context_caching/vertex_ai_context_caching.py:324-489 | See the list below the table |
| ContextCaching.ContextCachingEndpoints.AsyncCheckAndCreateCache | litellm/llms/vertex_ai/context_caching/vertex_ai_context_caching.py:491-651 | The same sequence as the sync orchestrator, with the async lookup. A remote hit is also written locally, and an expired remote hit leads to a create |

`CheckAndCreateCache` states the whole sequence:

1. An explicit handle is returned with the messages and params untouched.
2. No cacheable messages gives `(messages, params, None)`. The tools are not popped, and nothing local or remote happens.
3. Otherwise `tools` is popped, and every success returns the non-cached messages with that dict.
4. A local hit makes no remote call and leaves the store as it was.
5. After a local miss, the remote calls made are exactly `[list]` or `[list, create]`. Both go to the request URL.
6. The store ends as the read left it. After a successful create it also holds the new name with the derived TTL.

## Left out

- HTTP transport, headers, auth tokens, client construction and logging are not modelled. The remote list and create are oracles answering a value, an HTTP status, a timeout or another failure.
- `_check_custom_proxy` is a parameter. `VertexBase` is not part of this model, so only the pre-proxy URL and the version string it receives are modelled.
- `separate_cached_messages`, `transform_openai_messages_to_gemini_context_caching`, `extract_ttl_from_cached_messages` and `Cache.get_cache_key` are uninterpreted parameters. `transformation.py` is not part of this model.
- MD5 and `datetime.fromisoformat` are uninterpreted parameters. Clock readings are a `now` argument, read once per top-level call. The source reads the clock anew inside each step.
- ContextCaching.RemoteHitExpiresLocallyFirst: the bound holds for one clock reading. In the source the remaining TTL is computed at one reading (`parse_expire_time_to_remaining_ttl`) and the local entry is created at a later one (`set_cache`); a hit with 5 s or less left gets no buffer, so its local entry can outlive the remote one by the time between the two readings.
- Python float rounding is not modelled; TTLs and times are exact reals. The regex `$` also matches before a trailing newline; that is not modelled either.
- The locks, the double-checked singleton `get_cache_manager` and the concurrency of the async variants are not modelled. The async methods are sequential, and each manager method is atomic.
- `get_stats` returns `cache_keys` as a list in insertion order. `LocalCache.LocalCacheManager.GetStats` returns it as a set.
- `ContextCaching.CreateVerdict`: a create response whose body lacks `name` (in the source `set_cache` would then store `None`) is not modelled. A successful create always carries a name.
- A listing body that is not a JSON object, or `cachedContents` items that are not objects, are not modelled. Only the documented response shape is.
- The empty stubs `get_cache` and `async_get_cache` of `ContextCachingEndpoints` have no behaviour to model.

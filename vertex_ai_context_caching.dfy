/**
  The cache-aside orchestration of Vertex AI / Gemini context caching: pick
  the cachedContents URL, look a content key up in the remote listing, and
  on a request decide between the caller's explicit handle, the local store,
  the remote listing and a fresh remote create.

  Everything the orchestrator only calls is a field of `Collaborators`: the
  message partitioner, the content-key hash, the request-body transform, the
  TTL carried by the messages, timestamp parsing, the custom-proxy hook, and
  the two remote operations (list and create), each answering with a value
  or an error status. The remote operations the orchestrator performs are
  recorded, in order, in the ghost sequence `remoteCalls`.
*/
module ContextCaching {
  import opened Wrappers
  import opened LocalCache
  import opened TtlParsing

  /** A listing refused for lack of permission counts as "not cached". */
  const PermissionDeniedStatus: int := 403
  /** Any failure of the listing other than an HTTP status. */
  const InternalErrorStatus: int := 500
  /** A create request that timed out. */
  const TimeoutStatus: int := 408

  const CachedContentsEndpoint: string := "cachedContents"

  datatype Provider = VertexAi | VertexAiBeta | Gemini {
    function Name(): string
    {
      match this
      case VertexAi => "vertex_ai"
      case VertexAiBeta => "vertex_ai_beta"
      case Gemini => GeminiProvider
    }
  }

  /** A JSON value, as held in request parameters and request bodies. */
  datatype Json =
    | JNull
    | JBool(b: bool)
    | JNumber(n: real)
    | JString(s: string)
    | JArray(elements: seq<Json>)
    | JObject(members: map<string, Json>)

  /** Python truthiness of a decoded JSON value. */
  predicate JsonTruthy(j: Json)
  {
    match j
    case JNull => false
    case JBool(b) => b
    case JNumber(n) => n != 0.0
    case JString(s) => s != ""
    case JArray(elements) => elements != []
    case JObject(members) => members != map[]
  }

  /** An optional string as an f-string renders it: None becomes "None". */
  function PyStr(s: Option<string>): string
  {
    if s.None? then "None" else s.value
  }

  /** One element of the remote listing's `cachedContents` array. */
  datatype CachedItem = CachedItem(displayName: Option<string>, name: Option<string>, expireTime: Option<string>)

  /** What the remote list request yields: a body (with or without `cachedContents`), an HTTP error status, or another failure. */
  datatype ListResponse =
    | Listed(cachedContents: Option<seq<CachedItem>>)
    | ListHttpError(statusCode: int)
    | ListFailed

  /** What the remote create request yields: the created object's name, an HTTP error status, a timeout, or another failure. */
  datatype CreateResponse =
    | Created(name: string)
    | CreateHttpError(statusCode: int)
    | CreateTimeout
    | CreateFailed

  /** A raised VertexAIError with its status, or any other exception passed through unchanged. */
  datatype CachingError = VertexAIError(statusCode: int) | Uncaught

  /** A remote operation, with the URL and (for create) the body sent. */
  datatype RemoteCall = ListCall(url: string) | CreateCall(url: string, body: map<string, Json>)

  /** The arguments that say where the remote service is and how to reach it. */
  datatype Endpoint = Endpoint(apiKey: string, apiBase: Option<string>, provider: Provider,
                               project: Option<string>, location: Option<string>,
                               vertexAuthHeader: Option<string>)

  datatype Collaborators<!M> = Collaborators(
    separateCachedMessages: seq<M> -> (seq<M>, seq<M>),
    getCacheKey: (seq<M>, Json) -> string,
    transformToRequestBody: (string, seq<M>, string, Provider, Option<string>, Option<string>) -> map<string, Json>,
    extractTtlFromCachedMessages: seq<M> -> Option<string>,
    fromIsoFormat: string -> Option<real>,
    checkCustomProxy: (Option<string>, Provider, string, string) -> string,
    listCachedContents: string -> ListResponse,
    createCachedContent: (string, map<string, Json>) -> CreateResponse)

  /** The API version handed to the proxy hook. */
  function VertexApiVersion(provider: Provider): string
  {
    if provider == VertexAiBeta then "v1beta1" else "v1"
  }

  /** The global endpoint has no region prefix; every other location does. */
  function VertexHost(location: Option<string>): string
  {
    if location == Some("global") then "https://aiplatform.googleapis.com"
    else "https://" + PyStr(location) + "-aiplatform.googleapis.com"
  }

  /**
    _get_token_and_url_context_caching before the proxy hook: the auth header
    and URL for the cachedContents collection. Google AI Studio passes the key
    in the query and no header; Vertex uses the given header and a URL whose
    version segment is the one handed to the proxy hook.
  */
  function TokenAndUrl(geminiApiKey: Option<string>, provider: Provider, project: Option<string>,
                       location: Option<string>, vertexAuthHeader: Option<string>): (r: (Option<string>, string))
    ensures provider == Gemini ==>
      r.0 == None && r.1 == "https://generativelanguage.googleapis.com/v1beta/cachedContents?key=" + PyStr(geminiApiKey)
    ensures provider != Gemini ==>
      && r.0 == vertexAuthHeader
      && r.1 == VertexHost(location) + "/" + VertexApiVersion(provider) + "/projects/" + PyStr(project)
                + "/locations/" + PyStr(location) + "/" + CachedContentsEndpoint
  {
    GlobalUrlSegments(PyStr(project), PyStr(location));
    RegionalUrlSegments(PyStr(project), PyStr(location));
    if provider == Gemini then
      (None, "https://generativelanguage.googleapis.com/v1beta/" + CachedContentsEndpoint + "?key=" + PyStr(geminiApiKey))
    else if provider == VertexAi then
      (vertexAuthHeader,
       if location == Some("global") then
         "https://aiplatform.googleapis.com/v1/projects/" + PyStr(project) + "/locations/" + PyStr(location) + "/" + CachedContentsEndpoint
       else
         "https://" + PyStr(location) + "-aiplatform.googleapis.com/v1/projects/" + PyStr(project) + "/locations/" + PyStr(location) + "/" + CachedContentsEndpoint)
    else
      (vertexAuthHeader,
       if location == Some("global") then
         "https://aiplatform.googleapis.com/v1beta1/projects/" + PyStr(project) + "/locations/" + PyStr(location) + "/" + CachedContentsEndpoint
       else
         "https://" + PyStr(location) + "-aiplatform.googleapis.com/v1beta1/projects/" + PyStr(project) + "/locations/" + PyStr(location) + "/" + CachedContentsEndpoint)
  }

  /** The global endpoint's URLs spelled as host, version segment and path. */
  lemma GlobalUrlSegments(p: string, l: string)
    ensures "https://aiplatform.googleapis.com/v1/projects/" + p + "/locations/" + l + "/" + CachedContentsEndpoint
         == "https://aiplatform.googleapis.com" + "/" + "v1" + "/projects/" + p + "/locations/" + l + "/" + CachedContentsEndpoint
    ensures "https://aiplatform.googleapis.com/v1beta1/projects/" + p + "/locations/" + l + "/" + CachedContentsEndpoint
         == "https://aiplatform.googleapis.com" + "/" + "v1beta1" + "/projects/" + p + "/locations/" + l + "/" + CachedContentsEndpoint
  {
    assert "https://aiplatform.googleapis.com/v1/projects/" == "https://aiplatform.googleapis.com" + "/" + "v1" + "/projects/";
    assert "https://aiplatform.googleapis.com/v1beta1/projects/" == "https://aiplatform.googleapis.com" + "/" + "v1beta1" + "/projects/";
  }

  /** A regional endpoint's URLs spelled as host, version segment and path. */
  lemma RegionalUrlSegments(p: string, l: string)
    ensures "https://" + l + "-aiplatform.googleapis.com/v1/projects/" + p + "/locations/" + l + "/" + CachedContentsEndpoint
         == ("https://" + l + "-aiplatform.googleapis.com") + "/" + "v1" + "/projects/" + p + "/locations/" + l + "/" + CachedContentsEndpoint
    ensures "https://" + l + "-aiplatform.googleapis.com/v1beta1/projects/" + p + "/locations/" + l + "/" + CachedContentsEndpoint
         == ("https://" + l + "-aiplatform.googleapis.com") + "/" + "v1beta1" + "/projects/" + p + "/locations/" + l + "/" + CachedContentsEndpoint
  {
    assert "-aiplatform.googleapis.com/v1/projects/" == "-aiplatform.googleapis.com" + "/" + "v1" + "/projects/";
    assert "-aiplatform.googleapis.com/v1beta1/projects/" == "-aiplatform.googleapis.com" + "/" + "v1beta1" + "/projects/";
  }

  /** The URL both remote operations use, after the proxy hook. */
  function RequestUrl<M>(env: Collaborators<M>, ep: Endpoint): (url: string)
    ensures ep.provider == Gemini ==>
      url == env.checkCustomProxy(ep.apiBase, Gemini, "v1",
                                  "https://generativelanguage.googleapis.com/v1beta/cachedContents?key=" + ep.apiKey)
    ensures ep.provider != Gemini ==>
      url == env.checkCustomProxy(ep.apiBase, ep.provider, VertexApiVersion(ep.provider),
                                  VertexHost(ep.location) + "/" + VertexApiVersion(ep.provider) + "/projects/" + PyStr(ep.project)
                                  + "/locations/" + PyStr(ep.location) + "/" + CachedContentsEndpoint)
  {
    var tokenAndUrl := TokenAndUrl(Some(ep.apiKey), ep.provider, ep.project, ep.location, ep.vertexAuthHeader);
    env.checkCustomProxy(ep.apiBase, ep.provider, VertexApiVersion(ep.provider), tokenAndUrl.1)
  }

  predicate Matches(item: CachedItem, cacheKey: string)
  {
    item.displayName == Some(cacheKey)
  }

  /** The position of the first listed item whose displayName is the content key. */
  function FirstMatch(items: seq<CachedItem>, cacheKey: string): (r: Option<nat>)
    ensures r.Some? ==> r.value < |items| && Matches(items[r.value], cacheKey)
                        && forall j :: 0 <= j < r.value ==> !Matches(items[j], cacheKey)
    ensures r.None? ==> forall j :: 0 <= j < |items| ==> !Matches(items[j], cacheKey)
  {
    if items == [] then None
    else if Matches(items[0], cacheKey) then Some(0)
    else match FirstMatch(items[1..], cacheKey)
      case None => None
      case Some(i) => Some(i + 1)
  }

  /** The name of the first matching item (which may itself be missing), or None. */
  function MatchedName(items: seq<CachedItem>, cacheKey: string): Option<string>
  {
    match FirstMatch(items, cacheKey)
    case Some(i) => items[i].name
    case None => None
  }

  /** check_cache's answer to one listing: permission denied and a missing array are "not cached". */
  function ListVerdict(resp: ListResponse, cacheKey: string): (r: Result<Option<string>, CachingError>)
    ensures r.Failure? <==> (resp.ListHttpError? && resp.statusCode != PermissionDeniedStatus) || resp.ListFailed?
    ensures r.Failure? ==> r.error == VertexAIError(if resp.ListHttpError? then resp.statusCode else InternalErrorStatus)
    ensures resp.Listed? && resp.cachedContents.Some? ==> r == Success(MatchedName(resp.cachedContents.value, cacheKey))
    ensures resp == Listed(None) || resp == ListHttpError(PermissionDeniedStatus) ==> r == Success(None)
  {
    match resp
    case ListHttpError(status) =>
      if status == PermissionDeniedStatus then Success(None) else Failure(VertexAIError(status))
    case ListFailed => Failure(VertexAIError(InternalErrorStatus))
    case Listed(contents) =>
      if contents.None? then Success(None) else Success(MatchedName(contents.value, cacheKey))
  }

  /** The TTL a remote hit is stored with: the time left before expireTime, or the default when it has none. */
  function RemoteEntryTtl(expireTime: Option<string>, fromIsoFormat: string -> Option<real>, now: real): (ttl: Option<real>)
    ensures !NonEmpty(expireTime) ==> ttl == Some(DefaultTtlSeconds)
    ensures NonEmpty(expireTime) ==> ttl == ParseExpireTimeToRemainingTtl(expireTime.value, fromIsoFormat, now)
    ensures ttl.Some? ==> ttl.value > 0.0
  {
    if NonEmpty(expireTime) then ParseExpireTimeToRemainingTtl(expireTime.value, fromIsoFormat, now)
    else Some(DefaultTtlSeconds)
  }

  /** The (name, TTL) written locally by async_check_cache for this listing, if any. */
  function RemoteHit(resp: ListResponse, cacheKey: string, fromIsoFormat: string -> Option<real>, now: real): (hit: Option<(string, real)>)
    ensures hit.Some? <==>
      && resp.Listed? && resp.cachedContents.Some? && FirstMatch(resp.cachedContents.value, cacheKey).Some?
      && var item := resp.cachedContents.value[FirstMatch(resp.cachedContents.value, cacheKey).value];
         NonEmpty(item.name) && RemoteEntryTtl(item.expireTime, fromIsoFormat, now).Some?
    ensures hit.Some? ==>
      var item := resp.cachedContents.value[FirstMatch(resp.cachedContents.value, cacheKey).value];
      && item.name == Some(hit.value.0) && hit.value.0 != ""
      && RemoteEntryTtl(item.expireTime, fromIsoFormat, now) == Some(hit.value.1) && hit.value.1 > 0.0
  {
    if resp.Listed? && resp.cachedContents.Some? then
      var items := resp.cachedContents.value;
      match FirstMatch(items, cacheKey)
      case None => None
      case Some(i) =>
        if NonEmpty(items[i].name) && RemoteEntryTtl(items[i].expireTime, fromIsoFormat, now).Some? then
          Some((items[i].name.value, RemoteEntryTtl(items[i].expireTime, fromIsoFormat, now).value))
        else None
    else None
  }

  /**
    async_check_cache's answer: as check_cache's, except that a named match
    whose expireTime has passed (or cannot be read) is "not cached".
  */
  function AsyncListVerdict(resp: ListResponse, cacheKey: string, fromIsoFormat: string -> Option<real>, now: real): (r: Result<Option<string>, CachingError>)
    ensures r.Failure? <==> ListVerdict(resp, cacheKey).Failure?
    ensures r.Failure? ==> r == ListVerdict(resp, cacheKey)
    ensures r.Success? && r.value.Some? ==> r == ListVerdict(resp, cacheKey)
  {
    if resp.Listed? && resp.cachedContents.Some? then
      var items := resp.cachedContents.value;
      match FirstMatch(items, cacheKey)
      case None => Success(None)
      case Some(i) =>
        if NonEmpty(items[i].name) && RemoteEntryTtl(items[i].expireTime, fromIsoFormat, now).None? then Success(None)
        else Success(items[i].name)
    else ListVerdict(resp, cacheKey)
  }

  /**
    async_check_cache writes locally exactly when it answers with a non-empty
    name, that name is what it writes, and the TTL written is positive.
  */
  lemma RemoteHitIsAnswered(resp: ListResponse, cacheKey: string, fromIsoFormat: string -> Option<real>, now: real)
    ensures var answer := AsyncListVerdict(resp, cacheKey, fromIsoFormat, now);
      RemoteHit(resp, cacheKey, fromIsoFormat, now).Some? <==> answer.Success? && NonEmpty(answer.value)
    ensures RemoteHit(resp, cacheKey, fromIsoFormat, now).Some? ==>
      var hit := RemoteHit(resp, cacheKey, fromIsoFormat, now).value;
      AsyncListVerdict(resp, cacheKey, fromIsoFormat, now) == Success(Some(hit.0)) && hit.1 > 0.0
  {
  }

  /**
    A remote hit copied into the local store expires locally no later than
    the remote entry does; without an expireTime it is kept for the default TTL.
  */
  lemma RemoteHitExpiresLocallyFirst(resp: ListResponse, cacheKey: string, fromIsoFormat: string -> Option<real>, now: real)
    requires RemoteHit(resp, cacheKey, fromIsoFormat, now).Some?
    ensures resp.Listed? && resp.cachedContents.Some? && FirstMatch(resp.cachedContents.value, cacheKey).Some?
    ensures var item := resp.cachedContents.value[FirstMatch(resp.cachedContents.value, cacheKey).value];
            var hit := RemoteHit(resp, cacheKey, fromIsoFormat, now).value;
      && item.name == Some(hit.0)
      && (NonEmpty(item.expireTime) ==>
            && fromIsoFormat(NormalizeZulu(item.expireTime.value)).Some?
            && NewEntry(hit.0, AdjustedTtl(hit.1), now).expireTime <= fromIsoFormat(NormalizeZulu(item.expireTime.value)).value)
      && (!NonEmpty(item.expireTime) ==> hit.1 == DefaultTtlSeconds)
  {
    var item := resp.cachedContents.value[FirstMatch(resp.cachedContents.value, cacheKey).value];
    var hit := RemoteHit(resp, cacheKey, fromIsoFormat, now).value;
    if NonEmpty(item.expireTime) {
      var remaining := ParseExpireTimeToRemainingTtl(item.expireTime.value, fromIsoFormat, now);
      assert remaining == Some(hit.1);
      LocalExpiryWithinTtl(hit.0, hit.1, now);
    }
  }

  /**
    The two remote lookups answer alike except on a named match whose
    expireTime has passed or cannot be read: check_cache still answers that
    name, async_check_cache answers "not cached".
  */
  lemma AsyncVerdictDiffersOnlyOnExpiredHit(resp: ListResponse, cacheKey: string, fromIsoFormat: string -> Option<real>, now: real)
    ensures AsyncListVerdict(resp, cacheKey, fromIsoFormat, now) != ListVerdict(resp, cacheKey) <==>
      && resp.Listed? && resp.cachedContents.Some?
      && FirstMatch(resp.cachedContents.value, cacheKey).Some?
      && var item := resp.cachedContents.value[FirstMatch(resp.cachedContents.value, cacheKey).value];
         NonEmpty(item.name) && RemoteEntryTtl(item.expireTime, fromIsoFormat, now).None?
    ensures AsyncListVerdict(resp, cacheKey, fromIsoFormat, now) != ListVerdict(resp, cacheKey) ==>
      && AsyncListVerdict(resp, cacheKey, fromIsoFormat, now) == Success(None)
      && ListVerdict(resp, cacheKey).Success? && NonEmpty(ListVerdict(resp, cacheKey).value)
  {
  }

  /**
    The TTL written locally after a create: the body's `ttl` when truthy
    (a non-string one makes the regex raise), else the messages' TTL.
  */
  function CreatedCacheTtl(body: map<string, Json>, messagesTtl: Option<string>): (r: Result<real, CachingError>)
    ensures r.Success? ==> r.value >= 0.0
    ensures r.Failure? <==> "ttl" in body && JsonTruthy(body["ttl"]) && !body["ttl"].JString?
    ensures r.Failure? ==> r.error == Uncaught
    ensures "ttl" in body && JsonTruthy(body["ttl"]) && body["ttl"].JString? ==>
      r == Success(ParseTtlToSeconds(Some(body["ttl"].s)))
    ensures !("ttl" in body && JsonTruthy(body["ttl"])) ==> r == Success(ParseTtlToSeconds(messagesTtl))
  {
    if "ttl" in body && JsonTruthy(body["ttl"]) then
      match body["ttl"]
      case JString(ttlStr) => Success(ParseTtlToSeconds(Some(ttlStr)))
      case _ => Failure(Uncaught)
    else
      Success(if NonEmpty(messagesTtl) then ParseTtlToSeconds(messagesTtl) else DefaultTtlSeconds)
  }

  /** The create outcome: the created name and the TTL to store, or the error raised. */
  function CreateVerdict(resp: CreateResponse, body: map<string, Json>, messagesTtl: Option<string>): (r: Result<(string, real), CachingError>)
    ensures resp.CreateHttpError? ==> r == Failure(VertexAIError(resp.statusCode))
    ensures resp.CreateTimeout? ==> r == Failure(VertexAIError(TimeoutStatus))
    ensures resp.CreateFailed? ==> r == Failure(Uncaught)
    ensures r.Success? ==> resp == Created(r.value.0) && r.value.1 >= 0.0
                           && Success(r.value.1) == CreatedCacheTtl(body, messagesTtl)
    ensures resp.Created? ==>
      r == match CreatedCacheTtl(body, messagesTtl)
           case Success(ttl) => Success((resp.name, ttl))
           case Failure(e) => Failure(e)
  {
    match resp
    case CreateHttpError(status) => Failure(VertexAIError(status))
    case CreateTimeout => Failure(VertexAIError(TimeoutStatus))
    case CreateFailed => Failure(Uncaught)
    case Created(name) =>
      match CreatedCacheTtl(body, messagesTtl)
      case Failure(e) => Failure(e)
      case Success(ttl) => Success((name, ttl))
  }

  /** The create request body: the transformed cacheable messages with the popped tools. */
  function CreateBody<M>(env: Collaborators<M>, model: string, cached: seq<M>, cacheKey: string,
                         ep: Endpoint, tools: Json): (body: map<string, Json>)
    ensures var transformed := env.transformToRequestBody(model, cached, cacheKey, ep.provider, ep.project, ep.location);
      && body.Keys == transformed.Keys + {"tools"}
      && body["tools"] == tools
      && forall k :: k in transformed && k != "tools" ==> body[k] == transformed[k]
  {
    env.transformToRequestBody(model, cached, cacheKey, ep.provider, ep.project, ep.location)["tools" := tools]
  }

  /** `optional_params.get("tools")`, None when absent. */
  function ToolsOf(items: map<string, Json>): Json
  {
    if "tools" in items then items["tools"] else JNull
  }

  /** The content key the orchestrator derives from the cacheable messages and the tools. */
  ghost function ContentKeyOf<M>(env: Collaborators<M>, messages: seq<M>, items: map<string, Json>): string
  {
    env.getCacheKey(env.separateCachedMessages(messages).0, ToolsOf(items))
  }

  /** The caller's request parameters, shared with the caller and changed in place. */
  class ParamsDict {
    var items: map<string, Json>

    constructor (items: map<string, Json>)
      ensures this.items == items
    {
      this.items := items;
    }

    /** dict.pop(key, default) */
    method Pop(key: string, default: Json) returns (v: Json)
      modifies this
      ensures v == (if key in old(items) then old(items)[key] else default)
      ensures items == old(items) - {key}
    {
      v := if key in items then items[key] else default;
      items := items - {key};
    }
  }

  /** The scan over the listing: stops at the first item whose displayName is the content key. */
  method FindFirstMatch(items: seq<CachedItem>, cacheKey: string) returns (found: Option<nat>)
    ensures found == FirstMatch(items, cacheKey)
  {
    for i := 0 to |items|
      invariant forall j :: 0 <= j < i ==> !Matches(items[j], cacheKey)
    {
      if Matches(items[i], cacheKey) {
        return Some(i);
      }
    }
    return None;
  }

  /** What the orchestrator returns: the messages to send, the params dict, and the cached-content handle. */
  datatype Reply<M> = Reply(messages: seq<M>, params: ParamsDict, cachedContent: Option<string>)

  class ContextCachingEndpoints {
    const localCacheManager: LocalCacheManager
    ghost var remoteCalls: seq<RemoteCall>

    constructor (localCacheManager: LocalCacheManager)
      ensures this.localCacheManager == localCacheManager && remoteCalls == []
    {
      this.localCacheManager := localCacheManager;
      remoteCalls := [];
    }

    /** check_cache: one remote listing, answered by the first item whose displayName is the key. */
    method CheckCache<M>(env: Collaborators<M>, cacheKey: string, ep: Endpoint) returns (r: Result<Option<string>, CachingError>)
      modifies this`remoteCalls
      ensures remoteCalls == old(remoteCalls) + [ListCall(RequestUrl(env, ep))]
      ensures r == ListVerdict(env.listCachedContents(RequestUrl(env, ep)), cacheKey)
    {
      var url := RequestUrl(env, ep);
      remoteCalls := remoteCalls + [ListCall(url)];
      match env.listCachedContents(url) {
        case ListHttpError(status) =>
          if status == PermissionDeniedStatus {
            return Success(None);
          }
          return Failure(VertexAIError(status));
        case ListFailed =>
          return Failure(VertexAIError(InternalErrorStatus));
        case Listed(contents) =>
          if contents.None? {
            return Success(None);
          }
          var items := contents.value;
          var found := FindFirstMatch(items, cacheKey);
          if found.None? {
            return Success(None);
          }
          return Success(items[found.value].name);
      }
    }

    /**
      async_check_cache: as check_cache, and a named match is also written to
      the local store under the request's scope with the TTL left remotely.
    */
    method AsyncCheckCache<M>(env: Collaborators<M>, cacheKey: string, ep: Endpoint, now: real)
      returns (r: Result<Option<string>, CachingError>)
      modifies this`remoteCalls, localCacheManager
      ensures var url := RequestUrl(env, ep);
        remoteCalls == old(remoteCalls) + [ListCall(url)]
        && r == AsyncListVerdict(env.listCachedContents(url), cacheKey, env.fromIsoFormat, now)
      ensures var scoped := ScopedKey(localCacheManager.md5Hex, cacheKey, ep.project, ep.location, Some(ep.provider.Name()));
        localCacheManager.cache ==
          match RemoteHit(env.listCachedContents(RequestUrl(env, ep)), cacheKey, env.fromIsoFormat, now)
          case None => old(localCacheManager.cache)
          case Some(hit) => old(localCacheManager.cache)[scoped := NewEntry(hit.0, AdjustedTtl(hit.1), now)]
    {
      var url := RequestUrl(env, ep);
      remoteCalls := remoteCalls + [ListCall(url)];
      match env.listCachedContents(url) {
        case ListHttpError(status) =>
          if status == PermissionDeniedStatus {
            return Success(None);
          }
          return Failure(VertexAIError(status));
        case ListFailed =>
          return Failure(VertexAIError(InternalErrorStatus));
        case Listed(contents) =>
          if contents.None? {
            return Success(None);
          }
          var items := contents.value;
          var found := FindFirstMatch(items, cacheKey);
          if found.None? {
            return Success(None);
          }
          var cacheId := items[found.value].name;
          if NonEmpty(cacheId) {
            var ttl := RemoteEntryTtl(items[found.value].expireTime, env.fromIsoFormat, now);
            if ttl.None? {
              return Success(None);
            }
            localCacheManager.SetCache(cacheKey, cacheId.value, ttl.value, ep.project, ep.location,
                                       Some(ep.provider.Name()), now);
          }
          return Success(cacheId);
      }
    }

    /** Build the create body, post it, and on success write the new name locally with the derived TTL. */
    method CreateAndStore<M>(env: Collaborators<M>, model: string, cached: seq<M>, cacheKey: string,
                             ep: Endpoint, tools: Json, url: string, now: real)
      returns (r: Result<string, CachingError>)
      modifies this`remoteCalls, localCacheManager
      ensures var body := CreateBody(env, model, cached, cacheKey, ep, tools);
              var created := CreateVerdict(env.createCachedContent(url, body), body, env.extractTtlFromCachedMessages(cached));
        && remoteCalls == old(remoteCalls) + [CreateCall(url, body)]
        && (created.Failure? ==> r == Failure(created.error) && localCacheManager.cache == old(localCacheManager.cache))
        && (created.Success? ==>
              && r == Success(created.value.0)
              && localCacheManager.cache ==
                 old(localCacheManager.cache)[ScopedKey(localCacheManager.md5Hex, cacheKey, ep.project, ep.location, Some(ep.provider.Name())) :=
                                              NewEntry(created.value.0, AdjustedTtl(created.value.1), now)])
    {
      var body := env.transformToRequestBody(model, cached, cacheKey, ep.provider, ep.project, ep.location);
      body := body["tools" := tools];
      remoteCalls := remoteCalls + [CreateCall(url, body)];
      match env.createCachedContent(url, body) {
        case CreateHttpError(status) =>
          return Failure(VertexAIError(status));
        case CreateTimeout =>
          return Failure(VertexAIError(TimeoutStatus));
        case CreateFailed =>
          return Failure(Uncaught);
        case Created(cacheId) =>
          var ttl := CreatedCacheTtl(body, env.extractTtlFromCachedMessages(cached));
          if ttl.Failure? {
            return Failure(ttl.error);
          }
          localCacheManager.SetCache(cacheKey, cacheId, ttl.value, ep.project, ep.location, Some(ep.provider.Name()), now);
          return Success(cacheId);
      }
    }

    /**
      The remote half of check_and_create_cache: the listing's answer when it
      names a cache, else a create whose result is written locally.
    */
    method ResolveRemotely<M>(env: Collaborators<M>, model: string, cached: seq<M>, cacheKey: string,
                             ep: Endpoint, tools: Json, now: real)
      returns (r: Result<Option<string>, CachingError>)
      modifies this`remoteCalls, localCacheManager
      ensures
        var scoped := ScopedKey(localCacheManager.md5Hex, cacheKey, ep.project, ep.location, Some(ep.provider.Name()));
        var url := RequestUrl(env, ep);
        var resp := env.listCachedContents(url);
        var listed := ListVerdict(resp, cacheKey);
        var before := old(localCacheManager.cache);
        if listed.Failure? then
          && r == Failure(listed.error)
          && remoteCalls == old(remoteCalls) + [ListCall(url)]
          && localCacheManager.cache == before
        else if NonEmpty(listed.value) then
          && r == listed
          && remoteCalls == old(remoteCalls) + [ListCall(url)]
          && localCacheManager.cache == before
        else
          var body := CreateBody(env, model, cached, cacheKey, ep, tools);
          var created := CreateVerdict(env.createCachedContent(url, body), body, env.extractTtlFromCachedMessages(cached));
          && remoteCalls == old(remoteCalls) + [ListCall(url), CreateCall(url, body)]
          && (created.Failure? ==> r == Failure(created.error) && localCacheManager.cache == before)
          && (created.Success? ==>
                && r == Success(Some(created.value.0))
                && localCacheManager.cache == before[scoped := NewEntry(created.value.0, AdjustedTtl(created.value.1), now)])
    {
      var googleCacheName := CheckCache(env, cacheKey, ep);
      if googleCacheName.Failure? {
        return Failure(googleCacheName.error);
      }
      if NonEmpty(googleCacheName.value) {
        return Success(googleCacheName.value);
      }
      var created := CreateAndStore(env, model, cached, cacheKey, ep, tools, RequestUrl(env, ep), now);
      if created.Failure? {
        return Failure(created.error);
      }
      return Success(Some(created.value));
    }

    /**
      The remote half of async_check_and_create_cache: as ResolveRemotely, but
      a remote hit is also written locally and an expired one leads to a create.
    */
    method AsyncResolveRemotely<M>(env: Collaborators<M>, model: string, cached: seq<M>, cacheKey: string,
                             ep: Endpoint, tools: Json, now: real)
      returns (r: Result<Option<string>, CachingError>)
      modifies this`remoteCalls, localCacheManager
      ensures
        var scoped := ScopedKey(localCacheManager.md5Hex, cacheKey, ep.project, ep.location, Some(ep.provider.Name()));
        var url := RequestUrl(env, ep);
        var resp := env.listCachedContents(url);
        var listed := AsyncListVerdict(resp, cacheKey, env.fromIsoFormat, now);
        var before := old(localCacheManager.cache);
        if listed.Failure? then
          && r == Failure(listed.error)
          && remoteCalls == old(remoteCalls) + [ListCall(url)]
          && localCacheManager.cache == before
        else if NonEmpty(listed.value) then
          var hit := RemoteHit(resp, cacheKey, env.fromIsoFormat, now);
          && hit.Some?
          && r == Success(Some(hit.value.0))
          && remoteCalls == old(remoteCalls) + [ListCall(url)]
          && localCacheManager.cache == before[scoped := NewEntry(hit.value.0, AdjustedTtl(hit.value.1), now)]
        else
          var body := CreateBody(env, model, cached, cacheKey, ep, tools);
          var created := CreateVerdict(env.createCachedContent(url, body), body, env.extractTtlFromCachedMessages(cached));
          && remoteCalls == old(remoteCalls) + [ListCall(url), CreateCall(url, body)]
          && (created.Failure? ==> r == Failure(created.error) && localCacheManager.cache == before)
          && (created.Success? ==>
                && r == Success(Some(created.value.0))
                && localCacheManager.cache == before[scoped := NewEntry(created.value.0, AdjustedTtl(created.value.1), now)])
    {
      var googleCacheName := AsyncCheckCache(env, cacheKey, ep, now);
      RemoteHitIsAnswered(env.listCachedContents(RequestUrl(env, ep)), cacheKey, env.fromIsoFormat, now);
      if googleCacheName.Failure? {
        return Failure(googleCacheName.error);
      }
      if NonEmpty(googleCacheName.value) {
        return Success(googleCacheName.value);
      }
      var created := CreateAndStore(env, model, cached, cacheKey, ep, tools, RequestUrl(env, ep), now);
      if created.Failure? {
        return Failure(created.error);
      }
      return Success(Some(created.value));
    }

    /**
      check_and_create_cache: explicit handle, then nothing to cache, then
      pop the tools, then the local store, then the remote listing, then a
      remote create whose result is written locally.
    */
    method CheckAndCreateCache<M>(env: Collaborators<M>, messages: seq<M>, params: ParamsDict, model: string,
                                  ep: Endpoint, cachedContent: Option<string>, now: real)
      returns (r: Result<Reply<M>, CachingError>)
      modifies this`remoteCalls, localCacheManager, params
      ensures cachedContent.Some? ==> r == Success(Reply(messages, params, cachedContent))
      ensures cachedContent.None? && env.separateCachedMessages(messages).0 == [] ==>
        r == Success(Reply(messages, params, None))
      ensures cachedContent.Some? || env.separateCachedMessages(messages).0 == [] ==>
        && params.items == old(params.items)
        && localCacheManager.cache == old(localCacheManager.cache)
        && remoteCalls == old(remoteCalls)
      ensures cachedContent.None? && env.separateCachedMessages(messages).0 != [] ==>
        && params.items == old(params.items) - {"tools"}
        && (r.Success? ==> r.value.messages == env.separateCachedMessages(messages).1 && r.value.params == params)
      ensures
        var cached := env.separateCachedMessages(messages).0;
        var cacheKey := ContentKeyOf(env, messages, old(params.items));
        var scoped := ScopedKey(localCacheManager.md5Hex, cacheKey, ep.project, ep.location, Some(ep.provider.Name()));
        var url := RequestUrl(env, ep);
        var before := old(localCacheManager.cache);
        cachedContent.None? && cached != [] ==>
          if Lookup(before, scoped, now).Some? then
            && r.Success? && r.value.cachedContent == Lookup(before, scoped, now)
            && remoteCalls == old(remoteCalls)
            && localCacheManager.cache == before
          else
            var listed := ListVerdict(env.listCachedContents(url), cacheKey);
            if listed.Failure? then
              && r == Failure(listed.error)
              && remoteCalls == old(remoteCalls) + [ListCall(url)]
              && localCacheManager.cache == AfterLookup(before, scoped, now)
            else if NonEmpty(listed.value) then
              && r.Success? && r.value.cachedContent == listed.value
              && remoteCalls == old(remoteCalls) + [ListCall(url)]
              && localCacheManager.cache == AfterLookup(before, scoped, now)
            else
              var body := CreateBody(env, model, cached, cacheKey, ep, ToolsOf(old(params.items)));
              var created := CreateVerdict(env.createCachedContent(url, body), body, env.extractTtlFromCachedMessages(cached));
              && remoteCalls == old(remoteCalls) + [ListCall(url), CreateCall(url, body)]
              && (created.Failure? ==> r == Failure(created.error) && localCacheManager.cache == AfterLookup(before, scoped, now))
              && (created.Success? ==>
                    && r.Success? && r.value.cachedContent == Some(created.value.0)
                    && localCacheManager.cache == AfterLookup(before, scoped, now)[scoped := NewEntry(created.value.0, AdjustedTtl(created.value.1), now)])
    {
      if cachedContent.Some? {
        return Success(Reply(messages, params, cachedContent));
      }
      var (cached, nonCached) := env.separateCachedMessages(messages);
      if |cached| == 0 {
        return Success(Reply(messages, params, None));
      }
      var tools := params.Pop("tools", JNull);
      var cacheKey := env.getCacheKey(cached, tools);
      var localCacheId := localCacheManager.GetCache(cacheKey, ep.project, ep.location, Some(ep.provider.Name()), now);
      if localCacheId.Some? {
        return Success(Reply(nonCached, params, localCacheId));
      }
      var remote := ResolveRemotely(env, model, cached, cacheKey, ep, tools, now);
      if remote.Failure? {
        return Failure(remote.error);
      }
      return Success(Reply(nonCached, params, remote.value));
    }

    /**
      async_check_and_create_cache: the same sequence, with async_check_cache
      as the remote lookup, so that a remote hit is also written locally and
      an expired remote hit leads to a create.
    */
    method AsyncCheckAndCreateCache<M>(env: Collaborators<M>, messages: seq<M>, params: ParamsDict, model: string,
                                       ep: Endpoint, cachedContent: Option<string>, now: real)
      returns (r: Result<Reply<M>, CachingError>)
      modifies this`remoteCalls, localCacheManager, params
      ensures cachedContent.Some? ==> r == Success(Reply(messages, params, cachedContent))
      ensures cachedContent.None? && env.separateCachedMessages(messages).0 == [] ==>
        r == Success(Reply(messages, params, None))
      ensures cachedContent.Some? || env.separateCachedMessages(messages).0 == [] ==>
        && params.items == old(params.items)
        && localCacheManager.cache == old(localCacheManager.cache)
        && remoteCalls == old(remoteCalls)
      ensures cachedContent.None? && env.separateCachedMessages(messages).0 != [] ==>
        && params.items == old(params.items) - {"tools"}
        && (r.Success? ==> r.value.messages == env.separateCachedMessages(messages).1 && r.value.params == params)
      ensures
        var cached := env.separateCachedMessages(messages).0;
        var cacheKey := ContentKeyOf(env, messages, old(params.items));
        var scoped := ScopedKey(localCacheManager.md5Hex, cacheKey, ep.project, ep.location, Some(ep.provider.Name()));
        var url := RequestUrl(env, ep);
        var before := old(localCacheManager.cache);
        cachedContent.None? && cached != [] ==>
          if Lookup(before, scoped, now).Some? then
            && r.Success? && r.value.cachedContent == Lookup(before, scoped, now)
            && remoteCalls == old(remoteCalls)
            && localCacheManager.cache == before
          else
            var resp := env.listCachedContents(url);
            var listed := AsyncListVerdict(resp, cacheKey, env.fromIsoFormat, now);
            if listed.Failure? then
              && r == Failure(listed.error)
              && remoteCalls == old(remoteCalls) + [ListCall(url)]
              && localCacheManager.cache == AfterLookup(before, scoped, now)
            else if NonEmpty(listed.value) then
              var hit := RemoteHit(resp, cacheKey, env.fromIsoFormat, now);
              && hit.Some?
              && r.Success? && r.value.cachedContent == Some(hit.value.0)
              && remoteCalls == old(remoteCalls) + [ListCall(url)]
              && localCacheManager.cache == AfterLookup(before, scoped, now)[scoped := NewEntry(hit.value.0, AdjustedTtl(hit.value.1), now)]
            else
              var body := CreateBody(env, model, cached, cacheKey, ep, ToolsOf(old(params.items)));
              var created := CreateVerdict(env.createCachedContent(url, body), body, env.extractTtlFromCachedMessages(cached));
              && remoteCalls == old(remoteCalls) + [ListCall(url), CreateCall(url, body)]
              && (created.Failure? ==> r == Failure(created.error) && localCacheManager.cache == AfterLookup(before, scoped, now))
              && (created.Success? ==>
                    && r.Success? && r.value.cachedContent == Some(created.value.0)
                    && localCacheManager.cache == AfterLookup(before, scoped, now)[scoped := NewEntry(created.value.0, AdjustedTtl(created.value.1), now)])
    {
      if cachedContent.Some? {
        return Success(Reply(messages, params, cachedContent));
      }
      var (cached, nonCached) := env.separateCachedMessages(messages);
      if |cached| == 0 {
        return Success(Reply(messages, params, None));
      }
      var tools := params.Pop("tools", JNull);
      var cacheKey := env.getCacheKey(cached, tools);
      var localCacheId := localCacheManager.GetCache(cacheKey, ep.project, ep.location, Some(ep.provider.Name()), now);
      if localCacheId.Some? {
        return Success(Reply(nonCached, params, localCacheId));
      }
      var remote := AsyncResolveRemotely(env, model, cached, cacheKey, ep, tools, now);
      if remote.Failure? {
        return Failure(remote.error);
      }
      return Success(Reply(nonCached, params, remote.value));
    }
  }
}

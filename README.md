# Cybershuttle MCP server: a verified Dafny model

Cybershuttle is a research catalog. Clients reach it through a gateway
server, which exposes the catalog's resources, projects and sessions as
tools for LLM agents. This project models four parts of that system:

- **The client-side auth helper `CybershuttleAuth`.** It keeps an access
  token, a refresh token and an expiry. It mirrors the token into the
  `CS_ACCESS_TOKEN` environment variable and a JSON token file. When no
  usable token exists, it runs the OAuth 2.0 Device Authorization Grant:
  the device request is section 3.1 of RFC 8628, and the polling is
  sections 3.4 and 3.5.
- **The gateway.** This covers:
  - its module-level token cache, which has a one-hour lifetime and no
    safety margin;
  - the authenticated request to the catalog API;
  - the query parameters and response reshaping of its three list
    endpoints.
- **The OpenAI demo client.** This covers its keyword rule, its
  function-name dispatch, and its in-memory project filter.
- **The LangChain/Qwen demo client.** This covers its domain-aware keyword
  rule, resource-type detection, project filter, resource-creation
  validation, and tag bucketing.

Layout:

- `wrappers.dfy` holds `Option`/`Result` and Python truthiness of an
  optional string.
- `seqs.dfy` holds the order-preserving filter that every `for … append`
  loop builds. It includes the subsequence and multiplicity facts about
  that filter.
- `text.dfy` holds `str.lower()` and the substring test.
- `catalog.dfy` holds the JSON shapes of projects, resources and tags.
- `auth_model.dfy` is a pure state machine of the auth helper. Its state
  covers the helper's fields, the environment variable, the token file,
  whether the file is writable, the sleeps, the clock and a scripted authorization
  server.
- `auth.dfy` holds the helper as the class the source has. Every method is
  proved to change the whole state as the matching `AuthModel` function
  says, so the lemmas about `AuthModel` also hold of the methods.
- `gateway.dfy`, `openai_demo.dfy` and `qwen_demo.dfy` model the gateway
  and the two demo clients.

How the outside world is modelled:

- Time is whole seconds. In the auth helper the clock is part of the
  state: `time.time()` reads it and `time.sleep` advances it. The gateway
  takes the current time as a parameter `now`.
- The token file is `Absent | Corrupt | Present(record)`.
- The authorization server answers from a finite script of replies. An
  exhausted script answers like a network error, so the source's unbounded
  `while True` poll terminates in the model.
- Python exceptions that escape a call are `Raised(TypeError)` or
  `Raised(ValueError)`.
- The gateway's `HTTPException` is `Err(status)`.
- Upstream replies and `json.loads` results are parameters.

## Model

| member | source | states |
|---|---|---|
| AuthModel.UsableBoundary | src/cybershuttle_auth.py:103-108 | A token expiring exactly 300 s from now is not usable. One expiring 301 s from now is usable. |
| AuthModel.UsableEarlier | src/cybershuttle_auth.py:103-108 | A token usable now was usable at every earlier time. Only the passing of time makes a token unusable. |
| AuthModel.SaveEffects | src/cybershuttle_auth.py:56-80 | Saving a grant with a token sets the three fields. Expiry is `now + expires_in`, with 3600 by default. The token is mirrored into the environment. The record goes to the file when it is writable; otherwise the file is unchanged but the fields and environment still change. |
| AuthModel.SaveWithoutTokenRaises | src/cybershuttle_auth.py:56-66 | A grant without an access token raises `TypeError` when it is mirrored into the environment. The environment and the file stay as they were. |
| AuthModel.SaveThenLoad | src/cybershuttle_auth.py:56-101 | When the file is writable, loading right after a successful save returns True and leaves the saved state exactly as it was. |
| AuthModel.LoadWithoutRecord | src/cybershuttle_auth.py:82-101 | With the file absent or corrupt, loading returns False and changes nothing. |
| AuthModel.LogoutClears | src/cybershuttle_auth.py:250-264 | Logout clears all three fields and the environment, and removes the file when it can be removed. The server is untouched. |
| AuthModel.LogoutIdempotent | src/cybershuttle_auth.py:250-264 | Logging out twice is the same as logging out once. |
| AuthModel.Session | src/cybershuttle_auth.py:135-154 | A missing `interval` defaults to 5 and a missing `expires_in` to 1800. A present interval and the device code are kept. |
| AuthModel.PollSkipsPending | src/cybershuttle_auth.py:179-187 | N leading `authorization_pending` replies only add N requests and N sleeps of `interval`, and the clock moves on by the N sleeps. Polling then continues as if they had not been scripted. |
| AuthModel.TotalSleepIsProduct | src/cybershuttle_auth.py:184-186 | N sleeps of `interval` seconds move the clock on by N times `interval`. |
| AuthModel.PendingThenGranted | src/cybershuttle_auth.py:156-187 | N pending replies followed by a 200 give exactly N+1 token requests and N sleeps, and the clock ends N × `interval` s later. The result is True, with the token saved, written to the file when writable, and in the environment. The expiry and the file timestamp are read at that later time, after the sleeps. |
| AuthModel.PollStopsOnTerminal | src/cybershuttle_auth.py:179-198 | A non-pending 400, any other status, or a network error ends polling with False after exactly one request. Nothing is saved. |
| AuthModel.SlowDownIsTerminal | src/cybershuttle_auth.py:188-190 | `slow_down` ends the flow with False instead of slowing down. |
| AuthModel.DeviceRequestRejected | src/cybershuttle_auth.py:124-140 | A device reply other than 200 ends the flow with False after one device request and no token request. |
| AuthModel.PollInvariants | src/cybershuttle_auth.py:156-198 | Polling never touches the device endpoint. Success leaves a token equal to the environment. Failure leaves the token, environment and file unchanged. |
| AuthModel.FlowInvariants | src/cybershuttle_auth.py:110-198 | A device flow that succeeds leaves a token, and the environment holds it. A flow that fails or raises leaves the token, environment and file unchanged. |
| AuthModel.FlowSendsOneDeviceRequest | src/cybershuttle_auth.py:110-198 | Each device flow sends exactly one device request. |
| AuthModel.BearerHeaders | src/cybershuttle_auth.py:236-239 | The headers are exactly `Authorization: Bearer <token>` and `Content-Type: application/json`. |
| AuthModel.EnvOverrideWins | src/cybershuttle_auth.py:207-210 | A non-empty environment token is returned verbatim. Nothing is loaded or requested, even when a different usable token is stored. |
| AuthModel.StoredTokenServed | src/cybershuttle_auth.py:212-216 | Without an environment token, a usable token in the file is returned with no request, and it is mirrored into the environment. |
| AuthModel.UsableTokenServed | src/cybershuttle_auth.py:212-216 | Without an environment token, whatever token the helper holds after loading passes the validity check is returned with no request, and the state is the loaded one. This covers the file's token and, with no record, the token already in memory. |
| AuthModel.FlowDecides | src/cybershuttle_auth.py:218-223 | Without an environment token or a usable stored one, the device flow decides. The result is the new token, None, or the flow's exception. |
| AuthModel.ReturnedTokenIsInEnv | src/cybershuttle_auth.py:200-223 | When the environment mirrors the helper's token, every non-empty token returned is left in the environment. |
| AuthModel.MirroredEstablished | src/cybershuttle_auth.py:56-80 | A new helper, a successful save and a logout each leave the environment holding the helper's non-empty token, if any. |
| AuthModel.MirroredKept | src/cybershuttle_auth.py:200-248 | Loading, the device flow, `get_access_token`, `get_auth_headers` and `is_authenticated` each keep the environment holding the helper's non-empty token. So every state reached through one helper's own calls has that property. |
| AuthModel.AuthenticateMirrored | src/cybershuttle_auth.py:266-277 | The helper that `authenticate()` creates and uses ends with the environment holding its non-empty token. |
| AuthModel.LaterCallsUseEnv | src/cybershuttle_auth.py:207-210 | Assume the environment holds the helper's non-empty token, as every state reached through this helper's own calls does. Then after a non-empty token is returned, every later call, at any later time, returns it through the environment override with no request, even after it expires. |
| AuthModel.NewHelperLaterCallsUseEnv | src/cybershuttle_auth.py:207-210 | For a newly created helper, whatever the environment and the file hold: after a non-empty token is returned, every later call at any time returns it with no request. |
| AuthModel.ExpiredTokenServedAfterFailedFlow | src/cybershuttle_auth.py:200-223 | An expired token loaded from file is mirrored into the environment. If the device flow then fails in any way (device request refused, terminal polling error, network error), the call returns None, yet the next call at any time returns the expired token. |
| AuthModel.HeadersFollowToken | src/cybershuttle_auth.py:225-239 | Getting the headers raises exactly when getting the token raises or yields no non-empty token. Otherwise it returns the two bearer headers. |
| AuthModel.IsAuthenticatedFollowsToken | src/cybershuttle_auth.py:241-248 | `is_authenticated` equals `get_access_token() is not None` and has the same effects. |
| AuthModel.AuthenticateRetriesFlow | src/cybershuttle_auth.py:266-277 | With no environment or usable stored token and a failing first flow, `authenticate()` runs a second flow, so two device requests are made. A second failure raises `ValueError`. |
| AuthModel.EndToEnd | src/cybershuttle_auth.py:110-223 | The scenario is one pending reply and then `T1`, starting with no file and no environment token. The call returns `T1` after two token requests and one 1-s sleep, and the token expires 3600 s after that sleep ends. A second call at any later time returns `T1` with no request. |
| Auth.AuthServer.PostDevice | src/cybershuttle_auth.py:124-133 | Changes the server object exactly as `DevicePost`. |
| Auth.AuthServer.PostToken | src/cybershuttle_auth.py:158-165 | Changes the server object exactly as `TokenPost`. |
| Auth.CybershuttleAuth.constructor | src/cybershuttle_auth.py:21-48 | The new helper keeps the given `client_id`, which both request forms send. It takes the environment's token, with no refresh token and no expiry. |
| Auth.CybershuttleAuth.SaveToken | src/cybershuttle_auth.py:56-80 | Updates the fields, the environment and the file as `AuthModel.Save`. |
| Auth.CybershuttleAuth.LoadToken | src/cybershuttle_auth.py:82-101 | Updates the fields and the environment as `AuthModel.Load`. |
| Auth.CybershuttleAuth.DeviceFlowAuth | src/cybershuttle_auth.py:110-198 | The polling loop matches `AuthModel.Flow`: same requests, sleeps, saved token and result. The loop invariant keeps the rest of the flow equal to the model's. |
| Auth.CybershuttleAuth.GetAccessToken | src/cybershuttle_auth.py:200-223 | Resolves the token as `AuthModel.GetToken`. |
| Auth.CybershuttleAuth.GetAuthHeaders | src/cybershuttle_auth.py:225-239 | Returns or raises as `AuthModel.GetHeaders`. |
| Auth.CybershuttleAuth.IsAuthenticated | src/cybershuttle_auth.py:241-248 | Answers as `AuthModel.IsAuthenticated`. |
| Auth.CybershuttleAuth.Logout | src/cybershuttle_auth.py:250-264 | Resets the helper, its environment and its file as `AuthModel.Logout`. |
| Auth.Authenticate | src/cybershuttle_auth.py:266-277 | Creates a fresh helper and authenticates it as `AuthModel.Authenticate`. |
| Gateway.CacheBoundary | src/cybershuttle_mcp_server.py:70-75 | The gateway cache is valid one second before expiry and invalid at expiry. There is no margin. |
| Gateway.HelperStricterThanCache | src/cybershuttle_mcp_server.py:70-75 | The two expiry rules compared: the auth helper's 300-s margin is stricter than the gateway cache's none, so everything the helper accepts the cache accepts too. |
| Gateway.RefreshValidForAnHour | src/cybershuttle_mcp_server.py:93-101 | A refresh from the environment makes the cache valid exactly until `now + 3600`. |
| Gateway.ResolvedTokenNonEmpty | src/cybershuttle_mcp_server.py:79-87 | `get_auth_token` never yields an empty token, and it fails only with 401. |
| Gateway.ValidCacheIgnoresEnv | src/cybershuttle_mcp_server.py:79-87 | A valid non-empty cached token is returned without consulting the environment, and the cache is unchanged. |
| Gateway.InvalidCacheUsesEnv | src/cybershuttle_mcp_server.py:79-107 | With an invalid cache, the result is the environment token with a one-hour expiry, or 401 with the cache unchanged. |
| Gateway.AuthCache.constructor | src/cybershuttle_mcp_server.py:64-68 | The cache starts empty. |
| Gateway.AuthCache.RefreshAuthToken | src/cybershuttle_mcp_server.py:89-107 | Updates the cache as `Refresh`. |
| Gateway.AuthCache.GetAuthToken | src/cybershuttle_mcp_server.py:79-87 | Updates the cache and answers as `ResolveToken`. |
| Gateway.AuthorizedHeaders | src/cybershuttle_mcp_server.py:113-115 | `Authorization` becomes `Bearer <token>`. Every other caller header is kept, and no key is added besides `Authorization`. |
| Gateway.ReplyOutcomeCases | src/cybershuttle_mcp_server.py:119-128 | A 4xx/5xx reply keeps its status, and a connection failure is 500. For any other status, an empty body becomes `{}`, a JSON body's value is passed through unchanged, and a non-JSON body is 500. No other error code arises. |
| Gateway.MakeAuthenticatedRequest | src/cybershuttle_mcp_server.py:109-128 | With no token, no request is sent and 401 is returned. Otherwise exactly one request is sent, to the API base plus the endpoint, with the authorized headers and the given params. |
| Gateway.Digits | src/cybershuttle_mcp_server.py:158 | `str(n)` of a natural number is non-empty decimal digits with no leading zero. |
| Gateway.DigitsRoundTrip | src/cybershuttle_mcp_server.py:158 | Reading the digits of `str(n)` back gives `n`. |
| Gateway.NumberIdRoundTrip | src/cybershuttle_mcp_server.py:294-301 | A stringified numeric id, sign included, parses back to the same number. |
| Gateway.NumberIdsInjective | src/cybershuttle_mcp_server.py:232-241 | Distinct numeric ids stay distinct after stringification. |
| Gateway.ResourceParams | src/cybershuttle_mcp_server.py:133-150 | `limit` and `offset` are always present, with 10 and 0 when the caller omits them. `type`, `tags` and `name` are each present exactly when their argument is non-empty. `resource_type` never appears under its own name. |
| Gateway.SummaryKeepsPresentFields | src/cybershuttle_mcp_server.py:157-165 | A present name and a textual id are copied verbatim. |
| Gateway.ShapeResources | src/cybershuttle_mcp_server.py:155-165 | One summary per upstream item, in order. Missing fields become `""` or `[]`, and ids are stringified. |
| Gateway.ListResources | src/cybershuttle_mcp_server.py:132-167 | GET to the resources endpoint, with the resource query and bearer headers. Upstream errors are passed on. Otherwise the result is the shaped `content`, which is empty when it is missing. |
| Gateway.ShapeProjects | src/cybershuttle_mcp_server.py:232-241 | One summary per project, in order, with `ownerId` stringified into `owner_id`. |
| Gateway.ListProjects | src/cybershuttle_mcp_server.py:227-243 | GET to the projects endpoint with no params. Upstream errors are passed on. Otherwise the result is the shaped list, which is empty for an empty body. |
| Gateway.SessionParams | src/cybershuttle_mcp_server.py:287-289 | `status` is sent exactly when a non-empty status is given, and nothing else is sent. |
| Gateway.ShapeSessions | src/cybershuttle_mcp_server.py:293-301 | One summary per session, in order, with `projectId` stringified. |
| Gateway.ListSessions | src/cybershuttle_mcp_server.py:284-303 | GET to the sessions endpoint with the status query and bearer headers. Upstream errors are passed on. Otherwise the result is the shaped list. |
| Catalog.LoweredTags | demos/cybershuttle_openai_demo.py:309 | One lowercased tag value per tag, in order. A missing value reads as `""`. |
| OpenAIDemo.SemanticFirstMatch | demos/cybershuttle_openai_demo.py:481-497 | Each outcome is chosen exactly when its rule's terms occur in the lowercased query and no earlier rule's do. With no rule, the name is the original query. |
| OpenAIDemo.SemanticCaseInsensitive | demos/cybershuttle_openai_demo.py:483 | Queries equal up to letter case get the same tag. When no rule matches, both are looked up by name. |
| OpenAIDemo.NeuralIsNeuroscience | demos/cybershuttle_openai_demo.py:485-486 | Any query mentioning "neural", for example "neural networks", gives `neurodata25`. |
| OpenAIDemo.MapsAgree | demos/cybershuttle_openai_demo.py:229-259 | Both maps have exactly the thirteen listed names as keys. Every method is GET or POST. |
| OpenAIDemo.DispatchIff | demos/cybershuttle_openai_demo.py:261-265 | A name is routed exactly when both maps know it. Otherwise the result is `Unknown function: <name>` and no route exists. |
| OpenAIDemo.DatasetTagsMatch | demos/cybershuttle_openai_demo.py:316-325 | The dataset loop stops at the first matching dataset. It is true exactly when some dataset's tags match. |
| OpenAIDemo.MatchProject | demos/cybershuttle_openai_demo.py:299-325 | One loop turn keeps the project exactly when it matches by name/description, repository tags or dataset tags. Dataset tags are read exactly when the first two tests fail. |
| OpenAIDemo.FilterProjects | demos/cybershuttle_openai_demo.py:297-325 | The loop's result is the fetched projects that match, in fetched order. Dataset tags are read exactly at the positions where neither the name/description nor the repository matched. |
| OpenAIDemo.SearchProjects | demos/cybershuttle_openai_demo.py:282-330 | A failed fetch gives the error text. Otherwise the result is the fetched projects filtered by name/description, repository tags or dataset tags, against the lowercased term and the target tag. Dataset tags are read exactly for projects that matched neither by name/description nor by repository. |
| OpenAIDemo.SearchResultIsSubsequence | demos/cybershuttle_openai_demo.py:297-325 | The result is an order-preserving subsequence of the fetch. A selected project occurs as often as in the fetch, and an unselected one not at all. |
| OpenAIDemo.NameMatchIncluded | demos/cybershuttle_openai_demo.py:301-305 | A fetched project whose lowercased name or description contains the term is always in the result. |
| OpenAIDemo.EmptyTermKeepsAll | demos/cybershuttle_openai_demo.py:301-305 | A missing or empty search term returns every fetched project. |
| QwenDemo.EnhancedFirstMatch | demos/langchain_qwen_demo.py:64-99 | The domain is chosen by first match among neuro, ML, vision, NLP and data science, with general otherwise. The four tagged domains carry their tag; data science and general carry the original query as name. |
| QwenDemo.NeuralNetworkShadowed | demos/langchain_qwen_demo.py:67-78 | The ML term "neural network" can never select ML, because the neuro term "neural" is tested first. |
| QwenDemo.ResourceTypeFirstMatch | demos/langchain_qwen_demo.py:105-113 | The type is the first of dataset, notebook, repository/repo and model occurring in the lowercased query, or none. |
| QwenDemo.ListResourcesParams | demos/langchain_qwen_demo.py:101-121 | `pageNumber=0` and `pageSize=100` are always present. `resource_type` is present exactly when a type is detected. Exactly one of `tags`/`name` is present, copied from the search rule. |
| QwenDemo.ToolTargetEmptyIff | demos/langchain_qwen_demo.py:160 | The target tag is empty exactly when the search rule gave a name. |
| QwenDemo.DatasetHasTag | demos/langchain_qwen_demo.py:176-181 | The loop stops at the first dataset with an exactly equal tag. It is true exactly when one exists. |
| QwenDemo.FilterProjects | demos/langchain_qwen_demo.py:158-181 | The loop keeps exactly the name/description matches and, with a non-empty target, the exact tag matches. Tags are read exactly for projects that did not match by name and only when a target exists. |
| QwenDemo.SearchProjectsTool | demos/langchain_qwen_demo.py:149-181 | A fetch error is passed on. Otherwise the result is the filter with the lowercased query and the rule's lowercased tag. |
| QwenDemo.ToolResultIsSubsequence | demos/langchain_qwen_demo.py:162-181 | The result is an order-preserving subsequence, and each selected project occurs exactly as often as in the fetch. |
| QwenDemo.NoTargetOnlyNames | demos/langchain_qwen_demo.py:163-168 | With no target tag, a project is kept exactly when it matches by name or description. |
| QwenDemo.CreateAccepts | demos/langchain_qwen_demo.py:231-257 | Input not starting with `{` and input that is not JSON are rejected. A request is planned exactly for dataset/notebook/model, or for a repository with a URL. |
| QwenDemo.CreateCallShape | demos/langchain_qwen_demo.py:239-247 | A repository uses `github_url`, falling back to `url` only when `github_url` is empty. Other types post the data to `/resources/<type>`. |
| QwenDemo.UnsupportedTypeReported | demos/langchain_qwen_demo.py:248-249 | Any other type is rejected, naming the lowercased type. The error text reads `Error: Unsupported resource type '<type>'. Use: dataset, notebook, model, repository`. |
| QwenDemo.ExtractTags | demos/langchain_qwen_demo.py:271-276 | One tag per element, in order. An object gives its `value` or `""`; any other value gives its text. |
| QwenDemo.DomainBucketMembership | demos/langchain_qwen_demo.py:279-282 | A tag is in a domain bucket exactly when it is an input tag containing one of that domain's keys. |
| QwenDemo.GeneralMembership | demos/langchain_qwen_demo.py:283 | `general` holds exactly the input tags containing none of neuro, brain, ml, image and language. |
| QwenDemo.GeneralOverlapsDomains | demos/langchain_qwen_demo.py:279-283 | A tag with "cortex" and none of the exclusions is in both `neuroscience` and `general`. |
| QwenDemo.BucketsKeepOrder | demos/langchain_qwen_demo.py:278-284 | Every bucket is an order-preserving subsequence of the tags. |
| Text.ContainsIff | demos/cybershuttle_openai_demo.py:485 | `Contains`, which models Python's `needle in s`, holds exactly when the needle occurs at some position of `s`. |
| Text.Lower | demos/cybershuttle_openai_demo.py:483 | Lowercasing keeps the length and lowercases each character. |
| Seqs.FilterMultiplicity | demos/langchain_qwen_demo.py:162-181 | A filter loop never duplicates an element. A kept element occurs as often as in the input. |

## Left out

- HTTP transport is not modelled: the real `requests` calls, `requests.Session`, and `get_authenticated_session`. Upstream replies are script entries or parameters.
- The FastAPI and Flask routing, pydantic models and `uvicorn` startup are not modelled.
- Endpoints other than the three list endpoints are not modelled, and neither is `health_check`.
- JSON encoding of the token file, `os.makedirs` and `open` are not modelled. The file is `Absent | Corrupt | Present(record)`, and one `writable` flag decides whether writing and removing succeed.
- Floating-point `time.time()` is not modelled: time is whole seconds.
- `time.sleep` advances the model's clock by exactly the requested seconds, and the sleep is recorded. Nothing else takes time: HTTP requests, file access and the other statements leave the clock where it was.
- AuthModel.PollFrom: since requests take no time, a token saved after N pending replies expires exactly N × `interval` + `expires_in` seconds after the flow started. The real helper's expiry is later by the round-trip time of the requests.
- Between calls, elapsed time is given by the caller. The lemmas about a later call set the clock to an arbitrary value.
- The `Mirrored` lemmas are about one helper. They assume that helper is the only writer of `CS_ACCESS_TOKEN` and the token file. Both are shared by the whole process, and `authenticate()` creates a new helper on every call. A second helper on the same host, for example one that logs out, can leave the first helper holding a token the environment no longer has.
- The constructor's `api_base`, `auth_server_url` and `realm` only build URLs, and URLs are not modelled (see the HTTP line above). `authenticate()` passes no arguments, so it uses the default `client_id`.
- Logging and `print` output are not modelled, including the poll loop's `counter`, which only numbers the waiting messages, nor are the verification URL and user code shown to the user.
- `async`/`await` is not modelled: the server has no concurrency logic.
- The OpenAI, Ollama and LangChain agent construction, prompts, callbacks, the `display_*` functions, result formatting and the interactive loops are not modelled. The demos are modelled up to the values they format.
- `call_mcp_function` beyond the dispatch and the `search_projects` branch is not modelled: URL templating, parameter forwarding, and the request itself.
- JSON values of the wrong type (a `null`, or a string where a list is expected) are not modelled; the model has no constructor for them.
- `Text.Lower` lowers only ASCII letters; Python's `str.lower()` also lowers other Unicode letters.
- `QwenDemo.ExtractTags`: `str(tag)` of a non-object tag is given as text.
- `QwenDemo.PlanCreate`: `json.loads` is given as a result, with `None` meaning it raised. A `type` that is not a string is not modelled.
- The token-response `expires_in` is modelled. The device code's `expires_in` is kept, but the source never enforces it and neither does the model.
- Gateway: the cache's `refresh_token` is carried but never set, as in the source.
- `get_research_tags_tool` is not modelled when `/resources/tags` is not a list.
- Endpoint URL formatting uses the API base constant but does not model URL encoding of parameters.

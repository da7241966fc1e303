# ReqRes user client: a Dafny model

This project models the two parts of the ReqRes user client that hold its logic:

- **The REST client** (`ReqResApiClient`). It fetches one user by id. It also drains the paginated user list: it requests page 1, 2, 3, … until the page number passes the `total_pages` the server declared on the last page. Every failure becomes one of two exceptions: `NotFoundException` or `ApiException`.
- **The user service** (`ExternalUserService`). It is a read-through cache in front of that client. It uses the key `User_{id}` for one user and `AllUsers` for the list. Entries live for a configured number of minutes, and five minutes is the fallback.

The HTTP exchange and JSON deserialisation are an oracle.
- A single-user request yields a `Reply`. That is either a response (status, reason phrase, and the outcome of deserialising the body) or a transport failure or a cancellation.
- The list endpoint is a function from page number to `Reply`.
- The clock is explicit, in milliseconds: each cache lookup and each cache write takes its own time argument.
- The API client the service calls is a `UserSource` object. Its answers come from oracles indexed by how many calls came before, and it logs every call.

Files:
- `wrappers.dfy`: `Option` and `Result`.
- `models.dfy`: the user record, the two response envelopes, the cache settings, and the failure taxonomy. An `ApiException` message is kept as structured data (user id, page, reason phrase) rather than as formatted text.
- `client.dfy`: `GetUserById` as a pure function over one reply. `GetAllUsers` as a method with the do-while loop. `StopPage`, `Collected` and `DrainOutcome` specify the drain independently of the loop.
- `cache_keys.dfy`: the key strings. It also has an inverse parser, used to prove that distinct ids give distinct keys.
- `memory_cache.dfy`: the shared cache, as a class over a `map` from key to (value, expiry).
- `service.dfy`: the TTL clamp, the client collaborator, and the service class.

## Model

| member | source | states |
|---|---|---|
| Clients.Catch | ReqResApiClient/Clients/ReqResApiClient.cs:73-84 | NotFoundException and ApiException thrown inside the try pass through unchanged; transport, JSON and cancellation exceptions become ApiExceptions with the fixed network, parse and timeout messages |
| Clients.GetUserById | ReqResApiClient/Clients/ReqResApiClient.cs:46-85 | the user is returned iff the status is 2xx and the body's `data` is present, and then it is exactly that `data`; 404 and only 404 gives NotFound for the requested id; any other non-success status gives an ApiException with the id and the reason phrase; a 2xx body without `data` gives "invalid user data"; transport, parse and timeout failures each give their fixed ApiException |
| Clients.PageFailure | ReqResApiClient/Clients/ReqResApiClient.cs:115-127 | a failed list page is always an ApiException, never NotFound (a 404 on a page is a generic status failure); a non-success status names the page and the reason phrase; a 2xx body without `data` gives "invalid user list data"; transport, parse and timeout failures give the fixed messages |
| Clients.StopPage | ReqResApiClient/Clients/ReqResApiClient.cs:130-133 | the last page requested is the first page, counting up from 1, that either fails or declares fewer than its own number plus one pages; every earlier page succeeded and declared more; it is at most the assumed bound plus one |
| Clients.GetAllUsers | ReqResApiClient/Clients/ReqResApiClient.cs:102-149 | the loop's result equals the drain specification: on success, the users of pages 1 to the stop page concatenated; on failure, the stop page's failure and no list; the pages requested are exactly 1, 2, …, stop page, in order |
| Clients.FirstPageAlwaysRequested | ReqResApiClient/Clients/ReqResApiClient.cs:109-133 | a successful page 1 that declares one page or fewer (0 or negative included) yields exactly page 1's users, since the do-while body runs before the bound is checked |
| Clients.DrainCollectsEveryPage | ReqResApiClient/Clients/ReqResApiClient.cs:104-135 | if pages 1..n-1 continue and page n succeeds declaring fewer than n + 1 pages, the result is exactly the concatenation of pages 1..n |
| Clients.DrainAbortsOnFailedPage | ReqResApiClient/Clients/ReqResApiClient.cs:115-127 | if pages 1..n-1 continue and page n fails, the whole drain fails with page n's failure and returns no partial list |
| Clients.StopPageIsFirstStop | ReqResApiClient/Clients/ReqResApiClient.cs:130-133 | the bound re-read on every page decides the exit: the drain stops at the first page n that does not declare at least n + 1 pages, and at no other page |
| Clients.CollectedKeepsPageOrder | ReqResApiClient/Clients/ReqResApiClient.cs:129 | in the accumulated list, user i of page k comes right after all users of pages 1..k-1 (page order, then order within the page) |
| Clients.CollectedLength | ReqResApiClient/Clients/ReqResApiClient.cs:129 | the accumulated list's length is the sum of the page sizes |
| Clients.ThreePagesOfTwoTwoAndOne | ReqResApiClient/Clients/ReqResApiClient.cs:109-133 | three pages of 2, 2 and 1 users, each declaring three pages, drain to the five users in page order |
| CacheKeys.UserKeyRoundTrip | ReqResApiClient/Services/ExternalUserService.cs:47 | the id can be read back from the key `User_{id}` (decimal, with a leading '-' for negative ids) |
| CacheKeys.UserKeysDistinct | ReqResApiClient/Services/ExternalUserService.cs:47 | distinct user ids give distinct cache keys |
| CacheKeys.UserKeyIsNotAllUsersKey | ReqResApiClient/Services/ExternalUserService.cs:67 | no single-user key equals `AllUsers` |
| Caching.MemoryCache.TryGetUser | ReqResApiClient/Services/ExternalUserService.cs:49 | a single-user lookup hits iff the entry is live and holds a user or a null (which has no type); a stored null comes back as a null user |
| Caching.MemoryCache.TryGetUserList | ReqResApiClient/Services/ExternalUserService.cs:69 | a list lookup hits iff the entry is live and holds a list or a null; a stored null comes back as a null list |
| Caching.MemoryCache.Set | ReqResApiClient/Services/ExternalUserService.cs:56 | the entry under the key is replaced by the value with expiry now + lifetime, and no other key changes; the lifetime must be positive |
| Caching.WrittenEntryLivesForTtl | ReqResApiClient/Services/ExternalUserService.cs:56 | an entry written at `now` with lifetime `ttl` is served exactly before `now + ttl`, so with a positive lifetime it is served at once and not after expiry |
| Caching.WriteLeavesOtherKeys | ReqResApiClient/Services/ExternalUserService.cs:56 | writing one key leaves what every other key shows unchanged |
| Services.ExpirationMinutes | ReqResApiClient/Services/ExternalUserService.cs:36-37 | the lifetime is the configured minutes when that value is positive, otherwise 5 (absent settings included), so it is always positive |
| Services.ExternalUserService.constructor | ReqResApiClient/Services/ExternalUserService.cs:32-38 | the service keeps the given client and shared cache, and its lifetime is the clamped minutes in milliseconds |
| Services.ExternalUserService.GetUserById | ReqResApiClient/Services/ExternalUserService.cs:45-59 | a hit at the lookup time returns the stored user (a stored null as null) with no client call and no cache change; a miss calls the client exactly once and returns its answer; on success that answer (null included) is stored under `User_{id}` with expiry at the write time, after the client answered, plus the lifetime; a failure leaves the cache unchanged; no other key, the `AllUsers` entry in particular, changes |
| Services.ExternalUserService.GetAllUsers | ReqResApiClient/Services/ExternalUserService.cs:65-79 | a hit at the lookup time returns the stored list (a stored null as null) with no client call and no cache change; a miss calls the client exactly once and returns its list (an empty or null one included), stores it under `AllUsers` with expiry at the write time, after the drain finished, plus the lifetime, and leaves the cache unchanged on failure; no single-user entry changes |
| Services.RequestUserTwice | ReqResApiClient/Services/ExternalUserService.cs:45-59 | after a miss, a second request before the first write time plus the lifetime returns the same answer with only one client call in all; from that time on, or after a failed first call, the client is called again |
| Services.UserSource.GetUserById | ReqResApiClient/Interfaces/IReqResApiClient.cs:12 | each call is logged and answered by the user oracle for that call |
| Services.UserSource.GetAllUsers | ReqResApiClient/Interfaces/IReqResApiClient.cs:17 | each call is logged and answered by the list oracle for that call |

## Left out

- HTTP transport, the base address and the `x-api-key` header are not modelled. Each request is reduced to a `Reply` oracle.
- JSON deserialisation is not modelled. Only its outcome is: an envelope, a null envelope, or a JSON error.
- Exception classes other than the three the catch blocks name are not modelled. The oracle cannot produce them, so the model does not show them propagating untranslated.
- Clients.GetAllUsers: it assumes `PagesBounded(endpoint, maxPages)`, meaning no successful page declares more than `maxPages` pages. A server that keeps raising `total_pages` would make the source loop forever, and the model cannot express that.
- Clients.GetAllUsers: the page counter is unbounded. The 32-bit overflow of `page++` once `total_pages` reaches Int32.MaxValue is not modelled.
- Null elements inside a page's `data` list and null string fields of a user are not modelled. Users are plain values.
- Exact message strings are not modelled. The exception messages are kept as structured values (user id, page, reason phrase), and the inner exception is dropped.
- `ReasonPhrase` is a plain string. Its possible null is not modelled.
- The cache key for a user id is formatted in decimal with a '-' sign, as in the invariant culture. Other cultures' number formatting is not modelled.
- The memory cache's internals (eviction, size limits, thread safety) are not modelled. A lookup never removes an expired entry. It only treats it as absent.
- async/await is not modelled. Calls run one after another, so two concurrent misses on one key are not modelled either.
- Services.UserSource: it stands for any client behind the service's interface, as the service's tests mock it, so it may answer a null user or a null list. It cannot be handed a raw foreign exception, because failures are drawn from the client's taxonomy.
- The clock is explicit: each service getter takes the time of its cache lookup and the later time of its cache write, with the write not before the lookup. Time passing in between is what the client call takes; it is not otherwise modelled.
- The retry policy configured in the console host is not modelled. It is a third-party library's policy on the HTTP client, not code of this repository.
- The console host, dependency injection and configuration loading are not modelled. The `Support` block of the responses and the retry settings are not modelled either.
- The test file `ExternalUserServiceTests.cs` calls a two-argument constructor that the service does not have. Nothing here relies on it.

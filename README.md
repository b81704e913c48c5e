# Token cache of the go-zoom API client, in Dafny

The go-zoom client calls the Zoom REST API with a Server-to-Server OAuth bearer token.
It keeps that token in a *token mutex*. The token mutex is a small store with five
operations: `Lock`, `Unlock`, `Get`, `Set` and `Clear`. Before every API call the client
runs the same protocol:

1. lock the store;
2. read the cached token;
3. on a miss (`ErrTokenNotExist` or `ErrTokenExpired`), fetch a new token from the OAuth
   endpoint and cache it, with its lifetime shortened by 60 seconds;
4. unlock, then send the API request with the token as its Bearer credential;
5. on a 401 from the API, clear the cache so the next call refreshes.

The token mutex has two implementations. The in-memory `Default` holds the token and
its expiry in fields. The `Redis` store keeps the token under one key of a Redis server
and takes a redislock lock on a second key.

This project models both stores and the client's protocol, and proves what each
promises. The modules are:

- `Errors` (errors.dfy): the two sentinel errors and the wrapping forms. These are
  `fmt.Errorf` with `%w`, which `errors.Is` sees through, and `errs.Wrap`, whose library
  is not part of this model.
- `Instants` (instants.dfy): `time.Time` as integer nanoseconds since the Unix epoch.
  `Unix()` rounds down. The zero time is 0001-01-01.
- `DefaultMutex` (default.dfy): the class `Default`, whose methods update its fields in
  place. The pure function `Lookup` gives what `Get` answers.
- `RedisMutex` (redis.dfy): the class `Redis` over a `Server` whose `data` maps each key
  to a value and a TTL. Each call takes what the Redis client or redislock answered as
  an input: a connection fault, a lock obtained or refused, a release that failed.
- `Zoom` (client.dfy): the client. Its parts are:
  - `AccessToken`, `ExpiryFrom` and `RequestURL`: the pure parts of `accessToken` and
    `request`.
  - The protocol of one `request` as pure functions. `TokenPhase` and `SendPhase` return
    the calls made (`Event`s) and the reply, and `Run` chains the two.
  - The lemmas about those functions.
  - The class `Client`. Its `Request` method runs the protocol step by step and is
    proved to make exactly the calls of `Run`. It records them in a ghost `trace`.

The interface `TokenMutex` is modelled as `Backend`, because Dafny's traits are not used
here. A `Backend` is either the in-memory `Default`, whose answers come from its fields,
or a `SuppliedMutex`, which stands for any other implementation. Each answer of a
`SuppliedMutex` is an input (`Answers`), and it keeps only a `held` flag. Two checks in
`Client` are structural. `Deliver` (the API call) requires the lock to be free, and
`FetchAccessToken` requires it to be held. So the verifier checks at every call site
that the API is never called while the lock is held.

Some behaviours of the code that a reader may not expect, which the model follows:

- The code drops the original error on the failure paths after `Lock`. Lines 103, 114
  and 124 of zoom/client.go reassign `err` to `Unlock`'s result, so the returned error
  wraps that result: a nil error when `Unlock` succeeded. It never wraps the failed
  `Get`, fetch or `Set`. `FailuresReportUnlockOutcome` states this. The failed `Get`,
  fetch or `Set` is never returned to the caller.
- `Redis.Set` writes `expiresAt.Unix() - now.Unix()` as the TTL, unclamped, so it
  can be zero or negative.
- `Redis.Unlock` before any `Lock` returns nil. The store's own test expects
  `ErrLockNotHeld` (zoom/tokenmutex/redis_test.go:28-29).
- `Redis.Lock` takes no duration (zoom/tokenmutex/redis.go:41), so `*Redis` does not
  satisfy the client's `TokenMutex` interface (zoom/client.go:52). The Redis store is
  therefore modelled on its own and is not a `Backend`.
- The default key constant is unexported (`redisDefaultKey`). The tests use
  `RedisDefaultKey`.

## Model

| member | source | states |
|---|---|---|
| `Errors.Is` | zoom/client.go:102 | `errors.Is` as the client relies on it: the error itself, or reachable through `fmt.Errorf`'s `%w` chain |
| `Errors.IsThroughChain` | zoom/tokenmutex/redis.go:74 | for a target that is not itself a `%w` wrapper, `errors.Is` holds of an error under any number of `%w` layers exactly when it holds of the innermost error |
| `Instants.Unix` | zoom/tokenmutex/redis.go:81 | `Unix()` is the whole second containing the instant, rounded down also before 1970 |
| `Instants.UnixAddSeconds` | zoom/client.go:239 | adding whole seconds to an instant moves its `Unix()` by exactly that many seconds |
| `DefaultMutex.Lookup` | zoom/tokenmutex/default.go:30-40 | what `Get` answers for a cache holding a token until an expiry, asked at now; the token comes back only with no error, and "" with an error |
| `DefaultMutex.LookupStates` | zoom/tokenmutex/default.go:30-40 | `Get`'s three answers are exhaustive and exclusive: absent exactly when the token is empty, expired exactly when it is non-empty and now is strictly after the expiry, returned exactly otherwise; on an error the token returned is "" |
| `DefaultMutex.Default.constructor` | zoom/tokenmutex/default.go:16-18 | `NewDefault` starts with an empty token, the zero time and an unlocked mutex |
| `DefaultMutex.Default.Lock` | zoom/tokenmutex/default.go:20-23 | takes the mutex, ignores the duration and always returns nil |
| `DefaultMutex.Default.Unlock` | zoom/tokenmutex/default.go:25-28 | releases a locked mutex and always returns nil |
| `DefaultMutex.Default.Get` | zoom/tokenmutex/default.go:30-40 | an empty token gives "" and `ErrTokenNotExist` whatever the expiry; a non-empty token gives "" and `ErrTokenExpired` when now is strictly after the expiry; otherwise the token with no error; the answer is `Lookup`'s; the fields are not changed |
| `DefaultMutex.Default.Set` | zoom/tokenmutex/default.go:42-47 | stores exactly the given token and expiry and returns nil |
| `DefaultMutex.Default.Clear` | zoom/tokenmutex/default.go:49-54 | resets the token to "" and the expiry to the zero time and returns nil |
| `DefaultMutex.SetGetClearGet` | zoom/tokenmutex/default.go:30-54 | `Set` of a non-empty token and then `Get` no later than its expiry returns that token; `Clear` twice leaves the empty cache, and the next `Get` reports `ErrTokenNotExist` |
| `RedisMutex.DataKey` | zoom/tokenmutex/redis.go:34-36 | an empty key becomes "zoom_access_token" and a non-empty key is kept; the key used is never empty |
| `RedisMutex.DataKeyVersusLockKey` | zoom/tokenmutex/redis.go:13-14 | the data key equals the lock key "zoom_access_token_lock" exactly when the caller passes that name; the default never does; defaulting twice changes nothing |
| `RedisMutex.Lookup` | zoom/tokenmutex/redis.go:67-78 | what GET answers from the server's map: the stored value when the key is present, "" and `ErrTokenNotExist` exactly when it is absent |
| `RedisMutex.Ttl` | zoom/tokenmutex/redis.go:81 | the TTL in whole seconds, `expiresAt.Unix() - now.Unix()`, is within one second of the true time left, either way |
| `RedisMutex.Redis.constructor` | zoom/tokenmutex/redis.go:23-39 | `NewRedis` needs a non-nil client, keeps it, uses the defaulted key and holds no lock handle |
| `RedisMutex.Redis.Lock` | zoom/tokenmutex/redis.go:41-52 | a lock obtained is kept as the handle and nil is returned; a refusal is wrapped as "obtaining lock" and leaves the handle as it was |
| `RedisMutex.Redis.Unlock` | zoom/tokenmutex/redis.go:54-65 | with no handle it returns nil and changes nothing; with one it returns the release error wrapped as "releasing lock", or nil; it never resets the handle |
| `RedisMutex.Redis.Get` | zoom/tokenmutex/redis.go:67-78 | a missing key gives "" and `ErrTokenNotExist`; a present key gives its stored value; a connection fault is wrapped as "getting key" and is not taken for a missing key |
| `RedisMutex.Redis.Set` | zoom/tokenmutex/redis.go:80-87 | writes the token under the data key with TTL `expiresAt.Unix() - now.Unix()`; no other key changes; on a fault nothing changes and the fault is wrapped as "setting key" |
| `RedisMutex.Redis.Clear` | zoom/tokenmutex/redis.go:89-96 | deletes the data key whether or not it exists; no other key, the lock key included, changes; on a fault nothing changes |
| `RedisMutex.WriteThenRead` | zoom/tokenmutex/redis.go:67-96 | reading a key just written returns the written token whatever its TTL; a deleted key reads as `ErrTokenNotExist`; writing or deleting one key leaves every other key reading as before |
| `RedisMutex.SetGetClear` | zoom/tokenmutex/redis_test.go:85-115 | `Set` then `Get` returns the token; after `Clear` the key is gone, `Get` reports `ErrTokenNotExist`, for any key, the lock key's name included; when the data key is not the lock key, the lock key is as it was |
| `Zoom.ExpiryFrom` | zoom/client.go:236-239 | the cached expiry is now plus `expires_in - 60` seconds, so strictly before the issuer's own expiry |
| `Zoom.AccessToken` | zoom/client.go:205-240 | a non-200 status is an error, with nothing decoded; the exchange succeeds exactly when the status is 200 and the body decodes, and then returns the decoded token with the shortened expiry |
| `Zoom.FreshLeaseSeconds` | zoom/client.go:237-239 | the whole seconds between the fetch and the cached expiry are exactly `expires_in - 60`, which is the TTL `Redis.Set` writes for a freshly fetched token when it reads the clock in the same second as the fetch |
| `Zoom.FreshLeaseTtl` | zoom/tokenmutex/redis.go:81 | `Redis.Set` reads the clock again, so the TTL it writes for a freshly fetched token is `expires_in - 60` less the whole seconds the clock crossed since the fetch |
| `Zoom.RequestURL` | zoom/client.go:143-146 | the URL starts with base URL + path, and is longer than that exactly when the query has a key |
| `Zoom.RequestURLSplits` | zoom/client.go:143-146 | for a path without "?", the URL splits at its first "?" back into base URL + path and the encoded query, and the query is present exactly when it has a key |
| `Zoom.IsCacheMiss` | zoom/client.go:102 | a `Get` error that leads to a fetch: `errors.Is` finds `ErrTokenNotExist` or `ErrTokenExpired` in it |
| `Zoom.CacheMissThroughWrapping` | zoom/client.go:102 | under any number of `%w` layers, a `Get` error is a miss exactly when the innermost error is one of the two sentinels; a Redis connection fault wrapped as "getting key" is not a miss |
| `Zoom.AfterUnlock` | zoom/client.go:103-129 | the error of a failure path after `Lock` wraps `Unlock`'s result, annotated "unlocking token mutex" when that result is an error and with the path's own annotation when it is nil |
| `Zoom.TokenPhase` | zoom/client.go:94-136 | the calls the token prefix of `request` makes, in order, and whether it goes on with a token or returns an error, for every answer of the token mutex and the token endpoint |
| `Zoom.SendPhase` | zoom/client.go:138-196 | the calls made after the unlock (the API request, then `Clear` on a 401) and the `(*http.Response, error)` returned, for every answer of the encoders and the transport |
| `Zoom.Run` | zoom/client.go:94-196 | one whole `request`: the token prefix, and the rest only when the prefix ends with a token |
| `Zoom.TokenPhaseShape` | zoom/client.go:94-136 | the token prefix is a failed `Lock` alone, or one successful `Lock` and one final `Unlock` with no lock call between, and it never sends nor clears |
| `Zoom.SendPhaseShape` | zoom/client.go:138-196 | after the unlock, request makes at most the API call and then a `Clear`, in that order, and no lock call |
| `Zoom.BracketedHolds` | zoom/client.go:95-133 | between a successful `Lock` and its `Unlock` the lock is held, and it is free after the `Unlock` |
| `Zoom.LockFailureShortCircuits` | zoom/client.go:95-98 | if `Lock` fails, request returns that error wrapped as "locking token mutex" and makes no other call: no `Get`, no `Unlock`, no fetch, no API request |
| `Zoom.LockReleasedOnEveryPath` | zoom/client.go:95-166 | on every path the lock is free when request returns; `Unlock` is called exactly once when `Lock` succeeded and never otherwise; `Get`, the fetch and `Set` happen only while the lock is held; the API request is never sent while it is held |
| `Zoom.FetchOnlyOnMiss` | zoom/client.go:100-112 | the token endpoint is called exactly when `Lock` succeeded and `Get` failed with `ErrTokenNotExist` or `ErrTokenExpired` |
| `Zoom.CacheHitSendsCachedToken` | zoom/client.go:100-163 | a token returned by `Get` is used as it is: no fetch, no `Set`, and the API request's Authorization is "Bearer " + that token |
| `Zoom.RefreshStoresFetchedToken` | zoom/client.go:111-163 | after a successful fetch, `Set` gets exactly the fetched token and expiry, right before `Unlock`, and the API request carries that token |
| `Zoom.FailuresReportUnlockOutcome` | zoom/client.go:101-130 | when `Get` fails other than by a miss, or the fetch or `Set` fails, request returns no response. The error wraps `Unlock`'s result: nil annotated "getting…", "requesting…" or "setting…" when `Unlock` succeeded, else the `Unlock` error. The failure itself is never returned |
| `Zoom.SentExactlyWhenReached` | zoom/client.go:133-166 | the API request is made exactly when the token prefix ended with a token and the query, the body and the request could be built |
| `Zoom.ClearOnlyOnUnauthorized` | zoom/client.go:171-185 | the cache is cleared exactly when the API request was sent and answered 401, and the clear is the last call, right after the send. A failed clear is returned instead of the response. After a successful clear the response is returned with the error that decoding the body gave: the decode failure, or the API's error code and message |
| `Zoom.StatusDecidesError` | zoom/client.go:171-195 | once sent, a status above 226 is always an error; a status up to 226 is success unless decoding into the caller's value fails; the response is returned unless a clear after a 401 failed |
| `Zoom.InMemoryFetchesOnlyOnMiss` | zoom/client.go:100-112 | with the in-memory store, request fetches exactly when the cached token is empty or now is strictly after its expiry |
| `Zoom.InMemoryCacheAfterRequest` | zoom/client.go:111-177 | with the in-memory store, after one request the cache is empty if the API answered 401. Otherwise it holds the fetched token and expiry if a fetch succeeded, and is unchanged if not |
| `Zoom.InMemoryTokenPhaseReplay` | zoom/client.go:111-130 | against the in-memory store, the token prefix leaves the fetched token cached exactly when a miss led to a successful fetch |
| `Zoom.SendPhaseReplay` | zoom/client.go:171-177 | after the unlock, only a 401 changes the in-memory cache, and it empties it |
| `Zoom.UnauthorizedForcesRefresh` | zoom/client.go:171-177 | after a 401 has cleared the in-memory cache, the next request fetches a new token, whatever time the rejected token had left |
| `Zoom.HourLongTokenScenario` | zoom/client.go:226-239 | the issuer declares `expires_in` 3600 at t0. The first request fetches and caches the token until t0+3540s. A request at t0+3000s reuses it without a fetch and sends it. A request at t0+3600s, against the cache the second request left, fetches exactly once |
| `Zoom.RefreshServesLaterRequests` | zoom/client.go:100-130 | after a request fetched a non-empty token and was not answered 401, the fetched lease is cached, and a later request no later than its expiry makes no fetch |
| `Zoom.AtMostOneFetch` | zoom/client.go:111-112 | one request calls the token endpoint at most once |
| `Zoom.SuppliedMutex.constructor` | zoom/client.go:51-57 | another `TokenMutex` implementation starts unlocked |
| `Zoom.SuppliedMutex.Lock` | zoom/client.go:52 | `Lock` on a free lock returns the implementation's answer, and the lock is held exactly when that answer is nil |
| `Zoom.SuppliedMutex.Unlock` | zoom/client.go:53 | `Unlock` on a held lock returns the implementation's answer and frees the lock |
| `Zoom.Client.constructor` | zoom/client.go:60-77 | `NewClient` keeps the credentials and a given `TokenMutex`; with none it installs a fresh in-memory store, empty and unlocked |
| `Zoom.Client.LockMutex` | zoom/client.go:95 | locks the client's token mutex (nil from the in-memory store), records the call, and leaves the cache as it was |
| `Zoom.Client.UnlockMutex` | zoom/client.go:133 | only while the lock is held: unlocks, records the call, and leaves the cache as it was |
| `Zoom.Client.GetToken` | zoom/client.go:100 | answers with the in-memory store's `Get` at now, or with the implementation's answer |
| `Zoom.Client.SetToken` | zoom/client.go:122 | stores the lease (nil from the in-memory store) and records the call with the token and expiry |
| `Zoom.Client.ClearCache` | zoom/client.go:173 | empties the cache, records the call, and does not touch the lock |
| `Zoom.Client.FetchAccessToken` | zoom/client.go:112 | callable only while the lock is held; returns `AccessToken`'s result and records the fetch |
| `Zoom.Client.Deliver` | zoom/client.go:166 | callable only while the lock is free; records the API request with its method, URL and Authorization header |
| `Zoom.Client.AcquireToken` | zoom/client.go:94-136 | performs exactly the calls of `TokenPhase` and returns its token or error; the lock is free afterwards and the in-memory cache is what those calls leave |
| `Zoom.Client.Send` | zoom/client.go:138-196 | on a free lock, performs exactly the calls of `SendPhase` and returns its reply; the URL is built as in `RequestURL` |
| `Zoom.Client.Request` | zoom/client.go:94-196 | appends exactly `Run`'s calls to the trace and returns `Run`'s reply, so every lemma about `Run` holds of it; the lock is free afterwards; the in-memory cache is what those calls leave |

## Left out

- Real mutual exclusion. `sync.Mutex` blocking, goroutine interleavings, and redislock's
  30-second lock TTL, linear 500 ms backoff and 60 retries are concurrency and timing
  behaviour. The model only reasons about sequential call sequences. `Default.Lock`
  therefore requires the mutex to be free, where Go would block until another goroutine
  unlocks.
- What redislock and the Redis server do on the wire. This covers the lock key that
  `Obtain` writes and `Release` deletes, server-side TTL expiry, and how `SETEX` treats a
  non-positive TTL. Their outcomes are inputs, and `Server.data` changes only through
  `Set` and `Clear`.
- `Zoom.SuppliedMutex.Unlock`: the lock counts as free after any `Unlock`, even one that
  returned an error. The model does not know another implementation's state after a
  failed release.
- The wall clock, context deadlines and `accessTokenTimeout`. The time is the parameter
  `now`. One request uses one `now` for both the cache lookup and the expiry computation,
  although Go reads the clock twice.
- `Zoom.ExpiryFrom`: it is computed on unbounded integers, so the model does not capture
  the int64 overflow of `time.Duration(expiresIn) * time.Second` for huge `expires_in`.
  The same holds for the TTL computation in `Redis.Set`.
- HTTP transport, `http.NewRequest`, JSON encoding and decoding, `querystring.Values` and
  `url.Values.Encode`. They are library calls, so their results are inputs (`Network`,
  `Exchange`, `Query`).
- The token request itself: its URL with `grant_type` and `account_id`, and its Basic
  Authorization header. The model records only that the fetch happened. In the source the
  credential is encoded with the URL-safe base64 alphabet (section 5 of RFC 4648), not
  the standard alphabet that section 2 of RFC 7617 asks for.
- The "Content-Type: application/json" header and the request body bytes.
- `errs.Wrap`. Its library is not part of this model. `Wrapped(annotation, None)` stands
  for whatever `errs.Wrap(nil, annotation)` returns, and `errors.Is` is not modelled as
  looking through `errs.Wrap`.
- zoom/meetings.go, zoom/users.go and `MeetingSDKJWT`. They are JSON field mappings,
  one-line wrappers around `request`, and HMAC-SHA256 signing through a JWT library.

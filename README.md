# URL shortener, modelled in Dafny

A model of a two-endpoint URL shortener in two variants:

- `main.go` keeps a process-wide map from short token to long URL.
- `v2/main.go` keeps the same map in a Redis server.

Go's default router sends requests for `/shorten` to the create handler and every other path to the redirect handler. The create handler takes a JSON record `{long_url, short_url}`. It checks the request, picks a token and stores the pair. It then answers with the pair. The redirect handler strips one leading `/` from the path it receives and looks the rest up as a token. It answers with a 302 to the stored URL, or a 404 saying "URL not found".

Modules:

- `Wrappers` (wrappers.dfy): the `Option` and `Result` values used for failures.
- `ShortToken` (token.dfy): `generateShortURL`, shared by both variants. It fills a six-character buffer from the 62-character alphabet `LETTERS`. The values `rand.Intn(62)` returns are passed in as `draws`.
- `Http` (http.dfy): the status codes and messages, and the decoded request and response shapes. Also `strings.TrimPrefix`, and the three checks both create handlers make before they touch the store (`Admit`).
- `InMemoryShortener` (in_memory.dfy): `main.go`. `Create` and `Resolve` are the handlers as functions of the map. The class `Server` holds the global `urlMap`, and its methods `ShortenUrl` and `Redirect` are the handlers, proved equal to those functions. `Server.Valid()` says every key is a six-character alphanumeric token and every value is non-empty.
- `RedisShortener` (redis_shortener.dfy): `v2/main.go`. The class `RedisStore` is the Redis client as a map whose `Set` and `Get` can fail. Whether a call fails is a parameter (`fails`, `setFails`, `getFails`), because the network decides it. The class `Server` holds the client both handler closures capture.

Only generated tokens are six alphanumeric characters. In `v2/main.go` (lines 50-51), a non-empty client-supplied `short_url` is stored as-is, whatever its length or characters. So the Redis variant only guarantees that the chosen token is non-empty (`RedisShortener.ChooseToken`).

## Model

| member | source | states |
|---|---|---|
| ShortToken.GenerateShortUrl | main.go:19-26 | the token has the six characters `letters[draws[i]]` in order, so it is six alphanumeric characters |
| ShortToken.SpellIsToken | v2/main.go:20-27 | six draws always spell a token: length 6, every character from the 62-character alphabet |
| ShortToken.Spell | main.go:22-24 | the string written for a sequence of draws has one character per draw, the i-th being `letters[draws[i]]` |
| ShortToken.LettersIsAlphabet | main.go:20 | the `letters` literal has 62 characters: a-z, then A-Z, then 0-9, each at the position of the reference alphabet |
| ShortToken.InLettersIffAlphanumeric | main.go:20-23 | a character is in `letters` exactly when it is a lower-case letter, an upper-case letter or a digit |
| ShortToken.IndicesOfSpell | main.go:21-25 | reading back the alphabet positions of a generated string gives the draws that produced it |
| ShortToken.SpellOfIndices | main.go:21-25 | every alphanumeric string is what the generator writes for the positions of its characters |
| ShortToken.SpellInjective | main.go:21-25 | different draws give different tokens: the alphabet has no repeated character |
| ShortToken.EveryTokenIsGenerated | main.go:21-25 | every six-character alphanumeric string is a token some draws produce |
| Http.TrimPrefix | main.go:63 | the result is the path without the prefix when the path starts with it, and the path unchanged otherwise |
| Http.TrimPrefixOfJoin | main.go:63 | trimming "/" from "/" + token gives the token back |
| Http.TrimSlashOnce | v2/main.go:74 | only one leading "/" is removed: "//" + x becomes "/" + x |
| Http.Admit | main.go:29-45 | a create request passes exactly when it is a POST, its body decodes and long_url is non-empty; otherwise it is rejected with 405 or 400 |
| InMemoryShortener.CreateRejectsNonPost | main.go:29-32 | a non-POST create answers 405 with no body and leaves the map unchanged |
| InMemoryShortener.CreateRejectsMalformedBody | main.go:34-39 | a body that does not decode answers 400 with no body and leaves the map unchanged |
| InMemoryShortener.CreateRejectsEmptyLongUrl | main.go:41-45 | an empty long_url answers 400 with "LongURL cannot be empty" and leaves the map unchanged |
| InMemoryShortener.CreateStoresUnderGeneratedToken | main.go:47-59 | an admitted create adds exactly the generated token, maps it to long_url, keeps every other key's value, and answers 200 with (long_url, token) |
| InMemoryShortener.CreateOkIffAdmitted | main.go:28-59 | the answer is 200 if and only if the request is admitted; any other answer leaves the map unchanged |
| InMemoryShortener.CreateIgnoresClientShortUrl | main.go:47-50 | the outcome does not depend on the client's short_url |
| InMemoryShortener.CreatePreservesWellFormed | main.go:47-48 | after a create, every key is still a generated token and every value a non-empty URL |
| InMemoryShortener.ResolveFoundIffStored | main.go:62-71 | the answer is 302 to the stored URL if and only if the path without one leading "/" is a stored token; otherwise 404 "URL not found" |
| InMemoryShortener.ResolveNonTokenNotFound | main.go:63-68 | on a reachable map, a handler path that is not a six-character alphanumeric token once one leading "/" is stripped answers 404 |
| InMemoryShortener.ResolveDoubleSlashNotFound | main.go:63-68 | the handler, given "//" followed by a token, answers 404, since it strips only one "/" |
| InMemoryShortener.CreateThenResolve | main.go:48-71 | after an admitted create, the redirect handler resolving "/" + the returned short_url redirects with 302 to exactly the long_url sent |
| InMemoryShortener.Server.constructor | main.go:17 | the global map starts empty, which satisfies the map invariant |
| InMemoryShortener.Server.ShortenUrl | main.go:28-60 | the new map and the response are those of `Create` on the old map; the map invariant is kept |
| InMemoryShortener.Server.Redirect | main.go:62-72 | the response is that of `Resolve` on the current map; the method has no write access to it |
| RedisShortener.RedisStore.Set | v2/main.go:53 | SET reports an error exactly when it fails; on success the key maps to the value and no other key changes; on failure nothing changes |
| RedisShortener.RedisStore.Get | v2/main.go:75 | GET succeeds exactly when it does not fail and the key is stored, returning the stored value; a missing key gives redis.Nil |
| RedisShortener.ChooseToken | v2/main.go:49-52 | the token is the client's short_url when that is non-empty, and the generated token otherwise; it is never empty |
| RedisShortener.CreateRejectsNonPost | v2/main.go:31-34 | a non-POST create answers 405 and writes nothing |
| RedisShortener.CreateRejectsMalformedBody | v2/main.go:36-41 | a body that does not decode answers 400 and writes nothing |
| RedisShortener.CreateRejectsEmptyLongUrl | v2/main.go:43-47 | an empty long_url answers 400 with "LongURL cannot be empty" and writes nothing |
| RedisShortener.CreateSetFailure | v2/main.go:53-57 | a failed SET answers 500, not 200, and the store is unchanged |
| RedisShortener.CreateStoresUnderChosenToken | v2/main.go:49-68 | an admitted create whose SET succeeds maps the chosen token to long_url, keeps every other key, and answers 200 with (long_url, chosen token) |
| RedisShortener.CreateOkIff | v2/main.go:29-69 | the answer is 200 if and only if the request is admitted and SET succeeds; any other answer writes nothing |
| RedisShortener.CreateNeverWritesEmptyKey | v2/main.go:49-53 | a create leaves the key "" exactly as it was, present or absent |
| RedisShortener.OverwriteLastWriteWins | v2/main.go:50-53 | two creates with the same client short_url leave it mapped to the second long_url, and resolving it redirects there |
| RedisShortener.ResolveFoundIffStored | v2/main.go:73-82 | the answer is 302 to the stored URL if and only if GET succeeds on the path without one leading "/"; any GET error answers 404 "URL not found" |
| RedisShortener.CreateThenResolve | v2/main.go:59-82 | after a successful create, the redirect handler resolving "/" + the returned short_url redirects with 302 to exactly the long_url sent |
| RedisShortener.Server.ShortenUrl | v2/main.go:29-70 | the new store and the response are those of `Create` on the old store |
| RedisShortener.Server.Redirect | v2/main.go:72-84 | the response is that of `Resolve` on the current store; the method has no write access to it |

## Left out

- HTTP serving is not modelled: `ListenAndServe`, handler registration, the ports, and the Content-Type header. A response is a status and a body.
- Go's default router is not modelled. `Resolve` and `Redirect` describe the redirect handler on the path it receives, after the router has routed and cleaned it. Before that, the router answers a path containing `//`, `.` or `..` with a 301 to the cleaned path, so a request for `"//" + token` gets a 301, not the handler's 404. The router also sends `/shorten` (any method) to the create handler, never to the redirect handler. So some client `short_url`s in v2 never reach the redirect handler as `"/" + short_url` (see the next line).
- RedisShortener.CreateThenResolve: states the round trip for the redirect handler only. Through the router it fails for a client `short_url` of `"shorten"` (the create handler answers 405). It also fails for one that makes `"/" + short_url` an uncleaned path: a leading `/`, a `//` inside it, or a `.` or `..` element (the router answers 301).
- `http.Redirect` is not modelled beyond status 302 with the stored URL as its target. Its rewriting of relative URLs and its small HTML body are left out.
- The redirect handler ignores the request method. The model therefore takes only the path.
- JSON decoding and encoding are not modelled. A create request arrives as `Option<UrlPair>`, where `None` means the body did not decode. The `json.Marshal` error branch is dropped: marshalling two strings cannot fail.
- The Redis connection is not modelled: the address, `Ping`, and the panic when the server cannot be reached.
- The expiration argument `-1` passed to `Set` is not modelled. The model has no expiry.
- `RedisShortener.RedisStore.Set`: a failed call is modelled as not applied. A real SET that fails on the way back may already have been written.
- `math/rand` and `rand.Seed(42)` are not modelled. The six indices a call to `generateShortURL` draws are a parameter. Their distribution, and the generator state advancing between calls, are not captured. In particular, v2 draws a token even when the client's short_url replaces it.
- Concurrency is not modelled. Simultaneous requests race on the unsynchronised `urlMap` in `main.go`; the model handles one request at a time.

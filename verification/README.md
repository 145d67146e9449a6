# Reverse-proxy gateway core, modelled in Dafny

This project models the request-forwarding core of a small Go API gateway
(package `internal/proxy`). A `Proxy` holds a route table from path prefix
to backend URL. For each inbound request it does the following:

- picks the longest registered prefix of the request path;
- builds the outbound request by copying the backend URL and rewriting its
  path and raw query;
- copies the inbound header values and sets the three `X-Forwarded-*`
  fields;
- sends the request through an HTTP client;
- relays the backend's headers, status and body to the caller.

It answers 404 when no route matches and 500 when the client fails.

Files:

- `strings.dfy` (module `Strings`): `HasPrefix`, `HasSuffix` and `Index`
  as Go's `strings` package defines them. `Index` gives the first
  occurrence, -1 when there is none, and 0 for an empty needle.
- `http.dfy` (module `Http`): URLs as records and multi-valued headers
  (`map<string, seq<string>>`) with `Add` and `Set`. It also holds the
  nested header-copy loops (`AppendValues`, `AddEach`), proved against the
  specification `Appended`, and requests, backend responses, a
  `ResponseWriter` class and `http.Error`.
- `proxy.dfy` (module `Proxy`): the `Proxy` class with its `routes` map
  and the methods `AddRoute`, `Resolve`, `CreateProxyRequest`, `Relay` and
  `ServeHTTP`. It also holds the pure rewriting functions and the reference
  definition of longest-prefix resolution (`LongestMatch`).
- `proxy_examples.dfy` (module `ProxyExamples`): the two routes registered in
  `cmd/main.go` and small rewriting and query-merge cases, stated as
  lemmas.

Go's map iteration order is random. The model's loops over a map pick an
arbitrary remaining key (`:|`). `Resolve` is proved equal to
`LongestMatch`, which does not depend on any order, so resolution gives
the same answer for every iteration order. The reason is
`EqualLengthMatchesCoincide`: two prefixes of one path with equal length
are the same prefix, so the strict `>` comparison never meets a tie.

Go strings are byte strings. Here each `char` stands for one byte.

Four behaviours of the code that a reader might not expect, all modelled
as the code has them:

- **Path rewrite.** The code does not append the prefix's tail to the
  backend's base path. It takes the inbound path from the first occurrence
  of the backend's path. When the backend's path does not occur, the code
  keeps that path and drops the tail: `/svc/items` against backend path
  `/v1/` goes out as `/v1/` (`AbsentBackendPathExample`).
- **Client failure.** A client failure always gives 500, never 502.
- **Ambiguous routes.** Registration rejects nothing, and it does not need
  to: equal-length matching prefixes cannot exist. A route for `""` is
  accepted but can never be selected.
- **Build failure.** When the outbound request cannot be built, the code
  does not answer with an error. It passes a nil request on to the client.
  The model stops there and claims no status.

## Model

| member | source | states |
|---|---|---|
| `Strings.HasPrefix` | internal/proxy/proxy.go:44 | `prefix` is a prefix of `s` exactly when `s` is at least as long and agrees with `prefix` at every offset of `prefix` |
| `Strings.Index` | internal/proxy/proxy.go:85 | -1 exactly when the backend path does not occur in the inbound path; otherwise an offset where it occurs, with no occurrence before it; 0 for an empty backend path |
| `Strings.IndexFrom` | internal/proxy/proxy.go:85 | the first occurrence at or after a start offset, or -1 when none exists from there on |
| `Http.Add` | internal/proxy/proxy.go:65 | the key's values gain the new value at the end; the key is present afterwards; every other key keeps its values |
| `Http.Set` | internal/proxy/proxy.go:110-112 | the key holds exactly the one new value afterwards, whatever it held before; every other key keeps its values |
| `Http.Appended` | internal/proxy/proxy.go:104-108 | after adding every value of one header to another, each key holds its old values followed by the added ones in order; only keys with at least one value are added |
| `Http.AddEach` | internal/proxy/proxy.go:105-107 | adding a key's values one by one appends exactly that sequence under the key and changes no other key |
| `Http.AppendValues` | internal/proxy/proxy.go:104-108 | the nested copy loops, visiting keys in any order, produce exactly `Appended(dst, src)` |
| `Http.ResponseWriter.WriteHeader` | internal/proxy/proxy.go:69 | the status becomes the code unless a status was already written, in which case the first one stays; header and body are unchanged |
| `Http.ResponseWriter.Write` | internal/proxy/proxy.go:70 | the body gains the data at the end; a write with no status written yet commits 200; the header is unchanged |
| `Http.Error` | internal/proxy/proxy.go:51 | the error status is committed unless one was already written; the body gains the message and a newline; the header map is unchanged |
| `Proxy.LongestFrom` | internal/proxy/proxy.go:43-47 | the result is a registered, non-empty prefix of the path no longer than the bound; every registered non-empty prefix within the bound is no longer than it |
| `Proxy.LongestMatch` | internal/proxy/proxy.go:40-48 | the result is a registered non-empty prefix of the path that no matching prefix outgrows; None exactly when no registered prefix other than "" matches |
| `Proxy.EqualLengthMatchesCoincide` | internal/proxy/proxy.go:44 | two prefixes of one path with the same length are equal, so the strict length test never meets a tie |
| `Proxy.LongestMatchUnique` | internal/proxy/proxy.go:43-48 | any prefix with the longest-match property is the one resolution returns, so the choice is unique |
| `Proxy.RewritePath` | internal/proxy/proxy.go:85-88 | when the backend path occurs in the inbound path: a suffix of the inbound path that starts with the backend path, with no earlier occurrence. Otherwise: the backend path. An empty backend path gives the inbound path |
| `Proxy.RewritePathIdempotent` | internal/proxy/proxy.go:85-88 | rewriting an already rewritten path against the same backend path changes nothing |
| `Proxy.MergeQuery` | internal/proxy/proxy.go:91-95 | the inbound query comes first, the backend query last, with `&` between them exactly when both are non-empty; the length is the sum plus one in that case |
| `Proxy.RewriteUrl` | internal/proxy/proxy.go:83-95 | the outbound URL equals the backend URL except for its path and raw query, which are the rewritten path and the merged query |
| `Proxy.ForwardedHeader` | internal/proxy/proxy.go:104-112 | each inbound key other than the three forwarding keys keeps exactly its inbound values in order; each forwarding key holds exactly one value (remote address, host, scheme); no other key appears |
| `Proxy.Proxy.constructor` | internal/proxy/proxy.go:20-27 | a new proxy has an empty route table and the given client |
| `Proxy.Proxy.AddRoute` | internal/proxy/proxy.go:29-35 | on a parse error the error is returned and the table is unchanged; otherwise the prefix maps to the parsed URL, replacing any earlier entry, and every other entry is unchanged |
| `Proxy.Proxy.Resolve` | internal/proxy/proxy.go:40-48 | the scan, in any key order, finds a backend exactly when `LongestMatch` does; it keeps that prefix and its URL, and otherwise keeps "" and no URL |
| `Proxy.Proxy.CreateProxyRequest` | internal/proxy/proxy.go:82-115 | None exactly when the HTTP layer refuses the method or the rewritten URL; otherwise the method, body, rewritten URL and forwarded header of the inbound request |
| `Proxy.Proxy.Relay` | internal/proxy/proxy.go:63-70 | the caller's header gains every backend value in order; the backend's status is committed; the body gains the backend body |
| `Proxy.Proxy.ServeHTTP` | internal/proxy/proxy.go:37-70 | 404 "service not found" exactly when nothing matches, with no request sent; on a build failure nothing is written; a client error gives 500 with "failed to execute request: " and the message; otherwise the built request for the longest match is sent and its response relayed |
| `ProxyExamples.UsersRouteExample` | cmd/main.go:27 | `/api/users/42` resolves to `/api/users/` and is forwarded as `/users/42` |
| `ProxyExamples.NewMainProxy` | cmd/main.go:24-28 | `NewProxy` followed by the entry point's two `AddRoute` calls gives a new proxy whose table holds exactly those two routes |
| `ProxyExamples.MainResolvesUsers` | internal/proxy/proxy.go:43-48 | on the entry point's table, the scan resolves `/api/users/42` to the prefix `/api/users/` and the users backend |
| `ProxyExamples.MainAnswersHealth` | internal/proxy/proxy.go:50-53 | on the entry point's table, a request for `/health` ends as not found, with status 404 and the body "service not found" and a newline |
| `ProxyExamples.MainConfiguration` | cmd/main.go:24-28 | the entry point's proxy holds exactly its two routes; it resolves `/api/users/42` to the users backend, and answers `/health` with 404 and the body "service not found" and a newline |
| `ProxyExamples.UnroutedExample` | internal/proxy/proxy.go:50-53 | a path under neither registered prefix resolves to nothing |
| `ProxyExamples.LongerPrefixWins` | internal/proxy/proxy.go:44-47 | a matching prefix that extends another matching prefix wins over it |
| `ProxyExamples.EmptyPrefixNeverSelected` | internal/proxy/proxy.go:44 | a table holding only "" routes no path |
| `ProxyExamples.TailExample` | internal/proxy/proxy.go:85-88 | against backend path `/svc`, `/api/svc/items` goes out as `/svc/items` |
| `ProxyExamples.AbsentBackendPathExample` | internal/proxy/proxy.go:85-88 | a backend path that does not occur in the inbound path is kept unchanged |
| `ProxyExamples.QueryExamples` | internal/proxy/proxy.go:91-95 | `a=1` with `b=2` gives `a=1&b=2`; an empty side gives the other side unchanged |

## Left out

- The rate-limiting middleware (`internal/middleware/ratelimit.go`) is not modelled. It is a stub that always calls the wrapped handler: it keeps no window, counts nothing and never denies.
- Process startup in `cmd/main.go` (client and transport tuning, the rate-limiting wrapper, `ListenAndServe`) is I/O configuration and is not modelled. Its `NewProxy` call and its two `AddRoute` calls are modelled by `NewMainProxy`, with `url.Parse` replaced by a parser that accepts the two backend URLs.
- `url.Parse` is a parameter `parse` of `AddRoute`. The RFC 3986 parsing itself is not modelled.
- `http.NewRequestWithContext` is a parameter `newRequestOk`: whether the HTTP layer accepts the method and the serialised URL. The model takes the outbound URL to be the rewritten URL, so a change made by serialising with `URL.String` and parsing back is not captured. The outbound `Host` field and the request context are not modelled.
- `url.URL` components the proxy only copies (`Opaque`, `RawPath`, `OmitHost`, `ForceQuery`, `RawFragment`) are not in the record.
- `http.Client.Do` is the function `client` held by the proxy. Timeouts, connection pooling and transport behaviour are not modelled. Go's `client.Do(nil)` after a build failure is not modelled either: `ServeHTTP` returns `BuildFailed` and writes nothing.
- Bodies are whole strings. Streaming by `io.Copy`, a failure part-way through it (its error is ignored in the source) and `resp.Body.Close` are not modelled.
- Header keys are taken as already canonical. Go's `Add` and `Set` canonicalise keys, and that is not modelled.
- `Http.Error`: `http.Error`'s own header changes (setting `Content-Type` and `X-Content-Type-Options`, deleting `Content-Length`) are not modelled. Only its status and body are.
- `Http.ResponseWriter.WriteHeader`: the model takes every code as a valid final status and commits the first one written. Go's `WriteHeader` panics when the first code written lies outside 100–999, and it sends a 1xx code other than 101 as an informational response that commits no status. Neither is modelled, so a backend status such as 99 (which Go's client accepts from a three-digit status line) is relayed by `Relay` and `ServeHTTP` here, where Go would panic in the handler.
- Timing (`time.Now`, `time.Since`) and logging (`log.Printf`) are left out: they are a clock and a logging sink.
- Context cancellation and concurrent handling of requests are not modelled.
- The unused `timeout` and `rewrite` fields of `Proxy` are not modelled.

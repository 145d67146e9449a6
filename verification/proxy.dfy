/** The gateway's reverse proxy: a table from path prefix to backend URL,
    longest-prefix resolution of an inbound path, construction of the
    outbound request (path, query and headers), and relay of the backend's
    response. */
module Proxy {
  import opened Strings
  import opened Http

  const ForwardedFor := "X-Forwarded-For"
  const ForwardedHost := "X-Forwarded-Host"
  const ForwardedProto := "X-Forwarded-Proto"
  const ForwardingKeys := {ForwardedFor, ForwardedHost, ForwardedProto}

  const NotFoundMessage := "service not found"
  const ExecuteFailurePrefix := "failed to execute request: "

  /** A route table: path prefix to backend URL. */
  type Routes = map<string, Url>

  // ---------------------------------------------------------------------
  // Route resolution

  /** `p` is a registered, non-empty prefix of `path`, and no registered
      prefix of `path` is longer. */
  ghost predicate IsLongestMatch(routes: Routes, path: string, p: string)
  {
    && p in routes
    && p != ""
    && HasPrefix(path, p)
    && forall q {:trigger HasPrefix(path, q)} :: q in routes && HasPrefix(path, q) ==> |q| <= |p|
  }

  /** No registered prefix other than "" is a prefix of `path`. */
  ghost predicate NoMatch(routes: Routes, path: string)
  {
    forall q {:trigger HasPrefix(path, q)} :: q in routes && HasPrefix(path, q) ==> q == ""
  }

  /** The longest registered prefix of `path` among its first `n` bytes,
      tried from the longest candidate down. */
  function LongestFrom(routes: Routes, path: string, n: nat): (r: Option<string>)
    requires n <= |path|
    ensures r.Some? ==> 1 <= |r.value| <= n && r.value in routes && HasPrefix(path, r.value)
    ensures forall q {:trigger HasPrefix(path, q)} :: q in routes && HasPrefix(path, q) && 1 <= |q| <= n ==> r.Some? && |q| <= |r.value|
    decreases n
  {
    if n == 0 then None
    else if path[..n] in routes then Some(path[..n])
    else LongestFrom(routes, path, n - 1)
  }

  /** Reference definition of resolution, independent of any iteration
      order over the table: the longest non-empty registered prefix of
      `path`, or None. */
  function LongestMatch(routes: Routes, path: string): (r: Option<string>)
    ensures r.Some? ==> IsLongestMatch(routes, path, r.value)
    ensures r.None? <==> NoMatch(routes, path)
  {
    LongestFrom(routes, path, |path|)
  }

  /** Two prefixes of one path with the same length are the same prefix:
      this is why the strict length comparison in the scan never meets a
      tie, and so cannot depend on order. */
  lemma EqualLengthMatchesCoincide(path: string, p: string, q: string)
    requires HasPrefix(path, p) && HasPrefix(path, q) && |p| == |q|
    ensures p == q
  {
  }

  /** The longest match is unique, and it is what LongestMatch returns. */
  lemma LongestMatchUnique(routes: Routes, path: string, p: string)
    requires IsLongestMatch(routes, path, p)
    ensures LongestMatch(routes, path) == Some(p)
  {
    var m := LongestMatch(routes, path);
    assert !NoMatch(routes, path);
    assert |m.value| <= |p| && |p| <= |m.value|;
    EqualLengthMatchesCoincide(path, p, m.value);
  }

  // ---------------------------------------------------------------------
  // URL rewriting

  /** The outbound path: the inbound path from the first occurrence of the
      backend's path on; the backend's path itself when it does not occur. */
  function RewritePath(inPath: string, backendPath: string): (r: string)
    ensures Occurs(inPath, backendPath) ==>
              && HasSuffix(inPath, r)
              && HasPrefix(r, backendPath)
              && forall j :: 0 <= j < |inPath| - |r| ==> !OccursAt(inPath, backendPath, j)
    ensures !Occurs(inPath, backendPath) ==> r == backendPath
    ensures backendPath == "" ==> r == inPath
  {
    var idx := Index(inPath, backendPath);
    if idx != -1 then inPath[idx..] else backendPath
  }

  /** Rewriting a rewritten path again changes nothing. */
  lemma RewritePathIdempotent(inPath: string, backendPath: string)
    ensures RewritePath(RewritePath(inPath, backendPath), backendPath) == RewritePath(inPath, backendPath)
  {
  }

  /** The outbound raw query: the inbound one, then the backend's, joined by
      `&` only when both are present. */
  function MergeQuery(inbound: string, backend: string): (r: string)
    ensures |r| == |inbound| + |backend| + (if inbound != "" && backend != "" then 1 else 0)
    ensures HasPrefix(r, inbound) && HasSuffix(r, backend)
    ensures inbound != "" && backend != "" ==> r[|inbound|] == '&'
  {
    if inbound != "" && backend != "" then inbound + "&" + backend
    else inbound + backend
  }

  /** The outbound URL: a copy of the backend URL whose path and raw query
      are rewritten; every other component is the backend's. */
  function RewriteUrl(inbound: Url, target: Url): (u: Url)
    ensures u.(path := target.path, rawQuery := target.rawQuery) == target
    ensures u.path == RewritePath(inbound.path, target.path)
    ensures u.rawQuery == MergeQuery(inbound.rawQuery, target.rawQuery)
  {
    target.(path := RewritePath(inbound.path, target.path),
            rawQuery := MergeQuery(inbound.rawQuery, target.rawQuery))
  }

  // ---------------------------------------------------------------------
  // Header propagation

  /** The outbound header: every inbound value copied, then the three
      forwarding fields set from the inbound connection. */
  function ForwardedHeader(r: Request): (h: Header)
    ensures h.Keys == NonEmptyKeys(r.header) + ForwardingKeys
    ensures forall k :: k in h && k !in ForwardingKeys ==> h[k] == r.header[k]
    ensures h[ForwardedFor] == [r.remoteAddr]
    ensures h[ForwardedHost] == [r.host]
    ensures h[ForwardedProto] == [r.url.scheme]
  {
    var copied := Appended(map[], r.header);
    Set(Set(Set(copied, ForwardedFor, r.remoteAddr), ForwardedHost, r.host), ForwardedProto, r.url.scheme)
  }

  /** The request the proxy builds for `target` when construction succeeds. */
  function Outbound(r: Request, target: Url): OutboundRequest
  {
    OutboundRequest(r.verb, RewriteUrl(r.url, target), ForwardedHeader(r), r.body)
  }

  /** The backend URL that resolution picks for `path`. */
  ghost function Target(routes: Routes, path: string): Option<Url>
  {
    match LongestMatch(routes, path)
    case None => None
    case Some(p) => Some(routes[p])
  }

  /** How one call to the handler ended. */
  datatype Outcome =
    | NotFound
    | BuildFailed(target: Url)
    | ClientFailed(target: Url, sent: OutboundRequest, message: string)
    | Relayed(target: Url, sent: OutboundRequest, response: Response)

  class Proxy {
    var routes: Routes
    const client: OutboundRequest -> ClientResult

    constructor (client: OutboundRequest -> ClientResult)
      ensures routes == map[] && this.client == client
    {
      routes := map[];
      this.client := client;
    }

    /** Register `prefix` for the backend `backend`, parsed with `parse`. */
    method AddRoute(prefix: string, backend: string, parse: string -> ParseResult) returns (err: Option<string>)
      modifies this
      ensures parse(backend).ParseError? ==> err == Some(parse(backend).message) && routes == old(routes)
      ensures parse(backend).Parsed? ==> err == None && routes == old(routes)[prefix := parse(backend).url]
      ensures forall k :: k != prefix ==> (k in routes <==> k in old(routes))
      ensures forall k :: k != prefix && k in routes ==> routes[k] == old(routes)[k]
    {
      match parse(backend) {
        case ParseError(message) =>
          return Some(message);
        case Parsed(url) =>
          routes := routes[prefix := url];
          return None;
      }
    }

    /** The scan over the table (in whatever order the map yields its keys)
        that keeps the longest registered prefix of `path`. */
    method Resolve(path: string) returns (prefix: string, target: Option<Url>)
      ensures target.Some? <==> LongestMatch(routes, path).Some?
      ensures target.Some? ==> LongestMatch(routes, path) == Some(prefix) && target.value == routes[prefix]
      ensures target.None? ==> prefix == ""
      ensures target == Target(routes, path)
    {
      prefix, target := "", None;
      var remaining := routes.Keys;
      while remaining != {}
        invariant remaining <= routes.Keys
        invariant target.Some? <==> prefix != ""
        invariant target.Some? ==> prefix in routes && target.value == routes[prefix] && HasPrefix(path, prefix)
        invariant forall q :: q in routes && q !in remaining && HasPrefix(path, q) ==> |q| <= |prefix|
        decreases remaining
      {
        var key :| key in remaining;
        if |key| > |prefix| && HasPrefix(path, key) {
          prefix, target := key, Some(routes[key]);
        }
        remaining := remaining - {key};
      }
      if target.Some? {
        LongestMatchUnique(routes, path, prefix);
      }
    }

    /** Build the outbound request for `r` against `target`; None when the
        HTTP layer (`newRequestOk`) refuses the method or the URL. */
    method CreateProxyRequest(r: Request, target: Url, newRequestOk: (string, Url) -> bool)
      returns (out: Option<OutboundRequest>)
      ensures out.None? <==> !newRequestOk(r.verb, RewriteUrl(r.url, target))
      ensures out.Some? ==> out.value == Outbound(r, target)
    {
      var outUrl := RewriteUrl(r.url, target);
      if !newRequestOk(r.verb, outUrl) {
        return None;
      }
      var header := AppendValues(map[], r.header);
      header := Set(header, ForwardedFor, r.remoteAddr);
      header := Set(header, ForwardedHost, r.host);
      header := Set(header, ForwardedProto, r.url.scheme);
      return Some(OutboundRequest(r.verb, outUrl, header, r.body));
    }

    /** Copy the backend's header values onto the caller's response, write
        its status, then its body. */
    method Relay(w: ResponseWriter, response: Response)
      modifies w
      ensures w.header == Appended(old(w.header), response.header)
      ensures w.status == Committed(old(w.status), response.status)
      ensures w.body == old(w.body) + response.body
    {
      var relayed := AppendValues(w.header, response.header);
      w.header := relayed;
      w.WriteHeader(response.status);
      w.Write(response.body);
    }

    /** Handle one inbound request: 404 when no route matches, nothing
        further when the outbound request cannot be built, 500 when the
        client fails, otherwise relay the backend's headers, status and body. */
    method ServeHTTP(w: ResponseWriter, r: Request, newRequestOk: (string, Url) -> bool)
      returns (outcome: Outcome)
      modifies w
      ensures outcome.NotFound? <==> Target(routes, r.url.path).None?
      ensures outcome.NotFound? ==>
                && w.header == old(w.header)
                && w.status == Committed(old(w.status), StatusNotFound)
                && w.body == old(w.body) + NotFoundMessage + "\n"
      ensures !outcome.NotFound? ==> Target(routes, r.url.path) == Some(outcome.target)
      ensures outcome.BuildFailed? <==> (!outcome.NotFound? && !newRequestOk(r.verb, RewriteUrl(r.url, outcome.target)))
      ensures outcome.BuildFailed? ==> unchanged(w)
      ensures outcome.ClientFailed? || outcome.Relayed? ==> outcome.sent == Outbound(r, outcome.target)
      ensures outcome.ClientFailed? ==>
                && client(outcome.sent) == Failed(outcome.message)
                && w.header == old(w.header)
                && w.status == Committed(old(w.status), StatusInternalServerError)
                && w.body == old(w.body) + (ExecuteFailurePrefix + outcome.message) + "\n"
      ensures outcome.Relayed? ==>
                && client(outcome.sent) == Ok(outcome.response)
                && w.header == Appended(old(w.header), outcome.response.header)
                && w.status == Committed(old(w.status), outcome.response.status)
                && w.body == old(w.body) + outcome.response.body
    {
      var prefix, target := Resolve(r.url.path);
      if target.None? {
        Error(w, NotFoundMessage, StatusNotFound);
        return NotFound;
      }
      var outReq := CreateProxyRequest(r, target.value, newRequestOk);
      if outReq.None? {
        return BuildFailed(target.value);
      }
      match client(outReq.value) {
        case Failed(message) =>
          Error(w, ExecuteFailurePrefix + message, StatusInternalServerError);
          outcome := ClientFailed(target.value, outReq.value, message);
        case Ok(response) =>
          Relay(w, response);
          outcome := Relayed(target.value, outReq.value, response);
      }
    }
  }
}

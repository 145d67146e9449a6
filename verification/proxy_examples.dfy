/** Concrete cases: the two routes the gateway's entry point registers, and
    the rewriting and merging behaviour on small inputs. */
module ProxyExamples {
  import opened Strings
  import opened Http
  import opened Proxy

  /** `p` is not a prefix of `s` when they differ at offset `i`. */
  lemma NotPrefixAt(s: string, p: string, i: nat)
    requires i < |p| && (i >= |s| || s[i] != p[i])
    ensures !HasPrefix(s, p)
  {
  }

  /** `sub` does not occur at `j` in `s` when they differ at offset `i` of `sub`. */
  lemma NotAt(s: string, sub: string, j: nat, i: nat)
    requires i < |sub| && (j + i >= |s| || s[j + i] != sub[i])
    ensures !OccursAt(s, sub, j)
  {
  }

  const UsersBackend := Url("http", "", "localhost:8080", "/users/", "", "")
  const AuthBackend := Url("http", "", "localhost:8080", "/auth/", "", "")

  /** The table after `AddRoute("/api/users/", …)` and `AddRoute("/auth/", …)`. */
  const MainRoutes: Routes := map["/api/users/" := UsersBackend, "/auth/" := AuthBackend]

  /** `/api/users/42` resolves to the users backend and is forwarded as
      `/users/42`. */
  lemma UsersRouteExample()
    ensures LongestMatch(MainRoutes, "/api/users/42") == Some("/api/users/")
    ensures RewritePath("/api/users/42", "/users/") == "/users/42"
  {
    var path := "/api/users/42";
    assert HasPrefix(path, "/api/users/");
    NotPrefixAt(path, "/auth/", 2);
    LongestMatchUnique(MainRoutes, path, "/api/users/");
    UsersTail(path);
  }

  /** The users backend's path `/users/` first occurs at offset 4. */
  lemma UsersTail(path: string)
    requires path == "/api/users/42"
    ensures Index(path, "/users/") == 4 && path[4..] == "/users/42"
  {
    assert OccursAt(path, "/users/", 4);
    NotAt(path, "/users/", 0, 1);
    NotAt(path, "/users/", 1, 0);
    NotAt(path, "/users/", 2, 0);
    NotAt(path, "/users/", 3, 0);
  }

  /** The proxy the entry point configures: `NewProxy` followed by its two
      `AddRoute` calls, both of which succeed. */
  method NewMainProxy(client: OutboundRequest -> ClientResult) returns (p: Proxy)
    ensures fresh(p) && p.routes == MainRoutes && p.client == client
  {
    var parse := (s: string) =>
      if s == "http://localhost:8080/users/" then Parsed(UsersBackend)
      else if s == "http://localhost:8080/auth/" then Parsed(AuthBackend)
      else ParseError("invalid URL");
    p := new Proxy(client);
    var err := p.AddRoute("/api/users/", "http://localhost:8080/users/", parse);
    assert err == None;
    err := p.AddRoute("/auth/", "http://localhost:8080/auth/", parse);
    assert err == None;
  }

  /** On the entry point's proxy, `/api/users/42` resolves to the users
      backend. */
  method MainResolvesUsers(p: Proxy) returns (prefix: string, target: Option<Url>)
    requires p.routes == MainRoutes
    ensures prefix == "/api/users/" && target == Some(UsersBackend)
  {
    UsersRouteExample();
    prefix, target := p.Resolve("/api/users/42");
  }

  /** On the entry point's proxy, a request for `/health` is answered 404
      with the body "service not found" and a newline. */
  method MainAnswersHealth(p: Proxy) returns (outcome: Outcome, status: Option<int>, body: string)
    requires p.routes == MainRoutes
    ensures outcome == NotFound && status == Some(StatusNotFound) && body == NotFoundMessage + "\n"
  {
    var w := new ResponseWriter();
    var health := Request("GET", Url("", "", "", "/health", "", ""), "gateway", "10.0.0.1:5000", map[], "");
    UnroutedExample();
    outcome := p.ServeHTTP(w, health, (verb, url) => true);
    status, body := w.status, w.body;
  }

  /** The entry point's configuration driven through the class: both routes
      register, `/api/users/42` resolves to the users backend, and a request
      for `/health` is answered 404 "service not found". */
  method MainConfiguration(client: OutboundRequest -> ClientResult)
    returns (routes: Routes, prefix: string, target: Option<Url>, outcome: Outcome, status: Option<int>, body: string)
    ensures routes == MainRoutes
    ensures prefix == "/api/users/" && target == Some(UsersBackend)
    ensures outcome == NotFound && status == Some(StatusNotFound) && body == NotFoundMessage + "\n"
  {
    var p := NewMainProxy(client);
    routes := p.routes;
    prefix, target := MainResolvesUsers(p);
    outcome, status, body := MainAnswersHealth(p);
  }

  /** A path outside every prefix is not routed. */
  lemma UnroutedExample()
    ensures LongestMatch(MainRoutes, "/health") == None
  {
    var path := "/health";
    NotPrefixAt(path, "/api/users/", 1);
    NotPrefixAt(path, "/auth/", 1);
    assert NoMatch(MainRoutes, path);
  }

  /** A longer registered prefix takes over from a shorter one. */
  lemma LongerPrefixWins(routes: Routes, path: string, shorter: string, longer: string)
    requires shorter in routes && longer in routes
    requires HasPrefix(path, longer) && HasPrefix(longer, shorter) && shorter != longer
    ensures LongestMatch(routes, path) != Some(shorter)
  {
  }

  /** A table whose only prefix is "" routes nothing. */
  lemma EmptyPrefixNeverSelected(path: string)
    ensures LongestMatch(map["" := UsersBackend], path) == None
  {
  }

  /** Backend `http://b/svc`: `/api/svc/items` goes out as `/svc/items`. */
  lemma TailExample()
    ensures RewritePath("/api/svc/items", "/svc") == "/svc/items"
  {
    var path := "/api/svc/items";
    assert OccursAt(path, "/svc", 4);
    NotAt(path, "/svc", 0, 1);
    NotAt(path, "/svc", 1, 0);
    NotAt(path, "/svc", 2, 0);
    NotAt(path, "/svc", 3, 0);
    assert path[4..] == "/svc/items";
  }

  /** A backend path absent from the inbound path is kept as it is. */
  lemma AbsentBackendPathExample()
    ensures RewritePath("/svc/items", "/v1/") == "/v1/"
  {
    var path := "/svc/items";
    NotAt(path, "/v1/", 0, 1);
    NotAt(path, "/v1/", 1, 2);
    NotAt(path, "/v1/", 2, 1);
    NotAt(path, "/v1/", 3, 1);
    NotAt(path, "/v1/", 4, 1);
    NotAt(path, "/v1/", 5, 1);
    NotAt(path, "/v1/", 6, 1);
    forall j ensures !OccursAt(path, "/v1/", j) {
      if 0 <= j <= 6 {
        assert j in {0, 1, 2, 3, 4, 5, 6};
      }
    }
  }

  lemma QueryExamples()
    ensures MergeQuery("a=1", "b=2") == "a=1&b=2"
    ensures MergeQuery("", "b=2") == "b=2"
    ensures MergeQuery("a=1", "") == "a=1"
  {
  }
}

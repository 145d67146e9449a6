/** The slice of Go's `net/http` and `net/url` the proxy works with: URLs as
    records, multi-valued headers, requests, backend responses and the
    response writer a handler fills in. */
module Http {

  datatype Option<T> = None | Some(value: T)

  /** The components of a parsed `url.URL` that the proxy copies or rewrites. */
  datatype Url = Url(
    scheme: string,
    user: string,
    host: string,
    path: string,
    rawQuery: string,
    fragment: string)

  /** What `url.Parse` gives back: a URL, or the text of its error. */
  datatype ParseResult = Parsed(url: Url) | ParseError(message: string)

  /** `http.Header`: each (canonical) field name maps to its field values in
      the order they appeared. */
  type Header = map<string, seq<string>>

  /** The values stored under `key`; none when the key is absent. */
  function Values(h: Header, key: string): seq<string>
  {
    if key in h then h[key] else []
  }

  /** `Header.Add`: append `value` to the values of `key`. */
  function Add(h: Header, key: string, value: string): (r: Header)
    ensures r.Keys == h.Keys + {key}
    ensures Values(r, key) == Values(h, key) + [value]
    ensures forall k :: k != key ==> Values(r, k) == Values(h, k)
  {
    h[key := Values(h, key) + [value]]
  }

  /** `Header.Set`: replace every value of `key` by the single `value`. */
  function Set(h: Header, key: string, value: string): (r: Header)
    ensures r.Keys == h.Keys + {key}
    ensures Values(r, key) == [value]
    ensures forall k :: k != key ==> Values(r, k) == Values(h, k)
  {
    h[key := [value]]
  }

  /** The keys of `h` that carry at least one value. */
  function NonEmptyKeys(h: Header): set<string>
  {
    set k | k in h && h[k] != []
  }

  /** The header that results from `Add`-ing every value of `src`, key by key
      and in order within a key, to `dst`. */
  function Appended(dst: Header, src: Header): (r: Header)
    ensures r.Keys == dst.Keys + NonEmptyKeys(src)
    ensures forall k :: Values(r, k) == Values(dst, k) + Values(src, k)
  {
    map k | k in dst.Keys + NonEmptyKeys(src) :: Values(dst, k) + Values(src, k)
  }

  /** Taking one more key of `src` into account. */
  lemma AppendedStep(dst: Header, src: Header, todo: set<string>, key: string)
    requires key in todo && todo <= src.Keys
    ensures var before := Appended(dst, src - todo);
            Appended(dst, src - (todo - {key})) ==
              if src[key] == [] then before else before[key := Values(dst, key) + src[key]]
  {
  }

  /** Adding nothing changes nothing. */
  lemma AppendedNothing(dst: Header)
    ensures Appended(dst, map[]) == dst
  {
    var empty: Header := map[];
    assert NonEmptyKeys(empty) == {};
    forall k | k in dst ensures Appended(dst, empty)[k] == dst[k] {
      assert Values(Appended(dst, empty), k) == Values(dst, k) + [];
    }
  }

  /** One `Add` extends the values gathered so far for `key` by one. */
  lemma AddOne(before: Header, key: string, done: seq<string>, value: string)
    ensures var r := if done == [] then before else before[key := Values(before, key) + done];
            Add(r, key, value) == before[key := Values(before, key) + (done + [value])]
  {
    if done == [] {
      assert Values(before, key) + [value] == Values(before, key) + ([] + [value]);
    } else {
      assert (Values(before, key) + done) + [value] == Values(before, key) + (done + [value]);
    }
  }

  /** The inner loop of the proxy's header copying: `Add` each of `values`
      under `key`, in order. */
  method AddEach(h: Header, key: string, values: seq<string>) returns (r: Header)
    ensures r == if values == [] then h else h[key := Values(h, key) + values]
  {
    r := h;
    var i := 0;
    while i < |values|
      invariant 0 <= i <= |values|
      invariant r == if i == 0 then h else h[key := Values(h, key) + values[..i]]
    {
      assert values[..i + 1] == values[..i] + [values[i]];
      AddOne(h, key, values[..i], values[i]);
      r := Add(r, key, values[i]);
      i := i + 1;
    }
    assert values[..|values|] == values;
  }

  /** The two nested loops of the proxy that `Add` every value of `src` to
      `dst`: the outer loop visits the keys of `src` in an arbitrary order
      (Go's map iteration order), the inner one the values of a key in order. */
  method AppendValues(dst: Header, src: Header) returns (r: Header)
    ensures r == Appended(dst, src)
  {
    r := dst;
    var todo := src.Keys;
    assert src - todo == map[];
    AppendedNothing(dst);
    while todo != {}
      invariant todo <= src.Keys
      invariant r == Appended(dst, src - todo)
      decreases todo
    {
      var key :| key in todo;
      assert Values(src - todo, key) == [];
      AppendedStep(dst, src, todo, key);
      r := AddEach(r, key, src[key]);
      todo := todo - {key};
    }
    assert src - {} == src;
  }

  /** An inbound request as the handler sees it. */
  datatype Request = Request(
    verb: string,
    url: Url,
    host: string,
    remoteAddr: string,
    header: Header,
    body: string)

  /** The request the proxy hands to the HTTP client. */
  datatype OutboundRequest = OutboundRequest(
    verb: string,
    url: Url,
    header: Header,
    body: string)

  /** A backend response. */
  datatype Response = Response(status: int, header: Header, body: string)

  /** What `http.Client.Do` gives back: a response, or the text of its error. */
  datatype ClientResult = Ok(response: Response) | Failed(message: string)

  const StatusOK := 200
  const StatusNotFound := 404
  const StatusInternalServerError := 500

  /** The status of a response after `WriteHeader(code)`: only the first
      status written takes effect. */
  function Committed(status: Option<int>, code: int): (r: Option<int>)
    ensures r.Some?
    ensures status.Some? ==> r == status
    ensures status.None? ==> r == Some(code)
  {
    if status.None? then Some(code) else status
  }

  /** `http.ResponseWriter`: the header map, the status once written, and
      the body bytes written so far. */
  class ResponseWriter {
    var header: Header
    var status: Option<int>
    var body: string

    constructor ()
      ensures header == map[] && status == None && body == ""
    {
      header, status, body := map[], None, "";
    }

    method WriteHeader(code: int)
      modifies this
      ensures status == Committed(old(status), code)
      ensures header == old(header) && body == old(body)
    {
      status := Committed(status, code);
    }

    /** A write without an earlier `WriteHeader` commits status 200. */
    method Write(data: string)
      modifies this
      ensures status == Committed(old(status), StatusOK)
      ensures body == old(body) + data
      ensures header == old(header)
    {
      status := Committed(status, StatusOK);
      body := body + data;
    }
  }

  /** `http.Error`: write `code` and the line `error` as the body. */
  method Error(w: ResponseWriter, error: string, code: int)
    modifies w
    ensures w.status == Committed(old(w.status), code)
    ensures w.body == old(w.body) + error + "\n"
    ensures w.header == old(w.header)
  {
    w.WriteHeader(code);
    w.Write(error + "\n");
  }
}

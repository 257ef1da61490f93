/**
 * The per-request context: parameter slots filled by the router, a lazily
 * filled query cache, a free-form store, the matched route's path and
 * handler, and the response it writes to. `Reset` returns every field to the
 * state of a newly made context so that a context can be reused.
 */
module Contexts {
  import opened Wrappers
  import Params
  import Strconv
  import Responses

  /** A handler reference: the default not-found handler or a registered function. */
  datatype Handler = NotFoundHandler | Func(id: nat)

  /** The inbound request, reduced to its query string as already parsed into `url.Values`. */
  datatype Request = Request(query: map<string, seq<string>>)

  datatype ContextError = ErrInvalidRedirectCode

  class Context<V> {
    var request: Request
    var response: Responses.Response
    var paramNames: seq<string>
    var paramValues: seq<string>
    /** The cached query parameters; None until first read. */
    var query: Option<map<string, seq<string>>>
    var store: map<string, V>
    var path: string
    var handler: Handler

    /** Nothing from an earlier request is left: the state of a new context for `req`. */
    ghost predicate Pristine(req: Request)
      reads this
    {
      && request == req
      && response == Responses.Initial
      && paramNames == [] && paramValues == []
      && query == None
      && store == map[]
      && path == ""
      && handler == NotFoundHandler
    }

    constructor (req: Request)
      ensures Pristine(req)
    {
      request := req;
      response := Responses.Initial;
      paramNames, paramValues := [], [];
      query := None;
      store := map[];
      path := "";
      handler := NotFoundHandler;
    }

    /** Makes the context indistinguishable from a new one for `req`. */
    method Reset(req: Request)
      modifies this
      ensures Pristine(req)
    {
      request := req;
      response := Responses.Initial;
      paramNames, paramValues := [], [];
      query := None;
      store := map[];
      path := "";
      handler := NotFoundHandler;
    }

    function Path(): (p: string)
      reads this
      ensures p == path
    {
      path
    }

    function Handler(): (h: Handler)
      reads this
      ensures h == handler
    {
      handler
    }

    function ParamNames(): (names: seq<string>)
      reads this
      ensures names == paramNames
    {
      paramNames
    }

    function ParamValues(): (values: seq<string>)
      reads this
      ensures values == paramValues
    {
      paramValues
    }

    method SetParamNames(names: seq<string>)
      modifies this`paramNames
      ensures paramNames == names
    {
      paramNames := names;
    }

    method SetParamValues(values: seq<string>)
      modifies this`paramValues
      ensures paramValues == values
    {
      paramValues := values;
    }

    /** Scans the names for `name` and returns the value in the same slot, or "". */
    method Param(name: string) returns (v: string)
      ensures v == Params.Lookup(paramNames, paramValues, name)
    {
      var i := 0;
      while i < |paramNames|
        invariant 0 <= i <= |paramNames|
        invariant forall j :: 0 <= j < i && j < |paramValues| ==> paramNames[j] != name
      {
        if i < |paramValues| && paramNames[i] == name {
          assert Params.FirstMatch(paramNames, paramValues, name, i);
          return paramValues[i];
        }
        i := i + 1;
      }
      return "";
    }

    /** The parameter read as a signed decimal, 0 when absent or malformed. */
    method IntParam(name: string) returns (n: int)
      ensures n == Strconv.IntValue(Params.Lookup(paramNames, paramValues, name))
      ensures Strconv.MinInt64 <= n <= Strconv.MaxInt64
    {
      var s := Param(name);
      n := Strconv.IntValue(s);
    }

    /** Stores `value` under `key`; every other entry is kept. */
    method Set(key: string, value: V)
      modifies this`store
      ensures Get(key) == Some(value)
      ensures forall k :: k != key ==> Get(k) == old(Get(k))
      ensures store.Keys == old(store.Keys) + {key}
    {
      store := store[key := value];
    }

    /** The value stored under `key`; None plays the part of Go's nil. */
    function Get(key: string): (v: Option<V>)
      reads this
      ensures v.Some? <==> key in store
      ensures v.Some? ==> v.value == store[key]
    {
      if key in store then Some(store[key]) else None
    }

    /** Parses the request's query on first use and serves the cached map afterwards. */
    method QueryParams() returns (q: map<string, seq<string>>)
      modifies this`query
      ensures old(query).Some? ==> q == old(query).value
      ensures old(query).None? ==> q == request.query
      ensures query == Some(q)
    {
      if query.None? {
        query := Some(request.query);
      }
      q := query.value;
    }

    /** The first value of the query parameter `name`, or "". */
    method QueryParam(name: string) returns (v: string)
      modifies this`query
      ensures query.Some?
      ensures var q := query.value; v == (if name in q && q[name] != [] then q[name][0] else "")
      ensures old(query).Some? ==> query == old(query)
      ensures old(query).None? ==> query == Some(request.query)
    {
      var q := QueryParams();
      v := if name in q && q[name] != [] then q[name][0] else "";
    }

    /** Writes `b` with the given content type and status. */
    method Blob(code: int, contentType: string, b: string)
      modifies this`response
      ensures response == Responses.Blob(old(response), code, contentType, b)
    {
      response := Responses.SetHeader(response, Responses.HeaderContentType, contentType);
      response := Responses.WriteHeader(response, code);
      response := Responses.Write(response, b);
    }

    method String(code: int, s: string)
      modifies this`response
      ensures response == Responses.Blob(old(response), code, Responses.MIMETextPlainCharsetUTF8, s)
    {
      Blob(code, Responses.MIMETextPlainCharsetUTF8, s);
    }

    method HTML(code: int, html: string)
      modifies this`response
      ensures response == Responses.Blob(old(response), code, Responses.MIMETextHTMLCharsetUTF8, html)
    {
      Blob(code, Responses.MIMETextHTMLCharsetUTF8, html);
    }

    /** Writes an already encoded JSON body. */
    method JSONBlob(code: int, json: string)
      modifies this`response
      ensures response == Responses.Blob(old(response), code, Responses.MIMEApplicationJSONCharsetUTF8, json)
    {
      Blob(code, Responses.MIMEApplicationJSONCharsetUTF8, json);
    }

    /** Writes an already encoded JSON body as a call of `callback`, in three writes. */
    method JSONPBlob(code: int, callback: string, json: string)
      modifies this`response
      ensures response == Responses.Blob(old(response), code,
        Responses.MIMEApplicationJavaScriptCharsetUTF8, Responses.JSONPFrame(callback, json))
    {
      response := Responses.SetHeader(response, Responses.HeaderContentType,
        Responses.MIMEApplicationJavaScriptCharsetUTF8);
      response := Responses.WriteHeader(response, code);
      response := Responses.Write(response, callback + "(");
      response := Responses.Write(response, json);
      response := Responses.Write(response, ");");
      assert response.body == old(response).body + (callback + "(" + json + ");");
    }

    /** Commits the status; the body is not touched. */
    method NoContent(code: int)
      modifies this`response
      ensures response == Responses.WriteHeader(old(response), code)
    {
      response := Responses.WriteHeader(response, code);
    }

    /**
     * Redirects with `code` to `url`; a code outside 300..308 is refused with
     * an error and the response is left untouched.
     */
    method Redirect(code: int, url: string) returns (err: Option<ContextError>)
      modifies this`response
      ensures err.Some? <==> !Responses.ValidRedirectCode(code)
      ensures err.Some? ==> err.value == ErrInvalidRedirectCode && response == old(response)
      ensures err.None? ==> response == Responses.Redirect(old(response), code, url)
    {
      if !Responses.ValidRedirectCode(code) {
        return Some(ErrInvalidRedirectCode);
      }
      response := Responses.SetHeader(response, Responses.HeaderLocation, url);
      response := Responses.WriteHeader(response, code);
      err := None;
    }
  }
}

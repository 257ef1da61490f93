# Echo request context and router, modelled in Dafny

This project models the request-dispatch core of the Echo HTTP toolkit (Go).
It covers two parts:

- **Context.** The per-request object. It holds the path-parameter slots (parallel `paramNames` / `paramValues` sequences), a lazily filled query-parameter cache, a string-keyed store, the matched route's path and handler, and the response it writes to. Its operations are `SetParamNames`, `SetParamValues`, `ParamNames`, `ParamValues`, `Param`, `IntParam`, `Set`, `Get`, `Path`, `Handler`, `QueryParams`, `QueryParam`, `Reset`, the writers `Blob`, `String`, `HTML`, `JSONBlob`, `JSONPBlob` and `NoContent`, and `Redirect`.
- **Router.** `Add` and `Find` over one segment trie per HTTP method. A trie node has static children by label, one `:name` parameter child, one `*name` catch-all child, and possibly a route.

The behaviour follows the assertions of `context_test.go`. Those assertions fix the Context and the part of the Router that fills it.

Files:

- `wrappers.dfy`: `Option`, standing in for Go's nil results.
- `strconv.dfy`: `Atoi` and `Itoa`, as `IntParam` uses them. `Atoi` returns a value and an error, as Go's does. The file proves the round trip, the value of every well-formed numeral with saturation at the 64-bit bounds, and the 0 that a syntax error gives.
- `params.dfy`: `Lookup`, the reference meaning of the linear scan over the parameter slots.
- `responses.dfy`: the response record (status, headers, body, committed). Also the content-type constants, `WriteHeader` (write-once), `Write` (which commits 200 first), `Blob`, the JSONP frame and the redirect-code predicate.
- `context.dfy`: the `Context` class. Each method that changes the context states its whole new state.
- `router.dfy`: splitting paths, parsing patterns, the trie (`Insert`, `Lookup`, `Match`) and the `Router` class. Lemmas show that matching is sound and complete, and that its precedence does not depend on registration order.
- `scenarios.dfy`: client methods that replay the tests through the contracts alone. Each returns what its test observes, and its postcondition is that test's expectation.

Design decisions:

- **`Redirect`.** Accepts exactly the codes 300 to 308. The tests fix only that 301 is accepted and 310 refused.
- **`IntParam`.** Reads `Atoi(Param(name))` and discards the error, keeping the value `Atoi` returns with it. A syntax error comes with 0, so a malformed or missing parameter reads as 0. A numeral outside the 64-bit range comes with the nearest bound and a range error, so it reads as that bound. Go checks for overflow digit by digit. A run of more than 64 bits' worth of leading digits is therefore a range error even when a non-digit follows it.
- **`Param`.** Returns the value in the first slot that carries the name and also has a value; otherwise it returns "".
- **`Find`.**
  - Tries the static child first, then the parameter child, then the catch-all child.
  - It falls back to the next kind when the walk below the preferred child finds no route.
  - A catch-all captures at least one remaining segment, rejoined with '/'.
  - On success the context gets the pattern string as its path, the route's parameter names, the captured values and the route's handler.
  - On failure only the handler changes, to the not-found handler.
- **`Add`.** Refuses a pattern whose catch-all segment is not its last segment. Re-adding a pattern with the same segment shape replaces the earlier route.

## Model

| member | source | states |
|---|---|---|
| `Strconv.Itoa` | context_test.go:319-320 | A minus sign exactly for a negative value, followed by a non-empty run of digits |
| `Strconv.Atoi` | context_test.go:315-322 | The value always lies in the 64-bit range. A syntax error comes with 0 and a range error with MinInt64 or MaxInt64. An error-free parse comes only from an optional sign followed by a non-empty run of digits, and carries their signed value |
| `Strconv.IntValue` | context_test.go:315-322 | The value IntParam keeps: within 64 bits, and 0 whenever Atoi reports a syntax error |
| `Strconv.AtoiNumeral` | context_test.go:315-322 | A run of digits, bare or after '-', parses without error to its value when that fits 64 bits, and otherwise to the bound on its side with a range error |
| `Strconv.AtoiPlus` | context_test.go:315-322 | A leading '+' parses exactly as the unsigned numeral after it |
| `Strconv.AtoiItoa` | context_test.go:319-320 | Every 64-bit integer, formatted in decimal, parses back to itself with no error (so "1" gives 1 and "-1" gives -1) |
| `Strconv.IntValueOfItoa` | context_test.go:319-320 | IntParam reads every canonical 64-bit numeral as its own value |
| `Strconv.AtoiRejectsNonDigit` | context_test.go:316-321 | The first character after any leading sign that is not a digit, reached while the digits before it fit 64 bits, is a syntax error, so IntParam yields 0 |
| `Strconv.AtoiRejectsShortMalformed` | context_test.go:316-321 | Any non-digit among the first 20 characters, other than a leading sign, is a syntax error, so IntParam yields 0 ("1a" gives 0) |
| `Strconv.AtoiSignOnly` | context_test.go:316-321 | A lone '+' or '-' is a syntax error, so IntParam reads it as 0 |
| `Strconv.AtoiOverflowFirst` | context_test.go:315-322 | Leading digits whose value exceeds 64 bits give the upper bound with a range error, whatever follows them |
| `Strconv.AtoiNegativeOverflowFirst` | context_test.go:315-322 | After '-', leading digits whose value exceeds 64 bits give the lower bound with a range error, whatever follows them |
| `Params.Lookup` | context_test.go:299-307 | The value in the first slot whose name matches (a slot that has a value), or "" when no such slot exists |
| `Responses.SetHeader` | context_test.go:408-410 | Sets one header, replacing any earlier value, and keeps every other header, the status and the body |
| `Responses.WriteHeader` | context_test.go:203-207 | Commits the status once; a committed response keeps its status; headers and body unchanged |
| `Responses.Write` | context_test.go:152-160 | Appends to the body and commits status 200 if nothing was committed |
| `Responses.Blob` | context_test.go:152-170 | Content-Type set, body extended by the bytes, status the requested code unless already committed |
| `Responses.JSONPFrame` | context_test.go:103-112 | The frame is callback, '(', the body unchanged, ");", with lengths adding up |
| `Responses.JSONPFrameInjective` | context_test.go:107-111 | For a fixed callback the framed body determines the payload |
| `Responses.ValidRedirectCode` | context_test.go:403-411 | Every accepted code is a 3xx redirection code, and 301 is accepted |
| `Responses.Redirect` | context_test.go:408-410 | A valid redirect sets Location to the URL and commits the code as status, unless a status was already committed, which then stays |
| `Contexts.Context.constructor` | context_test.go:294-296 | A new context has no parameters, an empty store, no cached query, empty path, the not-found handler and an untouched response |
| `Contexts.Context.ParamNames` | context_test.go:298-300 | Returns the context's current parameter names |
| `Contexts.Context.ParamValues` | context_test.go:302-304 | Returns the context's current parameter values |
| `Contexts.Context.Path` | context_test.go:285 | Returns the context's current route path |
| `Contexts.Context.Handler` | context_test.go:432 | Returns the context's current handler |
| `Contexts.Context.Reset` | context_test.go:215-225 | After Reset the context is in exactly the state of a new context for the given request |
| `Contexts.Context.SetParamNames` | context_test.go:299-300 | The parameter names become exactly the given sequence, in order |
| `Contexts.Context.SetParamValues` | context_test.go:303-304 | The parameter values become exactly the given sequence, in order |
| `Contexts.Context.Param` | context_test.go:306-307 | The linear scan returns what Lookup specifies for the current slots |
| `Contexts.Context.IntParam` | context_test.go:315-322 | The value Atoi gives for the parameter, with its error discarded: the signed decimal itself, 0 when absent or malformed, the nearest 64-bit bound when out of range |
| `Contexts.Context.Get` | context_test.go:414-418 | Some value exactly for a stored key, and that value is the stored one; None (Go's nil) for a missing key |
| `Contexts.Context.Set` | context_test.go:414-418 | Get(key) afterwards returns the stored value; every other key reads as before |
| `Contexts.Context.QueryParams` | context_test.go:219-225 | First use caches the request's query parameters; later uses return the cached map |
| `Contexts.Context.QueryParam` | context_test.go:349-359 | The first value of the named query parameter, or "", filling the cache as QueryParams does |
| `Contexts.Context.Blob` | context_test.go:152-160 | The response becomes the Blob write of the given content type, code and bytes |
| `Contexts.Context.String` | context_test.go:152-160 | A Blob write with content type text/plain; charset=UTF-8 |
| `Contexts.Context.HTML` | context_test.go:162-170 | A Blob write with content type text/html; charset=UTF-8 |
| `Contexts.Context.JSONBlob` | context_test.go:65-73 | A Blob write of an encoded JSON body with content type application/json; charset=UTF-8 |
| `Contexts.Context.JSONPBlob` | context_test.go:103-112 | Three writes that together equal one Blob write of callback + "(" + body + ");" as application/javascript |
| `Contexts.Context.NoContent` | context_test.go:203-207 | Only the status is committed; the body stays as it was |
| `Contexts.Context.Redirect` | context_test.go:403-411 | Error exactly for codes outside 300..308, with the response untouched; otherwise Location and status are written |
| `Routes.JoinSplit` | context_test.go:281 | Splitting a path on '/' and joining again gives the path back |
| `Routes.SplitJoin` | context_test.go:279-289 | Joining '/'-free pieces and splitting again gives the pieces back |
| `Routes.ShapeMatchArity` | context_test.go:287-290 | A pattern that matches a path captures exactly one value per declared parameter name |
| `Routes.Lookup` | context_test.go:279-287 | Nothing is stored in the empty trie; with LookupInsert it reads back what Insert stores |
| `Routes.Insert` | context_test.go:279-287 | The inserted route is found at its own shape |
| `Routes.Match` | context_test.go:279-290 | The empty trie matches nothing, and a match captures no more values than the path has segments; MatchComplete, MatchWitness and MatchSound relate it to Lookup and ShapeMatch |
| `Routes.LookupInsert` | context_test.go:279-287 | After adding a route it is found at its own shape, and every other shape keeps its route |
| `Routes.InsertWellFormed` | context_test.go:279-287 | Adding a route keeps every stored route at the shape of its own pattern |
| `Routes.InsertPatternsParsed` | context_test.go:279-287 | Adding a route whose segments are its pattern's parse keeps every stored route's segments equal to its pattern's parse |
| `Routes.MatchComplete` | context_test.go:279-290 | If some stored route's pattern matches the path, matching succeeds |
| `Routes.MatchWitness` | context_test.go:279-290 | A successful match follows a stored shape that leads to the returned route, captures the returned values and is tried no later than any other matching shape |
| `Routes.MatchSound` | context_test.go:285-290 | A successful match returns a stored route whose own pattern matches the path with the returned values, one per parameter name |
| `Routes.MatchPrecedence` | context_test.go:287-290 | Among all stored routes matching a path, the one returned is tried first, static before parameter before catch-all, whatever the registration order |
| `Routes.Router.constructor` | context_test.go:276-277 | A new router has no routes |
| `Routes.Router.Add` | context_test.go:279-287 | A misplaced catch-all is refused with nothing changed; otherwise the route is stored at its shape, other shapes and other methods unchanged |
| `Routes.Router.Find` | context_test.go:279-290 | On a match the context's path is the stored pattern, and that pattern's parse matches the path with exactly the context's values, its parameter names being the context's names; the handler comes from the match. Otherwise only the handler becomes not-found |
| `Scenarios.PathParam` | context_test.go:293-308 | Names ["uid","fid"] and values ["101","501"] read back as set, and Param("fid") is "501" |
| `Scenarios.IntParam` | context_test.go:310-323 | IntParam gives 1, -1, 0 and 0 for "id", "dir", "notint" and "notset" |
| `Scenarios.Reset` | context_test.go:215-225 | After Reset, names, values, store, path and query parameters are all empty |
| `Scenarios.Store` | context_test.go:414-419 | A value set on a new context is read back by Get |
| `Scenarios.Redirect` | context_test.go:403-412 | A 301 redirect succeeds with status 301 and Location set; a 310 redirect fails |
| `Scenarios.JSONP` | context_test.go:103-112 | JSONP gives status 200, application/javascript and the body callback + "(" + json + ");" |
| `Scenarios.Text` | context_test.go:152-170 | String and HTML each write status 200 and the text unchanged under their content types |
| `Scenarios.Path` | context_test.go:275-285 | With "/users/:id" registered, finding "/users/1" gives the context the path "/users/:id", names ["id"] and values ["1"] |
| `Scenarios.PathLonger` | context_test.go:279-291 | With "/users/:uid/files/:fid" also registered, finding "/users/1/files/1" gives that pattern as the path, names ["uid","fid"] and values ["1","1"] |
| `Scenarios.Handler` | context_test.go:421-434 | Find on "/handler" installs the handler registered for it |

## Left out

- Template rendering (`Render`): it delegates to Go's `text/template`.
- JSON and XML encoding, including `JSON`, `JSONPretty`, `XML`, `XMLPretty`, the `?pretty` query switch and encoding errors. These belong to `encoding/json` and `encoding/xml`. Writers take an already encoded body as an opaque string (`JSONBlob`, `JSONPBlob`).
- `Stream`, `Attachment` and `Inline`: they are reader and file I/O.
- Cookies (`Cookie`, `Cookies`, `SetCookie`): header parsing and serialisation belong to `net/http`, and the cookie's expiry reads the clock.
- Form values, query-string parsing, multipart forms and files. Parsing is delegated to `net/url` and `mime/multipart`. A request carries its query already parsed into a map, and the context only caches it.
- `Error`: it hands the error to the framework's central error handler, which is not part of this model.
- `Echo()`, `Request()` and `Response()` accessors: the owning server and the transport handles are not modelled.
- HTTP headers are a map from name to a single value. Canonicalisation of header names and multi-valued headers are not modelled.
- A failing network write is not modelled: every write succeeds.
- The fixed-capacity parameter-value array sized to the largest route is not modelled. Parameter slots are sequences that `SetParamValues` and `Find` replace.
- The router is a trie over whole path segments, not a radix tree over characters.
- Adding a leading '/' to a pattern that lacks one is not modelled.
- The method-not-allowed handler is not modelled.
- Catch-all precedence and the refusal of a misplaced catch-all are modelled and proved, but no test asserts them.
- `Contexts.Context.Get` returns `None` for a missing key where Go returns nil. Storing nil itself is not distinguished.

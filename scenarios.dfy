/**
 * Client code that replays the context and router tests through the
 * contracts alone: each method returns what the test observes, and its
 * postcondition is the test's expectation.
 */
module Scenarios {
  import opened Wrappers
  import Strconv
  import Params
  import Responses
  import Contexts
  import Routes

  const NoQuery := Contexts.Request(map[])

  /** Parameter names and values come back as set, and `Param` finds the value in the name's slot. */
  method PathParam() returns (names: seq<string>, values: seq<string>, fid: string)
    ensures names == ["uid", "fid"] && values == ["101", "501"] && fid == "501"
  {
    var c := new Contexts.Context<string>(NoQuery);
    c.SetParamNames(["uid", "fid"]);
    names := c.ParamNames();
    c.SetParamValues(["101", "501"]);
    values := c.ParamValues();
    fid := c.Param("fid");
  }

  const One := "1"
  const MinusOne := "-1"
  const NotInt := "1a"

  /** The values the parameter test reads: two numerals, a malformed one and a missing one. */
  lemma IntParamValues()
    ensures Strconv.IntValue("1") == 1 && Strconv.IntValue("-1") == -1
    ensures Strconv.IntValue("1a") == 0 && Strconv.IntValue("") == 0
  {
    Strconv.AtoiNumeral("1");
    assert "-" + "1" == "-1";
    Strconv.AtoiRejectsNonDigit("1a", 1);
  }

  /** Signed decimals parse; a malformed or missing parameter reads as 0. */
  method IntParam() returns (id: int, dir: int, notInt: int, notSet: int)
    ensures id == 1 && dir == -1 && notInt == 0 && notSet == 0
  {
    var c := new Contexts.Context<string>(NoQuery);
    c.SetParamNames(["id", "dir", "notint"]);
    c.SetParamValues([One, MinusOne, NotInt]);
    IntParamValues();
    assert Params.FirstMatch(c.paramNames, c.paramValues, "notint", 2);
    id := c.IntParam("id");
    dir := c.IntParam("dir");
    notInt := c.IntParam("notint");
    notSet := c.IntParam("notset");
  }

  /** After `Reset` no parameter, store entry, path or cached query of the earlier request remains. */
  method Reset() returns (values: seq<string>, names: seq<string>, store: map<string, string>,
                           path: string, query: map<string, seq<string>>)
    ensures values == [] && names == [] && store == map[] && path == "" && query == map[]
  {
    var c := new Contexts.Context<string>(NoQuery);
    c.SetParamNames(["foo"]);
    c.SetParamValues(["bar"]);
    c.Set("foe", "ban");
    c.query := Some(map["fon" := ["baz"]]);
    c.Reset(NoQuery);
    values := c.ParamValues();
    names := c.ParamNames();
    store := c.store;
    path := c.Path();
    query := c.QueryParams();
  }

  /** A value stored on a new context is read back. */
  method Store() returns (v: Option<string>)
    ensures v == Some("Jon Snow")
  {
    var c := new Contexts.Context<string>(NoQuery);
    c.Set("name", "Jon Snow");
    v := c.Get("name");
  }

  /** 301 redirects and sets `Location`; 310 is refused. */
  method Redirect(url: string) returns (first: Option<Contexts.ContextError>, status: int,
                                         location: string, second: Option<Contexts.ContextError>)
    ensures first == None && status == Responses.StatusMovedPermanently && location == url
    ensures second == Some(Contexts.ErrInvalidRedirectCode)
  {
    var c := new Contexts.Context<string>(NoQuery);
    first := c.Redirect(Responses.StatusMovedPermanently, url);
    status := c.response.status;
    location := c.response.header[Responses.HeaderLocation];
    second := c.Redirect(310, url);
  }

  /** JSONP writes the callback, the encoded payload in parentheses, and a semicolon. */
  method JSONP(callback: string, json: string) returns (status: int, contentType: string, body: string)
    ensures status == Responses.StatusOK
    ensures contentType == Responses.MIMEApplicationJavaScriptCharsetUTF8
    ensures body == callback + "(" + json + ");"
  {
    var c := new Contexts.Context<string>(NoQuery);
    c.JSONPBlob(Responses.StatusOK, callback, json);
    status := c.response.status;
    contentType := c.response.header[Responses.HeaderContentType];
    body := c.response.body;
  }

  /** `String` and `HTML` write the text unchanged under their content types. */
  method Text(text: string) returns (plainStatus: int, plainType: string, plainBody: string,
                                     htmlStatus: int, htmlType: string, htmlBody: string)
    ensures plainStatus == Responses.StatusOK && htmlStatus == Responses.StatusOK
    ensures plainType == Responses.MIMETextPlainCharsetUTF8 && plainBody == text
    ensures htmlType == Responses.MIMETextHTMLCharsetUTF8 && htmlBody == text
  {
    var c := new Contexts.Context<string>(NoQuery);
    c.String(Responses.StatusOK, text);
    plainStatus, plainType, plainBody := c.response.status, c.response.header[Responses.HeaderContentType], c.response.body;
    c.Reset(NoQuery);
    c.HTML(Responses.StatusOK, text);
    htmlStatus, htmlType, htmlBody := c.response.status, c.response.header[Responses.HeaderContentType], c.response.body;
  }

  /** Splitting a path written as '/'-free pieces joined by '/' gives the pieces back. */
  lemma SplitOfJoin(path: string, parts: seq<string>)
    requires |parts| >= 1 && forall i :: 0 <= i < |parts| ==> '/' !in parts[i]
    requires Routes.Join(parts) == path
    ensures Routes.Split(path) == parts
  {
    Routes.SplitJoin(parts);
  }

  /** A path of the form /users/<last> splits into "", "users" and `last`. */
  lemma SplitUsersPath(p: string, last: string)
    requires '/' !in last && p == "/users/" + last
    ensures Routes.Split(p) == ["", "users", last]
  {
    var parts := ["", "users", last];
    assert Routes.Join(parts[2..]) == last;
    assert Routes.Join(parts[1..]) == "users/" + last;
    SplitOfJoin(p, parts);
  }

  lemma SplitUsersFiles()
    ensures Routes.Split("/users/:uid/files/:fid") == ["", "users", ":uid", "files", ":fid"]
  {
    var parts := ["", "users", ":uid", "files", ":fid"];
    assert Routes.Join(parts[3..]) == "files/:fid";
    assert Routes.Join(parts[2..]) == ":uid/files/:fid";
    SplitOfJoin("/users/:uid/files/:fid", parts);
  }

  lemma SplitUsers1Files1()
    ensures Routes.Split("/users/1/files/1") == ["", "users", "1", "files", "1"]
  {
    var parts := ["", "users", "1", "files", "1"];
    assert Routes.Join(parts[3..]) == "files/1";
    assert Routes.Join(parts[2..]) == "1/files/1";
    SplitOfJoin("/users/1/files/1", parts);
  }

  lemma SplitHandler()
    ensures Routes.Split("/handler") == ["", "handler"]
  {
    SplitOfJoin("/handler", ["", "handler"]);
  }

  /** A trie with the single route `route`, added to an empty router, returns it for every path its pattern matches. */
  lemma SingleRoute(route: Routes.Route, path: seq<string>)
    requires Routes.ShapeMatch(Routes.Shapes(route.segments), path).Some?
    ensures var tree := Routes.Insert(Routes.Empty, Routes.Shapes(route.segments), route);
      Routes.Match(tree, path) == Some(Routes.Hit(route, Routes.ShapeMatch(Routes.Shapes(route.segments), path).value))
  {
    var shapes := Routes.Shapes(route.segments);
    var tree := Routes.Insert(Routes.Empty, shapes, route);
    forall t ensures Routes.Lookup(tree, t) == if t == shapes then Some(route) else None {
      Routes.LookupInsert(Routes.Empty, shapes, route, t);
    }
    Routes.MatchComplete(tree, shapes, path);
    var s := Routes.MatchWitness(tree, path);
  }

  /** With two routes stored, a path only the second one matches resolves to the second. */
  lemma TwoRoutes(route1: Routes.Route, route2: Routes.Route, path: seq<string>)
    requires Routes.Shapes(route1.segments) != Routes.Shapes(route2.segments)
    requires Routes.ShapeMatch(Routes.Shapes(route1.segments), path).None?
    requires Routes.ShapeMatch(Routes.Shapes(route2.segments), path).Some?
    ensures var tree := Routes.Insert(Routes.Insert(Routes.Empty, Routes.Shapes(route1.segments), route1),
                                      Routes.Shapes(route2.segments), route2);
      Routes.Match(tree, path) == Some(Routes.Hit(route2, Routes.ShapeMatch(Routes.Shapes(route2.segments), path).value))
  {
    var s1, s2 := Routes.Shapes(route1.segments), Routes.Shapes(route2.segments);
    var tree1 := Routes.Insert(Routes.Empty, s1, route1);
    var tree := Routes.Insert(tree1, s2, route2);
    forall t ensures Routes.Lookup(tree, t) == if t == s2 then Some(route2) else if t == s1 then Some(route1) else None {
      Routes.LookupInsert(Routes.Empty, s1, route1, t);
      Routes.LookupInsert(tree1, s2, route2, t);
    }
    Routes.MatchComplete(tree, s2, path);
    var s := Routes.MatchWitness(tree, path);
  }

  const UsersIdSegments := [Routes.Static(""), Routes.Static("users"), Routes.Param("id")]
  const UsersFilesSegments :=
    [Routes.Static(""), Routes.Static("users"), Routes.Param("uid"), Routes.Static("files"), Routes.Param("fid")]

  lemma UserSegmentsFor(p1: string, p2: string)
    requires Routes.Split(p1) == ["", "users", ":id"]
    requires Routes.Split(p2) == ["", "users", ":uid", "files", ":fid"]
    ensures Routes.ParsePattern(p1) == UsersIdSegments
    ensures Routes.ParsePattern(p2) == UsersFilesSegments
  {
    var segs1 := Routes.ParsePattern(p1);
    var segs2 := Routes.ParsePattern(p2);
    assert segs1[2] == Routes.Param("id");
    assert segs2[2] == Routes.Param("uid") && segs2[3] == Routes.Static("files") && segs2[4] == Routes.Param("fid");
  }

  const UsersIdShapes := [Routes.StaticShape(""), Routes.StaticShape("users"), Routes.ParamShape]
  const UsersFilesShapes :=
    [Routes.StaticShape(""), Routes.StaticShape("users"), Routes.ParamShape, Routes.StaticShape("files"), Routes.ParamShape]

  lemma UserShapes()
    ensures Routes.Shapes(UsersIdSegments) == UsersIdShapes
    ensures Routes.Shapes(UsersFilesSegments) == UsersFilesShapes
    ensures !Routes.MisplacedCatchAll(UsersIdSegments) && !Routes.MisplacedCatchAll(UsersFilesSegments)
    ensures Routes.ParamNames(UsersFilesSegments) == ["uid", "fid"]
    ensures Routes.ParamNames(UsersIdSegments) == ["id"]
  {
    assert UsersIdSegments[2..] == [Routes.Param("id")] && UsersIdSegments[1..][1..] == UsersIdSegments[2..];
    var segs := UsersFilesSegments;
    assert segs[4..][1..] == [] && segs[3..][1..] == segs[4..] && segs[2..][1..] == segs[3..];
    assert Routes.ParamNames(segs[4..]) == ["fid"];
    assert Routes.ParamNames(segs[3..]) == ["fid"];
    assert Routes.ParamNames(segs[2..]) == ["uid", "fid"];
    assert segs[1..][1..] == segs[2..] && segs[1..] == segs[1..];
  }

  lemma ParamMatchesOne()
    ensures Routes.ShapeMatch([Routes.ParamShape], ["1"]) == Some(["1"])
  {
    var one: seq<string> := ["1"];
    assert Routes.ShapeMatch([], []) == Some([]);
    assert [Routes.ParamShape][1..] == [] && one[1..] == [];
    assert [one[0]] + [] == one;
  }

  lemma ShortPathMatches()
    ensures Routes.ShapeMatch(UsersIdShapes, ["", "users", "1"]) == Some(["1"])
  {
    ParamMatchesOne();
    var path1 := ["", "users", "1"];
    assert UsersIdShapes[2..] == [Routes.ParamShape] && path1[2..] == ["1"];
  }

  lemma LongPathMatches()
    ensures Routes.ShapeMatch(UsersIdShapes, ["", "users", "1", "files", "1"]) == None
    ensures Routes.ShapeMatch(UsersFilesShapes, ["", "users", "1", "files", "1"]) == Some(["1", "1"])
  {
    ParamMatchesOne();
    var path2 := ["", "users", "1", "files", "1"];
    var shapes2 := UsersFilesShapes;
    assert shapes2[4..] == [Routes.ParamShape] && path2[4..] == ["1"];
    assert shapes2[2..][1..] == shapes2[3..] && path2[2..][1..] == path2[3..];
    assert Routes.ShapeMatch(shapes2[3..], path2[3..]) == Some(["1"]);
    assert [path2[2]] + ["1"] == ["1", "1"];
    assert Routes.ShapeMatch(shapes2[2..], path2[2..]) == Some(["1", "1"]);
  }

  /**
   * The two user routes: the short path resolves to the short pattern, and
   * once the long pattern is added the long path resolves to it, binding uid
   * and fid.
   */
  lemma UserMatches(route1: Routes.Route, route2: Routes.Route)
    requires route1.segments == UsersIdSegments && route2.segments == UsersFilesSegments
    ensures var tree1 := Routes.Insert(Routes.Empty, Routes.Shapes(route1.segments), route1);
      && Routes.Match(tree1, ["", "users", "1"]) == Some(Routes.Hit(route1, ["1"]))
      && Routes.Match(Routes.Insert(tree1, Routes.Shapes(route2.segments), route2), ["", "users", "1", "files", "1"])
         == Some(Routes.Hit(route2, ["1", "1"]))
      && !Routes.MisplacedCatchAll(route1.segments) && !Routes.MisplacedCatchAll(route2.segments)
      && route1.Names() == ["id"] && route2.Names() == ["uid", "fid"]
  {
    UserShapes();
    ShortPathMatches();
    LongPathMatches();
    SingleRoute(route1, ["", "users", "1"]);
    TwoRoutes(route1, route2, ["", "users", "1", "files", "1"]);
  }

  const UsersIdPattern := "/users/:id"
  const UsersFilesPattern := "/users/:uid/files/:fid"
  const UsersOnePath := "/users/1"
  const UsersOneFilesOnePath := "/users/1/files/1"

  lemma UserRoutes()
    ensures var segs1, segs2 := Routes.ParsePattern(UsersIdPattern), Routes.ParsePattern(UsersFilesPattern);
      var route1 := Routes.Route(UsersIdPattern, segs1, Contexts.Func(0));
      var route2 := Routes.Route(UsersFilesPattern, segs2, Contexts.Func(1));
      var tree1 := Routes.Insert(Routes.Empty, Routes.Shapes(segs1), route1);
      && !Routes.MisplacedCatchAll(segs1) && !Routes.MisplacedCatchAll(segs2)
      && Routes.Match(tree1, Routes.Split(UsersOnePath)) == Some(Routes.Hit(route1, ["1"]))
      && Routes.Match(Routes.Insert(tree1, Routes.Shapes(segs2), route2), Routes.Split(UsersOneFilesOnePath))
         == Some(Routes.Hit(route2, ["1", "1"]))
      && route1.Names() == ["id"] && route2.Names() == ["uid", "fid"]
  {
    SplitUsersPath(UsersIdPattern, ":id");
    SplitUsersPath(UsersOnePath, "1");
    SplitUsersFiles();
    SplitUsers1Files1();
    UserSegmentsFor(UsersIdPattern, UsersFilesPattern);
    UserMatches(Routes.Route(UsersIdPattern, UsersIdSegments, Contexts.Func(0)),
                Routes.Route(UsersFilesPattern, UsersFilesSegments, Contexts.Func(1)));
  }

  /**
   * The context's path is the registered pattern, not the concrete path. The
   * test registers its routes with a nil handler; distinct handler values
   * stand in for it here, and nothing below depends on them.
   */
  method Path() returns (path: string, names: seq<string>, values: seq<string>)
    ensures path == "/users/:id" && names == ["id"] && values == ["1"]
  {
    UserRoutes();
    var r := new Routes.Router();
    var err := r.Add("GET", UsersIdPattern, Contexts.Func(0));
    var c := new Contexts.Context<string>(NoQuery);
    var found := r.Find("GET", UsersOnePath, c);
    path, names, values := c.Path(), c.ParamNames(), c.ParamValues();
  }

  /** With both user routes registered (handlers as in `Path`), the longer path resolves to the longer pattern. */
  method PathLonger() returns (path: string, names: seq<string>, values: seq<string>)
    ensures path == "/users/:uid/files/:fid" && names == ["uid", "fid"] && values == ["1", "1"]
  {
    UserRoutes();
    var r := new Routes.Router();
    var err := r.Add("GET", UsersIdPattern, Contexts.Func(0));
    err := r.Add("GET", UsersFilesPattern, Contexts.Func(1));
    var c := new Contexts.Context<string>(NoQuery);
    var found := r.Find("GET", UsersOneFilesOnePath, c);
    path, names, values := c.Path(), c.ParamNames(), c.ParamValues();
  }

  /** The handler route, for any string that splits like the test's pattern. */
  lemma HandlerRouteFor(p: string)
    requires Routes.Split(p) == ["", "handler"]
    ensures var segs := Routes.ParsePattern(p);
      var route := Routes.Route(p, segs, Contexts.Func(7));
      && !Routes.MisplacedCatchAll(segs)
      && Routes.Match(Routes.Insert(Routes.Empty, Routes.Shapes(segs), route), Routes.Split(p))
         == Some(Routes.Hit(route, []))
  {
    var segs := Routes.ParsePattern(p);
    assert segs == [Routes.Static(""), Routes.Static("handler")];
    var parts := ["", "handler"];
    assert Routes.Shapes(segs) == [Routes.StaticShape(""), Routes.StaticShape("handler")];
    assert Routes.ShapeMatch([Routes.StaticShape("handler")], ["handler"]) == Some([]);
    assert Routes.ShapeMatch(Routes.Shapes(segs), parts) == Some([]);
    SingleRoute(Routes.Route(p, segs, Contexts.Func(7)), parts);
  }

  /** `Find` on a static route installs the handler registered for it. */
  method Handler() returns (h: Contexts.Handler)
    ensures h == Contexts.Func(7)
  {
    SplitHandler();
    HandlerRouteFor("/handler");
    var r := new Routes.Router();
    var err := r.Add("GET", "/handler", Contexts.Func(7));
    var c := new Contexts.Context<string>(NoQuery);
    var found := r.Find("GET", "/handler", c);
    h := c.Handler();
  }
}

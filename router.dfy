/**
 * The router: one segment trie per HTTP method. A pattern is split on '/';
 * a segment starting with ':' captures one path segment under a name, a
 * segment starting with '*' captures the rest of the path and must come last,
 * and every other segment must match literally. `Find` prefers a static child,
 * then the parameter child, then the catch-all child, falling back to the next
 * kind when the walk below the preferred child finds no route.
 */
module Routes {
  import opened Wrappers
  import Contexts

  // ---------------------------------------------------------------------------
  // Paths and patterns

  /** Go's `strings.Split(s, "/")`: the pieces between slashes, always at least one. */
  function Split(s: string): (parts: seq<string>)
    ensures |parts| >= 1
    ensures forall i :: 0 <= i < |parts| ==> '/' !in parts[i]
  {
    if s == [] then [""]
    else
      var rest := Split(s[1..]);
      if s[0] == '/' then [""] + rest
      else [[s[0]] + rest[0]] + rest[1..]
  }

  /** Go's `strings.Join(parts, "/")`. */
  function Join(parts: seq<string>): (s: string)
  {
    if parts == [] then ""
    else if |parts| == 1 then parts[0]
    else parts[0] + "/" + Join(parts[1..])
  }

  /** Splitting and joining again gives back the original path. */
  lemma {:induction false} JoinSplit(s: string)
    ensures Join(Split(s)) == s
  {
    if s != [] {
      JoinSplit(s[1..]);
      var rest := Split(s[1..]);
      if s[0] == '/' {
        assert Split(s)[1..] == rest;
      } else if |rest| == 1 {
        assert Join(Split(s)) == [s[0]] + rest[0];
      } else {
        assert Split(s)[1..] == rest[1..];
        assert Join(rest) == rest[0] + "/" + Join(rest[1..]);
      }
    }
  }

  /** Joining pieces free of '/' and splitting again gives back the pieces. */
  lemma {:induction false} SplitJoin(parts: seq<string>)
    requires |parts| >= 1
    requires forall i :: 0 <= i < |parts| ==> '/' !in parts[i]
    ensures Split(Join(parts)) == parts
  {
    if |parts| == 1 {
      SplitPiece(parts[0], []);
    } else {
      SplitJoin(parts[1..]);
      SplitPiece(parts[0], parts[1..]);
    }
  }

  /** Splitting `piece + "/" + Join(rest)` with a '/'-free piece puts that piece first. */
  lemma {:induction false} SplitPiece(piece: string, rest: seq<string>)
    requires '/' !in piece
    requires rest != [] ==> Split(Join(rest)) == rest
    ensures Split(if rest == [] then piece else piece + "/" + Join(rest)) == [piece] + rest
  {
    var s := if rest == [] then piece else piece + "/" + Join(rest);
    if piece == [] {
      if rest != [] {
        assert s[0] == '/' && s[1..] == Join(rest);
      }
    } else {
      var tail := piece[1..];
      assert '/' !in tail by {
        forall i | 0 <= i < |tail| ensures tail[i] != '/' { assert tail[i] == piece[i + 1]; }
      }
      SplitPiece(tail, rest);
      assert s[1..] == (if rest == [] then tail else tail + "/" + Join(rest));
      assert [piece[0]] + tail == piece;
    }
  }

  datatype Segment = Static(text: string) | Param(name: string) | CatchAll(name: string)

  /** What decides a segment's place in the trie: its kind, and the text of a static one. */
  datatype Shape = StaticShape(text: string) | ParamShape | CatchAllShape

  function ParseSegment(text: string): (seg: Segment)
  {
    if text != [] && text[0] == ':' then Param(text[1..])
    else if text != [] && text[0] == '*' then CatchAll(text[1..])
    else Static(text)
  }

  function ParsePattern(pattern: string): (segs: seq<Segment>)
    ensures |segs| == |Split(pattern)|
  {
    var parts := Split(pattern);
    seq(|parts|, i requires 0 <= i < |parts| => ParseSegment(parts[i]))
  }

  function ShapeOf(seg: Segment): (shape: Shape)
  {
    match seg
    case Static(l) => StaticShape(l)
    case Param(_) => ParamShape
    case CatchAll(_) => CatchAllShape
  }

  function Shapes(segs: seq<Segment>): (s: seq<Shape>)
    ensures |s| == |segs|
  {
    seq(|segs|, i requires 0 <= i < |segs| => ShapeOf(segs[i]))
  }

  /** The parameter names of a pattern, in declaration order. */
  function ParamNames(segs: seq<Segment>): (names: seq<string>)
  {
    if segs == [] then []
    else if segs[0].Static? then ParamNames(segs[1..])
    else [segs[0].name] + ParamNames(segs[1..])
  }

  /** A catch-all segment that is not the last one: a registration error. */
  predicate MisplacedCatchAll(segs: seq<Segment>)
  {
    exists i :: 0 <= i < |segs| - 1 && segs[i].CatchAll?
  }

  /**
   * The reference meaning of a route shape: whether it matches the path's
   * segments, and if so the captured values in order. A catch-all captures the
   * rest of the path, at least one segment, joined by '/'.
   */
  function ShapeMatch(s: seq<Shape>, path: seq<string>): (captured: Option<seq<string>>)
  {
    if s == [] then (if path == [] then Some([]) else None)
    else if path == [] then None
    else match s[0]
      case StaticShape(l) => if path[0] == l then ShapeMatch(s[1..], path[1..]) else None
      case ParamShape =>
        (match ShapeMatch(s[1..], path[1..])
         case Some(vs) => Some([path[0]] + vs)
         case None => None)
      case CatchAllShape => if |s| == 1 then Some([Join(path)]) else None
  }

  /** A pattern captures exactly one value per parameter name it declares. */
  lemma {:induction false} ShapeMatchArity(segs: seq<Segment>, path: seq<string>)
    requires ShapeMatch(Shapes(segs), path).Some?
    ensures |ShapeMatch(Shapes(segs), path).value| == |ParamNames(segs)|
  {
    if segs != [] {
      assert Shapes(segs)[1..] == Shapes(segs[1..]);
      if !segs[0].CatchAll? {
        ShapeMatchArity(segs[1..], path[1..]);
      } else {
        assert segs[1..] == [];
      }
    }
  }

  // ---------------------------------------------------------------------------
  // The trie

  datatype Route = Route(pattern: string, segments: seq<Segment>, handler: Contexts.Handler)
  {
    function Names(): (names: seq<string>) { ParamNames(segments) }
  }

  /** One node per segment: static children by label, one parameter child, one catch-all child. */
  datatype Node = Node(statics: map<string, Node>, param: Option<Node>, any: Option<Node>, route: Option<Route>)

  const Empty := Node(map[], None, None, None)

  function OrEmpty(child: Option<Node>): (node: Node)
  {
    if child.Some? then child.value else Empty
  }

  /** The route stored at the node reached by following `s` from `n`. */
  function Lookup(n: Node, s: seq<Shape>): (r: Option<Route>)
    ensures n == Empty ==> r == None
    decreases s
  {
    if s == [] then n.route
    else match s[0]
      case StaticShape(l) => if l in n.statics then Lookup(n.statics[l], s[1..]) else None
      case ParamShape => if n.param.Some? then Lookup(n.param.value, s[1..]) else None
      case CatchAllShape => if n.any.Some? then Lookup(n.any.value, s[1..]) else None
  }

  /** Stores `r` at the node reached by `s`, creating nodes on the way; a route already there is replaced. */
  function Insert(n: Node, s: seq<Shape>, r: Route): (n': Node)
    ensures Lookup(n', s) == Some(r)
    decreases s
  {
    if s == [] then n.(route := Some(r))
    else match s[0]
      case StaticShape(l) =>
        var child := if l in n.statics then n.statics[l] else Empty;
        n.(statics := n.statics[l := Insert(child, s[1..], r)])
      case ParamShape => n.(param := Some(Insert(OrEmpty(n.param), s[1..], r)))
      case CatchAllShape => n.(any := Some(Insert(OrEmpty(n.any), s[1..], r)))
  }

  /** After an insertion the new route is found at its shape and every other shape is unchanged. */
  lemma {:induction false} LookupInsert(n: Node, s: seq<Shape>, r: Route, t: seq<Shape>)
    ensures Lookup(Insert(n, s, r), t) == if t == s then Some(r) else Lookup(n, t)
    decreases s
  {
    if s != [] && t != [] {
      if t[0] == s[0] {
        match s[0]
        case StaticShape(l) =>
          var child := if l in n.statics then n.statics[l] else Empty;
          LookupInsert(child, s[1..], r, t[1..]);
          assert t == s <==> t[1..] == s[1..] by {
            if t[1..] == s[1..] { assert t == [t[0]] + t[1..] && s == [s[0]] + s[1..]; }
          }
        case ParamShape =>
          LookupInsert(OrEmpty(n.param), s[1..], r, t[1..]);
          assert t == s <==> t[1..] == s[1..] by {
            if t[1..] == s[1..] { assert t == [t[0]] + t[1..] && s == [s[0]] + s[1..]; }
          }
        case CatchAllShape =>
          LookupInsert(OrEmpty(n.any), s[1..], r, t[1..]);
          assert t == s <==> t[1..] == s[1..] by {
            if t[1..] == s[1..] { assert t == [t[0]] + t[1..] && s == [s[0]] + s[1..]; }
          }
      }
    }
  }

  /** Every route stored in `n` sits at the shape of its own segments. */
  ghost predicate WellFormed(n: Node)
  {
    forall s :: Lookup(n, s).Some? ==> Shapes(Lookup(n, s).value.segments) == s
  }

  /** Every route stored below `n` carries the segments its own pattern string parses to. */
  ghost predicate PatternsParsed(n: Node)
  {
    forall s :: Lookup(n, s).Some? ==> Lookup(n, s).value.segments == ParsePattern(Lookup(n, s).value.pattern)
  }

  lemma InsertPatternsParsed(n: Node, r: Route)
    requires PatternsParsed(n) && r.segments == ParsePattern(r.pattern)
    ensures PatternsParsed(Insert(n, Shapes(r.segments), r))
  {
    forall s | Lookup(Insert(n, Shapes(r.segments), r), s).Some?
      ensures Lookup(Insert(n, Shapes(r.segments), r), s).value.segments
           == ParsePattern(Lookup(Insert(n, Shapes(r.segments), r), s).value.pattern)
    {
      LookupInsert(n, Shapes(r.segments), r, s);
    }
  }

  lemma InsertWellFormed(n: Node, r: Route)
    requires WellFormed(n)
    ensures WellFormed(Insert(n, Shapes(r.segments), r))
  {
    forall s | Lookup(Insert(n, Shapes(r.segments), r), s).Some?
      ensures Shapes(Lookup(Insert(n, Shapes(r.segments), r), s).value.segments) == s
    {
      LookupInsert(n, Shapes(r.segments), r, s);
    }
  }

  // ---------------------------------------------------------------------------
  // Matching

  datatype Hit = Hit(route: Route, values: seq<string>)

  /** Resolves path segments against the trie: static, then parameter, then catch-all. */
  function Match(n: Node, path: seq<string>): (h: Option<Hit>)
    ensures n == Empty ==> h == None
    ensures h.Some? ==> |h.value.values| <= |path|
    decreases path
  {
    if path == [] then
      (if n.route.Some? then Some(Hit(n.route.value, [])) else None)
    else
      var viaStatic := if path[0] in n.statics then Match(n.statics[path[0]], path[1..]) else None;
      if viaStatic.Some? then viaStatic
      else
        var viaParam := if n.param.Some? then Match(n.param.value, path[1..]) else None;
        if viaParam.Some? then Some(Hit(viaParam.value.route, [path[0]] + viaParam.value.values))
        else if n.any.Some? && n.any.value.route.Some? then Some(Hit(n.any.value.route.value, [Join(path)]))
        else None
  }

  /** The order in which `Match` tries child kinds: static, then parameter, then catch-all. */
  function Rank(s: Shape): (rank: nat)
  {
    match s
    case StaticShape(_) => 0
    case ParamShape => 1
    case CatchAllShape => 2
  }

  /** `a` is tried no later than `b`: the first kind in which they differ ranks lower in `a`. */
  predicate TriedNoLater(a: seq<Shape>, b: seq<Shape>)
  {
    a == [] ||
    (b != [] && (Rank(a[0]) < Rank(b[0]) || (Rank(a[0]) == Rank(b[0]) && TriedNoLater(a[1..], b[1..]))))
  }

  /** Any stored route whose shape matches the path makes `Match` succeed: no route is missed. */
  lemma {:induction false} MatchComplete(n: Node, t: seq<Shape>, path: seq<string>)
    requires Lookup(n, t).Some? && ShapeMatch(t, path).Some?
    ensures Match(n, path).Some?
    decreases path
  {
    if path != [] {
      match t[0]
      case StaticShape(l) =>
        MatchComplete(n.statics[l], t[1..], path[1..]);
      case ParamShape =>
        if !(path[0] in n.statics && Match(n.statics[path[0]], path[1..]).Some?) {
          MatchComplete(n.param.value, t[1..], path[1..]);
        }
      case CatchAllShape =>
    }
  }

  /**
   * When `Match` succeeds it names the stored shape it followed: that shape
   * leads to the returned route, matches the path with exactly the returned
   * values, and is tried no later than any other stored shape matching the path.
   */
  lemma {:induction false} MatchWitness(n: Node, path: seq<string>) returns (s: seq<Shape>)
    requires Match(n, path).Some?
    ensures Lookup(n, s) == Some(Match(n, path).value.route)
    ensures ShapeMatch(s, path) == Some(Match(n, path).value.values)
    ensures forall t :: Lookup(n, t).Some? && ShapeMatch(t, path).Some? ==> TriedNoLater(s, t)
    decreases path
  {
    if path == [] {
      s := [];
      return;
    }
    var viaStatic := if path[0] in n.statics then Match(n.statics[path[0]], path[1..]) else None;
    var viaParam := if n.param.Some? then Match(n.param.value, path[1..]) else None;
    if viaStatic.Some? {
      var child := n.statics[path[0]];
      var rest := MatchWitness(child, path[1..]);
      s := [StaticShape(path[0])] + rest;
      assert s[1..] == rest;
      forall t: seq<Shape> | Lookup(n, t).Some? && ShapeMatch(t, path).Some? ensures TriedNoLater(s, t) {
        if t[0].StaticShape? {
          assert t[0].text == path[0];
          assert Lookup(child, t[1..]).Some? && ShapeMatch(t[1..], path[1..]).Some?;
        }
      }
    } else if viaParam.Some? {
      var child := n.param.value;
      var rest := MatchWitness(child, path[1..]);
      s := [ParamShape] + rest;
      assert s[1..] == rest;
      forall t: seq<Shape> | Lookup(n, t).Some? && ShapeMatch(t, path).Some? ensures TriedNoLater(s, t) {
        if t[0].StaticShape? {
          MatchComplete(n.statics[t[0].text], t[1..], path[1..]);
          assert false;
        } else if t[0].ParamShape? {
          assert Lookup(child, t[1..]).Some? && ShapeMatch(t[1..], path[1..]).Some?;
        }
      }
    } else {
      s := [CatchAllShape];
      forall t: seq<Shape> | Lookup(n, t).Some? && ShapeMatch(t, path).Some? ensures TriedNoLater(s, t) {
        if t[0].StaticShape? {
          MatchComplete(n.statics[t[0].text], t[1..], path[1..]);
          assert false;
        } else if t[0].ParamShape? {
          MatchComplete(n.param.value, t[1..], path[1..]);
          assert false;
        }
      }
    }
  }

  /**
   * In a well-formed trie a successful match returns a stored route whose own
   * pattern matches the path, with the captured values in declaration order,
   * one per parameter name.
   */
  lemma MatchSound(n: Node, path: seq<string>)
    requires WellFormed(n) && Match(n, path).Some?
    ensures var h := Match(n, path).value;
      Lookup(n, Shapes(h.route.segments)) == Some(h.route) &&
      ShapeMatch(Shapes(h.route.segments), path) == Some(h.values) &&
      |h.values| == |h.route.Names()|
  {
    var s := MatchWitness(n, path);
    var h := Match(n, path).value;
    assert Shapes(h.route.segments) == s;
    ShapeMatchArity(h.route.segments, path);
  }

  /**
   * Precedence does not depend on registration order: among all stored routes
   * whose patterns match the path, `Match` returns the one whose segment kinds
   * are tried first (static before parameter before catch-all, segment by segment).
   */
  lemma MatchPrecedence(n: Node, path: seq<string>, t: seq<Shape>)
    requires WellFormed(n) && Match(n, path).Some?
    requires Lookup(n, t).Some? && ShapeMatch(t, path).Some?
    ensures TriedNoLater(Shapes(Match(n, path).value.route.segments), t)
  {
    var s := MatchWitness(n, path);
    assert Shapes(Match(n, path).value.route.segments) == s;
  }

  // ---------------------------------------------------------------------------
  // The router object

  datatype RouteError = ErrMisplacedCatchAll

  class Router {
    /** One trie per HTTP method. */
    var trees: map<string, Node>

    /** Every tree stores each route at its own shape, under the segments its pattern string parses to. */
    ghost predicate Valid()
      reads this
    {
      forall m :: m in trees ==> WellFormed(trees[m]) && PatternsParsed(trees[m])
    }

    function Tree(httpMethod: string): Node
      reads this
    {
      if httpMethod in trees then trees[httpMethod] else Empty
    }

    constructor ()
      ensures Valid() && trees == map[]
    {
      trees := map[];
    }

    /**
     * Registers `pattern` for `httpMethod`. A pattern with a catch-all segment
     * before its last segment is refused and nothing changes; otherwise the
     * route is stored at its shape, replacing one registered there before,
     * and every other shape keeps its route.
     */
    method Add(httpMethod: string, pattern: string, handler: Contexts.Handler) returns (err: Option<RouteError>)
      requires Valid()
      modifies this
      ensures Valid()
      ensures MisplacedCatchAll(ParsePattern(pattern)) ==> err == Some(ErrMisplacedCatchAll) && trees == old(trees)
      ensures !MisplacedCatchAll(ParsePattern(pattern)) ==> err == None
      ensures err.None? ==> var segs := ParsePattern(pattern);
        trees == old(trees)[httpMethod := Insert(old(Tree(httpMethod)), Shapes(segs), Route(pattern, segs, handler))]
      ensures err.None? ==>
        Lookup(Tree(httpMethod), Shapes(ParsePattern(pattern))) == Some(Route(pattern, ParsePattern(pattern), handler))
      ensures err.None? ==> forall t :: t != Shapes(ParsePattern(pattern)) ==>
        Lookup(Tree(httpMethod), t) == Lookup(old(Tree(httpMethod)), t)
      ensures forall m :: m != httpMethod ==> Tree(m) == old(Tree(m))
    {
      var segs := ParsePattern(pattern);
      if MisplacedCatchAll(segs) {
        return Some(ErrMisplacedCatchAll);
      }
      var route := Route(pattern, segs, handler);
      var before := Tree(httpMethod);
      InsertWellFormed(before, route);
      InsertPatternsParsed(before, route);
      trees := trees[httpMethod := Insert(before, Shapes(segs), route)];
      forall t ensures Lookup(Tree(httpMethod), t) == if t == Shapes(segs) then Some(route) else Lookup(before, t) {
        LookupInsert(before, Shapes(segs), route, t);
      }
      err := None;
    }

    /**
     * Resolves `path` for `httpMethod` into `c`. On success the context gets the
     * route's pattern as its path, the route's parameter names, the captured
     * values (one per name) and the route's handler; otherwise its handler
     * becomes the not-found handler. Nothing else in the context changes.
     */
    method Find<V>(httpMethod: string, path: string, c: Contexts.Context<V>) returns (found: bool)
      requires Valid()
      modifies c
      ensures found == Match(Tree(httpMethod), Split(path)).Some?
      ensures found ==> var h := Match(Tree(httpMethod), Split(path)).value;
        && c.path == h.route.pattern
        && c.paramNames == h.route.Names()
        && c.paramValues == h.values
        && c.handler == h.route.handler
      ensures found ==> |c.paramNames| == |c.paramValues|
      ensures found ==> ShapeMatch(Shapes(ParsePattern(c.path)), Split(path)) == Some(c.paramValues)
      ensures found ==> c.paramNames == ParamNames(ParsePattern(c.path))
      ensures !found ==> c.handler == Contexts.NotFoundHandler
      ensures !found ==> c.path == old(c.path) && c.paramNames == old(c.paramNames) && c.paramValues == old(c.paramValues)
      ensures c.request == old(c.request) && c.response == old(c.response)
      ensures c.store == old(c.store) && c.query == old(c.query)
    {
      var tree := Tree(httpMethod);
      var hit := Match(tree, Split(path));
      if hit.None? {
        c.handler := Contexts.NotFoundHandler;
        return false;
      }
      MatchSound(tree, Split(path));
      c.path := hit.value.route.pattern;
      c.paramNames := hit.value.route.Names();
      c.paramValues := hit.value.values;
      c.handler := hit.value.route.handler;
      found := true;
    }
  }
}

/** Which handler an HTTP method and a path reach, in the order the routes are
    declared: Express tries them top to bottom and the first match wins. */
module Router {
  import opened Wrappers
  import opened JsString
  import opened Schema
  import opened Catalog
  import opened Api

  datatype HttpMethod = GET | POST

  /** A one-segment route parameter (`:name`): any non-empty segment. */
  predicate IsParam(segment: string) {
    segment != []
  }

  /** The endpoint for `verb` and `path`, or `None` when no route matches
      (Express then answers 404). A path is compared segment by segment, as
      split on `/`. */
  function Route(verb: HttpMethod, path: string): Option<Endpoint> {
    RouteSegments(verb, Split(path, '/'))
  }

  /** The route table on a path already split on `/`. */
  function RouteSegments(verb: HttpMethod, segs: seq<string>): Option<Endpoint> {
    if |segs| < 2 || segs[0] != "" then None
    else if |segs| == 2 then
      var top := segs[1];
      match verb
      case GET =>
        if top == "" then Some(Home)
        else if top == "login" then Some(LoginPage)
        else if top == "pokemon-input" then Some(PokemonForm)
        else if top == "move-input" then Some(MoveForm)
        else None
      case POST =>
        if top == "pokemon-input" then Some(SubmitPokemon)
        else if top == "move-input" then Some(SubmitMove)
        else if top == "login" then Some(SubmitLogin)
        else None
    else if |segs| == 3 && verb == GET then
      var (top, param) := (segs[1], segs[2]);
      if top == "pokemon" && param == "api" then Some(ListPokemon)
      else if top == "moves" && param == "api" then Some(ListMoves)
      else if top == "pokemon" && IsParam(param) then Some(PokemonByName(param))
      else if top == "poke" && IsParam(param) then Some(PokemonById(param))
      else if top == "moves" && IsParam(param) then Some(MoveByName(param))
      else None
    else None
  }

  /** A path of one segment, `"/" + a`, splits into `["", a]`. */
  lemma OneSegmentPath(a: string, path: string)
    requires '/' !in a && path == "/" + a
    ensures Split(path, '/') == ["", a]
  {
    assert Join(["", a], '/') == path by {
      assert Join(["", a][1..], '/') == a;
    }
    SplitJoin(["", a], '/');
  }

  /** A path of two segments, `"/" + a + "/" + b`, splits into `["", a, b]`. */
  lemma TwoSegmentPath(a: string, b: string, path: string)
    requires '/' !in a && '/' !in b && path == "/" + a + "/" + b
    ensures Split(path, '/') == ["", a, b]
  {
    assert Join(["", a, b], '/') == path by {
      assert Join(["", a, b][1..], '/') == a + "/" + b by {
        assert Join(["", a, b][2..], '/') == b;
      }
    }
    SplitJoin(["", a, b], '/');
  }

  /** The route of a one-segment path `"/" + a`. */
  lemma RouteOfOneSegment(verb: HttpMethod, a: string, path: string)
    requires '/' !in a && path == "/" + a
    ensures Route(verb, path) == RouteSegments(verb, ["", a])
  {
    OneSegmentPath(a, path);
  }

  /** The route of a two-segment path `"/" + a + "/" + b`. */
  lemma RouteOfTwoSegments(verb: HttpMethod, a: string, b: string, path: string)
    requires '/' !in a && '/' !in b && path == "/" + a + "/" + b
    ensures Route(verb, path) == RouteSegments(verb, ["", a, b])
  {
    TwoSegmentPath(a, b, path);
  }

  /** The one-segment entries of the route table: four pages served by GET,
      three submissions handled by POST. */
  lemma TopLevelRoutes()
    ensures RouteSegments(GET, ["", ""]) == Some(Home)
    ensures RouteSegments(GET, ["", "login"]) == Some(LoginPage)
    ensures RouteSegments(GET, ["", "pokemon-input"]) == Some(PokemonForm)
    ensures RouteSegments(GET, ["", "move-input"]) == Some(MoveForm)
    ensures RouteSegments(POST, ["", "pokemon-input"]) == Some(SubmitPokemon)
    ensures RouteSegments(POST, ["", "move-input"]) == Some(SubmitMove)
    ensures RouteSegments(POST, ["", "login"]) == Some(SubmitLogin)
  {
  }

  /** A two-segment path whose first segment names no collection matches no
      route, whatever the method. */
  lemma UnknownCollection(verb: HttpMethod, a: string, b: string)
    requires a != "pokemon" && a != "moves" && a != "poke"
    ensures RouteSegments(verb, ["", a, b]) == None
  {
  }

  /** GET /moves/<segment> reaches the move lookup for every segment except
      "api", which the earlier /moves/api route takes. Likewise for
      /pokemon/<segment> and the Pokedex lookup by name; /poke/<segment> always
      reaches the lookup by number. */
  lemma LookupRoutes(segment: string)
    requires segment != [] && '/' !in segment
    ensures Route(GET, "/moves/" + segment) == if segment == "api" then Some(ListMoves) else Some(MoveByName(segment))
    ensures Route(GET, "/pokemon/" + segment) == if segment == "api" then Some(ListPokemon) else Some(PokemonByName(segment))
    ensures Route(GET, "/poke/" + segment) == Some(PokemonById(segment))
  {
    RouteOfTwoSegments(GET, "moves", segment, "/moves/" + segment);
    RouteOfTwoSegments(GET, "pokemon", segment, "/pokemon/" + segment);
    RouteOfTwoSegments(GET, "poke", segment, "/poke/" + segment);
  }

  /** The redirect POST /move-input issues in the server, "/move/input", is
      served by no route: a saved move ends on a 404 page. */
  lemma MoveRedirectAsWrittenUnrouted()
    ensures Route(GET, MoveSavedRedirectAsWritten) == None
  {
    RouteOfTwoSegments(GET, "move", "input", MoveSavedRedirectAsWritten);
    UnknownCollection(GET, "move", "input");
  }

  /** The home page path. */
  lemma HomePath()
    ensures Route(GET, "/") == Some(Home)
  {
    RouteOfOneSegment(GET, "", "/");
    TopLevelRoutes();
  }

  /** The Pokedex form and its submission share one path. */
  lemma PokemonInputPath()
    ensures Route(GET, "/pokemon-input") == Some(PokemonForm)
    ensures Route(POST, "/pokemon-input") == Some(SubmitPokemon)
  {
    RouteOfOneSegment(GET, "pokemon-input", "/pokemon-input");
    RouteOfOneSegment(POST, "pokemon-input", "/pokemon-input");
    TopLevelRoutes();
  }

  /** The move form and its submission share one path. */
  lemma MoveInputPath()
    ensures Route(GET, MoveSavedRedirect) == Some(MoveForm)
    ensures Route(POST, MoveSavedRedirect) == Some(SubmitMove)
  {
    RouteOfOneSegment(GET, "move-input", MoveSavedRedirect);
    RouteOfOneSegment(POST, "move-input", MoveSavedRedirect);
    TopLevelRoutes();
  }

  /** The login page and the login submission share one path. */
  lemma LoginPath()
    ensures Route(GET, "/login") == Some(LoginPage)
    ensures Route(POST, "/login") == Some(SubmitLogin)
  {
    RouteOfOneSegment(GET, "login", "/login");
    RouteOfOneSegment(POST, "login", "/login");
    TopLevelRoutes();
  }

  /** As written, a saved move sends the browser to a path no route serves:
      the redirect that follows ends on a 404 page. */
  lemma SavedMoveRedirectUnrouted(st: State, body: Body, env: Env)
    requires MoveValid(BuildMove(body, env.numbers))
    ensures Handle(st, Request(SubmitMove, body), env, Reachable).0.Redirect?
    ensures Route(GET, Handle(st, Request(SubmitMove, body), env, Reachable).0.location) == None
  {
    SavedMoveRedirect(st, body, env, Reachable);
    MoveRedirectAsWrittenUnrouted();
  }

  /** With the move redirect corrected, every redirect any handler issues
      leads to a page the server serves by GET. */
  lemma RedirectsAreRouted(st: State, req: Request, env: Env, backend: Backend)
    requires HandleCorrected(st, req, env, backend).0.Redirect?
    ensures Route(GET, HandleCorrected(st, req, env, backend).0.location).Some?
  {
    RedirectTargets(st, req, env, backend, MoveSavedRedirect);
    var loc := HandleCorrected(st, req, env, backend).0.location;
    if loc == "/" {
      HomePath();
    } else if loc == "/login" {
      LoginPath();
    } else if loc == "/pokemon-input" {
      PokemonInputPath();
    } else {
      MoveInputPath();
    }
  }
}

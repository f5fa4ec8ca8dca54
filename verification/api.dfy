/** The route handlers of server.js. Each handler is first stated as a pure
    function from the state it reads and the request to the response and the
    new state; `Handle` dispatches on the endpoint; the methods at the end
    carry the handlers out on the `Catalog` and `Session` objects. */
module Api {
  import opened Wrappers
  import opened JsString
  import opened Schema
  import opened Movesets
  import opened Catalog
  import opened Auth

  /** Configuration read once from the environment, and the number
      conversions the server leaves to JavaScript and Mongoose. */
  datatype Env = Env(secrets: Secrets, numbers: NumberParsers)

  /** `req.body` as body-parser delivers a submitted form: field name to value.
      A field that was not sent is `undefined`. */
  type Body = map<string, string>

  /** `req.body[key]`. */
  function Field(body: Body, key: string): Option<string> {
    if key in body then Some(body[key]) else None
  }

  /** The routes, with their path parameters. */
  datatype Endpoint =
    | ListPokemon                  // GET /pokemon/api
    | ListMoves                    // GET /moves/api
    | PokemonByName(name: string)  // GET /pokemon/:name
    | PokemonById(id: string)      // GET /poke/:PokedexId
    | MoveByName(name: string)     // GET /moves/:name
    | Home                         // GET /
    | LoginPage                    // GET /login
    | PokemonForm                  // GET /pokemon-input
    | MoveForm                     // GET /move-input
    | SubmitPokemon                // POST /pokemon-input
    | SubmitMove                   // POST /move-input
    | SubmitLogin                  // POST /login
  {
    /** The five JSON endpoints, which query the store. */
    predicate IsQuery() {
      ListPokemon? || ListMoves? || PokemonByName? || PokemonById? || MoveByName?
    }
  }

  datatype Request = Request(endpoint: Endpoint, body: Body)

  /** What `res.json` serialises. */
  datatype JsonBody =
    | PokemonList(pokedex: seq<Pokemon>)
    | MoveList(moves: seq<Move>)
    | PokemonOrNull(pokemon: Option<Pokemon>)
    | MoveOrNull(move: Option<Move>)
    | ErrorObject(error: string)

  datatype Response =
    | Json(status: nat, json: JsonBody)
    | Text(status: nat, text: string)
    | Redirect(location: string)
    | SendFile(file: string)
      /** A `TypeError` thrown inside a handler; Express's default error
          handler answers it with status 500. */
    | UncaughtError

  /** Everything a request can read or change: both collections and the
      requesting client's session flag. */
  datatype State = State(pokedex: seq<Pokemon>, moves: seq<Move>, authenticated: bool)

  const PokedexFetchError := "An error occured while fetching pokedex data"
  const MovesFetchError := "An error occured while fetching moves data"
  const MovesetLengthError := "Moveset parameters are not of equal length, Retry"
  const PokedexSaveError := "An error occured while saving pokedex entry"
  const MoveSaveError := "An error occured while saving move entry"

  /** Where a saved move sends the browser. The server writes "/move/input",
      a path no route serves. The move form's own path, "/move-input", is the
      evident intent: the Pokedex handler sends the browser back to its form. */
  const MoveSavedRedirectAsWritten := "/move/input"
  const MoveSavedRedirect := "/move-input"

  // ---------------------------------------------------------------------
  // Read endpoints

  /** GET /pokemon/api: `Pokedex.find()`. */
  function GetPokemonApi(pokedex: seq<Pokemon>, backend: Backend): Response {
    if backend == Reachable then Json(200, PokemonList(pokedex))
    else Json(500, ErrorObject(PokedexFetchError))
  }

  /** GET /moves/api: `Moves.find()`. */
  function GetMovesApi(moves: seq<Move>, backend: Backend): Response {
    if backend == Reachable then Json(200, MoveList(moves))
    else Json(500, ErrorObject(MovesFetchError))
  }

  /** GET /pokemon/:name: `Pokedex.findOne({name})`; `null` when absent. */
  function GetPokemonByName(pokedex: seq<Pokemon>, name: string, backend: Backend): Response {
    if backend == Reachable then Json(200, PokemonOrNull(FindOne(pokedex, (p: Pokemon) => p.name == Some(name))))
    else Json(500, ErrorObject(PokedexFetchError))
  }

  /** GET /poke/:PokedexId: `Pokedex.findOne({PokedexId})`. Mongoose casts the
      path segment to a number first; a cast error rejects the query. */
  function GetPokeById(pokedex: seq<Pokemon>, id: string, cast: string -> Option<Number>, backend: Backend): Response {
    match cast(id)
    case Some(n) =>
      if backend == Reachable then Json(200, PokemonOrNull(FindOne(pokedex, (p: Pokemon) => p.pokedexId == Num(n))))
      else Json(500, ErrorObject(PokedexFetchError))
    case None => Json(500, ErrorObject(PokedexFetchError))
  }

  /** The move name that GET /moves/:name looks up: `name.replace(/-/g, ' ')`. */
  function MoveLookupName(segment: string): string {
    ReplaceAll(segment, '-', ' ')
  }

  /** GET /moves/:name: `Moves.findOne({name})` after the hyphen rewrite. The
      failure message is the Pokedex one, as in the server. */
  function GetMoveByName(moves: seq<Move>, segment: string, backend: Backend): Response {
    if backend == Reachable then Json(200, MoveOrNull(FindOne(moves, (m: Move) => m.name == Some(MoveLookupName(segment)))))
    else Json(500, ErrorObject(PokedexFetchError))
  }

  // ---------------------------------------------------------------------
  // The session gate

  /** GET /pokemon-input and GET /move-input: the form page for a logged-in
      session, otherwise a redirect to the login page. */
  function GetForm(authenticated: bool, file: string): Response {
    if authenticated then SendFile(file) else Redirect("/login")
  }

  /** POST /login: the response and the session flag afterwards. A failed
      attempt leaves the flag as it was. */
  function PostLogin(authenticated: bool, body: Body, secrets: Secrets): (Response, bool) {
    if Authenticated(secrets, Field(body, "username"), Field(body, "password")) then (Redirect("/"), true)
    else (Redirect("/login"), authenticated)
  }

  // ---------------------------------------------------------------------
  // Write endpoints. Neither takes the session: they never consult it.

  /** `field ? field.split(" ") : []` for the three list-valued form fields. */
  function ListField(field: Option<string>): (items: seq<string>)
    ensures items == [] <==> field == None || field == Some("")
    ensures field.Some? && field.value != "" ==> Join(items, ' ') == field.value
    ensures forall i :: 0 <= i < |items| ==> ' ' !in items[i]
  {
    if field.Some? && field.value != "" then
      JoinSplit(field.value, ' ');
      Split(field.value, ' ')
    else []
  }

  /** `new Pokedex({...})` as POST /pokemon-input builds it. */
  function BuildPokemon(body: Body, moveset: seq<MoveEntry>, numbers: NumberParsers): Pokemon {
    var cast := numbers.mongooseCast;
    Pokemon(
      name := Field(body, "name"),
      pokedexId := CastNumberPath(Field(body, "PokedexId"), cast),
      weight := CastNumberPath(Field(body, "weight"), cast),
      height := CastNumberPath(Field(body, "height"), cast),
      hp := CastNumberPath(Field(body, "hp"), cast),
      attack := CastNumberPath(Field(body, "attack"), cast),
      defense := CastNumberPath(Field(body, "defense"), cast),
      speed := CastNumberPath(Field(body, "speed"), cast),
      specialAttack := CastNumberPath(Field(body, "specialAttack"), cast),
      specialDefense := CastNumberPath(Field(body, "specialDefense"), cast),
      catchRate := CastNumberPath(Field(body, "catchRate"), cast),
      description := Field(body, "description"),
      elementalType := ListField(Field(body, "elementalType")),
      strength := ListField(Field(body, "strength")),
      weakness := ListField(Field(body, "weakness")),
      mainPicture := Field(body, "mainPicture"),
      moveset := moveset,
      evolutionChain := [])
  }

  /** POST /pokemon-input: the response and the Pokedex collection afterwards.
      `createMoveset` calls `split` on both fields, so a missing one throws. */
  function PostPokemonInput(pokedex: seq<Pokemon>, body: Body, numbers: NumberParsers, backend: Backend)
    : (Response, seq<Pokemon>)
  {
    if "moveName" !in body || "levelLearned" !in body then (UncaughtError, pokedex)
    else match MovesetOf(body["moveName"], body["levelLearned"], numbers.jsNumber)
      case None => (Text(400, MovesetLengthError), pokedex)
      case Some(moveset) =>
        var p := BuildPokemon(body, moveset, numbers);
        if PokemonValid(p) && backend == Reachable then (Redirect("/pokemon-input"), pokedex + [p])
        else (Text(500, PokedexSaveError), pokedex)
  }

  /** `new Moves({...})` as POST /move-input builds it. */
  function BuildMove(body: Body, numbers: NumberParsers): Move {
    var cast := numbers.mongooseCast;
    Move(
      name := Field(body, "name"),
      moveType := Field(body, "type"),
      power := CastNumberPath(Field(body, "power"), cast),
      powerPoints := CastNumberPath(Field(body, "powerPoints"), cast),
      accuracy := CastNumberPath(Field(body, "accuracy"), cast),
      category := Field(body, "category"))
  }

  /** POST /move-input: the response and the Moves collection afterwards.
      `target` is where a saved move sends the browser. */
  function PostMoveInput(moves: seq<Move>, body: Body, numbers: NumberParsers, backend: Backend, target: string)
    : (Response, seq<Move>)
  {
    var m := BuildMove(body, numbers);
    if MoveValid(m) && backend == Reachable then (Redirect(target), moves + [m])
    else (Text(500, MoveSaveError), moves)
  }

  /** A form field that was sent and is not empty. */
  predicate Filled(body: Body, key: string) {
    key in body && body[key] != ""
  }

  /** A filled form field that Mongoose casts to a number. */
  predicate Castable(body: Body, key: string, cast: string -> Option<Number>) {
    Filled(body, key) && cast(body[key]).Some?
  }

  /** An optional number field: left out, left empty, or castable. */
  predicate OptionalCastable(body: Body, key: string, cast: string -> Option<Number>) {
    !Filled(body, key) || cast(body[key]).Some?
  }

  /** The move form passes the `Moves` schema exactly when its three text
      fields are filled in and its three number fields hold numbers. */
  lemma MoveFormAccepted(body: Body, numbers: NumberParsers)
    ensures MoveValid(BuildMove(body, numbers)) <==>
      && Filled(body, "name") && Filled(body, "type") && Filled(body, "category")
      && Castable(body, "power", numbers.mongooseCast)
      && Castable(body, "powerPoints", numbers.mongooseCast)
      && Castable(body, "accuracy", numbers.mongooseCast)
  {
    var cast := numbers.mongooseCast;
    CastFieldValidation(Field(body, "power"), cast);
    CastFieldValidation(Field(body, "powerPoints"), cast);
    CastFieldValidation(Field(body, "accuracy"), cast);
  }

  /** The Pokedex form passes the `Pokedex` schema exactly when its three
      required text fields are filled in, its three required number fields
      hold numbers, each of its seven optional number fields is left blank or
      holds a number, and no move name is empty. The list fields and the empty
      evolution chain never reject it. */
  lemma PokemonFormAccepted(body: Body, moveset: seq<MoveEntry>, numbers: NumberParsers)
    ensures PokemonValid(BuildPokemon(body, moveset, numbers)) <==>
      && Filled(body, "name") && Filled(body, "description") && Filled(body, "mainPicture")
      && Castable(body, "PokedexId", numbers.mongooseCast)
      && Castable(body, "weight", numbers.mongooseCast)
      && Castable(body, "height", numbers.mongooseCast)
      && OptionalCastable(body, "hp", numbers.mongooseCast)
      && OptionalCastable(body, "attack", numbers.mongooseCast)
      && OptionalCastable(body, "defense", numbers.mongooseCast)
      && OptionalCastable(body, "speed", numbers.mongooseCast)
      && OptionalCastable(body, "specialAttack", numbers.mongooseCast)
      && OptionalCastable(body, "specialDefense", numbers.mongooseCast)
      && OptionalCastable(body, "catchRate", numbers.mongooseCast)
      && (forall i :: 0 <= i < |moveset| ==> moveset[i].moveName != "")
  {
    var cast := numbers.mongooseCast;
    var p := BuildPokemon(body, moveset, numbers);
    assert RequiredNumber(p.pokedexId) <==> Castable(body, "PokedexId", cast) by {
      CastFieldValidation(Field(body, "PokedexId"), cast);
    }
    assert RequiredNumber(p.weight) <==> Castable(body, "weight", cast) by {
      CastFieldValidation(Field(body, "weight"), cast);
    }
    assert RequiredNumber(p.height) <==> Castable(body, "height", cast) by {
      CastFieldValidation(Field(body, "height"), cast);
    }
    assert OptionalNumber(p.hp) <==> OptionalCastable(body, "hp", cast) by {
      CastFieldValidation(Field(body, "hp"), cast);
    }
    assert OptionalNumber(p.attack) <==> OptionalCastable(body, "attack", cast) by {
      CastFieldValidation(Field(body, "attack"), cast);
    }
    assert OptionalNumber(p.defense) <==> OptionalCastable(body, "defense", cast) by {
      CastFieldValidation(Field(body, "defense"), cast);
    }
    assert OptionalNumber(p.speed) <==> OptionalCastable(body, "speed", cast) by {
      CastFieldValidation(Field(body, "speed"), cast);
    }
    assert OptionalNumber(p.specialAttack) <==> OptionalCastable(body, "specialAttack", cast) by {
      CastFieldValidation(Field(body, "specialAttack"), cast);
    }
    assert OptionalNumber(p.specialDefense) <==> OptionalCastable(body, "specialDefense", cast) by {
      CastFieldValidation(Field(body, "specialDefense"), cast);
    }
    assert OptionalNumber(p.catchRate) <==> OptionalCastable(body, "catchRate", cast) by {
      CastFieldValidation(Field(body, "catchRate"), cast);
    }
  }

  // ---------------------------------------------------------------------
  // Dispatch

  /** One request, handled atomically, as the server handles it. */
  function Handle(st: State, req: Request, env: Env, backend: Backend): (Response, State) {
    HandleWith(st, req, env, backend, MoveSavedRedirectAsWritten)
  }

  /** One request, with a saved move sent back to the move form. */
  function HandleCorrected(st: State, req: Request, env: Env, backend: Backend): (Response, State) {
    HandleWith(st, req, env, backend, MoveSavedRedirect)
  }

  /** The dispatch shared by both: `moveTarget` is where a saved move sends
      the browser. */
  function HandleWith(st: State, req: Request, env: Env, backend: Backend, moveTarget: string): (Response, State) {
    match req.endpoint
    case ListPokemon => (GetPokemonApi(st.pokedex, backend), st)
    case ListMoves => (GetMovesApi(st.moves, backend), st)
    case PokemonByName(name) => (GetPokemonByName(st.pokedex, name, backend), st)
    case PokemonById(id) => (GetPokeById(st.pokedex, id, env.numbers.mongooseCast, backend), st)
    case MoveByName(name) => (GetMoveByName(st.moves, name, backend), st)
    case Home => (SendFile("index.html"), st)
    case LoginPage => (SendFile("login.html"), st)
    case PokemonForm => (GetForm(st.authenticated, "input.html"), st)
    case MoveForm => (GetForm(st.authenticated, "moveset.html"), st)
    case SubmitPokemon =>
      var (res, pokedex) := PostPokemonInput(st.pokedex, req.body, env.numbers, backend);
      (res, st.(pokedex := pokedex))
    case SubmitMove =>
      var (res, moves) := PostMoveInput(st.moves, req.body, env.numbers, backend, moveTarget);
      (res, st.(moves := moves))
    case SubmitLogin =>
      var (res, authenticated) := PostLogin(st.authenticated, req.body, env.secrets);
      (res, st.(authenticated := authenticated))
  }

  /** A sequence of requests from one client, each with the store's answer. */
  function Run(st: State, reqs: seq<(Request, Backend)>, env: Env): State
    decreases |reqs|
  {
    if reqs == [] then st
    else Run(Handle(st, reqs[0].0, env, reqs[0].1).1, reqs[1..], env)
  }

  // ---------------------------------------------------------------------
  // Properties of the handlers

  /** The form pages are served exactly to logged-in sessions; everyone else
      is sent to /login. Nothing changes either way. */
  lemma FormGate(st: State, req: Request, env: Env, backend: Backend)
    requires req.endpoint == PokemonForm || req.endpoint == MoveForm
    ensures Handle(st, req, env, backend).1 == st
    ensures Handle(st, req, env, backend).0.SendFile? <==> st.authenticated
    ensures !st.authenticated ==> Handle(st, req, env, backend).0 == Redirect("/login")
  {
  }

  /** POST /login: good credentials set the flag and redirect to /; bad ones
      change nothing and redirect to /login, with no error shown. */
  lemma LoginOutcome(st: State, body: Body, env: Env, backend: Backend)
    ensures var (res, st') := Handle(st, Request(SubmitLogin, body), env, backend);
      if Authenticated(env.secrets, Field(body, "username"), Field(body, "password"))
      then res == Redirect("/") && st' == st.(authenticated := true)
      else res == Redirect("/login") && st' == st
  {
  }

  /** No request ever clears the session flag: there is no logout. */
  lemma FlagNeverCleared(st: State, req: Request, env: Env, backend: Backend)
    requires st.authenticated
    ensures Handle(st, req, env, backend).1.authenticated
  {
  }

  /** Only a successful POST /login sets the flag. */
  lemma OnlyLoginSetsFlag(st: State, req: Request, env: Env, backend: Backend)
    requires !st.authenticated && Handle(st, req, env, backend).1.authenticated
    ensures req.endpoint == SubmitLogin
    ensures Authenticated(env.secrets, Field(req.body, "username"), Field(req.body, "password"))
  {
  }

  /** The submission endpoints do not read the session: a logged-out client
      gets the same response and the same catalog as a logged-in one. */
  lemma SubmissionIgnoresSession(st: State, req: Request, env: Env, backend: Backend)
    requires req.endpoint == SubmitPokemon || req.endpoint == SubmitMove
    ensures var (r1, s1) := Handle(st.(authenticated := false), req, env, backend);
            var (r2, s2) := Handle(st.(authenticated := true), req, env, backend);
            r1 == r2 && s1.pokedex == s2.pokedex && s1.moves == s2.moves
    ensures Handle(st, req, env, backend).1.authenticated == st.authenticated
  {
  }

  /** The gap made concrete: a client that never logged in can still add a
      move, provided the form is complete and the store is up. */
  lemma LoggedOutClientCanInsert(st: State, body: Body, env: Env)
    requires !st.authenticated
    requires MoveValid(BuildMove(body, env.numbers))
    ensures Handle(st, Request(SubmitMove, body), env, Reachable).1.moves
         == st.moves + [BuildMove(body, env.numbers)]
  {
  }

  /** Mismatched moveset inputs: status 400 and no insert. */
  lemma MismatchRejected(st: State, body: Body, env: Env, backend: Backend)
    requires "moveName" in body && "levelLearned" in body
    requires Count(body["moveName"], ',') != Count(body["levelLearned"], ',')
    ensures Handle(st, Request(SubmitPokemon, body), env, backend) == (Text(400, MovesetLengthError), st)
  {
    MovesetNullIff(body["moveName"], body["levelLearned"], env.numbers.jsNumber);
  }

  /** A missing `moveName` or `levelLearned` makes `createMoveset` throw:
      status 500 from Express and no insert. */
  lemma MissingMovesetFieldThrows(st: State, body: Body, env: Env, backend: Backend)
    requires "moveName" !in body || "levelLearned" !in body
    ensures Handle(st, Request(SubmitPokemon, body), env, backend) == (UncaughtError, st)
  {
  }

  /** What POST /pokemon-input stores when it stores something: one new
      document at the end, with the moveset built from the two fields, the
      three list fields split on spaces (empty when the field is missing or
      empty) and an empty evolution chain; the client is sent back to the form. */
  lemma StoredPokemonShape(st: State, body: Body, env: Env, backend: Backend)
    requires var st' := Handle(st, Request(SubmitPokemon, body), env, backend).1; st'.pokedex != st.pokedex
    ensures var (res, st') := Handle(st, Request(SubmitPokemon, body), env, backend);
      && res == Redirect("/pokemon-input")
      && |st'.pokedex| == |st.pokedex| + 1
      && st'.pokedex[..|st.pokedex|] == st.pokedex
      && var p := st'.pokedex[|st.pokedex|];
      && PokemonValid(p)
      && p.evolutionChain == []
      && p.elementalType == ListField(Field(body, "elementalType"))
      && p.strength == ListField(Field(body, "strength"))
      && p.weakness == ListField(Field(body, "weakness"))
      && "moveName" in body && "levelLearned" in body
      && MovesetOf(body["moveName"], body["levelLearned"], env.numbers.jsNumber) == Some(p.moveset)
      && |p.moveset| == Count(body["moveName"], ',') + 1
      && p.name == Field(body, "name")
      && p == BuildPokemon(body, p.moveset, env.numbers)
  {
    var moveset := MovesetOf(body["moveName"], body["levelLearned"], env.numbers.jsNumber);
    MovesetSize(body["moveName"], body["levelLearned"], env.numbers.jsNumber);
    var p := BuildPokemon(body, moveset.value, env.numbers);
    assert (st.pokedex + [p])[..|st.pokedex|] == st.pokedex;
  }

  /** When POST /pokemon-input stores: with both moveset fields present and of
      equal length, the document built from the form is appended and the
      client sent back to the form exactly when it passes the schema and the
      store is up; otherwise the answer is a 500 and nothing changes. */
  lemma SavedPokemonOutcome(st: State, body: Body, env: Env, backend: Backend)
    requires "moveName" in body && "levelLearned" in body
    requires MovesetOf(body["moveName"], body["levelLearned"], env.numbers.jsNumber).Some?
    ensures var p := BuildPokemon(body, MovesetOf(body["moveName"], body["levelLearned"], env.numbers.jsNumber).value, env.numbers);
      if PokemonValid(p) && backend == Reachable
      then Handle(st, Request(SubmitPokemon, body), env, backend) == (Redirect("/pokemon-input"), st.(pokedex := st.pokedex + [p]))
      else Handle(st, Request(SubmitPokemon, body), env, backend) == (Text(500, PokedexSaveError), st)
  {
  }

  /** A Pokedex form without a description, a main picture or a name is never
      stored, whatever else it holds. */
  lemma MissingRequiredTextNotStored(st: State, body: Body, env: Env, backend: Backend)
    requires !Filled(body, "description") || !Filled(body, "mainPicture") || !Filled(body, "name")
    ensures Handle(st, Request(SubmitPokemon, body), env, backend).1 == st
  {
  }

  /** Every request leaves both collections as they were or appends one
      document to one of them, and stored documents stay schema-valid. */
  lemma AppendOnly(st: State, req: Request, env: Env, backend: Backend)
    requires StoredValid(st.pokedex, st.moves)
    ensures var st' := Handle(st, req, env, backend).1;
      && StoredValid(st'.pokedex, st'.moves)
      && st.pokedex <= st'.pokedex && |st'.pokedex| <= |st.pokedex| + 1
      && st.moves <= st'.moves && |st'.moves| <= |st.moves| + 1
      && (st'.pokedex != st.pokedex ==> req.endpoint == SubmitPokemon)
      && (st'.moves != st.moves ==> req.endpoint == SubmitMove)
  {
  }

  /** The handlers redirect to four places only: the home page and the login
      page after a login attempt, the login page from the form gate, the
      Pokedex form after a saved entry, and the move submission's target after
      a saved move. */
  lemma RedirectTargets(st: State, req: Request, env: Env, backend: Backend, moveTarget: string)
    requires HandleWith(st, req, env, backend, moveTarget).0.Redirect?
    ensures var loc := HandleWith(st, req, env, backend, moveTarget).0.location;
      || (loc == "/" && req.endpoint == SubmitLogin)
      || (loc == "/login" && (req.endpoint == SubmitLogin || req.endpoint == PokemonForm || req.endpoint == MoveForm))
      || (loc == "/pokemon-input" && req.endpoint == SubmitPokemon)
      || (loc == moveTarget && req.endpoint == SubmitMove)
  {
  }

  /** As the server is written, a saved move sends the browser to
      "/move/input"; a move that is not saved (an invalid form or a store
      that does not answer) gets a 500 and no redirect. */
  lemma SavedMoveRedirect(st: State, body: Body, env: Env, backend: Backend)
    ensures var (res, st') := Handle(st, Request(SubmitMove, body), env, backend);
      && (res.Redirect? <==> MoveValid(BuildMove(body, env.numbers)) && backend == Reachable)
      && (res.Redirect? <==> st'.moves != st.moves)
      && (res.Redirect? ==> res.location == MoveSavedRedirectAsWritten)
      && (!res.Redirect? ==> res == Text(500, MoveSaveError))
  {
  }

  /** GET /moves/:name answers with the first move named like the segment with
      its hyphens turned into spaces, and with `null` (status 200, not 404)
      when there is none. A stored move whose name contains a hyphen can never
      be returned. */
  lemma MoveLookup(moves: seq<Move>, segment: string)
    ensures GetMoveByName(moves, segment, Reachable).status == 200
    ensures var found := GetMoveByName(moves, segment, Reachable).json.move;
      && (found.None? <==> forall i :: 0 <= i < |moves| ==> moves[i].name != Some(MoveLookupName(segment)))
      && (found.Some? ==> found.value in moves && found.value.name == Some(MoveLookupName(segment)))
      && (found.Some? ==> exists i :: (0 <= i < |moves| && found.value == moves[i]
            && forall j :: 0 <= j < i ==> moves[j].name != Some(MoveLookupName(segment))))
      && (found.Some? ==> '-' !in found.value.name.value)
    ensures '-' !in segment ==> MoveLookupName(segment) == segment
  {
    ReplaceAllRemoves(segment, '-', ' ');
    if '-' !in segment {
      ReplaceAllAbsent(segment, '-', ' ');
    }
  }

  /** GET /pokemon/:name answers `null`, not an error, for a name nobody has. */
  lemma UnknownPokemonIsNull(pokedex: seq<Pokemon>, name: string)
    requires forall i :: 0 <= i < |pokedex| ==> pokedex[i].name != Some(name)
    ensures GetPokemonByName(pokedex, name, Reachable) == Json(200, PokemonOrNull(None))
  {
  }

  /** GET /poke/:PokedexId: a segment Mongoose cannot cast to a number is a
      query error (500), even with the store up; otherwise the answer is the
      first entry with that number, or `null`. */
  lemma PokeByIdLookup(pokedex: seq<Pokemon>, id: string, cast: string -> Option<Number>)
    ensures cast(id).None? ==> GetPokeById(pokedex, id, cast, Reachable) == Json(500, ErrorObject(PokedexFetchError))
    ensures cast(id).Some? ==>
      var res := GetPokeById(pokedex, id, cast, Reachable);
      && res.Json? && res.status == 200 && res.json.PokemonOrNull?
      && (res.json.pokemon.None? <==> forall i :: 0 <= i < |pokedex| ==> pokedex[i].pokedexId != Num(cast(id).value))
      && (res.json.pokemon.Some? ==> res.json.pokemon.value in pokedex && res.json.pokemon.value.pokedexId == Num(cast(id).value))
      && (res.json.pokemon.Some? ==> exists i :: (0 <= i < |pokedex| && res.json.pokemon.value == pokedex[i]
            && forall j :: 0 <= j < i ==> pokedex[j].pokedexId != Num(cast(id).value)))
  {
  }

  /** GET /pokemon/api and GET /moves/api answer with the whole collection, in
      stored order, and change nothing. */
  lemma ListEndpoints(st: State, env: Env, body: Body)
    ensures Handle(st, Request(ListPokemon, body), env, Reachable) == (Json(200, PokemonList(st.pokedex)), st)
    ensures Handle(st, Request(ListMoves, body), env, Reachable) == (Json(200, MoveList(st.moves)), st)
  {
  }

  /** An unreachable store turns every read into a 500 with a JSON error and
      every submission into an error without an insert: a move submission is a
      500; a Pokedex submission fails as it would anyway when a moveset field
      is missing (thrown) or the two lists differ (400), and is a 500
      otherwise. Login and the pages do not touch the store. */
  lemma StoreDown(st: State, req: Request, env: Env)
    ensures var (res, st') := Handle(st, req, env, Unreachable);
      && st'.pokedex == st.pokedex && st'.moves == st.moves
      && (req.endpoint.IsQuery() ==> res.Json? && res.status == 500)
      && (req.endpoint == SubmitMove ==> res == Text(500, MoveSaveError))
      && (req.endpoint == SubmitPokemon ==>
            res == (if "moveName" !in req.body || "levelLearned" !in req.body then UncaughtError
                    else if Count(req.body["moveName"], ',') != Count(req.body["levelLearned"], ',')
                    then Text(400, MovesetLengthError)
                    else Text(500, PokedexSaveError)))
  {
    if req.endpoint == SubmitPokemon && "moveName" in req.body && "levelLearned" in req.body {
      MovesetNullIff(req.body["moveName"], req.body["levelLearned"], env.numbers.jsNumber);
    }
  }

  // ---------------------------------------------------------------------
  // Properties of request sequences

  /** Once logged in, a session stays logged in, whatever follows. */
  lemma {:induction false} RunKeepsLogin(st: State, reqs: seq<(Request, Backend)>, env: Env)
    requires st.authenticated
    ensures Run(st, reqs, env).authenticated
    decreases |reqs|
  {
    if reqs != [] {
      FlagNeverCleared(st, reqs[0].0, env, reqs[0].1);
      RunKeepsLogin(Handle(st, reqs[0].0, env, reqs[0].1).1, reqs[1..], env);
    }
  }

  /** A session that sends no successful login stays logged out. */
  lemma {:induction false} RunWithoutLoginStaysOut(st: State, reqs: seq<(Request, Backend)>, env: Env)
    requires !st.authenticated
    requires forall i :: 0 <= i < |reqs| ==>
      !(reqs[i].0.endpoint == SubmitLogin
        && Authenticated(env.secrets, Field(reqs[i].0.body, "username"), Field(reqs[i].0.body, "password")))
    ensures !Run(st, reqs, env).authenticated
    decreases |reqs|
  {
    if reqs != [] {
      var st' := Handle(st, reqs[0].0, env, reqs[0].1).1;
      if st'.authenticated {
        OnlyLoginSetsFlag(st, reqs[0].0, env, reqs[0].1);
      }
      RunWithoutLoginStaysOut(st', reqs[1..], env);
    }
  }

  /** Over any sequence of requests the collections only grow, at the end, and
      hold only schema-valid documents. */
  lemma {:induction false} RunAppendOnly(st: State, reqs: seq<(Request, Backend)>, env: Env)
    requires StoredValid(st.pokedex, st.moves)
    ensures var st' := Run(st, reqs, env);
      StoredValid(st'.pokedex, st'.moves) && st.pokedex <= st'.pokedex && st.moves <= st'.moves
    decreases |reqs|
  {
    if reqs != [] {
      var next := Handle(st, reqs[0].0, env, reqs[0].1).1;
      AppendOnly(st, reqs[0].0, env, reqs[0].1);
      RunAppendOnly(next, reqs[1..], env);
    }
  }

  /** The login scenario: a fresh session asking for the Pokedex form is sent
      to /login; after a login with the configured credentials, the same
      session gets the form. */
  lemma LoginThenForm(st: State, login: Body, env: Env, b1: Backend, b2: Backend, b3: Backend)
    requires !st.authenticated
    requires Authenticated(env.secrets, Field(login, "username"), Field(login, "password"))
    ensures Handle(st, Request(PokemonForm, map[]), env, b1).0 == Redirect("/login")
    ensures var st1 := Handle(st, Request(PokemonForm, map[]), env, b1).1;
            var st2 := Handle(st1, Request(SubmitLogin, login), env, b2).1;
            Handle(st2, Request(PokemonForm, map[]), env, b3).0 == SendFile("input.html")
  {
  }

  // ---------------------------------------------------------------------
  // The handlers as the server runs them, on the shared objects

  /** POST /pokemon-input. */
  method HandlePokemonInput(catalog: Catalog, body: Body, numbers: NumberParsers, backend: Backend)
    returns (res: Response)
    requires catalog.Valid()
    modifies catalog
    ensures catalog.Valid()
    ensures (res, catalog.pokedex) == PostPokemonInput(old(catalog.pokedex), body, numbers, backend)
    ensures catalog.moves == old(catalog.moves)
  {
    if "moveName" !in body || "levelLearned" !in body {
      return UncaughtError;
    }
    var moveset := CreateMoveset(body["moveName"], body["levelLearned"], numbers.jsNumber);
    if moveset == None {
      return Text(400, MovesetLengthError);
    }
    var newPokedex := BuildPokemon(body, moveset.value, numbers);
    var saved := catalog.SavePokemon(newPokedex, backend);
    if saved {
      res := Redirect("/pokemon-input");
    } else {
      res := Text(500, PokedexSaveError);
    }
  }

  /** POST /move-input. */
  method HandleMoveInput(catalog: Catalog, body: Body, numbers: NumberParsers, backend: Backend)
    returns (res: Response)
    requires catalog.Valid()
    modifies catalog
    ensures catalog.Valid()
    ensures (res, catalog.moves) == PostMoveInput(old(catalog.moves), body, numbers, backend, MoveSavedRedirectAsWritten)
    ensures catalog.pokedex == old(catalog.pokedex)
  {
    var newMove := BuildMove(body, numbers);
    var saved := catalog.SaveMove(newMove, backend);
    if saved {
      res := Redirect(MoveSavedRedirectAsWritten);
    } else {
      res := Text(500, MoveSaveError);
    }
  }

  /** POST /login. */
  method HandleLogin(session: Session, body: Body, secrets: Secrets) returns (res: Response)
    modifies session
    ensures (res, session.authenticated) == PostLogin(old(session.authenticated), body, secrets)
  {
    if Authenticated(secrets, Field(body, "username"), Field(body, "password")) {
      session.MarkAuthenticated();
      res := Redirect("/");
    } else {
      res := Redirect("/login");
    }
  }

  /** One request against the shared catalog and the client's session. */
  method Serve(catalog: Catalog, session: Session, req: Request, env: Env, backend: Backend)
    returns (res: Response)
    requires catalog.Valid()
    modifies catalog, session
    ensures catalog.Valid()
    ensures (res, State(catalog.pokedex, catalog.moves, session.authenticated))
         == Handle(old(State(catalog.pokedex, catalog.moves, session.authenticated)), req, env, backend)
  {
    match req.endpoint
    case ListPokemon => res := GetPokemonApi(catalog.pokedex, backend);
    case ListMoves => res := GetMovesApi(catalog.moves, backend);
    case PokemonByName(name) => res := GetPokemonByName(catalog.pokedex, name, backend);
    case PokemonById(id) => res := GetPokeById(catalog.pokedex, id, env.numbers.mongooseCast, backend);
    case MoveByName(name) => res := GetMoveByName(catalog.moves, name, backend);
    case Home => res := SendFile("index.html");
    case LoginPage => res := SendFile("login.html");
    case PokemonForm => res := GetForm(session.authenticated, "input.html");
    case MoveForm => res := GetForm(session.authenticated, "moveset.html");
    case SubmitPokemon => res := HandlePokemonInput(catalog, req.body, env.numbers, backend);
    case SubmitMove => res := HandleMoveInput(catalog, req.body, env.numbers, backend);
    case SubmitLogin => res := HandleLogin(session, req.body, env.secrets);
  }
}

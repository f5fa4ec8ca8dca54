# Pokemon-API server: a Dafny model

The server (`server.js`) keeps two MongoDB collections, `Pokedex` and
`Moves`. It offers JSON read endpoints over them, two HTML forms that add
documents, and a login that unlocks those forms for a session. This project
models the server's decision logic:

- **The moveset builder** `createMoveset`. It splits a comma-separated list of
  move names and a list of levels, trims the pieces and pairs them by
  position. It returns `null` when the lists differ in length
  (`movesets.dfy`). The builder is a loop method, `CreateMoveset`. It is proved
  equal to the specification function `MovesetOf`, and the lemmas are stated
  about `MovesetOf`. The JavaScript `split`, `trim` and `replace` it relies on
  are in `js_string.dfy`.
- **The two schemas** and what their `required` flags demand when a document
  is saved (`schema.dfy`).
- **The collections.** They are append-only sequences held by a `Catalog`
  object. `findOne` returns the first match (`catalog.dfy`).
- **The login gate.** It is the credential comparison plus a per-session flag
  (`auth.dfy`). The flag is set only by a successful login and is read only
  by the two form pages. The submission endpoints never consult it, and the
  model keeps that gap.
- **The route handlers** (`api.dfy`). Each is a function from the state
  (both collections and the session flag) and the request to the response
  and the new state. `Handle` dispatches them as the server is written, and
  `Run` applies a sequence of requests. `HandleCorrected` is the same
  dispatch with the one defect listed under Findings repaired. The methods
  `HandlePokemonInput`, `HandleMoveInput`, `HandleLogin` and `Serve` carry
  the handlers out on the `Catalog` and `Session` objects. Each is proved to
  agree with its function, as the server is written.
- **The route table** (`router.dfy`): which method and path reach which
  handler, in declaration order.

Numbers are an abstract type. JavaScript's `Number()` and Mongoose's cast of
a form string are parameters of the model, and nothing depends on
floating-point values. The login secrets (`process.env.login_username` and
`process.env.login_password`) are parameters too. Whether the database
answers is an input to each request, as `Backend`.

## Model

| member | source | states |
|---|---|---|
| JsString.Count | server.js:167 | The number of separators is at most the length, and zero exactly when the separator does not occur. |
| JsString.Split | server.js:167 | `split` with a one-character separator gives one more piece than there are separators (so the empty string gives one piece), and no piece contains the separator. |
| JsString.JoinSplit | server.js:167 | Joining the pieces of a split with the separator restores the string. |
| JsString.SplitCons | server.js:167 | A separator-free prefix followed by the separator becomes the first piece. |
| JsString.SplitNoSeparator | server.js:167 | A string without the separator splits into itself alone. |
| JsString.SplitJoin | server.js:167 | Splitting a join of separator-free pieces gives back exactly those pieces. |
| JsString.TrimStart | server.js:167 | Only whitespace is dropped, from the front, and the result does not start with whitespace. |
| JsString.TrimEnd | server.js:167 | Only whitespace is dropped, from the back, and the result does not end with whitespace. |
| JsString.TrimStartIsSuffix | server.js:167 | Dropping leading whitespace leaves a suffix of the input. |
| JsString.TrimEndIsPrefix | server.js:167 | Dropping trailing whitespace leaves a prefix of the input. |
| JsString.Trim | server.js:167 | `trim` is `trimEnd` of `trimStart`; what it removes and keeps is stated by `TrimStrips`, `TrimKeepsInner` and `TrimIdempotent`. |
| JsString.TrimStrips | server.js:167 | `trim` never lengthens its input, and its result neither starts nor ends with whitespace. |
| JsString.TrimOfTrimmed | server.js:167 | A string that neither starts nor ends with whitespace is unchanged by `trim`. |
| JsString.TrimIdempotent | server.js:167 | Trimming twice equals trimming once. |
| JsString.TrimStartSkips | server.js:167 | Any amount of leading whitespace has no effect on `trimStart`. |
| JsString.TrimEndSkips | server.js:167 | Any amount of trailing whitespace has no effect on `trimEnd`. |
| JsString.TrimKeepsInner | server.js:167 | `trim` removes exactly the surrounding whitespace and keeps the inner text, inner spaces included. |
| JsString.ReplaceAll | server.js:244 | `replace(/-/g, ' ')` keeps the length, and every character is the replacement where the input had the pattern and unchanged elsewhere. |
| JsString.ReplaceAllRemoves | server.js:244 | After the rewrite no hyphen remains. |
| JsString.ReplaceAllAbsent | server.js:244 | A segment without hyphens is looked up as it is. |
| Schema.CastNumberPath | server.js:290-301 | What a `Number` path holds after Mongoose casts a form field: unset for an absent or empty field, the number, or a cast error; what validation makes of it is stated by `CastFieldValidation`. |
| Schema.CastFieldValidation | server.js:37-76 | A required number path accepts exactly a non-empty field that casts, and then holds the cast value; an optional one rejects only a non-empty field that does not cast. |
| Schema.RequiredString | server.js:33-36 | A required `String` path rejects an absent value and the empty string. |
| Schema.RequiredNumber | server.js:37-48 | A required `Number` path accepts only a cast number; its meaning for a form field is stated by `CastFieldValidation`. |
| Schema.OptionalNumber | server.js:49-76 | An optional `Number` path accepts anything but a cast error; its meaning for a form field is stated by `CastFieldValidation`. |
| Schema.MoveEntryValid | server.js:97-108 | A moveset entry needs a non-empty move name; its level is always a number. Stated for a form by `Api.PokemonFormAccepted`. |
| Schema.EvolutionLinkValid | server.js:109-116 | An evolution link requires nothing, but a level that fails to cast is rejected. |
| Schema.PokemonValid | server.js:32-117 | The `Pokedex` schema's validation; what it demands of a submitted form is stated by `Api.PokemonFormAccepted`. |
| Schema.MoveValid | server.js:121-146 | The `Moves` schema's validation; what it demands of a submitted form is stated by `Api.MoveFormAccepted`. |
| Movesets.NameArray | server.js:167 | There is one trimmed name per comma-separated piece. |
| Movesets.LevelArray | server.js:168-170 | There is one converted level per comma-separated piece. |
| Movesets.MovesetOf | server.js:165-186 | The builder's result as a value; its properties are stated by `CreateMoveset`, `MovesetNullIff`, `MovesetSize`, `MovesetEntry` and `MovesetRoundTrip`. |
| Movesets.CreateMoveset | server.js:165-186 | The loop that pushes one `{levelLearned, moveName}` per position returns exactly `MovesetOf`: `null` on a length mismatch, otherwise the positional pairs in order. |
| Movesets.MovesetNullIff | server.js:167-185 | The builder returns `null` if and only if the two inputs contain different numbers of commas. |
| Movesets.MovesetSize | server.js:167-181 | A built moveset has one entry per comma-separated name, so it is never empty. |
| Movesets.MovesetEntry | server.js:167-179 | Entry `i` is the converted `i`-th trimmed level paired with the `i`-th trimmed name. |
| Movesets.NameArrayOfJoin | server.js:167 | The names of a comma-join of comma-free pieces are those pieces, trimmed, in order. |
| Movesets.LevelArrayOfJoin | server.js:168-170 | The levels of a comma-join of comma-free pieces are those pieces, trimmed and converted, in order. |
| Movesets.MovesetRoundTrip | server.js:165-181 | Joining equal-length lists of already-trimmed, comma-free names and levels with commas gives back exactly those pairs, in order. |
| Movesets.TrimAfterSpace | server.js:167 | The space after a `", "` separator is trimmed away. |
| Movesets.TwoMoves | server.js:165-181 | `"a, b"` with `"la, lb"` gives the two entries `(la, a)` and `(lb, b)`, in that order. |
| Movesets.TwoNamesOneLevel | server.js:165-185 | Two names with one level give `null`. |
| Catalog.FirstMatch | server.js:217 | Returns the least index whose element matches, or none when no element matches. |
| Catalog.FindOne | server.js:217-219 | `findOne` answers `null` exactly when no stored document matches, and otherwise a stored document that matches. |
| Catalog.FindOneIsFirst | server.js:217 | If document `i` matches, `findOne` finds a document at position `i` or earlier. |
| Catalog.FirstMatchPrefix | server.js:217 | Appending documents keeps a match found among the earlier ones. |
| Catalog.FindOneStable | server.js:217 | Saving a document never changes what an existing `findOne` hit returns. |
| Catalog.Catalog.constructor | server.js:119-148 | The in-memory store starts with both collections empty, so every stored document is schema-valid. |
| Catalog.Catalog.SavePokemon | server.js:312-321 | A save succeeds exactly when the document passes the `Pokedex` schema and the store is up. Success appends at the end; failure changes nothing. The `Moves` collection is untouched. |
| Catalog.Catalog.SaveMove | server.js:334-343 | The same for the `Moves` schema and collection. |
| Auth.Authenticated | server.js:152-160 | Strict equality of both fields with the configured secrets; its consequences are stated by `ConfiguredSecretsNeedBothFields`, `UnsetSecretsAdmitEmptyLogin`, `Api.LoginOutcome` and `Api.OnlyLoginSetsFlag`. |
| Auth.ConfiguredSecretsNeedBothFields | server.js:152-160 | With both secrets set, success requires both fields present and equal to them. |
| Auth.UnsetSecretsAdmitEmptyLogin | server.js:153-156 | With neither secret set, a form sent without both fields is accepted, while a username without a password is not. |
| Auth.Session.constructor | server.js:16-22 | A new session is not logged in. |
| Auth.Session.MarkAuthenticated | server.js:352 | Sets the session flag. |
| Api.Field | server.js:291-308 | `req.body[key]`: `undefined` when the field was not sent. |
| Api.ListField | server.js:303-307 | A list field is `[]` exactly when the field is absent or empty. Otherwise it is the space-split pieces, which contain no space and join back to the field. |
| Api.GetPokemonApi | server.js:189-200 | GET /pokemon/api; stated by `ListEndpoints` and `StoreDown`. |
| Api.GetMovesApi | server.js:202-213 | GET /moves/api; stated by `ListEndpoints` and `StoreDown`. |
| Api.GetPokemonByName | server.js:216-227 | GET /pokemon/:name; stated by `UnknownPokemonIsNull` and `StoreDown`, with the first-match rule of `Catalog.FindOne`. |
| Api.GetPokeById | server.js:229-240 | GET /poke/:PokedexId; stated by `PokeByIdLookup` and `StoreDown`. |
| Api.MoveLookupName | server.js:244 | The hyphen rewrite of the segment; stated by `MoveLookup`. |
| Api.GetMoveByName | server.js:243-254 | GET /moves/:name; stated by `MoveLookup` and `StoreDown`. |
| Api.GetForm | server.js:265-279 | The two form pages behind the session flag; stated by `FormGate`. |
| Api.PostLogin | server.js:347-358 | POST /login; stated by `LoginOutcome` and carried out by `HandleLogin`. |
| Api.BuildPokemon | server.js:290-311 | The document POST /pokemon-input assembles; stated by `StoredPokemonShape` and `PokemonFormAccepted`. |
| Api.PostPokemonInput | server.js:282-322 | POST /pokemon-input; stated by `MismatchRejected`, `MissingMovesetFieldThrows`, `SavedPokemonOutcome`, `StoredPokemonShape` and carried out by `HandlePokemonInput`. |
| Api.BuildMove | server.js:326-333 | The document POST /move-input assembles; stated by `MoveFormAccepted`. |
| Api.PostMoveInput | server.js:325-344 | POST /move-input, with the redirect target of a saved move as a parameter; stated by `SavedMoveRedirect`, `LoggedOutClientCanInsert` and carried out by `HandleMoveInput`. |
| Api.MoveFormAccepted | server.js:121-146 | A move form is saved-valid exactly when its three text fields are filled in and its three number fields hold numbers. |
| Api.PokemonFormAccepted | server.js:32-117 | A Pokedex form is saved-valid exactly when its three required text fields are filled in, its three required number fields hold numbers, its seven optional number fields are blank or hold numbers, and no move name is empty; the list fields and the evolution chain never reject it. |
| Api.Handle | server.js:189-358 | One request as the server handles it, a saved move redirecting to `/move/input`; stated by the lemmas below. |
| Api.HandleWith | server.js:189-358 | The dispatch on the endpoint, with the move redirect target as a parameter. |
| Api.HandleCorrected | server.js:325-344 | The dispatch with a saved move redirecting to its own form, `/move-input`; stated by `Router.RedirectsAreRouted`. |
| Api.Run | server.js:189-358 | A sequence of requests from one client; stated by `RunKeepsLogin`, `RunWithoutLoginStaysOut` and `RunAppendOnly`. |
| Api.FormGate | server.js:265-279 | The two form pages are served if and only if the session is logged in; otherwise they redirect to `/login`. Nothing changes. |
| Api.LoginOutcome | server.js:347-358 | Correct credentials set the flag and redirect to `/`. Wrong ones redirect to `/login` and change nothing. |
| Api.FlagNeverCleared | server.js:189-358 | No request clears the session flag. |
| Api.OnlyLoginSetsFlag | server.js:347-358 | The flag goes from false to true only on a POST /login with correct credentials. |
| Api.SubmissionIgnoresSession | server.js:282-344 | Both submission endpoints give the same response and the same collections whether or not the session is logged in. |
| Api.LoggedOutClientCanInsert | server.js:325-344 | A client that never logged in adds a valid move. |
| Api.MismatchRejected | server.js:283-288 | Moveset inputs with different comma counts give status 400 with the server's message, and nothing is inserted. |
| Api.MissingMovesetFieldThrows | server.js:283 | A missing `moveName` or `levelLearned` makes the handler throw, and nothing is inserted. |
| Api.StoredPokemonShape | server.js:282-322 | The stored entry is appended at the end and is schema-valid. It is exactly the document built from the form: its `evolutionChain` is empty, its three list fields are the space-split inputs (or `[]`), its moveset is the builder's result, one entry per name, and every other field is the form's field, cast where the schema says `Number`. The client is redirected to the form. |
| Api.SavedPokemonOutcome | server.js:312-321 | With both moveset fields present and of equal length, the form's document is appended and the client sent back to the form exactly when it passes the schema and the store is up; otherwise the answer is a 500 with the server's message and nothing changes. |
| Api.MissingRequiredTextNotStored | server.js:290-321 | A form without a name, a description or a main picture is never stored. |
| Api.AppendOnly | server.js:282-344 | Every request keeps or extends each collection by at most one document, appended by the matching submission endpoint, and keeps every stored document schema-valid. |
| Api.MoveLookup | server.js:243-254 | GET /moves/:name answers 200 with the first move, in stored order, named like the segment with hyphens turned into spaces, or `null` when there is none. A move whose name contains a hyphen is never returned. |
| Api.UnknownPokemonIsNull | server.js:216-227 | An unknown name gives status 200 with `null`, not 404. |
| Api.PokeByIdLookup | server.js:229-240 | A number segment that fails to cast gives 500. Otherwise the answer is the first entry, in stored order, with that number, or `null` when there is none. |
| Api.ListEndpoints | server.js:189-213 | The two list endpoints answer with the whole collection in stored order and change nothing. |
| Api.RedirectTargets | server.js:265-358 | The only redirects are to `/` and `/login` (from login), to `/login` (from the form gate), to `/pokemon-input` from the Pokedex submission, and to the move submission's target from the move submission. |
| Api.SavedMoveRedirect | server.js:334-343 | As written, a move submission redirects exactly when the form is valid and the store is up, exactly when a move is added, and then to `/move/input`; otherwise it answers 500 with the server's message. |
| Api.StoreDown | server.js:189-344 | With the store unreachable, every query answers 500 and no collection changes. A move submission answers 500 with the server's message; a Pokedex submission throws when a moveset field is missing, answers 400 when the lists differ in length, and otherwise answers 500 with the server's message. |
| Api.RunKeepsLogin | server.js:347-358 | Once logged in, a session stays logged in over any sequence of requests. |
| Api.RunWithoutLoginStaysOut | server.js:347-358 | A session that sends no successful login stays logged out. |
| Api.RunAppendOnly | server.js:282-344 | Over any sequence of requests the collections only grow at the end and hold only schema-valid documents. |
| Api.LoginThenForm | server.js:265-358 | A logged-out session is sent to `/login`; after a correct login the same session gets the form. |
| Api.HandlePokemonInput | server.js:282-322 | The handler run on the catalog object gives the response and Pokedex of `PostPokemonInput`, and leaves `Moves` unchanged. |
| Api.HandleMoveInput | server.js:325-344 | The handler run on the catalog object gives the response and `Moves` of `PostMoveInput` with the target as written, `/move/input`, and leaves `Pokedex` unchanged. |
| Api.HandleLogin | server.js:347-358 | The handler run on the session object gives the response and flag of `PostLogin`. |
| Api.Serve | server.js:189-358 | One request against the shared objects produces exactly the response and state of `Handle`, as the server is written, and keeps the catalog schema-valid. |
| Router.TopLevelRoutes | server.js:257-358 | The one-segment paths reach the home page, the login page and the two forms by GET, and the three submissions by POST. |
| Router.Route | server.js:189-358 | The endpoint a method and a path reach, comparing the path's `/`-separated segments; stated by the path lemmas below. |
| Router.RouteSegments | server.js:189-358 | The route table in declaration order, on a path already split into segments; stated by `TopLevelRoutes`, `UnknownCollection` and `LookupRoutes`. |
| Router.UnknownCollection | server.js:189-254 | A two-segment path whose first segment is not `pokemon`, `moves` or `poke` matches no route. |
| Router.LookupRoutes | server.js:189-254 | `/moves/api` and `/pokemon/api` reach the list endpoints because those routes are declared first. Every other segment reaches the lookup by name, and `/poke/<segment>` always reaches the lookup by number. |
| Router.MoveRedirectAsWrittenUnrouted | server.js:338 | The path the move submission redirects to as written, `/move/input`, matches no route. |
| Router.SavedMoveRedirectUnrouted | server.js:338 | As written, a valid move saved with the store up redirects to a path that no route serves. |
| Router.HomePath | server.js:257-259 | GET `/` reaches the home page. |
| Router.PokemonInputPath | server.js:265-322 | GET and POST on `/pokemon-input` reach the form and the submission. |
| Router.MoveInputPath | server.js:273-344 | GET and POST on `/move-input` reach the form and the submission. |
| Router.LoginPath | server.js:261-358 | GET and POST on `/login` reach the login page and the login handler. |
| Router.RedirectsAreRouted | server.js:265-358 | With the move redirect corrected (`Api.HandleCorrected`), every redirect any handler issues leads to a page served by GET. |

## Left out

- HTTP plumbing is not modelled: body-parser, CORS, static CSS, the contents of the HTML files that `sendFile` sends, and `app.listen`. A sent page is named by its file only.
- The MongoDB connection and `dotenv` are not modelled. The credentials are parameters (`Auth.Secrets`), and the database is the in-memory `Catalog`.
- Number conversion is not modelled: JavaScript `Number()` and Mongoose's cast to `Number` are abstract parameters (`NumberParsers`), with no floating point. A `NaN` level therefore counts as a number: Mongoose's rejection of `NaN` is not modelled.
- JSON request bodies and the nested objects or arrays that the extended urlencoded parser can produce are not modelled. Every field is a string, or absent.
- Express's case-insensitive matching, trailing-slash tolerance and percent-decoding of path segments are not modelled. `Router.Route` matches segments exactly.
- Promises and interleaving between requests are not modelled. Each request is one atomic step.
- `console.log` output is not modelled.
- Session cookies, the session secret and session expiry are not modelled. One session is one flag.
- Mongoose's `_id`, `__v` and timestamps are not modelled. The model assumes that `find` and `findOne` see documents in insertion order; MongoDB leaves the order of an unsorted query unspecified, so which of several matching documents `findOne` returns is an assumption of the model, not a guarantee of the server.
- The model starts from empty collections (`Catalog.Catalog.constructor`), so every stored document passed the schema. The server binds to existing collections, which may already hold documents that do not; the lemmas that carry schema validity along (`Api.AppendOnly`, `Api.RunAppendOnly`) take it as a precondition.
- The body of Express's default error page for an uncaught exception is not modelled. It is the response `UncaughtError` (status 500).

## Findings

| source | as written | input that shows it | evidently intended | confidence | as-written member | corrected member |
|---|---|---|---|---|---|---|
| server.js:338 | After a move is saved, the browser is redirected to `/move/input`. No route serves that path, so the user lands on a 404 page. | POST /move-input with a complete, valid move form and the store up | A redirect back to the move form, `/move-input`, as the Pokedex handler does with `/pokemon-input` | medium, not executed | Router.SavedMoveRedirectUnrouted | Router.RedirectsAreRouted |

`Api.Handle`, `Api.HandleMoveInput` and `Api.Serve` model the server as written and redirect to `Api.MoveSavedRedirectAsWritten`. `Api.HandleCorrected` is the same dispatch with the corrected target, `Api.MoveSavedRedirect`.

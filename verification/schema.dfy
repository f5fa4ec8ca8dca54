/** The two Mongoose schemas, `Pokedex` and `Moves`, and what their
    `required` flags demand of a document when it is saved. */
module Schema {
  import opened Wrappers

  /** A JavaScript number. No arithmetic is done on it anywhere in the server,
      so it is kept abstract; only equality is used (by `findOne`). */
  type Number(==)

  /** The two ways a form string becomes a number: JavaScript's `Number()`,
      called by the moveset builder, and Mongoose's cast of a value written
      to a `Number` path (`None` when Mongoose reports a cast error). */
  datatype NumberParsers = NumberParsers(
    jsNumber: string -> Number,
    mongooseCast: string -> Option<Number>)

  /** What a `Number` path of a document holds once the submitted form field
      has been cast: nothing (the field was absent, or `""`, which Mongoose
      casts to `null`), a number, or a cast error reported at validation. */
  datatype NumberPath = Unset | Num(n: Number) | CastError(raw: string)

  function CastNumberPath(field: Option<string>, cast: string -> Option<Number>): NumberPath
  {
    match field
    case None => Unset
    case Some(v) =>
      if v == "" then Unset
      else match cast(v)
        case Some(n) => Num(n)
        case None => CastError(v)
  }

  /** A `String` path with `required: true`: Mongoose rejects a missing value
      and the empty string. */
  predicate RequiredString(v: Option<string>) {
    v.Some? && v.value != ""
  }

  /** A `Number` path with `required: true`. */
  predicate RequiredNumber(p: NumberPath) {
    p.Num?
  }

  /** A `Number` path with `required: false`: absent is fine, a cast error is not. */
  predicate OptionalNumber(p: NumberPath) {
    !p.CastError?
  }

  /** What validation makes of a cast form field: a required number path
      accepts exactly a non-empty field that casts, holding the cast value; an
      optional one accepts an absent or empty field too, and rejects only a
      non-empty field that does not cast. */
  lemma CastFieldValidation(field: Option<string>, cast: string -> Option<Number>)
    ensures RequiredNumber(CastNumberPath(field, cast))
        <==> field.Some? && field.value != "" && cast(field.value).Some?
    ensures RequiredNumber(CastNumberPath(field, cast))
        ==> cast(field.value) == Some(CastNumberPath(field, cast).n)
    ensures OptionalNumber(CastNumberPath(field, cast))
        <==> field == None || field == Some("") || cast(field.value).Some?
  {
  }

  /** One element of a Pokedex entry's `moveset`. `levelLearned` is already a
      number: the moveset builder applies `Number()` itself. */
  datatype MoveEntry = MoveEntry(levelLearned: Number, moveName: string)

  /** One element of `evolutionChain`: `{pokemon: {name, levelEvolved}}`. */
  datatype EvolutionLink = EvolutionLink(name: Option<string>, levelEvolved: NumberPath)

  /** A document of the `Pokedex` collection. */
  datatype Pokemon = Pokemon(
    name: Option<string>,
    pokedexId: NumberPath,
    weight: NumberPath,
    height: NumberPath,
    hp: NumberPath,
    attack: NumberPath,
    defense: NumberPath,
    speed: NumberPath,
    specialAttack: NumberPath,
    specialDefense: NumberPath,
    catchRate: NumberPath,
    description: Option<string>,
    elementalType: seq<string>,
    strength: seq<string>,
    weakness: seq<string>,
    mainPicture: Option<string>,
    moveset: seq<MoveEntry>,
    evolutionChain: seq<EvolutionLink>)

  /** A document of the `Moves` collection. */
  datatype Move = Move(
    name: Option<string>,
    moveType: Option<string>,
    power: NumberPath,
    powerPoints: NumberPath,
    accuracy: NumberPath,
    category: Option<string>)

  /** `moveName` is a required string; `levelLearned` always holds a number. */
  predicate MoveEntryValid(e: MoveEntry) {
    e.moveName != ""
  }

  /** Neither path of an evolution link is required. */
  predicate EvolutionLinkValid(l: EvolutionLink) {
    OptionalNumber(l.levelEvolved)
  }

  /** The `Pokedex` schema's validation. The three `[String]` paths are
      required, but an array (even an empty one) satisfies Mongoose's required
      check, so they impose nothing. */
  predicate PokemonValid(p: Pokemon) {
    && RequiredString(p.name)
    && RequiredNumber(p.pokedexId)
    && RequiredNumber(p.weight)
    && RequiredNumber(p.height)
    && OptionalNumber(p.hp)
    && OptionalNumber(p.attack)
    && OptionalNumber(p.defense)
    && OptionalNumber(p.speed)
    && OptionalNumber(p.specialAttack)
    && OptionalNumber(p.specialDefense)
    && OptionalNumber(p.catchRate)
    && RequiredString(p.description)
    && RequiredString(p.mainPicture)
    && (forall i :: 0 <= i < |p.moveset| ==> MoveEntryValid(p.moveset[i]))
    && (forall i :: 0 <= i < |p.evolutionChain| ==> EvolutionLinkValid(p.evolutionChain[i]))
  }

  /** The `Moves` schema's validation: every path is required. */
  predicate MoveValid(m: Move) {
    && RequiredString(m.name)
    && RequiredString(m.moveType)
    && RequiredNumber(m.power)
    && RequiredNumber(m.powerPoints)
    && RequiredNumber(m.accuracy)
    && RequiredString(m.category)
  }
}

/** The two Mongoose collections, `Pokedex` and `Moves`, held in memory as
    append-only sequences in insertion order. */
module Catalog {
  import opened Wrappers
  import opened Schema

  /** Whether the database answers. An unreachable store makes every query
      and every save fail; the model takes it as an input of each request. */
  datatype Backend = Reachable | Unreachable

  /** Index of the first element that `matches`, if there is one. */
  function FirstMatch<T>(s: seq<T>, matches: T -> bool): (i: Option<nat>)
    ensures i.Some? ==> i.value < |s| && matches(s[i.value])
    ensures i.Some? ==> forall j :: 0 <= j < i.value ==> !matches(s[j])
    ensures i.None? ==> forall j :: 0 <= j < |s| ==> !matches(s[j])
  {
    if s == [] then None
    else if matches(s[0]) then Some(0)
    else match FirstMatch(s[1..], matches)
      case None => None
      case Some(k) => Some(k + 1)
  }

  /** `Model.findOne(filter)`: the first stored document that the filter
      accepts, or `null`. */
  function FindOne<T>(s: seq<T>, matches: T -> bool): (r: Option<T>)
    ensures r.None? <==> forall j :: 0 <= j < |s| ==> !matches(s[j])
    ensures r.Some? ==> r.value in s && matches(r.value)
  {
    match FirstMatch(s, matches)
    case None => None
    case Some(i) => Some(s[i])
  }

  /** `findOne` picks the earliest match: no document stored before the one it
      returns is accepted by the filter. */
  lemma FindOneIsFirst<T>(s: seq<T>, matches: T -> bool, i: nat)
    requires i < |s| && matches(s[i])
    ensures FindOne(s, matches).Some?
    ensures exists k :: 0 <= k <= i && FindOne(s, matches).value == s[k]
  {
    var k := FirstMatch(s, matches).value;
    assert k <= i;
    assert FindOne(s, matches).value == s[k];
  }

  /** Appending a document never changes what `findOne` found before, unless
      nothing matched before. */
  lemma FindOneStable<T>(s: seq<T>, x: T, matches: T -> bool)
    requires FindOne(s, matches).Some?
    ensures FindOne(s + [x], matches) == FindOne(s, matches)
  {
    var i := FirstMatch(s, matches).value;
    assert (s + [x])[i] == s[i];
    assert FirstMatch(s + [x], matches) == Some(i) by {
      FirstMatchPrefix(s, [x], matches);
    }
  }

  /** Extending a sequence keeps a match found in its prefix. */
  lemma {:induction false} FirstMatchPrefix<T>(s: seq<T>, t: seq<T>, matches: T -> bool)
    requires FirstMatch(s, matches).Some?
    ensures FirstMatch(s + t, matches) == FirstMatch(s, matches)
  {
    if !matches(s[0]) {
      assert (s + t)[1..] == s[1..] + t;
      FirstMatchPrefix(s[1..], t, matches);
    }
  }

  /** Every stored document passed its schema's validation when it was saved. */
  predicate StoredValid(pokedex: seq<Pokemon>, moves: seq<Move>) {
    && (forall i :: 0 <= i < |pokedex| ==> PokemonValid(pokedex[i]))
    && (forall i :: 0 <= i < |moves| ==> MoveValid(moves[i]))
  }

  /** The database: both collections, each in insertion order. */
  class Catalog {
    var pokedex: seq<Pokemon>
    var moves: seq<Move>

    ghost predicate Valid()
      reads this
    {
      StoredValid(pokedex, moves)
    }

    constructor ()
      ensures Valid()
      ensures pokedex == [] && moves == []
    {
      pokedex := [];
      moves := [];
    }

    /** `new Pokedex(doc).save()`: validates against the schema, then appends;
        a validation error or an unreachable store leaves the collection as it was. */
    method SavePokemon(p: Pokemon, backend: Backend) returns (saved: bool)
      requires Valid()
      modifies this
      ensures Valid()
      ensures saved <==> PokemonValid(p) && backend == Reachable
      ensures pokedex == if saved then old(pokedex) + [p] else old(pokedex)
      ensures moves == old(moves)
    {
      saved := PokemonValid(p) && backend == Reachable;
      if saved {
        pokedex := pokedex + [p];
      }
    }

    /** `new Moves(doc).save()`. */
    method SaveMove(m: Move, backend: Backend) returns (saved: bool)
      requires Valid()
      modifies this
      ensures Valid()
      ensures saved <==> MoveValid(m) && backend == Reachable
      ensures moves == if saved then old(moves) + [m] else old(moves)
      ensures pokedex == old(pokedex)
    {
      saved := MoveValid(m) && backend == Reachable;
      if saved {
        moves := moves + [m];
      }
    }
  }
}

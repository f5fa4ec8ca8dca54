/** `createMoveset`: pairs a comma-separated list of move names with a
    comma-separated list of levels into the `moveset` of a Pokedex entry. */
module Movesets {
  import opened Wrappers
  import opened JsString
  import opened Schema

  /** `moveNameInput.split(",").map(name => name.trim())` */
  function NameArray(moveNameInput: string): (names: seq<string>)
    ensures |names| == |Split(moveNameInput, ',')|
  {
    var pieces := Split(moveNameInput, ',');
    seq(|pieces|, i requires 0 <= i < |pieces| => Trim(pieces[i]))
  }

  /** `levelLearnedInput.split(",").map(level => Number(level.trim()))` */
  function LevelArray(levelLearnedInput: string, jsNumber: string -> Number): (levels: seq<Number>)
    ensures |levels| == |Split(levelLearnedInput, ',')|
  {
    var pieces := Split(levelLearnedInput, ',');
    seq(|pieces|, i requires 0 <= i < |pieces| => jsNumber(Trim(pieces[i])))
  }

  /** What `createMoveset` returns: `None` for `null` when the two lists
      differ in length, otherwise the lists paired position by position. */
  function MovesetOf(moveNameInput: string, levelLearnedInput: string, jsNumber: string -> Number)
    : Option<seq<MoveEntry>>
  {
    var names := NameArray(moveNameInput);
    var levels := LevelArray(levelLearnedInput, jsNumber);
    if |names| == |levels| then
      Some(seq(|names|, i requires 0 <= i < |names| => MoveEntry(levels[i], names[i])))
    else
      None
  }

  /** `createMoveset` as the server runs it: split and trim both inputs, then
      push one entry per position onto an array that starts empty. */
  method CreateMoveset(moveNameInput: string, levelLearnedInput: string, jsNumber: string -> Number)
    returns (moveset: Option<seq<MoveEntry>>)
    ensures moveset == MovesetOf(moveNameInput, levelLearnedInput, jsNumber)
  {
    var entries: seq<MoveEntry> := [];
    var nameArray := NameArray(moveNameInput);
    var levelArray := LevelArray(levelLearnedInput, jsNumber);
    if |nameArray| == |levelArray| {
      var dataLength := |nameArray|;
      var i := 0;
      while i < dataLength
        invariant 0 <= i <= dataLength
        invariant |entries| == i
        invariant forall k :: 0 <= k < i ==> entries[k] == MoveEntry(levelArray[k], nameArray[k])
      {
        var move := MoveEntry(levelArray[i], nameArray[i]);
        entries := entries + [move];
        i := i + 1;
      }
      assert entries == seq(|nameArray|, k requires 0 <= k < |nameArray| => MoveEntry(levelArray[k], nameArray[k]));
      return Some(entries);
    } else {
      return None;
    }
  }

  /** The builder fails exactly when the two inputs hold different numbers of
      commas, that is, split into lists of different lengths. */
  lemma MovesetNullIff(moveNameInput: string, levelLearnedInput: string, jsNumber: string -> Number)
    ensures MovesetOf(moveNameInput, levelLearnedInput, jsNumber).None?
        <==> Count(moveNameInput, ',') != Count(levelLearnedInput, ',')
  {
  }

  /** On success there is one entry per comma-separated name, so never zero:
      even the empty input splits into one (empty) piece. */
  lemma MovesetSize(moveNameInput: string, levelLearnedInput: string, jsNumber: string -> Number)
    requires MovesetOf(moveNameInput, levelLearnedInput, jsNumber).Some?
    ensures |MovesetOf(moveNameInput, levelLearnedInput, jsNumber).value|
         == Count(moveNameInput, ',') + 1
         == Count(levelLearnedInput, ',') + 1
    ensures MovesetOf(moveNameInput, levelLearnedInput, jsNumber).value != []
  {
  }

  /** Entry `i` pairs the `i`-th level piece with the `i`-th name piece, each
      trimmed, the level converted by `Number()`. */
  lemma MovesetEntry(moveNameInput: string, levelLearnedInput: string, jsNumber: string -> Number, i: nat)
    requires MovesetOf(moveNameInput, levelLearnedInput, jsNumber).Some?
    requires i < |Split(moveNameInput, ',')|
    ensures i < |Split(levelLearnedInput, ',')|
    ensures i < |MovesetOf(moveNameInput, levelLearnedInput, jsNumber).value|
    ensures MovesetOf(moveNameInput, levelLearnedInput, jsNumber).value[i]
         == MoveEntry(jsNumber(Trim(Split(levelLearnedInput, ',')[i])), Trim(Split(moveNameInput, ',')[i]))
  {
  }

  /** Whether an input piece survives splitting on commas and trimming as it is. */
  predicate IsListItem(s: string) {
    ',' !in s && Trim(s) == s
  }

  /** The name list of comma-joined, comma-free pieces is those pieces, trimmed. */
  lemma NameArrayOfJoin(pieces: seq<string>)
    requires |pieces| >= 1
    requires forall i :: 0 <= i < |pieces| ==> ',' !in pieces[i]
    ensures |NameArray(Join(pieces, ','))| == |pieces|
    ensures forall i :: 0 <= i < |pieces| ==> NameArray(Join(pieces, ','))[i] == Trim(pieces[i])
  {
    SplitJoin(pieces, ',');
  }

  /** The level list of comma-joined, comma-free pieces is those pieces, trimmed
      and converted. */
  lemma LevelArrayOfJoin(pieces: seq<string>, jsNumber: string -> Number)
    requires |pieces| >= 1
    requires forall i :: 0 <= i < |pieces| ==> ',' !in pieces[i]
    ensures |LevelArray(Join(pieces, ','), jsNumber)| == |pieces|
    ensures forall i :: 0 <= i < |pieces| ==> LevelArray(Join(pieces, ','), jsNumber)[i] == jsNumber(Trim(pieces[i]))
  {
    SplitJoin(pieces, ',');
  }

  /** Round trip: writing a list of move names and a list of level texts of the
      same length into the two form fields, comma-separated, gives back the
      pairs in order. */
  lemma MovesetRoundTrip(names: seq<string>, levels: seq<string>, jsNumber: string -> Number)
    requires |names| == |levels| >= 1
    requires forall i :: 0 <= i < |names| ==> IsListItem(names[i])
    requires forall i :: 0 <= i < |levels| ==> IsListItem(levels[i])
    ensures MovesetOf(Join(names, ','), Join(levels, ','), jsNumber).Some?
    ensures |MovesetOf(Join(names, ','), Join(levels, ','), jsNumber).value| == |names|
    ensures forall i :: 0 <= i < |names| ==>
      MovesetOf(Join(names, ','), Join(levels, ','), jsNumber).value[i] == MoveEntry(jsNumber(levels[i]), names[i])
  {
    NameArrayOfJoin(names);
    LevelArrayOfJoin(levels, jsNumber);
  }

  /** A piece that follows a comma-and-space separator loses its space. */
  lemma TrimAfterSpace(w: string)
    requires Trim(w) == w
    ensures Trim([' '] + w) == w
  {
    if w == [] {
      assert TrimStart([' ']) == [];
    } else {
      TrimStrips(w);
      TrimKeepsInner(" ", w, "");
      assert " " + w + "" == [' '] + w;
    }
  }

  /** The two-move form, written as people type it with `", "` between the
      items: `"tackle, growl"` with `"1, 3"` gives
      `[{levelLearned: 1, moveName: "tackle"}, {levelLearned: 3, moveName: "growl"}]`. */
  lemma TwoMoves(a: string, b: string, la: string, lb: string, jsNumber: string -> Number)
    requires IsListItem(a) && IsListItem(b) && IsListItem(la) && IsListItem(lb)
    ensures MovesetOf(a + ", " + b, la + ", " + lb, jsNumber)
         == Some([MoveEntry(jsNumber(la), a), MoveEntry(jsNumber(lb), b)])
  {
    var names, levels := [a, [' '] + b], [la, [' '] + lb];
    assert Join(names, ',') == a + ", " + b;
    assert Join(levels, ',') == la + ", " + lb;
    NameArrayOfJoin(names);
    LevelArrayOfJoin(levels, jsNumber);
    TrimAfterSpace(b);
    TrimAfterSpace(lb);
    var m := MovesetOf(a + ", " + b, la + ", " + lb, jsNumber);
    assert m.value == [MoveEntry(jsNumber(la), a), MoveEntry(jsNumber(lb), b)];
  }

  /** Two names with one level: `"tackle, growl"` with `"1"` is rejected. */
  lemma TwoNamesOneLevel(a: string, b: string, la: string, jsNumber: string -> Number)
    requires ',' !in a && ',' !in b && ',' !in la
    ensures MovesetOf(a + ", " + b, la, jsNumber) == None
  {
    var names := [a, [' '] + b];
    assert Join(names, ',') == a + ", " + b;
    SplitJoin(names, ',');
    SplitNoSeparator(la, ',');
  }
}

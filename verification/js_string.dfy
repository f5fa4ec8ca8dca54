/** The three JavaScript string operations the server relies on:
    `String.prototype.split` with a one-character separator,
    `String.prototype.trim`, and `replace` with a global one-character regex. */
module JsString {

  /** Number of occurrences of `c` in `s`. */
  function Count(s: string, c: char): (n: nat)
    ensures n <= |s|
    ensures n == 0 <==> c !in s
  {
    if s == [] then 0 else (if s[0] == c then 1 else 0) + Count(s[1..], c)
  }

  /** `s.split(sep)`: the pieces between separators, in order. As in JavaScript,
      the empty string splits into one empty piece, and adjacent separators
      produce empty pieces. */
  function Split(s: string, sep: char): (pieces: seq<string>)
    ensures |pieces| == Count(s, sep) + 1
    ensures forall i :: 0 <= i < |pieces| ==> sep !in pieces[i]
  {
    if s == [] then [""]
    else
      var rest := Split(s[1..], sep);
      if s[0] == sep then [""] + rest
      else [[s[0]] + rest[0]] + rest[1..]
  }

  /** `pieces.join(sep)`; the inverse of `Split`. */
  function Join(pieces: seq<string>, sep: char): (s: string)
    requires |pieces| >= 1
  {
    if |pieces| == 1 then pieces[0] else pieces[0] + [sep] + Join(pieces[1..], sep)
  }

  /** Joining the pieces of a split gives back the string. */
  lemma {:induction false} JoinSplit(s: string, sep: char)
    ensures Join(Split(s, sep), sep) == s
  {
    if s != [] {
      JoinSplit(s[1..], sep);
      var rest := Split(s[1..], sep);
      if s[0] != sep && |rest| > 1 {
        assert rest == [rest[0]] + rest[1..];
        assert Join(rest, sep) == rest[0] + [sep] + Join(rest[1..], sep);
        assert s == [s[0]] + s[1..];
      } else if s[0] != sep {
        assert s == [s[0]] + s[1..];
      } else {
        assert s == [sep] + s[1..];
      }
    }
  }

  /** A piece without the separator, followed by the separator, becomes its own
      piece in front of the pieces of what follows. */
  lemma {:induction false} SplitCons(p: string, sep: char, t: string)
    requires sep !in p
    ensures Split(p + [sep] + t, sep) == [p] + Split(t, sep)
  {
    if p == [] {
      assert p + [sep] + t == [sep] + t;
    } else {
      var s := p + [sep] + t;
      assert s[0] == p[0] && s[0] != sep;
      assert s[1..] == p[1..] + [sep] + t;
      SplitCons(p[1..], sep, t);
      var rest := Split(s[1..], sep);
      assert rest == [p[1..]] + Split(t, sep);
      assert rest[0] == p[1..] && rest[1..] == Split(t, sep);
      assert Split(s, sep) == [[p[0]] + rest[0]] + rest[1..];
      assert [p[0]] + p[1..] == p;
    }
  }

  /** A string without the separator splits into itself. */
  lemma {:induction false} SplitNoSeparator(p: string, sep: char)
    requires sep !in p
    ensures Split(p, sep) == [p]
  {
    if p != [] {
      SplitNoSeparator(p[1..], sep);
      assert [p[0]] + p[1..] == p;
    }
  }

  /** Splitting a join of separator-free pieces gives back the pieces. */
  lemma {:induction false} SplitJoin(pieces: seq<string>, sep: char)
    requires |pieces| >= 1
    requires forall i :: 0 <= i < |pieces| ==> sep !in pieces[i]
    ensures Split(Join(pieces, sep), sep) == pieces
  {
    if |pieces| == 1 {
      SplitNoSeparator(pieces[0], sep);
    } else {
      SplitJoin(pieces[1..], sep);
      SplitCons(pieces[0], sep, Join(pieces[1..], sep));
      assert pieces == [pieces[0]] + pieces[1..];
    }
  }

  /** The characters `trim` removes: ECMAScript WhiteSpace and LineTerminator. */
  predicate IsWhitespace(c: char) {
    var n := c as int;
    n == 0x09 || n == 0x0A || n == 0x0B || n == 0x0C || n == 0x0D || n == 0x20
    || n == 0xA0 || n == 0x1680 || (0x2000 <= n <= 0x200A)
    || n == 0x2028 || n == 0x2029 || n == 0x202F || n == 0x205F
    || n == 0x3000 || n == 0xFEFF
  }

  /** `s.trimStart()`: the suffix of `s` left after dropping leading whitespace. */
  function TrimStart(s: string): (r: string)
    ensures |r| <= |s|
    ensures forall k :: 0 <= k < |s| - |r| ==> IsWhitespace(s[k])
    ensures r == [] || !IsWhitespace(r[0])
  {
    if s != [] && IsWhitespace(s[0]) then TrimStart(s[1..]) else s
  }

  /** `s.trimEnd()`: the prefix of `s` left after dropping trailing whitespace. */
  function TrimEnd(s: string): (r: string)
    ensures |r| <= |s|
    ensures forall k :: |r| <= k < |s| ==> IsWhitespace(s[k])
    ensures r == [] || !IsWhitespace(r[|r| - 1])
  {
    if s != [] && IsWhitespace(s[|s| - 1]) then TrimEnd(s[..|s| - 1]) else s
  }

  /** `trimStart` drops a prefix. */
  lemma {:induction false} TrimStartIsSuffix(s: string)
    ensures TrimStart(s) == s[|s| - |TrimStart(s)|..]
  {
    if s != [] && IsWhitespace(s[0]) {
      TrimStartIsSuffix(s[1..]);
    }
  }

  /** `trimEnd` drops a suffix. */
  lemma {:induction false} TrimEndIsPrefix(s: string)
    ensures TrimEnd(s) == s[..|TrimEnd(s)|]
  {
    if s != [] && IsWhitespace(s[|s| - 1]) {
      TrimEndIsPrefix(s[..|s| - 1]);
    }
  }

  /** `s.trim()`: `s` without leading and trailing whitespace. */
  function Trim(s: string): string
  {
    TrimEnd(TrimStart(s))
  }

  /** What `trim` leaves neither starts nor ends with whitespace, and is no
      longer than what it was given. */
  lemma TrimStrips(s: string)
    ensures |Trim(s)| <= |s|
    ensures Trim(s) == [] || (!IsWhitespace(Trim(s)[0]) && !IsWhitespace(Trim(s)[|Trim(s)| - 1]))
  {
    var a := TrimStart(s);
    var b := TrimEnd(a);
    TrimEndIsPrefix(a);
    if b != [] {
      assert b[0] == a[0];
    }
  }

  /** A string that neither starts nor ends with whitespace is its own trim. */
  lemma TrimOfTrimmed(s: string)
    requires s == [] || (!IsWhitespace(s[0]) && !IsWhitespace(s[|s| - 1]))
    ensures Trim(s) == s
  {
  }

  /** Trimming twice is trimming once. */
  lemma TrimIdempotent(s: string)
    ensures Trim(Trim(s)) == Trim(s)
  {
    TrimStrips(s);
    TrimOfTrimmed(Trim(s));
  }

  /** Leading whitespace does not change `trimStart`. */
  lemma {:induction false} TrimStartSkips(w: string, x: string)
    requires forall k :: 0 <= k < |w| ==> IsWhitespace(w[k])
    ensures TrimStart(w + x) == TrimStart(x)
  {
    if w == [] {
      assert w + x == x;
    } else {
      var s := w + x;
      assert s[1..] == w[1..] + x;
      calc {
        TrimStart(s);
      == { assert s[0] == w[0]; }
        TrimStart(s[1..]);
      == { TrimStartSkips(w[1..], x); }
        TrimStart(x);
      }
    }
  }

  /** Trailing whitespace does not change `trimEnd`. */
  lemma {:induction false} TrimEndSkips(x: string, w: string)
    requires forall k :: 0 <= k < |w| ==> IsWhitespace(w[k])
    ensures TrimEnd(x + w) == TrimEnd(x)
  {
    if w == [] {
      assert x + w == x;
    } else {
      TrimEndSkips(x, w[..|w| - 1]);
      var s := x + w;
      assert s[|s| - 1] == w[|w| - 1];
      assert s[..|s| - 1] == x + w[..|w| - 1];
      assert TrimEnd(s) == TrimEnd(s[..|s| - 1]);
    }
  }

  /** Trim removes exactly the surrounding whitespace and keeps the text in
      between, inner whitespace included. */
  lemma TrimKeepsInner(pre: string, mid: string, post: string)
    requires forall k :: 0 <= k < |pre| ==> IsWhitespace(pre[k])
    requires forall k :: 0 <= k < |post| ==> IsWhitespace(post[k])
    requires mid != [] && !IsWhitespace(mid[0]) && !IsWhitespace(mid[|mid| - 1])
    ensures Trim(pre + mid + post) == mid
  {
    TrimStartSkips(pre, mid + post);
    assert pre + mid + post == pre + (mid + post);
    assert TrimStart(mid + post) == mid + post;
    TrimEndSkips(mid, post);
  }

  /** `s.replace(/from/g, to)` for a one-character pattern: every occurrence of
      `from` becomes `to`, everything else is kept in place. */
  function ReplaceAll(s: string, from: char, to: char): (r: string)
    ensures |r| == |s|
    ensures forall k :: 0 <= k < |s| ==> r[k] == (if s[k] == from then to else s[k])
  {
    if s == [] then [] else [if s[0] == from then to else s[0]] + ReplaceAll(s[1..], from, to)
  }

  /** After replacing every `from` by a different character, none is left. */
  lemma ReplaceAllRemoves(s: string, from: char, to: char)
    requires from != to
    ensures from !in ReplaceAll(s, from, to)
  {
    var r := ReplaceAll(s, from, to);
    forall k | 0 <= k < |r| ensures r[k] != from {
    }
  }

  /** Replacing is the identity on strings that do not contain the pattern. */
  lemma ReplaceAllAbsent(s: string, from: char, to: char)
    requires from !in s
    ensures ReplaceAll(s, from, to) == s
  {
    var r := ReplaceAll(s, from, to);
    assert forall k :: 0 <= k < |s| ==> r[k] == s[k];
  }
}

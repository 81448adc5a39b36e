// Joining strings with a separator and splitting them again: the dotted keys of flattenMap, the ";" and
// newline pieces of splitStatements.

module Joining {

  predicate Free(pieces: seq<string>, sep: char) {
    forall i :: 0 <= i < |pieces| ==> sep !in pieces[i]
  }

  function Join(pieces: seq<string>, sep: char): string
    requires pieces != []
  {
    if |pieces| == 1 then pieces[0] else pieces[0] + [sep] + Join(pieces[1..], sep)
  }

  /** strings.Split with a one-character separator: there is always at least one piece. */
  function Split(s: string, sep: char): (pieces: seq<string>)
    ensures pieces != []
  {
    if s == "" then [""]
    else
      var rest := Split(s[1..], sep);
      if s[0] == sep then [""] + rest else [[s[0]] + rest[0]] + rest[1..]
  }

  function Count(s: string, c: char): nat {
    if s == "" then 0 else (if s[0] == c then 1 else 0) + Count(s[1..], c)
  }

  /** Splitting loses nothing, leaves no separator in a piece, and makes one piece more than there are
      separators. */
  lemma {:induction false} SplitThenJoin(s: string, sep: char)
    ensures Join(Split(s, sep), sep) == s
    ensures Free(Split(s, sep), sep)
    ensures |Split(s, sep)| == 1 + Count(s, sep)
  {
    if s != "" {
      SplitThenJoin(s[1..], sep);
      var rest := Split(s[1..], sep);
      assert s == [s[0]] + s[1..];
      if s[0] == sep {
        assert ([""] + rest)[1..] == rest;
      } else {
        assert ([[s[0]] + rest[0]] + rest[1..])[1..] == rest[1..];
        assert Join(Split(s, sep), sep) == [s[0]] + Join(rest, sep);
      }
    }
  }

  lemma {:induction false} SplitPrefix(piece: string, rest: string, sep: char)
    requires sep !in piece
    ensures Split(piece + [sep] + rest, sep) == [piece] + Split(rest, sep)
  {
    var s := piece + [sep] + rest;
    if piece == "" {
      assert s[1..] == rest;
    } else {
      assert s[1..] == piece[1..] + [sep] + rest;
      SplitPrefix(piece[1..], rest, sep);
      assert [s[0]] + piece[1..] == piece;
    }
  }

  lemma {:induction false} SplitSingle(piece: string, sep: char)
    requires sep !in piece
    ensures Split(piece, sep) == [piece]
  {
    if piece != "" {
      SplitSingle(piece[1..], sep);
      assert [piece[0]] + piece[1..] == piece;
    }
  }

  /** Joining pieces without the separator loses nothing. */
  lemma {:induction false} JoinThenSplit(pieces: seq<string>, sep: char)
    requires pieces != [] && Free(pieces, sep)
    ensures Split(Join(pieces, sep), sep) == pieces
  {
    if |pieces| == 1 {
      SplitSingle(pieces[0], sep);
    } else {
      JoinThenSplit(pieces[1..], sep);
      SplitPrefix(pieces[0], Join(pieces[1..], sep), sep);
    }
  }
}

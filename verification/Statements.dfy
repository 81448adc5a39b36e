// splitStatements and ApplySchema (internal/accounts/session.go; the same splitting in
// spikes/scylladb-accounts/internal/bench/setup.go): a CQL file becomes the statements to execute.

module Statements {
  import opened Faults
  import opened Joining
  import opened Selections

  // ----- Trimming and comments.

  /** unicode.IsSpace. */
  predicate IsSpace(c: char) {
    var n := c as int;
    9 <= n <= 13 || n == 32 || n == 0x85 || n == 0xA0 || n == 0x1680 || 0x2000 <= n <= 0x200A ||
    n == 0x2028 || n == 0x2029 || n == 0x202F || n == 0x205F || n == 0x3000
  }

  function TrimLeft(s: string): string {
    if s != "" && IsSpace(s[0]) then TrimLeft(s[1..]) else s
  }

  function TrimRight(s: string): string {
    if s != "" && IsSpace(s[|s| - 1]) then TrimRight(s[..|s| - 1]) else s
  }

  function TrimSpace(s: string): string {
    TrimRight(TrimLeft(s))
  }

  predicate IsComment(line: string) {
    "--" <= TrimSpace(line)
  }

  predicate AllSpace(s: string) {
    forall i :: 0 <= i < |s| ==> IsSpace(s[i])
  }

  lemma {:induction false} TrimLeftSplits(s: string) returns (lead: string)
    ensures s == lead + TrimLeft(s) && AllSpace(lead)
    ensures TrimLeft(s) == "" || !IsSpace(TrimLeft(s)[0])
  {
    if s != "" && IsSpace(s[0]) {
      lead := TrimLeftSplits(s[1..]);
      lead := [s[0]] + lead;
    } else {
      lead := "";
    }
  }

  lemma {:induction false} TrimRightSplits(s: string) returns (trail: string)
    ensures s == TrimRight(s) + trail && AllSpace(trail)
    ensures TrimRight(s) == "" || !IsSpace(TrimRight(s)[|TrimRight(s)| - 1])
  {
    if s != "" && IsSpace(s[|s| - 1]) {
      trail := TrimRightSplits(s[..|s| - 1]);
      trail := trail + [s[|s| - 1]];
    } else {
      trail := "";
    }
  }

  /** What trimming leaves: the string without white space at its two ends. */
  ghost predicate TrimmedTo(s: string, kept: string) {
    && (exists lead, trail :: s == lead + kept + trail && AllSpace(lead) && AllSpace(trail))
    && (kept != "" ==> !IsSpace(kept[0]) && !IsSpace(kept[|kept| - 1]))
  }

  lemma TrimSpaceTrims(s: string)
    ensures TrimmedTo(s, TrimSpace(s))
    ensures TrimSpace(s) == "" <==> AllSpace(s)
  {
    var lead := TrimLeftSplits(s);
    var left := TrimLeft(s);
    var trail := TrimRightSplits(left);
    assert s == lead + TrimSpace(s) + trail;
    if TrimSpace(s) != "" {
      assert left[0] == TrimSpace(s)[0] == s[|lead|];
    }
  }

  /** White space up to i, and then two hyphens. */
  predicate HyphensAt(line: string, i: nat) {
    i + 1 < |line| && AllSpace(line[..i]) && line[i] == '-' == line[i + 1]
  }

  /** A line is a comment exactly if it is white space followed by two hyphens and anything. */
  lemma IsCommentIff(line: string)
    ensures IsComment(line) <==> exists i: nat :: HyphensAt(line, i)
  {
    var lead := TrimLeftSplits(line);
    var trail := TrimRightSplits(TrimLeft(line));
    if IsComment(line) {
      CommentHasHyphens(line, lead, trail);
    }
    if i: nat :| HyphensAt(line, i) {
      StartsAt(line, lead, TrimLeft(line), i);
      HyphensStay(TrimLeft(line), TrimSpace(line), trail);
    }
  }

  lemma CommentHasHyphens(line: string, lead: string, trail: string)
    requires IsComment(line) && line == lead + TrimLeft(line) && AllSpace(lead)
            && TrimLeft(line) == TrimSpace(line) + trail
    ensures HyphensAt(line, |lead|)
  {
    assert TrimSpace(line)[0] == '-' && TrimSpace(line)[1] == '-';
    assert line[..|lead|] == lead;
  }

  lemma HyphensStay(body: string, kept: string, trail: string)
    requires body == kept + trail && AllSpace(trail) && |body| > 1 && body[0] == '-' == body[1]
    ensures "--" <= kept
  {
    assert forall k :: 0 <= k < |trail| ==> body[|kept| + k] == trail[k];
    assert forall k :: |kept| <= k < |body| ==> IsSpace(trail[k - |kept|]) && body[k] == trail[k - |kept|];
  }

  lemma StartsAt(line: string, lead: string, body: string, i: nat)
    requires line == lead + body && AllSpace(lead) && (body == "" || !IsSpace(body[0]))
    requires HyphensAt(line, i)
    ensures i == |lead| && |body| > 1 && body[0] == '-' == body[1]
  {
    assert forall k :: 0 <= k < i ==> IsSpace(line[..i][k]) && line[k] == line[..i][k];
    assert forall k :: 0 <= k < |lead| ==> IsSpace(lead[k]) && line[k] == lead[k];
    assert body != "" ==> line[|lead|] == body[0];
  }

  // ----- Splitting.

  /** The lines that are no comments, each followed by a newline. */
  function Cleaned(lines: seq<string>): string {
    if lines == [] then ""
    else
      var last := lines[|lines| - 1];
      Cleaned(lines[..|lines| - 1]) + if IsComment(last) then "" else last + "\n"
  }

  /** The pieces have no ';', and joined with ';' they are the lines that are no comments: so they are
      the only such pieces, one more than there are ';'. */
  method SplitStatements(src: string) returns (pieces: seq<string>)
    ensures Free(pieces, ';') && pieces != []
    ensures Join(pieces, ';') == Cleaned(Split(src, '\n'))
    ensures |pieces| == 1 + Count(Cleaned(Split(src, '\n')), ';')
  {
    var cleaned := "";
    var lines := Split(src, '\n');
    var i := 0;
    while i < |lines|
      invariant 0 <= i <= |lines|
      invariant cleaned == Cleaned(lines[..i])
    {
      assert lines[..i + 1][..i] == lines[..i];
      var line := lines[i];
      i := i + 1;
      if IsComment(line) {
        continue;
      }
      cleaned := cleaned + line;
      cleaned := cleaned + "\n";
      assert cleaned == Cleaned(lines[..i - 1]) + (line + "\n");
    }
    assert lines[..i] == lines;
    SplitThenJoin(cleaned, ';');
    pieces := Split(cleaned, ';');
  }

  /** What SplitStatements promises determines its result. */
  lemma PiecesDetermined(pieces: seq<string>, pieces': seq<string>)
    requires pieces != [] && pieces' != [] && Free(pieces, ';') && Free(pieces', ';')
    requires Join(pieces, ';') == Join(pieces', ';')
    ensures pieces == pieces'
  {
    JoinThenSplit(pieces, ';');
    JoinThenSplit(pieces', ';');
  }

  lemma {:induction false} CleanedConcat(xs: seq<string>, ys: seq<string>)
    ensures Cleaned(xs + ys) == Cleaned(xs) + Cleaned(ys)
  {
    if ys == [] {
      assert xs + ys == xs;
    } else {
      var n := |ys| - 1;
      assert (xs + ys)[..|xs + ys| - 1] == xs + ys[..n];
      CleanedConcat(xs, ys[..n]);
    }
  }

  lemma CommentVanishes(before: seq<string>, comment: string, after: seq<string>)
    requires IsComment(comment)
    ensures Cleaned(before + [comment] + after) == Cleaned(before + after)
  {
    CleanedConcat(before + [comment], after);
    CleanedConcat(before, after);
    assert (before + [comment])[..|before + [comment]| - 1] == before;
  }

  /** Comment lines do not matter, whatever they contain: a file with one more comment line anywhere
      cleans to the same text, and so splits into the same statements. */
  lemma CommentsDoNotMatter(before: seq<string>, comment: string, after: seq<string>)
    requires before + after != [] && Free(before, '\n') && Free(after, '\n') && '\n' !in comment && IsComment(comment)
    ensures var with := Join(before + [comment] + after, '\n');
            var without := Join(before + after, '\n');
            Cleaned(Split(with, '\n')) == Cleaned(Split(without, '\n'))
  {
    CommentVanishes(before, comment, after);
    var more, less := before + [comment] + after, before + after;
    assert Free(more, '\n') && Free(less, '\n');
    JoinThenSplit(more, '\n');
    JoinThenSplit(less, '\n');
  }

  /** A file without comment lines is only given a final newline. */
  lemma {:induction false} NothingToClean(lines: seq<string>)
    requires lines != [] && forall i :: 0 <= i < |lines| ==> !IsComment(lines[i])
    ensures Cleaned(lines) == Join(lines, '\n') + "\n"
  {
    assert lines == [lines[0]] + lines[1..];
    CleanedConcat([lines[0]], lines[1..]);
    assert [lines[0]][..0] == [];
    assert Cleaned([lines[0]]) == lines[0] + "\n";
    if |lines| > 1 {
      NothingToClean(lines[1..]);
    }
  }

  // ----- Applying.

  /** The trimmed pieces that are not empty, in order. */
  function Executable(pieces: seq<string>): seq<string> {
    if pieces == [] then []
    else
      var last := TrimSpace(pieces[|pieces| - 1]);
      Executable(pieces[..|pieces| - 1]) + if last == "" then [] else [last]
  }

  predicate NotBlank(piece: string) {
    TrimSpace(piece) != ""
  }

  /** They are the trimmed pieces, in order, of those that are more than white space. */
  lemma {:induction false} ExecutableSelects(pieces: seq<string>)
    ensures Selects(pieces, NotBlank, TrimSpace, Executable(pieces))
    ensures forall i :: 0 <= i < |pieces| ==> (NotBlank(pieces[i]) <==> !AllSpace(pieces[i]))
                                              && TrimmedTo(pieces[i], TrimSpace(pieces[i]))
  {
    if pieces == [] {
      SelectsNone(NotBlank, TrimSpace);
    } else {
      var n := |pieces| - 1;
      ExecutableSelects(pieces[..n]);
      SelectsMore(pieces, NotBlank, TrimSpace, Executable(pieces[..n]));
      TrimSpaceTrims(pieces[n]);
      assert forall i :: 0 <= i < n ==> pieces[..n][i] == pieces[i];
    }
  }

  lemma {:induction false} ExecutableGrows(pieces: seq<string>, i: nat)
    requires i <= |pieces|
    ensures Executable(pieces[..i]) <= Executable(pieces)
    decreases |pieces|
  {
    if i == |pieces| {
      assert pieces[..i] == pieces;
    } else {
      var n := |pieces| - 1;
      assert pieces[..n][..i] == pieces[..i];
      ExecutableGrows(pieces[..n], i);
    }
  }

  /** The k-th statement sent is reported as an error. */
  predicate Fails(script: Script, k: nat) {
    k < |script| && script[k].Reported()
  }

  /** ApplySchema: the statements are sent in order up to the first error, and none is skipped. */
  method ApplySchema(src: string, script: Script) returns (sent: seq<string>, err: bool, ghost pieces: seq<string>)
    ensures pieces != [] && Free(pieces, ';') && Join(pieces, ';') == Cleaned(Split(src, '\n'))
    ensures Selects(pieces, NotBlank, TrimSpace, Executable(pieces))
    ensures forall i :: 0 <= i < |pieces| ==> (NotBlank(pieces[i]) <==> !AllSpace(pieces[i]))
                                              && TrimmedTo(pieces[i], TrimSpace(pieces[i]))
    ensures sent <= Executable(pieces) && (!err ==> sent == Executable(pieces))
    ensures forall k :: 0 <= k < |sent| - 1 ==> !Fails(script, k)
    ensures sent != [] ==> (err <==> Fails(script, |sent| - 1))
    ensures err ==> sent != []
  {
    var stmts := SplitStatements(src);
    pieces := stmts;
    ExecutableSelects(pieces);
    sent, err := Send(stmts, script);
  }

  method Send(stmts: seq<string>, script: Script) returns (sent: seq<string>, err: bool)
    ensures sent <= Executable(stmts) && (!err ==> sent == Executable(stmts))
    ensures forall k :: 0 <= k < |sent| - 1 ==> !Fails(script, k)
    ensures sent != [] ==> (err <==> Fails(script, |sent| - 1))
    ensures err ==> sent != []
  {
    sent, err := [], false;
    var i := 0;
    while i < |stmts|
      invariant 0 <= i <= |stmts|
      invariant sent == Executable(stmts[..i]) && !err
      invariant forall k :: 0 <= k < |sent| ==> !Fails(script, k)
    {
      assert stmts[..i + 1][..i] == stmts[..i];
      var stmt := TrimSpace(stmts[i]);
      i := i + 1;
      if stmt == "" {
        continue;
      }
      sent := sent + [stmt];
      if Fails(script, |sent| - 1) {
        ExecutableGrows(stmts, i);
        return sent, true;
      }
    }
    assert stmts[..i] == stmts;
  }
}

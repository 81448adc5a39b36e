// StripANSI and colorVerdict (spikes/cilium-enforcement/internal/probe/table.go:58-87, and the same code
// in spikes/tenant-isolation/internal/probe/table.go). Strings are sequences of bytes; SGR sequences
// are those of section 8.3.117 of ECMA-48.

module Ansi {
  import opened Numerals

  const ESC: char := '\U{1b}'

  /** A colour sequence starts at i. */
  predicate OpensAt(s: string, i: nat) {
    i + 1 < |s| && s[i] == ESC && s[i + 1] == '['
  }

  /** Some colour sequence starts in s. */
  ghost predicate Opens(s: string) {
    exists k: nat :: OpensAt(s, k)
  }

  /** The first index from i on that holds an 'm', or the end. */
  function EndOf(s: string, i: nat): (j: nat)
    requires i <= |s|
    ensures i <= j <= |s|
    ensures j < |s| ==> s[j] == 'm'
    ensures forall k :: i <= k < j ==> s[k] != 'm'
    decreases |s| - i
  {
    if i == |s| || s[i] == 'm' then i else EndOf(s, i + 1)
  }

  /** What is kept of s from i on: a sequence that opens goes up to its 'm', or to the end without one. */
  function Kept(s: string, i: nat): string
    decreases |s| - i
  {
    if i >= |s| then ""
    else if OpensAt(s, i) then Kept(s, EndOf(s, i) + 1)
    else [s[i]] + Kept(s, i + 1)
  }

  /** The two index loops of the source; the inner one may step past the end. */
  method StripANSI(s: string) returns (out: string)
    ensures out == Kept(s, 0)
  {
    out := "";
    var i := 0;
    while i < |s|
      invariant 0 <= i <= |s| + 1
      invariant out + Kept(s, i) == Kept(s, 0)
      decreases |s| + 1 - i
    {
      if s[i] == ESC && i + 1 < |s| && s[i + 1] == '[' {
        ghost var start := i;
        while i < |s| && s[i] != 'm'
          invariant start <= i <= |s| && EndOf(s, i) == EndOf(s, start)
          invariant i > start || s[i] != 'm'
        {
          i := i + 1;
        }
        i := i + 1;
      } else {
        assert out + [s[i]] + Kept(s, i + 1) == out + Kept(s, i);
        out := out + [s[i]];
        i := i + 1;
      }
    }
  }

  // ----- What stripping means.

  /** Plain text, or a colour sequence with its parameters. */
  datatype Segment = Text(text: string) | Colour(params: string)

  predicate Proper(seg: Segment) {
    match seg
    case Text(t) => ESC !in t
    case Colour(ps) => 'm' !in ps
  }

  function Render(segs: seq<Segment>): string {
    if segs == [] then ""
    else
      (match segs[0]
       case Text(t) => t
       case Colour(ps) => [ESC, '['] + ps + ['m']) + Render(segs[1..])
  }

  function TextOf(segs: seq<Segment>): string {
    if segs == [] then "" else (if segs[0].Text? then segs[0].text else "") + TextOf(segs[1..])
  }

  lemma {:induction false} EndShifts(pre: string, s: string, i: nat)
    requires i <= |s|
    ensures EndOf(pre + s, |pre| + i) == |pre| + EndOf(s, i)
    decreases |s| - i
  {
    if i < |s| && s[i] != 'm' {
      EndShifts(pre, s, i + 1);
    }
  }

  /** What is kept from an index on depends only on the rest of the string. */
  lemma {:induction false} KeptShifts(pre: string, s: string, i: nat)
    ensures Kept(pre + s, |pre| + i) == Kept(s, i)
    decreases |s| - i
  {
    var all := pre + s;
    if i < |s| {
      assert OpensAt(all, |pre| + i) <==> OpensAt(s, i);
      if OpensAt(s, i) {
        EndShifts(pre, s, i);
        KeptShifts(pre, s, EndOf(s, i) + 1);
      } else {
        KeptShifts(pre, s, i + 1);
      }
    }
  }

  lemma PlainIsKept(c: char, rest: string)
    requires c != ESC
    ensures Kept([c] + rest, 0) == [c] + Kept(rest, 0)
  {
    KeptShifts([c], rest, 0);
  }

  lemma {:induction false} TextIsKept(text: string, rest: string)
    requires ESC !in text
    ensures Kept(text + rest, 0) == text + Kept(rest, 0)
  {
    if text == "" {
      assert text + rest == rest;
    } else {
      var c, more := text[0], text[1..];
      assert c in text && text == [c] + more;
      assert [c] + more + rest == [c] + (more + rest);
      PlainIsKept(c, more + rest);
      TextIsKept(more, rest);
    }
  }

  lemma ColourIsDropped(params: string, rest: string)
    requires 'm' !in params
    ensures Kept([ESC, '['] + params + ['m'] + rest, 0) == Kept(rest, 0)
  {
    var sequence := [ESC, '['] + params + ['m'];
    var s := sequence + rest;
    var n := |sequence| - 1;
    assert s[n] == 'm' && forall k :: 0 <= k < n ==> s[k] != 'm' by {
      assert forall k :: 2 <= k < n ==> s[k] == params[k - 2];
    }
    assert OpensAt(s, 0) && EndOf(s, 0) == n;
    KeptShifts(sequence, rest, 0);
  }

  /** Any mix of text without ESC and colour sequences is stripped to its text. */
  lemma {:induction false} StripsToText(segs: seq<Segment>)
    requires forall i :: 0 <= i < |segs| ==> Proper(segs[i])
    ensures Kept(Render(segs), 0) == TextOf(segs)
  {
    if segs != [] {
      StripsToText(segs[1..]);
      var rest := Render(segs[1..]);
      match segs[0]
      case Text(t) => TextIsKept(t, rest);
      case Colour(ps) => ColourIsDropped(ps, rest);
    }
  }

  /** Exactly the strings in which no sequence opens are left alone; any other loses something. */
  lemma {:induction false} UnchangedIff(s: string, i: nat)
    requires i <= |s|
    ensures |Kept(s, i)| <= |s| - i
    ensures Kept(s, i) == s[i..] <==> forall k :: i <= k < |s| ==> !OpensAt(s, k)
    decreases |s| - i
  {
    if i < |s| {
      if OpensAt(s, i) {
        var j := EndOf(s, i);
        if j < |s| {
          UnchangedIff(s, j + 1);
        }
      } else {
        UnchangedIff(s, i + 1);
        assert s[i..] == [s[i]] + s[i + 1..];
      }
    }
  }

  // ----- When stripping twice is stripping once.

  /** The first index from i on whose character is kept. */
  function NextKept(s: string, i: nat): nat
    decreases |s| - i
  {
    if i < |s| && OpensAt(s, i) then NextKept(s, EndOf(s, i) + 1) else i
  }

  /** From i on, some ESC is kept whose next kept character is a '['. */
  predicate Rejoins(s: string, i: nat)
    decreases |s| - i
  {
    i < |s| &&
    if OpensAt(s, i) then Rejoins(s, EndOf(s, i) + 1)
    else (s[i] == ESC && NextKept(s, i + 1) < |s| && s[NextKept(s, i + 1)] == '[') || Rejoins(s, i + 1)
  }

  lemma {:induction false} FirstKept(s: string, i: nat)
    ensures var j := NextKept(s, i); if j < |s| then Kept(s, i) != "" && Kept(s, i)[0] == s[j] else Kept(s, i) == ""
    decreases |s| - i
  {
    if i < |s| && OpensAt(s, i) {
      FirstKept(s, EndOf(s, i) + 1);
    }
  }

  lemma {:induction false} RejoinsIff(s: string, i: nat)
    ensures Rejoins(s, i) <==> Opens(Kept(s, i))
    decreases |s| - i
  {
    if i < |s| {
      if OpensAt(s, i) {
        var j := EndOf(s, i) + 1;
        RejoinsIff(s, j);
        assert Kept(s, i) == Kept(s, j) && Rejoins(s, i) == Rejoins(s, j);
      } else {
        RejoinsIff(s, i + 1);
        FirstKept(s, i + 1);
        Prepended(s[i], Kept(s, i + 1));
      }
    }
  }

  lemma Prepended(c: char, t: string)
    ensures Opens([c] + t) <==> (c == ESC && t != "" && t[0] == '[') || Opens(t)
  {
    if k: nat :| OpensAt(t, k) {
      assert OpensAt([c] + t, k + 1);
    }
    if c == ESC && t != "" && t[0] == '[' {
      assert OpensAt([c] + t, 0);
    }
    if k: nat :| OpensAt([c] + t, k) {
      assert k == 0 || OpensAt(t, k - 1);
    }
  }

  /** Stripping twice is stripping once exactly if removing the sequences brings no ESC and '[' together. */
  lemma StripTwiceIff(s: string)
    ensures Kept(Kept(s, 0), 0) == Kept(s, 0) <==> !Rejoins(s, 0)
  {
    var t := Kept(s, 0);
    RejoinsIff(s, 0);
    UnchangedIff(t, 0);
    assert t[0..] == t;
  }

  /** That can happen: such a string strips to one that strips further. */
  lemma NotIdempotent()
    ensures exists s :: Kept(Kept(s, 0), 0) != Kept(s, 0)
  {
    var s := [ESC, ESC, '[', 'm', '['];
    assert EndOf(s, 2) == 3;
    assert OpensAt(s, 1) && EndOf(s, 1) == 3;
    assert NextKept(s, 1) == 4;
    StripTwiceIff(s);
  }

  // ----- colorVerdict.

  datatype Verdict = Pass | Fail | Skip | Other(text: string)

  function NameOf(v: Verdict): string {
    match v
    case Pass => "PASS"
    case Fail => "FAIL"
    case Skip => "SKIP"
    case Other(text) => text
  }

  /** "ESC[" + colour + "m" before the name, "ESC[0m" after it. */
  function Wrapped(colour: string, name: string): string {
    [ESC, '['] + colour + ['m'] + name + RESET
  }

  const RESET: string := [ESC, '['] + "0" + ['m']

  function ColorVerdict(v: Verdict): string {
    match v
    case Pass => Wrapped("32", "PASS")
    case Fail => Wrapped("31", "FAIL")
    case Skip => Wrapped("33", "SKIP")
    case Other(text) => text
  }

  lemma ColouredLine(before: string, colour: string, name: string, after: string)
    requires ESC !in before && ESC !in name && ESC !in after && 'm' !in colour
    ensures Kept(before + Wrapped(colour, name) + after, 0) == before + name + after
  {
    var open := [ESC, '['] + colour + ['m'];
    var tail := name + (RESET + after);
    Regroup(before, open, name, RESET, after);
    TextIsKept(before, open + tail);
    ColourIsDropped(colour, tail);
    TextIsKept(name, RESET + after);
    ColourIsDropped("0", after);
    TextIsKept(after, "");
    assert after + "" == after;
    assert before + (name + after) == before + name + after;
  }

  lemma Regroup(a: string, b: string, c: string, d: string, e: string)
    ensures a + (b + c + d) + e == a + (b + (c + (d + e)))
  {
  }

  /** Stripping undoes colouring inside any line without ESC. */
  lemma StripUndoesColor(before: string, v: Verdict, after: string)
    requires ESC !in before && ESC !in after && (v.Other? ==> ESC !in v.text)
    ensures Kept(before + ColorVerdict(v) + after, 0) == before + NameOf(v) + after
  {
    match v
    case Pass => ColouredLine(before, "32", "PASS", after);
    case Fail => ColouredLine(before, "31", "FAIL", after);
    case Skip => ColouredLine(before, "33", "SKIP", after);
    case Other(text) =>
      TextIsKept(before + text + after, "");
      assert before + text + after + "" == before + text + after;
  }

  /** The colours of section 8.3.117 of ECMA-48 that the verdicts have, and their parameters. */
  datatype Hue = Red | Green | Yellow

  function Parameter(hue: Hue): nat {
    match hue
    case Red => 31
    case Green => 32
    case Yellow => 33
  }

  /** The string is a sequence that selects the colour, the name, and a sequence that resets it. */
  ghost predicate ShownIn(s: string, hue: Hue, name: string) {
    exists ps, reset :: s == Render([Colour(ps), Text(name), Colour(reset)])
      && IsNumeral(ps) && Value(ps) == Parameter(hue) && IsNumeral(reset) && Value(reset) == 0
  }

  /** A pass is green, a failure red, a skipped test yellow; anything else has no colour. */
  lemma VerdictColours(text: string)
    ensures ShownIn(ColorVerdict(Pass), Green, "PASS")
    ensures ShownIn(ColorVerdict(Fail), Red, "FAIL")
    ensures ShownIn(ColorVerdict(Skip), Yellow, "SKIP")
    ensures ColorVerdict(Other(text)) == text
  {
    WrappedIsShown(Green, "PASS", 3, 2);
    WrappedIsShown(Red, "FAIL", 3, 1);
    WrappedIsShown(Yellow, "SKIP", 3, 3);
    assert [Digit(3), Digit(2)] == "32" && [Digit(3), Digit(1)] == "31" && [Digit(3), Digit(3)] == "33";
  }

  lemma WrappedIsShown(hue: Hue, name: string, tens: nat, ones: nat)
    requires 0 < tens < 10 && ones < 10 && Parameter(hue) == 10 * tens + ones
    ensures ShownIn(Wrapped([Digit(tens), Digit(ones)], name), hue, name)
  {
    var ps := Decimal(Parameter(hue));
    DecimalReads(Parameter(hue));
    DecimalReads(0);
    assert Parameter(hue) / 10 == tens && Parameter(hue) % 10 == ones;
    assert ps == [Digit(tens), Digit(ones)];
    var segs := [Colour(ps), Text(name), Colour(Decimal(0))];
    assert segs[1..] == [Text(name), Colour(Decimal(0))] && segs[1..][1..] == [Colour(Decimal(0))];
    assert [Colour(Decimal(0))][1..] == [];
    assert Render([Colour(Decimal(0))]) == RESET + "";
    assert Render(segs[1..]) == name + Render([Colour(Decimal(0))]);
    assert Render(segs) == [ESC, '['] + ps + ['m'] + Render(segs[1..]);
    assert Render(segs) == Wrapped(ps, name);
  }
}

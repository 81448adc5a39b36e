// The label rule in its two forms, the scanner validateNamespace (internal/provisioner/cnp.go) and the
// expression tenantIDPattern (services/provisioner/handler.go), and the secret paths built from
// accepted ids (internal/provisioner/kubeconfig.go). RFC 1123, section 2.1, without the length limit.

module Labels {
  import opened Options

  // ----- Regular expressions and their meaning.

  datatype Re =
    | Class(ranges: seq<(char, char)>)
    | Cat(first: Re, second: Re)
    | Star(body: Re)
    | Opt(body: Re)

  predicate InClass(c: char, ranges: seq<(char, char)>) {
    exists i :: 0 <= i < |ranges| && ranges[i].0 <= c <= ranges[i].1
  }

  /** The whole of s matches. */
  ghost predicate Matches(re: Re, s: string)
    decreases |s|, re
  {
    match re
    case Class(ranges) => |s| == 1 && InClass(s[0], ranges)
    case Cat(a, b) => exists i :: 0 <= i <= |s| && Matches(a, s[..i]) && Matches(b, s[i..])
    case Star(r) => s == "" || exists i :: 0 < i <= |s| && Matches(r, s[..i]) && Matches(re, s[i..])
    case Opt(r) => s == "" || Matches(r, s)
  }

  const ALNUM: Re := Class([('a', 'z'), ('0', '9')])
  const ALNUM_OR_HYPHEN: Re := Class([('a', 'z'), ('0', '9'), ('-', '-')])

  /** tenantIDPattern: ^[a-z0-9]([a-z0-9\-]*[a-z0-9])?$ */
  const TAIL: Re := Cat(Star(ALNUM_OR_HYPHEN), ALNUM)
  const PATTERN: Re := Cat(ALNUM, Opt(TAIL))

  // ----- The scanner.

  predicate Alnum(c: char) {
    'a' <= c <= 'z' || '0' <= c <= '9'
  }

  /** The scanner lets character i of ns pass. */
  predicate Passes(ns: string, i: nat)
    requires i < |ns|
  {
    Alnum(ns[i]) || (ns[i] == '-' && 0 < i < |ns| - 1)
  }

  datatype LabelError = EmptyLabel | InvalidCharacter(c: char, position: nat)

  /** The scanner accepts exactly what the expression matches, and otherwise names the first character
      that does not pass. */
  method ValidateNamespace(ns: string) returns (error: Option<LabelError>)
    ensures error.None? <==> Matches(PATTERN, ns)
    ensures error == Some(EmptyLabel) <==> ns == ""
    ensures error.Some? && error.value.InvalidCharacter? ==>
              var i := error.value.position;
              && i < |ns| && error.value.c == ns[i] && !Passes(ns, i)
              && forall j :: 0 <= j < i ==> Passes(ns, j)
  {
    ScannerIsPattern(ns);
    if ns == "" {
      return Some(EmptyLabel);
    }
    var i := 0;
    while i < |ns|
      invariant 0 <= i <= |ns|
      invariant forall j :: 0 <= j < i ==> Passes(ns, j)
    {
      var r := ns[i];
      if 'a' <= r <= 'z' {
      } else if '0' <= r <= '9' {
      } else if r == '-' && i > 0 && i < |ns| - 1 {
      } else {
        assert !Passes(ns, i);
        return Some(InvalidCharacter(r, i));
      }
      i := i + 1;
    }
    return None;
  }

  // ----- The two forms agree.

  ghost predicate Accepted(ns: string) {
    Matches(PATTERN, ns)
  }

  lemma ClassMatches(c: char)
    ensures InClass(c, ALNUM.ranges) <==> Alnum(c)
    ensures InClass(c, ALNUM_OR_HYPHEN.ranges) <==> Alnum(c) || c == '-'
  {
    var two, three := ALNUM.ranges, ALNUM_OR_HYPHEN.ranges;
    assert two[0] == ('a', 'z') && two[1] == ('0', '9');
    assert three[0] == ('a', 'z') && three[1] == ('0', '9') && three[2] == ('-', '-');
  }

  lemma {:induction false} StarMatches(s: string)
    ensures Matches(Star(ALNUM_OR_HYPHEN), s) <==> forall i :: 0 <= i < |s| ==> Alnum(s[i]) || s[i] == '-'
    decreases |s|
  {
    if s != "" {
      ClassMatches(s[0]);
      StarMatches(s[1..]);
      assert forall i :: 1 <= i < |s| ==> s[i] == s[1..][i - 1];
      var star := Star(ALNUM_OR_HYPHEN);
      if Matches(star, s) {
        var i :| 0 < i <= |s| && Matches(ALNUM_OR_HYPHEN, s[..i]) && Matches(star, s[i..]);
        assert i == 1;
      }
      if Alnum(s[0]) || s[0] == '-' {
        assert Matches(ALNUM_OR_HYPHEN, s[..1]);
        assert Matches(star, s[1..]) ==> Matches(star, s);
      }
    }
  }

  /** A match of the tail splits before the last character. */
  lemma TailSplits(s: string)
    requires s != ""
    ensures Matches(TAIL, s) <==> Matches(TAIL.first, s[..|s| - 1]) && Alnum(s[|s| - 1])
  {
    var n := |s| - 1;
    ClassMatches(s[n]);
    assert Matches(ALNUM, s[n..]) <==> Alnum(s[n]);
    if Matches(TAIL, s) {
      var i :| 0 <= i <= |s| && Matches(TAIL.first, s[..i]) && Matches(ALNUM, s[i..]);
      assert i == n;
    } else {
      assert !(Matches(TAIL.first, s[..n]) && Matches(ALNUM, s[n..]));
    }
  }

  lemma TailMatches(s: string)
    ensures Matches(TAIL, s) <==>
            s != "" && Alnum(s[|s| - 1]) && forall i :: 0 <= i < |s| ==> Alnum(s[i]) || s[i] == '-'
  {
    if s != "" {
      TailSplits(s);
      StarMatches(s[..|s| - 1]);
      assert forall i :: 0 <= i < |s| - 1 ==> s[i] == s[..|s| - 1][i];
    }
  }

  /** A match of the whole expression splits after the first character. */
  lemma PatternSplits(ns: string)
    ensures Matches(PATTERN, ns) <==> ns != "" && Alnum(ns[0]) && (ns[1..] == "" || Matches(TAIL, ns[1..]))
  {
    var second := PATTERN.second;
    if ns != "" {
      ClassMatches(ns[0]);
      assert Matches(ALNUM, ns[..1]) <==> Alnum(ns[0]);
      assert Matches(second, ns[1..]) <==> ns[1..] == "" || Matches(TAIL, ns[1..]);
      if Matches(PATTERN, ns) {
        var i :| 0 <= i <= |ns| && Matches(ALNUM, ns[..i]) && Matches(second, ns[i..]);
        assert i == 1;
      } else {
        assert !(Matches(ALNUM, ns[..1]) && Matches(second, ns[1..]));
      }
    }
  }

  lemma ScannerIsPattern(ns: string)
    ensures Matches(PATTERN, ns) <==> ns != "" && forall i :: 0 <= i < |ns| ==> Passes(ns, i)
  {
    PatternSplits(ns);
    if ns != "" {
      TailMatches(ns[1..]);
      TailPasses(ns);
    }
  }

  lemma TailPasses(ns: string)
    requires ns != ""
    ensures (forall i :: 0 <= i < |ns| ==> Passes(ns, i)) <==>
            Alnum(ns[0]) && Alnum(ns[|ns| - 1]) && forall i :: 0 <= i < |ns[1..]| ==>
                Alnum(ns[1..][i]) || ns[1..][i] == '-'
  {
    assert forall i :: 1 <= i < |ns| ==> ns[i] == ns[1..][i - 1];
    if forall i :: 0 <= i < |ns| ==> Passes(ns, i) {
      assert Passes(ns, 0) && Passes(ns, |ns| - 1);
      forall i | 0 <= i < |ns[1..]|
        ensures Alnum(ns[1..][i]) || ns[1..][i] == '-'
      {
        assert Passes(ns, i + 1);
      }
    }
  }

  // ----- Namespaces and secret paths.

  /** The namespace of a slug is accepted exactly if the slug is not empty, does not end in a hyphen and
      has only label characters: in particular whenever the slug is. */
  lemma NamespaceAccepted(slug: string)
    ensures Accepted("tenant-" + slug) <==>
            slug != "" && slug[|slug| - 1] != '-' && forall i :: 0 <= i < |slug| ==> Alnum(slug[i]) || slug[i] == '-'
    ensures Accepted(slug) ==> Accepted("tenant-" + slug)
  {
    var ns := "tenant-" + slug;
    ScannerIsPattern(ns);
    ScannerIsPattern(slug);
    PrefixPasses(ns, slug);
    if Accepted(slug) {
      assert Passes(slug, |slug| - 1);
      forall i | 0 <= i < |slug|
        ensures Alnum(slug[i]) || slug[i] == '-'
      {
        assert Passes(slug, i);
      }
    }
  }

  lemma PrefixPasses(ns: string, slug: string)
    requires ns == "tenant-" + slug
    ensures (forall i :: 0 <= i < |ns| ==> Passes(ns, i)) <==>
            slug != "" && slug[|slug| - 1] != '-' && forall i :: 0 <= i < |slug| ==> Alnum(slug[i]) || slug[i] == '-'
  {
    assert forall i :: 7 <= i < |ns| ==> ns[i] == slug[i - 7];
    if forall i :: 0 <= i < |ns| ==> Passes(ns, i) {
      assert Passes(ns, |ns| - 1);
      forall i | 0 <= i < |slug|
        ensures Alnum(slug[i]) || slug[i] == '-'
      {
        assert Passes(ns, i + 7);
      }
    }
  }

  function KvPath(id: string): string {
    "cf/tenants/" + id + "/kubeconfig"
  }

  /** What the policy of one tenant covers. */
  function KvPrefix(id: string): string {
    "cf/tenants/" + id + "/"
  }

  lemma NoSlash(id: string)
    requires Accepted(id)
    ensures '/' !in id
  {
    ScannerIsPattern(id);
    forall i | 0 <= i < |id|
      ensures id[i] != '/'
    {
      assert Passes(id, i);
    }
  }

  /** Among accepted ids each tenant's prefix covers its own path and no other, so paths are distinct. */
  lemma PrefixCoversOnlyOwn(id: string, other: string)
    requires Accepted(id) && Accepted(other)
    ensures KvPrefix(id) <= KvPath(other) <==> id == other
    ensures KvPath(id) == KvPath(other) ==> id == other
  {
    NoSlash(id);
    NoSlash(other);
    var root := "cf/tenants/";
    if KvPath(id) == KvPath(other) {
      assert KvPrefix(id) <= KvPath(id);
    }
    if KvPrefix(id) <= KvPath(other) {
      SamePiece(root, id, other);
    }
    if id == other {
      assert KvPath(id) == KvPrefix(id) + "kubeconfig";
    }
  }

  lemma SamePiece(root: string, id: string, other: string)
    requires '/' !in id && '/' !in other
    requires root + id + "/" <= root + other + "/kubeconfig"
    ensures id == other
  {
    var a, b := root + id + "/", root + other + "/kubeconfig";
    var n := |root|;
    assert forall i :: 0 <= i < |id| ==> a[n + i] == id[i] && b[n + i] == a[n + i];
    assert forall i :: 0 <= i < |other| ==> b[n + i] == other[i];
    assert a[n + |id|] == '/' == b[n + |id|];
    if |id| < |other| {
      assert false;
    }
    assert b[n + |other|] == '/';
    if |other| < |id| {
      assert false;
    }
  }

  /** Without validation the prefix of one id can cover the path of another. */
  lemma SlashCovers(id: string, rest: string)
    ensures KvPrefix(id) <= KvPath(id + "/" + rest) && id != id + "/" + rest
  {
    var other := id + "/" + rest;
    assert KvPath(other) == KvPrefix(id) + (rest + "/kubeconfig");
    assert |id| < |other|;
  }
}

// flattenMap (internal/config/loader.go): a nested configuration map becomes one map with dotted keys.

module Flattening {
  import opened Joining
  import opened Options

  /** A value is itself a nested map, or anything else: a leaf. */
  datatype Val<V> = Leaf(value: V) | Node(children: map<string, Val<V>>)

  type Path = seq<string>

  /** The leaf that a path of keys reaches, if it reaches one. */
  function LeafAt<V>(m: map<string, Val<V>>, path: Path): Option<V>
    decreases path
  {
    if path == [] || path[0] !in m then None
    else
      match m[path[0]]
      case Leaf(v) => if |path| == 1 then Some(v) else None
      case Node(sub) => LeafAt(sub, path[1..])
  }

  /** The key of one entry below a prefix: the empty prefix adds no dot. */
  function Qualified(prefix: string, k: string): string {
    if prefix == "" then k else prefix + "." + k
  }

  function Key(prefix: string, path: Path): string
    decreases path
  {
    if path == [] then prefix else Key(Qualified(prefix, path[0]), path[1..])
  }

  ghost predicate Gives<V>(m: map<string, Val<V>>, prefix: string, path: Path, key: string, v: V) {
    LeafAt(m, path) == Some(v) && Key(prefix, path) == key
  }

  /** The result holds exactly the keys of the leaves, each with the value of one of its leaves. */
  ghost predicate IsFlattening<V>(m: map<string, Val<V>>, prefix: string, r: map<string, V>) {
    && (forall key :: key in r ==> exists path :: Gives(m, prefix, path, key, r[key]))
    && (forall path :: LeafAt(m, path).Some? ==> Key(prefix, path) in r)
  }

  lemma LeafEntry<V>(m: map<string, Val<V>>, prefix: string, r: map<string, V>, k: string, v: V)
    requires IsFlattening(m, prefix, r) && k !in m
    ensures IsFlattening(m[k := Leaf(v)], prefix, r[Qualified(prefix, k) := v])
  {
    var m', r' := m[k := Leaf(v)], r[Qualified(prefix, k) := v];
    assert Gives(m', prefix, [k], Qualified(prefix, k), v) by {
      assert [k][1..] == [];
    }
    forall path | path != [k]
      ensures LeafAt(m', path) == LeafAt(m, path)
    {
      assert |path| == 1 && path[0] == k ==> path == [k];
    }
    assert LeafAt(m, [k]) == None;
    forall key | key in r && key != Qualified(prefix, k)
      ensures exists path :: Gives(m', prefix, path, key, r'[key])
    {
      var path :| Gives(m, prefix, path, key, r[key]);
      assert Gives(m', prefix, path, key, r'[key]);
    }
  }

  /** The leaves of a map with one more nested map. */
  lemma LeavesWithNode<V>(m: map<string, Val<V>>, k: string, sub: map<string, Val<V>>, path: Path)
    requires k !in m
    ensures LeafAt(m[k := Node(sub)], path) == if path != [] && path[0] == k then LeafAt(sub, path[1..])
            else LeafAt(m, path)
  {
  }

  lemma NodeEntry<V>(m: map<string, Val<V>>, prefix: string, r: map<string, V>, k: string, sub: map<string, Val<V>>,
      s: map<string, V>)
    requires IsFlattening(m, prefix, r) && k !in m && IsFlattening(sub, Qualified(prefix, k), s)
    ensures IsFlattening(m[k := Node(sub)], prefix, r + s)
  {
    var m' := m[k := Node(sub)];
    forall key | key in r + s
      ensures exists path :: Gives(m', prefix, path, key, (r + s)[key])
    {
      if key in s {
        var path :| Gives(sub, Qualified(prefix, k), path, key, s[key]);
        assert ([k] + path)[1..] == path;
        LeavesWithNode(m, k, sub, [k] + path);
        assert Gives(m', prefix, [k] + path, key, (r + s)[key]);
      } else {
        var path :| Gives(m, prefix, path, key, r[key]);
        LeavesWithNode(m, k, sub, path);
        assert Gives(m', prefix, path, key, (r + s)[key]);
      }
    }
    forall path | LeafAt(m', path).Some?
      ensures Key(prefix, path) in r + s
    {
      LeavesWithNode(m, k, sub, path);
    }
  }

  /** The inner loop of the source: assign every entry of one map to another. */
  method CopyInto<V>(target: map<string, V>, sub: map<string, V>) returns (result: map<string, V>)
    ensures result == target + sub
  {
    result := target;
    var rest := sub.Keys;
    while rest != {}
      invariant rest <= sub.Keys
      invariant result == target + (sub - rest)
    {
      var nk :| nk in rest;
      rest := rest - {nk};
      result := result[nk := sub[nk]];
    }
    assert sub - rest == sub;
  }

  /** What the loop can have made of the entries of m with the keys done, in some order of theirs and of
      those of every nested map: the last entry overwrites the ones before it. */
  ghost predicate CanReturn<V(!new)>(m: map<string, Val<V>>, done: set<string>, prefix: string, r: map<string, V>)
    requires done <= m.Keys
    decreases Node(m), |done|
  {
    if done == {} then r == map[]
    else
      exists k, before ::
        && k in done && CanReturn(m, done - {k}, prefix, before)
        && match m[k]
           case Leaf(v) => r == before[Qualified(prefix, k) := v]
           case Node(sub) => exists s :: CanReturn(sub, sub.Keys, Qualified(prefix, k), s) && r == before + s
  }

  /** The whole loop, in some order, makes r. */
  ghost predicate Outcome<V(!new)>(m: map<string, Val<V>>, prefix: string, r: map<string, V>) {
    CanReturn(m, m.Keys, prefix, r)
  }

  lemma LastLeaf<V(!new)>(m: map<string, Val<V>>, done: set<string>, prefix: string, before: map<string, V>, k: string)
    requires done <= m.Keys && k in done && m[k].Leaf? && CanReturn(m, done - {k}, prefix, before)
    ensures CanReturn(m, done, prefix, before[Qualified(prefix, k) := m[k].value])
  {
  }

  lemma LastNode<V(!new)>(m: map<string, Val<V>>, done: set<string>, prefix: string, before: map<string, V>, k: string,
                          s: map<string, V>)
    requires done <= m.Keys && k in done && m[k].Node? && CanReturn(m, done - {k}, prefix, before)
    requires CanReturn(m[k].children, m[k].children.Keys, Qualified(prefix, k), s)
    ensures CanReturn(m, done, prefix, before + s)
  {
  }

  /** The entries of m with the keys done. */
  function Part<V>(m: map<string, Val<V>>, done: set<string>): map<string, Val<V>> {
    m - (m.Keys - done)
  }

  lemma PartGrows<V>(m: map<string, Val<V>>, done: set<string>, k: string)
    requires done <= m.Keys && k in done
    ensures k !in Part(m, done - {k}) && Part(m, done) == Part(m, done - {k})[k := m[k]]
  {
  }

  /** r is what taking the entry k last makes of the entries before it. */
  ghost predicate TookLast<V(!new)>(m: map<string, Val<V>>, prefix: string, before: map<string, V>, k: string,
                                    r: map<string, V>)
    requires k in m
  {
    match m[k]
    case Leaf(v) => r == before[Qualified(prefix, k) := v]
    case Node(sub) => exists s :: Outcome(sub, Qualified(prefix, k), s) && r == before + s
  }

  lemma TakenLast<V(!new)>(m: map<string, Val<V>>, done: set<string>, prefix: string, r: map<string, V>)
      returns (k: string, before: map<string, V>)
    requires done <= m.Keys && done != {} && CanReturn(m, done, prefix, r)
    ensures k in done && CanReturn(m, done - {k}, prefix, before) && TookLast(m, prefix, before, k, r)
  {
    k, before :|
      && k in done && CanReturn(m, done - {k}, prefix, before)
      && match m[k]
         case Leaf(v) => r == before[Qualified(prefix, k) := v]
         case Node(sub) => exists s :: CanReturn(sub, sub.Keys, Qualified(prefix, k), s) && r == before + s;
    if m[k].Node? {
      var sub := m[k].children;
      var s :| CanReturn(sub, sub.Keys, Qualified(prefix, k), s) && r == before + s;
      assert Outcome(sub, Qualified(prefix, k), s);
    }
  }

  /** In whatever order, the loop makes a flattening. */
  lemma {:induction false} ReturnsFlattening<V(!new)>(m: map<string, Val<V>>, done: set<string>, prefix: string,
      r: map<string, V>)
    requires done <= m.Keys && CanReturn(m, done, prefix, r)
    ensures IsFlattening(Part(m, done), prefix, r)
    decreases Node(m), |done|
  {
    if done == {} {
      assert Part(m, done) == map[];
    } else {
      var k, before := TakenLast(m, done, prefix, r);
      ReturnsFlattening(m, done - {k}, prefix, before);
      PartGrows(m, done, k);
      var part := Part(m, done - {k});
      match m[k]
      case Leaf(v) => LeafEntry(part, prefix, before, k, v);
      case Node(sub) =>
        var s :| Outcome(sub, Qualified(prefix, k), s) && r == before + s;
        ReturnsFlattening(sub, sub.Keys, Qualified(prefix, k), s);
        assert Part(sub, sub.Keys) == sub;
        NodeEntry(part, prefix, before, k, sub, s);
    }
  }

  /** The loop of the source, taking the entries of every map in whatever order. */
  method FlattenMap<V(!new)>(m: map<string, Val<V>>, prefix: string) returns (result: map<string, V>)
    ensures Outcome(m, prefix, result)
    ensures IsFlattening(m, prefix, result)
    decreases Node(m)
  {
    result := map[];
    var todo := m.Keys;
    while todo != {}
      invariant todo <= m.Keys
      invariant CanReturn(m, m.Keys - todo, prefix, result)
    {
      var k :| k in todo;
      ghost var done := m.Keys - todo + {k};
      todo := todo - {k};
      assert done - {k} == m.Keys - (todo + {k}) && done == m.Keys - todo;
      var key := if prefix == "" then k else prefix + "." + k;
      match m[k]
      case Node(nested) =>
        var sub := FlattenMap(nested, key);
        LastNode(m, done, prefix, result, k, sub);
        result := CopyInto(result, sub);
      case Leaf(v) =>
        LastLeaf(m, done, prefix, result, k);
        result := result[key := v];
    }
    assert m.Keys - todo == m.Keys && Part(m, m.Keys) == m;
    ReturnsFlattening(m, m.Keys, prefix, result);
  }

  // ----- When the result is determined.

  /** Two leaves with one dotted key have one value. */
  ghost predicate NoClash<V>(m: map<string, Val<V>>, prefix: string) {
    forall p, q :: LeafAt(m, p).Some? && LeafAt(m, q).Some? && Key(prefix, p) == Key(prefix, q) ==>
        LeafAt(m, p) == LeafAt(m, q)
  }

  lemma SameFlattening<V>(m: map<string, Val<V>>, prefix: string, r: map<string, V>, r': map<string, V>)
    requires IsFlattening(m, prefix, r) && IsFlattening(m, prefix, r') && NoClash(m, prefix)
    ensures r == r'
  {
    forall key | key in r
      ensures key in r' && r[key] == r'[key]
    {
      var path :| Gives(m, prefix, path, key, r[key]);
      assert key in r';
      var path' :| Gives(m, prefix, path', key, r'[key]);
    }
    forall key | key in r'
      ensures key in r
    {
      var path' :| Gives(m, prefix, path', key, r'[key]);
    }
  }

  lemma {:induction false} SomeResult<V(!new)>(m: map<string, Val<V>>, done: set<string>, prefix: string)
      returns (r: map<string, V>)
    requires done <= m.Keys
    ensures CanReturn(m, done, prefix, r)
    decreases Node(m), |done|
  {
    r := map[];
    if done != {} {
      var k :| k in done;
      r := SomeResult(m, done - {k}, prefix);
      if m[k].Leaf? {
        LastLeaf(m, done, prefix, r, k);
        r := r[Qualified(prefix, k) := m[k].value];
      } else {
        var s := SomeResult(m[k].children, m[k].children.Keys, Qualified(prefix, k));
        LastNode(m, done, prefix, r, k, s);
        r := r + s;
      }
    }
  }

  /** Any leaf can win its key: take the maps on its path last. */
  lemma {:induction false} AnyLeafCanWin<V(!new)>(m: map<string, Val<V>>, prefix: string, path: Path)
      returns (r: map<string, V>)
    requires LeafAt(m, path).Some?
    ensures Outcome(m, prefix, r)
    ensures Key(prefix, path) in r && r[Key(prefix, path)] == LeafAt(m, path).value
    decreases path
  {
    var k := path[0];
    r := SomeResult(m, m.Keys - {k}, prefix);
    if m[k].Leaf? {
      LastLeaf(m, m.Keys, prefix, r, k);
      r := r[Qualified(prefix, k) := m[k].value];
      assert path[1..] == [];
    } else {
      var s := AnyLeafCanWin(m[k].children, Qualified(prefix, k), path[1..]);
      LastNode(m, m.Keys, prefix, r, k, s);
      r := r + s;
    }
  }

  /** All orders of iteration give one result exactly if no two leaves clash. */
  lemma DeterminedIffNoClash<V(!new)>(m: map<string, Val<V>>, prefix: string)
    ensures NoClash(m, prefix) <==>
            forall r, r' :: Outcome(m, prefix, r) && Outcome(m, prefix, r') ==> r == r'
  {
    if NoClash(m, prefix) {
      forall r, r' | Outcome(m, prefix, r) && Outcome(m, prefix, r')
        ensures r == r'
      {
        ReturnsFlattening(m, m.Keys, prefix, r);
        ReturnsFlattening(m, m.Keys, prefix, r');
        assert Part(m, m.Keys) == m;
        SameFlattening(m, prefix, r, r');
      }
    } else {
      var p, q :| LeafAt(m, p).Some? && LeafAt(m, q).Some? && Key(prefix, p) == Key(prefix, q)
          && LeafAt(m, p) != LeafAt(m, q);
      var r := AnyLeafCanWin(m, prefix, p);
      var r' := AnyLeafCanWin(m, prefix, q);
      assert r[Key(prefix, p)] != r'[Key(prefix, p)];
    }
  }

  // ----- Names without dots.

  predicate PlainName(k: string) {
    k != "" && '.' !in k
  }

  predicate Plain<V>(m: map<string, Val<V>>)
    decreases Node(m)
  {
    forall k :: k in m ==> PlainName(k) && (m[k].Node? ==> Plain(m[k].children))
  }

  lemma {:induction false} PathsArePlain<V>(m: map<string, Val<V>>, path: Path)
    requires Plain(m) && LeafAt(m, path).Some?
    ensures path != [] && forall i :: 0 <= i < |path| ==> PlainName(path[i])
    decreases path
  {
    if m[path[0]].Node? {
      PathsArePlain(m[path[0]].children, path[1..]);
      assert forall i :: 1 <= i < |path| ==> path[i] == path[1..][i - 1];
    }
  }

  /** The key of a path of non-empty names is its names joined with dots, below the prefix. */
  lemma {:induction false} KeyIsJoin(prefix: string, path: Path)
    requires path != [] && forall i :: 0 <= i < |path| ==> path[i] != ""
    ensures Key(prefix, path) == Qualified(prefix, Join(path, '.'))
    decreases path
  {
    if |path| > 1 {
      KeyIsJoin(Qualified(prefix, path[0]), path[1..]);
      var rest := Join(path[1..], '.');
      assert prefix + "." + path[0] + "." + rest == prefix + "." + (path[0] + "." + rest);
    } else {
      assert path[1..] == [];
    }
  }

  lemma KeyInjective(prefix: string, p: Path, q: Path)
    requires p != [] && forall i :: 0 <= i < |p| ==> PlainName(p[i])
    requires q != [] && forall i :: 0 <= i < |q| ==> PlainName(q[i])
    requires Key(prefix, p) == Key(prefix, q)
    ensures p == q
  {
    KeyIsJoin(prefix, p);
    KeyIsJoin(prefix, q);
    var jp, jq := Join(p, '.'), Join(q, '.');
    if prefix != "" {
      assert jp == Qualified(prefix, jp)[|prefix| + 1..] == Qualified(prefix, jq)[|prefix| + 1..] == jq;
    }
    JoinThenSplit(p, '.');
    JoinThenSplit(q, '.');
  }

  lemma PlainNoClash<V>(m: map<string, Val<V>>, prefix: string)
    requires Plain(m)
    ensures NoClash(m, prefix)
  {
    forall p, q | LeafAt(m, p).Some? && LeafAt(m, q).Some? && Key(prefix, p) == Key(prefix, q)
      ensures p == q
    {
      PathsArePlain(m, p);
      PathsArePlain(m, q);
      KeyInjective(prefix, p, q);
    }
  }

  /** With non-empty names without dots, the result has a value at a dotted key exactly if the path of its
      names reaches that leaf. */
  lemma ValueAtExactly<V>(m: map<string, Val<V>>, r: map<string, V>, path: Path, v: V)
    requires Plain(m) && IsFlattening(m, "", r)
    requires path != [] && forall i :: 0 <= i < |path| ==> PlainName(path[i])
    ensures Join(path, '.') in r && r[Join(path, '.')] == v <==> LeafAt(m, path) == Some(v)
  {
    KeyIsJoin("", path);
    var key := Join(path, '.');
    if key in r {
      var p :| Gives(m, "", p, key, r[key]);
      PathsArePlain(m, p);
      KeyInjective("", p, path);
    }
  }

  // ----- As many entries as leaves.

  /** All paths to leaves. */
  function LeafPaths<V>(m: map<string, Val<V>>): set<Path>
    decreases Node(m)
  {
    (set k | k in m && m[k].Leaf? :: [k]) +
    (set k, p | k in m && m[k].Node? && p in LeafPaths(m[k].children) :: [k] + p)
  }

  lemma {:induction false} LeafPathsReach<V>(m: map<string, Val<V>>, path: Path)
    ensures path in LeafPaths(m) <==> LeafAt(m, path).Some?
    decreases path
  {
    if path != [] && path[0] in m {
      var k := path[0];
      assert path == [k] + path[1..];
      if m[k].Node? {
        LeafPathsReach(m[k].children, path[1..]);
        if path in LeafPaths(m) {
          var k', p :| k' in m && m[k'].Node? && p in LeafPaths(m[k'].children) && path == [k'] + p;
          assert p == path[1..];
        }
      } else if |path| == 1 {
        assert path == [k];
      }
    }
  }

  lemma {:induction false} SameSize<A, B>(xs: set<A>, ys: set<B>, f: A -> B)
    requires forall x :: x in xs ==> f(x) in ys
    requires forall y :: y in ys ==> exists x :: x in xs && f(x) == y
    requires forall x, x' :: x in xs && x' in xs && f(x) == f(x') ==> x == x'
    ensures |xs| == |ys|
  {
    if xs != {} {
      var x :| x in xs;
      SameSize(xs - {x}, ys - {f(x)}, f);
    } else {
      assert ys == {};
    }
  }

  /** No two leaves share an entry: there are exactly as many entries as leaves. */
  lemma EntriesAreLeaves<V>(m: map<string, Val<V>>, prefix: string, r: map<string, V>)
    requires Plain(m) && IsFlattening(m, prefix, r)
    ensures |r.Keys| == |LeafPaths(m)|
  {
    forall path
      ensures path in LeafPaths(m) <==> LeafAt(m, path).Some?
    {
      LeafPathsReach(m, path);
    }
    forall p, q | p in LeafPaths(m) && q in LeafPaths(m) && Key(prefix, p) == Key(prefix, q)
      ensures p == q
    {
      PathsArePlain(m, p);
      PathsArePlain(m, q);
      KeyInjective(prefix, p, q);
    }
    SameSize(LeafPaths(m), r.Keys, (p: Path) => Key(prefix, p));
  }

  // ----- What a flattening remembers of its map.

  /** No leaf below. */
  predicate Hollow<V>(v: Val<V>)
    decreases v
  {
    v.Node? && forall k :: k in v.children ==> Hollow(v.children[k])
  }

  /** The map without its parts that hold no leaf. */
  function Prune<V>(m: map<string, Val<V>>): map<string, Val<V>>
    decreases Node(m)
  {
    map k | k in m && !Hollow(m[k]) :: if m[k].Leaf? then m[k] else Node(Prune(m[k].children))
  }

  /** Below what is not hollow there is a leaf. */
  lemma {:induction false} LeafBelow<V>(v: Val<V>) returns (path: Path)
    requires !Hollow(v) && v.Node?
    ensures LeafAt(v.children, path).Some?
    decreases v
  {
    var k :| k in v.children && !Hollow(v.children[k]);
    if v.children[k].Leaf? {
      path := [k];
    } else {
      var rest := LeafBelow(v.children[k]);
      path := [k] + rest;
      assert path[1..] == rest;
    }
  }

  lemma {:induction false} HollowHasNoLeaf<V>(v: Val<V>, path: Path)
    requires Hollow(v)
    ensures LeafAt(v.children, path) == None
    decreases path
  {
    if path != [] && path[0] in v.children {
      HollowHasNoLeaf(v.children[path[0]], path[1..]);
    }
  }

  lemma {:induction false} PruneKeepsLeaves<V>(m: map<string, Val<V>>, path: Path)
    ensures LeafAt(Prune(m), path) == LeafAt(m, path)
    decreases path
  {
    if path != [] && path[0] in m && m[path[0]].Node? {
      if Hollow(m[path[0]]) {
        HollowHasNoLeaf(m[path[0]], path[1..]);
      } else {
        PruneKeepsLeaves(m[path[0]].children, path[1..]);
      }
    }
  }

  ghost predicate SameLeaves<V>(m: map<string, Val<V>>, n: map<string, Val<V>>) {
    forall path :: LeafAt(m, path) == LeafAt(n, path)
  }

  /** A key that survives pruning in one map survives in any map with the same leaves, with the same
      kind of value and the same leaves below. */
  lemma SameLeavesBelow<V>(m: map<string, Val<V>>, n: map<string, Val<V>>, k: string)
    requires SameLeaves(m, n) && k in m && !Hollow(m[k])
    ensures k in n && !Hollow(n[k])
    ensures if m[k].Leaf? then n[k] == m[k] else n[k].Node? && SameLeaves(m[k].children, n[k].children)
  {
    if m[k].Leaf? {
      assert LeafAt(m, [k]).Some?;
      assert LeafAt(n, [k]) == LeafAt(m, [k]);
    } else {
      var rest := LeafBelow(m[k]);
      assert ([k] + rest)[1..] == rest;
      assert LeafAt(m, [k] + rest).Some?;
      assert LeafAt(n, [k] + rest).Some?;
      if n[k].Node? {
        forall path
          ensures LeafAt(m[k].children, path) == LeafAt(n[k].children, path)
        {
          assert ([k] + path)[1..] == path;
          assert LeafAt(m, [k] + path) == LeafAt(n, [k] + path);
        }
        if Hollow(n[k]) {
          HollowHasNoLeaf(n[k], rest);
        }
      }
    }
  }

  lemma {:induction false} SameLeavesSamePrune<V>(m: map<string, Val<V>>, n: map<string, Val<V>>)
    requires SameLeaves(m, n)
    ensures Prune(m) == Prune(n)
    decreases Node(m)
  {
    forall k | k in m && !Hollow(m[k])
      ensures k in n && !Hollow(n[k]) && Prune(m)[k] == Prune(n)[k]
    {
      SameLeavesBelow(m, n, k);
      if m[k].Node? {
        SameLeavesSamePrune(m[k].children, n[k].children);
      }
    }
    forall k | k in n && !Hollow(n[k])
      ensures k in m && !Hollow(m[k])
    {
      SameLeavesBelow(n, m, k);
    }
    assert Prune(m).Keys == Prune(n).Keys;
  }

  lemma FlatteningGivesLeaves<V>(m: map<string, Val<V>>, n: map<string, Val<V>>, prefix: string, r: map<string, V>)
    requires Plain(m) && Plain(n) && IsFlattening(m, prefix, r) && IsFlattening(n, prefix, r)
    ensures SameLeaves(m, n)
  {
    forall path
      ensures LeafAt(m, path) == LeafAt(n, path)
    {
      if LeafAt(m, path).Some? { LeafIsIn(m, n, prefix, r, path); }
      if LeafAt(n, path).Some? { LeafIsIn(n, m, prefix, r, path); }
    }
  }

  lemma LeafIsIn<V>(m: map<string, Val<V>>, n: map<string, Val<V>>, prefix: string, r: map<string, V>, path: Path)
    requires Plain(m) && Plain(n) && IsFlattening(m, prefix, r) && IsFlattening(n, prefix, r)
    requires LeafAt(m, path).Some?
    ensures LeafAt(n, path) == LeafAt(m, path)
  {
    var key := Key(prefix, path);
    var p :| Gives(m, prefix, p, key, r[key]);
    var q :| Gives(n, prefix, q, key, r[key]);
    PathsArePlain(m, path);
    PathsArePlain(m, p);
    PathsArePlain(n, q);
    KeyInjective(prefix, p, path);
    KeyInjective(prefix, q, path);
  }

  lemma LeavesGiveFlattening<V>(m: map<string, Val<V>>, n: map<string, Val<V>>, prefix: string, r: map<string, V>)
    requires SameLeaves(m, n) && IsFlattening(m, prefix, r)
    ensures IsFlattening(n, prefix, r)
  {
    forall key | key in r
      ensures exists path :: Gives(n, prefix, path, key, r[key])
    {
      var path :| Gives(m, prefix, path, key, r[key]);
      assert Gives(n, prefix, path, key, r[key]);
    }
  }

  /** Exactly what a flattening remembers: two maps flatten to the same result if and only if they are
      the same but for parts without leaves; so maps without such parts can be told apart. */
  lemma SameResultIff<V>(m: map<string, Val<V>>, n: map<string, Val<V>>, prefix: string, r: map<string, V>,
      r': map<string, V>)
    requires Plain(m) && Plain(n) && IsFlattening(m, prefix, r) && IsFlattening(n, prefix, r')
    ensures r == r' <==> Prune(m) == Prune(n)
  {
    if r == r' {
      FlatteningGivesLeaves(m, n, prefix, r);
      SameLeavesSamePrune(m, n);
    }
    if Prune(m) == Prune(n) {
      forall path
        ensures LeafAt(m, path) == LeafAt(n, path)
      {
        PruneKeepsLeaves(m, path);
        PruneKeepsLeaves(n, path);
      }
      LeavesGiveFlattening(n, m, prefix, r');
      PlainNoClash(m, prefix);
      SameFlattening(m, prefix, r, r');
    }
  }

  predicate NoEmptyNodes<V>(m: map<string, Val<V>>)
    decreases Node(m)
  {
    forall k :: k in m && m[k].Node? ==> m[k].children != map[] && NoEmptyNodes(m[k].children)
  }

  /** A map without empty sub-maps is its own pruning. */
  lemma {:induction false} NothingToPrune<V>(m: map<string, Val<V>>)
    requires NoEmptyNodes(m)
    ensures Prune(m) == m && (m != map[] ==> !Hollow(Node(m)))
    decreases Node(m)
  {
    forall k | k in m
      ensures !Hollow(m[k]) && (m[k].Node? ==> Prune(m[k].children) == m[k].children)
    {
      if m[k].Node? {
        NothingToPrune(m[k].children);
        assert m[k] == Node(m[k].children);
      }
    }
    if m != map[] {
      var k :| k in m;
    }
  }

  /** A map without empty sub-maps can be rebuilt: no other such map has its flattening. */
  lemma CanBeRebuilt<V>(m: map<string, Val<V>>, n: map<string, Val<V>>, prefix: string, r: map<string, V>)
    requires Plain(m) && Plain(n) && NoEmptyNodes(m) && NoEmptyNodes(n)
    requires IsFlattening(m, prefix, r) && IsFlattening(n, prefix, r)
    ensures m == n
  {
    SameResultIff(m, n, prefix, r, r);
    NothingToPrune(m);
    NothingToPrune(n);
  }
}

// The converse of the exhaustion theorem: wherever a service insert can be refused, the calls can go on,
// without further errors and never more than N of them, until one reports exhaustion.

module CidrRejections {
  import opened Faults
  import opened CidrBlocks
  import opened CidrMachine
  import opened CidrSafety
  import opened CidrExhaustion
  import opened NewNames

  /** The run, continued by more without errors and never more than N of them, ends in s. */
  ghost predicate Continues(t: Table, run: seq<Action>, more: seq<Action>, s: State) {
    && Exec(Fresh(t), run + more) == s && Uncrowded(Fresh(t), run + more)
    && forall a :: a in more ==> ErrorFree(a)
  }

  ghost predicate LeadsTo(t: Table, run: seq<Action>, s: State) {
    exists more :: Continues(t, run, more, s)
  }

  lemma Onward(t: Table, run: seq<Action>, s: State, a: Action)
    requires LeadsTo(t, run, s) && ErrorFree(a) && Load(Step(s, a)) <= MAX_TENANTS
    ensures LeadsTo(t, run, Step(s, a))
  {
    var more :| Continues(t, run, more, s);
    var longer := run + more + [a];
    ExecOne(Fresh(t), run + more, a);
    assert longer[..|longer| - 1] == run + more;
    assert longer == run + (more + [a]);
    assert Continues(t, run, more + [a], Step(s, a));
  }

  lemma KnownOf(t: Table, run: seq<Action>, s: State)
    requires LeadsTo(t, run, s)
    ensures Inv(s) && Load(s) <= MAX_TENANTS
  {
    var more :| Continues(t, run, more, s);
    RunKeepsInv(Fresh(t), run + more);
  }

  // ----- Moves that add nobody to the crowd.

  /** A statement without an error adds nobody: the call keeps its place, or goes, or makes way for the pod
      row it lets go of, which is deleted. */
  lemma MoveKeepsCrowd(s: State, p: nat)
    requires Inv(s) && p in s.procs && s.procs[p].alive
    ensures Load(Step(s, Statement(p, Success))) <= Load(s)
  {
    var s' := Step(s, Statement(p, Success));
    assert Backed(s.rows, s.procs[p]);
    forall t | t in Crowd(s')
      ensures t in Crowd(s)
    {
      if t.Orphan? {
        assert p in s'.procs && PodOf(s'.procs[p].pc) != t.i;
        assert forall q :: q in s.procs && q != p ==> q in s'.procs && s'.procs[q] == s.procs[q];
        assert Unclaimed(s, t.i);
      }
    }
    SubsetSize(Crowd(s'), Crowd(s));
  }

  lemma ReleaseKeepsCrowd(s: State, p: nat)
    requires p in s.procs && s.procs[p].alive && s.procs[p].pc.Holding?
    ensures Load(Step(s, Release(p))) <= Load(s)
  {
    var s' := Step(s, Release(p));
    forall t | t in Crowd(s')
      ensures t in Crowd(s)
    {
      if t.Orphan? {
        assert forall q :: q in s.procs ==> q in s'.procs && PodOf(s'.procs[q].pc) == PodOf(s.procs[q].pc);
        assert Unclaimed(s, t.i);
      }
    }
    SubsetSize(Crowd(s'), Crowd(s));
  }

  lemma StartAddsOne(s: State, p: nat, tenant: nat)
    requires p !in s.procs
    ensures Load(Step(s, Start(p, tenant))) <= Load(s) + 1
  {
    var s' := Step(s, Start(p, tenant));
    forall t | t in Crowd(s')
      ensures t in Crowd(s) + {Call(p)}
    {
      if t.Orphan? {
        assert forall q :: q in s.procs ==> q in s'.procs && s'.procs[q] == s.procs[q];
        assert Unclaimed(s, t.i);
      }
    }
    SubsetSize(Crowd(s'), Crowd(s) + {Call(p)});
  }

  // ----- Without scans, the crowd is the taken pod rows.

  ghost function Scanners(s: State): (r: set<nat>)
    ensures forall p :: p in r <==> p in s.procs && s.procs[p].alive && s.procs[p].pc.Scan?
  {
    set p | p in s.procs && s.procs[p].alive && s.procs[p].pc.Scan?
  }

  ghost function FreePods(s: State): (r: set<nat>)
    ensures forall i :: i in r <==> InRange(i) && Pod(i) !in s.rows
  {
    set i: nat | 1 <= i <= MAX_TENANTS && Pod(i) !in s.rows
  }

  lemma {:induction false} InjectionSize<A, B>(xs: set<A>, ys: set<B>, f: A -> B)
    requires forall x :: x in xs ==> f(x) in ys
    requires forall x, y :: x in xs && y in xs && f(x) == f(y) ==> x == y
    ensures |xs| <= |ys|
  {
    if xs != {} {
      var x :| x in xs;
      InjectionSize(xs - {x}, ys - {f(x)}, f);
    }
  }

  /** The indices up to n. */
  ghost function Indices(n: nat): (r: set<nat>)
    ensures forall i :: i in r <==> 1 <= i <= n
    ensures |r| == n
  {
    if n == 0 then {} else Indices(n - 1) + {n}
  }

  /** The pod block that a token stands for when nobody scans. */
  ghost function BlockOf(s: State, t: Token): nat {
    match t
    case Call(p) => if p in s.procs then PodOf(s.procs[p].pc) else 0
    case Orphan(i) => i
  }

  lemma CrowdHasBlock(s: State, t: Token)
    requires Inv(s) && Scanners(s) == {} && t in Crowd(s)
    ensures InRange(BlockOf(s, t)) && Pod(BlockOf(s, t)) in s.rows
  {
    if t.Call? {
      assert Backed(s.rows, s.procs[t.p]) && t.p !in Scanners(s);
    }
  }

  lemma OneBlockEach(s: State, t: Token, u: Token)
    requires Inv(s) && Scanners(s) == {} && t in Crowd(s) && u in Crowd(s) && BlockOf(s, t) == BlockOf(s, u)
    ensures t == u
  {
    CrowdHasBlock(s, t);
  }

  lemma RoomWhileFree(s: State, n: nat)
    requires Inv(s) && Scanners(s) == {} && FreePods(s) != {} && n == MAX_TENANTS
    ensures Load(s) < n
  {
    var taken := Indices(n) - FreePods(s);
    forall t | t in Crowd(s)
      ensures BlockOf(s, t) in taken
    {
      CrowdHasBlock(s, t);
    }
    forall t, u | t in Crowd(s) && u in Crowd(s) && BlockOf(s, t) == BlockOf(s, u)
      ensures t == u
    {
      OneBlockEach(s, t, u);
    }
    InjectionSize(Crowd(s), taken, t => BlockOf(s, t));
    var i :| i in FreePods(s);
    SubsetSize(taken, Indices(n) - {i});
  }

  // ----- Taking every free pod block.

  /** Only call q has moved, and it has claimed the next free pod block or reported exhaustion. */
  ghost predicate Settled(s: State, s': State, q: nat) {
    && q in s.procs && s.procs[q].pc.Scan? && s'.procs.Keys == s.procs.Keys
    && (forall x :: x in s.procs && x != q ==> s'.procs[x] == s.procs[x])
    && s'.procs[q].alive == s.procs[q].alive
    && var pc := s'.procs[q].pc;
       if pc.HasPod? then
         && s.procs[q].pc.i <= pc.i <= MAX_TENANTS && pc.i != 0 && Pod(pc.i) !in s.rows
         && (forall k :: s.procs[q].pc.i <= k < pc.i ==> Pod(k) in s.rows)
         && s'.rows == s.rows[Pod(pc.i) := Row(s.procs[q].tenant, POD)]
       else pc.Exhausted?
  }

  /** One probe of a scan: it claims the block, or finds it taken and moves on. */
  lemma Probe(s: State, q: nat)
    requires Inv(s) && q in s.procs && s.procs[q].alive && s.procs[q].pc.Scan?
    ensures var (i, s') := (s.procs[q].pc.i, Step(s, Statement(q, Success)));
            && InRange(i) && q in s'.procs
            && if Pod(i) in s.rows then s' == State(s.rows, s.procs[q := s.procs[q].(pc := Advance(i))])
               else Settled(s, s', q)
  {
    assert Backed(s.rows, s.procs[q]);
  }

  lemma {:induction false} Settle(t: Table, run: seq<Action>, s: State, q: nat) returns (s': State)
    requires LeadsTo(t, run, s) && q in s.procs && s.procs[q].alive && s.procs[q].pc.Scan?
    ensures LeadsTo(t, run, s') && Settled(s, s', q)
    decreases MAX_TENANTS + 1 - s.procs[q].pc.i
  {
    KnownOf(t, run, s);
    MoveKeepsCrowd(s, q);
    Onward(t, run, s, Statement(q, Success));
    Probe(s, q);
    s' := Step(s, Statement(q, Success));
    if s'.procs[q].pc.Scan? {
      var s1 := s';
      s' := Settle(t, run, s1, q);
      SettledLater(s, s1, s', q);
    }
  }

  lemma SettledLater(s: State, s1: State, s': State, q: nat)
    requires q in s.procs && s.procs[q].pc.Scan? && Pod(s.procs[q].pc.i) in s.rows
    requires s1 == State(s.rows, s.procs[q := s.procs[q].(pc := Scan(s.procs[q].pc.i + 1))]) && Settled(s1, s', q)
    ensures Settled(s, s', q)
  {
    assert forall x :: x in s.procs && x != q ==> s1.procs[x] == s.procs[x];
  }

  lemma SettledSets(s: State, s': State, q: nat)
    requires Settled(s, s', q)
    ensures Scanners(s') == Scanners(s) - {q}
    ensures s'.procs[q].pc.HasPod? ==>
            FreePods(s') == FreePods(s) - {s'.procs[q].pc.i} && s'.procs[q].pc.i in FreePods(s)
  {
    forall x
      ensures x in Scanners(s') <==> x in Scanners(s) && x != q
    {
    }
  }

  /** Call p holds pod block i, and its service insert will be refused. */
  ghost predicate Blocked(s: State, p: nat, i: nat) {
    && p in s.procs && s.procs[p].alive && s.procs[p].pc == HasPod(i)
    && InRange(i) && Pod(i) in s.rows && Svc(i) in s.rows
  }

  ghost predicate Exhausts(s: State) {
    exists p :: p in s.procs && s.procs[p].pc.Exhausted?
  }

  lemma {:induction false} SettleAll(t: Table, run: seq<Action>, s: State, p: nat, i: nat) returns (s': State)
    requires LeadsTo(t, run, s) && Blocked(s, p, i)
    ensures LeadsTo(t, run, s') && (Exhausts(s') || (Blocked(s', p, i) && Scanners(s') == {}))
    decreases |Scanners(s)|
  {
    s' := s;
    if Scanners(s) != {} {
      var q :| q in Scanners(s);
      s' := Settle(t, run, s, q);
      if s'.procs[q].pc.HasPod? {
        SettledSets(s, s', q);
        s' := SettleAll(t, run, s', p, i);
      }
    }
  }

  /** A new call claims one more free pod block, or reports exhaustion. */
  lemma FillOne(t: Table, run: seq<Action>, s: State, p: nat, i: nat) returns (s': State)
    requires LeadsTo(t, run, s) && Blocked(s, p, i) && Scanners(s) == {} && FreePods(s) != {}
    ensures LeadsTo(t, run, s')
    ensures Exhausts(s') || (Blocked(s', p, i) && Scanners(s') == {} && FreePods(s') < FreePods(s))
  {
    KnownOf(t, run, s);
    var q := FreshNat(s.procs.Keys);
    assert q !in s.procs;
    RoomWhileFree(s, MAX_TENANTS);
    StartAddsOne(s, q, 0);
    Onward(t, run, s, Start(q, 0));
    var s1 := Step(s, Start(q, 0));
    s' := Settle(t, run, s1, q);
    if s'.procs[q].pc.HasPod? {
      SettledSets(s1, s', q);
      assert Scanners(s1) == {q} && FreePods(s1) == FreePods(s);
    }
  }

  lemma {:induction false} FillAll(t: Table, run: seq<Action>, s: State, p: nat, i: nat) returns (s': State)
    requires LeadsTo(t, run, s) && Blocked(s, p, i) && Scanners(s) == {}
    ensures LeadsTo(t, run, s') && (Exhausts(s') || (Blocked(s', p, i) && FreePods(s') == {}))
    decreases FreePods(s)
  {
    s' := s;
    if FreePods(s) != {} {
      s' := FillOne(t, run, s, p, i);
      if !Exhausts(s') {
        s' := FillAll(t, run, s', p, i);
      }
    }
  }

  // ----- The refused call scans on to the end.

  lemma {:induction false} ScanToTheEnd(t: Table, run: seq<Action>, s: State, p: nat) returns (s': State)
    requires LeadsTo(t, run, s) && p in s.procs && s.procs[p].alive && s.procs[p].pc.Scan?
    requires forall k :: s.procs[p].pc.i <= k <= MAX_TENANTS ==> Pod(k) in s.rows
    ensures LeadsTo(t, run, s') && Exhausts(s')
  {
    s' := Settle(t, run, s, p);
    assert s'.procs[p].pc.Exhausted?;
  }

  lemma GiveUp(t: Table, run: seq<Action>, s: State, p: nat, i: nat) returns (s': State)
    requires LeadsTo(t, run, s) && Blocked(s, p, i) && FreePods(s) == {}
    ensures LeadsTo(t, run, s') && Exhausts(s')
  {
    KnownOf(t, run, s);
    MoveKeepsCrowd(s, p);
    Onward(t, run, s, Statement(p, Success));
    var s1 := Step(s, Statement(p, Success));
    assert s1 == State(s.rows, s.procs[p := s.procs[p].(pc := Rollback(i, false))]);
    KnownOf(t, run, s1);
    MoveKeepsCrowd(s1, p);
    Onward(t, run, s1, Statement(p, Success));
    s' := Step(s1, Statement(p, Success));
    assert forall k :: InRange(k) ==> k !in FreePods(s);
    if i < MAX_TENANTS {
      s' := ScanToTheEnd(t, run, s', p);
    } else {
      assert s'.procs[p].pc.Exhausted?;
    }
  }

  /** Wherever a service insert can be refused, after any errors, crashes and releases, the run has an
      error-free continuation in which never more than N calls scan or hold and which ends with a call
      that reports exhaustion. */
  lemma RejectionExhausts(t: Table, run: seq<Action>, p: nat)
    requires Uncrowded(Fresh(t), run) && ServiceRejected(Exec(Fresh(t), run), Statement(p, Success))
    ensures exists s' :: LeadsTo(t, run, s') && Exhausts(s')
  {
    var s := Exec(Fresh(t), run);
    assert run + [] == run;
    assert Continues(t, run, [], s);
    KnownOf(t, run, s);
    assert Backed(s.rows, s.procs[p]);
    var i := s.procs[p].pc.i;
    var s' := SettleAll(t, run, s, p, i);
    if !Exhausts(s') {
      s' := FillAll(t, run, s', p, i);
      if !Exhausts(s') {
        s' := GiveUp(t, run, s', p, i);
      }
    }
  }

  // ----- The two directions together.

  ghost predicate CanExhaust(t: Table) {
    exists run :: Uncrowded(Fresh(t), run) && Exhausts(Exec(Fresh(t), run))
  }

  ghost predicate RefusedAfter(t: Table, run: seq<Action>, p: nat) {
    Uncrowded(Fresh(t), run) && ServiceRejected(Exec(Fresh(t), run), Statement(p, Success))
  }

  ghost predicate CanRefuse(t: Table) {
    exists run, p :: RefusedAfter(t, run, p)
  }

  lemma {:induction false} RefusalIn(t: Table, run: seq<Action>)
    requires Uncrowded(Fresh(t), run) && !NeverRejected(Fresh(t), run)
    ensures CanRefuse(t)
  {
    var n := |run| - 1;
    if NeverRejected(Fresh(t), run[..n]) {
      assert RefusedAfter(t, run[..n], run[n].p);
    } else {
      RefusalIn(t, run[..n]);
    }
  }

  /** From any table, and whatever fails on the way, calls that are never more than N at a time can end
      with one that reports exhaustion exactly if they can bring one to a service insert that is refused. */
  lemma ExhaustsIffRefuses(t: Table)
    ensures CanExhaust(t) <==> CanRefuse(t)
  {
    if run :| Uncrowded(Fresh(t), run) && Exhausts(Exec(Fresh(t), run)) {
      if NeverRejected(Fresh(t), run) {
        var p :| p in Exec(Fresh(t), run).procs && Exec(Fresh(t), run).procs[p].pc.Exhausted?;
        NeverExhausted(t, run, p);
      } else {
        RefusalIn(t, run);
      }
    }
    if run, p :| RefusedAfter(t, run, p) {
      RejectionExhausts(t, run, p);
      var s' :| LeadsTo(t, run, s') && Exhausts(s');
      var more :| Continues(t, run, more, s');
      assert Exhausts(Exec(Fresh(t), run + more));
    }
  }

  // ----- Which tables allow it.

  /** A new call takes the least free pod block, or reports exhaustion. */
  lemma NewCall(t: Table, run: seq<Action>, s: State) returns (s': State, q: nat)
    requires LeadsTo(t, run, s) && Scanners(s) == {} && FreePods(s) != {}
    ensures LeadsTo(t, run, s') && q !in s.procs && q in s'.procs && s'.procs[q].alive
    ensures Exhausts(s') || TookLeast(s, s', q)
  {
    KnownOf(t, run, s);
    q := FreshNat(s.procs.Keys);
    assert q !in s.procs;
    RoomWhileFree(s, MAX_TENANTS);
    StartAddsOne(s, q, 0);
    Onward(t, run, s, Start(q, 0));
    var s1 := Step(s, Start(q, 0));
    s' := Settle(t, run, s1, q);
    if s'.procs[q].pc.HasPod? {
      SettledSets(s1, s', q);
    }
  }

  ghost predicate TookLeast(s: State, s': State, q: nat) {
    && q in s'.procs && s'.procs[q].pc.HasPod? && Scanners(s') == {}
    && var i := s'.procs[q].pc.i;
       && i in FreePods(s) && (forall k :: k in FreePods(s) ==> i <= k)
       && s'.rows == s.rows[Pod(i) := Row(0, POD)]
  }

  lemma Statements(t: Table, run: seq<Action>, s: State, q: nat) returns (s': State)
    requires LeadsTo(t, run, s) && q in s.procs && s.procs[q].alive
    ensures LeadsTo(t, run, s') && s' == Step(s, Statement(q, Success))
  {
    KnownOf(t, run, s);
    MoveKeepsCrowd(s, q);
    Onward(t, run, s, Statement(q, Success));
    s' := Step(s, Statement(q, Success));
  }

  /** A call that has taken a pod block with its service block free goes on to hold the pair, and then
      deletes its pod row: what is left is its service row. */
  lemma HoldAndDropPod(t: Table, run: seq<Action>, s: State, q: nat, i: nat) returns (s': State)
    requires LeadsTo(t, run, s) && q in s.procs && s.procs[q].alive && s.procs[q].pc == HasPod(i) && Svc(i) !in s.rows
    ensures LeadsTo(t, run, s') && s'.procs == s.procs[q := s.procs[q].(pc := DropSvc(i, false))]
    ensures s'.rows == s.rows[Svc(i) := Row(s.procs[q].tenant, SERVICE)] - {Pod(i)}
  {
    var s1 := Statements(t, run, s, q);
    HoldStep(s, q, i);
    var s2 := Releases(t, run, s1, q);
    DropStep(s1, q, i);
    s' := Statements(t, run, s2, q);
    Overwritten(s.procs, q, s1.procs[q], s'.procs[q]);
  }

  lemma Overwritten(m: map<nat, Proc>, q: nat, before: Proc, after: Proc)
    ensures m[q := before][q := after] == m[q := after]
  {
  }

  lemma DropStep(s: State, q: nat, i: nat)
    requires q in s.procs && s.procs[q].alive && s.procs[q].pc == Holding(i)
    ensures var s' := Step(Step(s, Release(q)), Statement(q, Success));
            s'.rows == s.rows - {Pod(i)} && s'.procs == s.procs[q := s.procs[q].(pc := DropSvc(i, false))]
  {
  }

  lemma HoldStep(s: State, q: nat, i: nat)
    requires q in s.procs && s.procs[q].alive && s.procs[q].pc == HasPod(i) && Svc(i) !in s.rows
    ensures var s' := Step(s, Statement(q, Success));
            && s'.rows == s.rows[Svc(i) := Row(s.procs[q].tenant, SERVICE)]
            && s'.procs == s.procs[q := s.procs[q].(pc := Holding(i))]
  {
  }

  lemma Releases(t: Table, run: seq<Action>, s: State, q: nat) returns (s': State)
    requires LeadsTo(t, run, s) && q in s.procs && s.procs[q].alive && s.procs[q].pc.Holding?
    ensures LeadsTo(t, run, s') && s' == Step(s, Release(q))
  {
    KnownOf(t, run, s);
    ReleaseKeepsCrowd(s, q);
    Onward(t, run, s, Release(q));
    s' := Step(s, Release(q));
  }

  /** The state is one at which a service insert can be refused. */
  ghost predicate Refuses(s: State) {
    exists p :: ServiceRejected(s, Statement(p, Success))
  }

  lemma StartsEmpty(t: Table)
    ensures LeadsTo(t, [], Fresh(t))
  {
    FreshIsCrowded(t);
    SubsetSize(Crowd(Fresh(t)), Tokens(Fresh(t), 1));
    assert Continues(t, [], [], Fresh(t));
  }

  /** The call that took the least free pod block drops it again, and the next one takes it in turn: in
      vain, for the service row is still there. */
  lemma SecondIsRefused(t: Table, s: State, s1: State, q: nat) returns (s': State)
    requires LeadsTo(t, [], s1) && TookLeast(s, s1, q) && s1.procs[q].alive && Svc(s1.procs[q].pc.i) !in s1.rows
    ensures LeadsTo(t, [], s') && (Exhausts(s') || Refuses(s'))
  {
    var i := s1.procs[q].pc.i;
    var s2 := HoldAndDropPod(t, [], s1, q, i);
    forall p
      ensures p !in Scanners(s2)
    {
      assert p !in Scanners(s1);
    }
    assert FreePods(s2) == FreePods(s);
    var p;
    s', p := NewCall(t, [], s2);
    if !Exhausts(s') {
      assert s'.procs[p].pc.i == i && Svc(i) in s'.rows;
      assert ServiceRejected(s', Statement(p, Success));
    }
  }

  lemma RefusedOrExhausted(t: Table) returns (s: State)
    requires FreePods(Fresh(t)) != {}
    ensures LeadsTo(t, [], s) && (Exhausts(s) || Refuses(s))
  {
    StartsEmpty(t);
    var q;
    s, q := NewCall(t, [], Fresh(t));
    if !Exhausts(s) {
      if Svc(s.procs[q].pc.i) in s.rows {
        assert ServiceRejected(s, Statement(q, Success));
      } else {
        s := SecondIsRefused(t, Fresh(t), s, q);
      }
    }
  }

  lemma FreePodExhausts(t: Table)
    requires FreePods(Fresh(t)) != {}
    ensures CanExhaust(t)
  {
    var s := RefusedOrExhausted(t);
    var more :| Continues(t, [], more, s);
    assert [] + more == more;
    if !Exhausts(s) {
      var p :| ServiceRejected(s, Statement(p, Success));
      assert RefusedAfter(t, more, p);
      ExhaustsIffRefuses(t);
    }
  }

  lemma FullOrphan(s: State, p: nat, i: nat)
    requires s.procs.Keys == {p} && PodOf(s.procs[p].pc) == 0 && InRange(i) && Pod(i) in s.rows
    ensures Orphan(i) in Crowd(s)
  {
    assert Unclaimed(s, i);
  }

  lemma ManyTokens(tokens: set<Token>, p: nat, n: nat)
    requires Call(p) in tokens && forall i :: i in Indices(n) ==> Orphan(i) in tokens
    ensures |tokens| > n
  {
    var rest := tokens - {Call(p)};
    InjectionSize(Indices(n), rest, i => Orphan(i));
    assert tokens == rest + {Call(p)};
  }

  /** On a full table a new call is one too many. */
  lemma FullIsFull(t: Table, p: nat, tenant: nat, n: nat)
    requires FreePods(Fresh(t)) == {} && n == MAX_TENANTS
    ensures Load(State(t, map[p := Proc(tenant, Scan(1), true)])) > n
  {
    var s := State(t, map[p := Proc(tenant, Scan(1), true)]);
    forall i | i in Indices(n)
      ensures Orphan(i) in Crowd(s)
    {
      assert i !in FreePods(Fresh(t));
      FullOrphan(s, p, i);
    }
    ManyTokens(Crowd(s), p, n);
  }

  lemma {:induction false} FullStaysFresh(t: Table, run: seq<Action>)
    requires FreePods(Fresh(t)) == {} && Uncrowded(Fresh(t), run)
    ensures Exec(Fresh(t), run) == Fresh(t)
  {
    if run != [] {
      var n := |run| - 1;
      FullStaysFresh(t, run[..n]);
      if run[n].Start? {
        FullIsFull(t, run[n].p, run[n].tenant, MAX_TENANTS);
      }
    }
  }

  /** Which tables the bound does not protect: calls that are never more than N at a time, counting the
      rows that were there, can end with one that reports exhaustion exactly if a pod block is free. */
  lemma ExhaustsIffFreePod(t: Table)
    ensures CanExhaust(t) <==> exists i :: InRange(i) && Pod(i) !in t
  {
    if i :| InRange(i) && Pod(i) !in t {
      assert i in FreePods(Fresh(t));
      FreePodExhausts(t);
    } else {
      assert FreePods(Fresh(t)) == {};
      if run :| Uncrowded(Fresh(t), run) && Exhausts(Exec(Fresh(t), run)) {
        FullStaysFresh(t, run);
        assert false;
      }
    }
  }
}

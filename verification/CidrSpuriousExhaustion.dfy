// The two edges of the exhaustion theorem: the bound is exact, and its proviso is needed.

module CidrSpuriousExhaustion {
  import opened Faults
  import opened CidrBlocks
  import opened CidrMachine
  import opened CidrSafety
  import opened CidrExhaustion

  /** The call p, and nothing else, moved to another position. */
  function Moved(s: State, p: nat, pc: Pc): State
    requires p in s.procs
  {
    s.(procs := s.procs[p := s.procs[p].(pc := pc)])
  }

  lemma ProbeTaken(s: State, p: nat, i: nat)
    requires p in s.procs && s.procs[p].alive && Pod(i) in s.rows
    ensures Step(Moved(s, p, Scan(i)), Statement(p, Success)) == Moved(s, p, Advance(i))
  {
    assert s.procs[p := s.procs[p].(pc := Scan(i))][p := s.procs[p].(pc := Advance(i))] ==
        s.procs[p := s.procs[p].(pc := Advance(i))];
  }

  /** A run without errors can end in s. */
  ghost predicate Ends(s0: State, s: State) {
    exists run :: Exec(s0, run) == s && forall a :: a in run ==> ErrorFree(a)
  }

  lemma OneMore(s0: State, s: State, a: Action)
    requires Ends(s0, s) && ErrorFree(a)
    ensures Ends(s0, Step(s, a))
  {
    var run :| Exec(s0, run) == s && forall a :: a in run ==> ErrorFree(a);
    ExecOne(s0, run, a);
    assert Exec(s0, run + [a]) == Step(s, a);
  }

  lemma {:induction false} ScanOverTaken(s0: State, s: State, p: nat, i: nat)
    requires p in s.procs && s.procs[p].alive && InRange(i) && Ends(s0, Moved(s, p, Scan(i)))
    requires forall k :: i <= k <= MAX_TENANTS ==> Pod(k) in s.rows
    ensures Ends(s0, Moved(s, p, Exhausted))
    decreases MAX_TENANTS - i
  {
    ProbeTaken(s, p, i);
    OneMore(s0, Moved(s, p, Scan(i)), Statement(p, Success));
    if i < MAX_TENANTS {
      ScanOverTaken(s0, s, p, i + 1);
    }
  }

  /** One call more than N, without any fault: on a full table a call reports exhaustion. */
  lemma FullTableExhausts(initial: Table, p: nat, tenant: nat)
    requires forall k :: InRange(k) ==> Pod(k) in initial
    ensures Ends(Fresh(initial), State(initial, map[p := Proc(tenant, Exhausted, true)]))
  {
    var s0 := Fresh(initial);
    var s := State(initial, map[p := Proc(tenant, Scan(1), true)]);
    assert Exec(s0, []) == s0;
    OneMore(s0, s0, Start(p, tenant));
    assert Step(s0, Start(p, tenant)) == s == Moved(s, p, Scan(1));
    ScanOverTaken(s0, s, p, 1);
    assert Moved(s, p, Exhausted) == State(initial, map[p := Proc(tenant, Exhausted, true)]);
  }

  ghost predicate HeldBy(s: State, i: nat, p: nat) {
    p in s.procs && PodOf(s.procs[p].pc) == i
  }

  /** At most two calls occupy an index, and pod rows 1 and 2, where taken, are theirs. */
  ghost predicate TwoCalls(s: State, x: nat, y: nat) {
    && (Pod(1) in s.rows ==> HeldBy(s, 1, x) || HeldBy(s, 1, y))
    && (Pod(2) in s.rows ==> HeldBy(s, 2, x) || HeldBy(s, 2, y))
    && (forall p :: p in s.procs && Place(s.procs[p]) != 0 && !s.procs[p].pc.Exhausted? ==> p == x || p == y)
  }

  lemma TwoCallsLoad(s: State, x: nat, y: nat)
    requires TwoCalls(s, x, y)
    ensures Load(s) <= MAX_TENANTS
  {
    OrphansFit(s, 3, MAX_TENANTS);
    var orphans := set i | 3 <= i <= MAX_TENANTS && Unclaimed(s, i) :: Orphan(i);
    LoadWithin(s, orphans + {Call(x), Call(y)});
  }

  /** A run without errors that never has more than N calls scanning or holding. */
  ghost predicate Light(t: Table, run: seq<Action>, s: State) {
    && Exec(Fresh(t), run) == s && Uncrowded(Fresh(t), run)
    && forall a :: a in run ==> ErrorFree(a)
  }

  ghost predicate Visited(t: Table, s: State) {
    exists run :: Light(t, run, s)
  }

  /** No row of pair 1 or 2 is in the table. */
  ghost predicate TwoFree(t: Table) {
    Pod(1) !in t && Svc(1) !in t && Pod(2) !in t && Svc(2) !in t
  }

  lemma Visit(t: Table, s: State, a: Action, x: nat, y: nat)
    requires Visited(t, s) && ErrorFree(a) && TwoCalls(Step(s, a), x, y)
    ensures Visited(t, Step(s, a))
  {
    var run :| Light(t, run, s);
    var longer := run + [a];
    ExecOne(Fresh(t), run, a);
    TwoCallsLoad(Step(s, a), x, y);
    assert longer[..|longer| - 1] == run;
    assert Light(t, longer, Step(s, a));
  }

  /** The calls of the race: 1 has released pair 1 or is about to, 2 loses it, 3 takes pair 2. */
  function One(pc: Pc): map<nat, Proc> {
    map[1 := Proc(1, pc, true)]
  }

  function Two(pc1: Pc, pc2: Pc): map<nat, Proc> {
    map[1 := Proc(1, pc1, true), 2 := Proc(2, pc2, true)]
  }

  function Three(pc2: Pc, pc3: Pc): map<nat, Proc> {
    map[1 := Proc(1, Released(1, false, false), true), 2 := Proc(2, pc2, true), 3 := Proc(3, pc3, true)]
  }

  /** The race, state by state: call 1 takes pair 1 and deletes its pod row (0-5); call 2 takes pod
      block 1, is refused service block 1, and is about to roll back when call 1 deletes its service
      row (6-9); meanwhile call 3 finds pod block 1 taken and moves on to pair 2 (10-14). */
  function Scene(t: Table, n: nat): State
    requires n <= 14
  {
    var pod1, svc1 := t[Pod(1) := Row(1, POD)], t[Svc(1) := Row(1, SERVICE)];
    var both, pod2 := svc1[Pod(1) := Row(2, POD)], t[Pod(1) := Row(2, POD)];
    if n == 0 then Fresh(t)
    else if n == 1 then State(t, One(Scan(1)))
    else if n == 2 then State(pod1, One(HasPod(1)))
    else if n == 3 then State(pod1[Svc(1) := Row(1, SERVICE)], One(Holding(1)))
    else if n == 4 then State(pod1[Svc(1) := Row(1, SERVICE)], One(DropPod(1)))
    else if n == 5 then State(svc1, One(DropSvc(1, false)))
    else if n == 6 then State(svc1, Two(DropSvc(1, false), Scan(1)))
    else if n == 7 then State(both, Two(DropSvc(1, false), HasPod(1)))
    else if n == 8 then State(both, Two(DropSvc(1, false), Rollback(1, false)))
    else if n == 9 then State(pod2, Two(Released(1, false, false), Rollback(1, false)))
    else if n == 10 then State(pod2, Three(Rollback(1, false), Scan(1)))
    else if n == 11 then State(pod2, Three(Rollback(1, false), Scan(2)))
    else if n == 12 then State(t, Three(Scan(2), Scan(2)))
    else if n == 13 then State(t[Pod(2) := Row(3, POD)], Three(Scan(2), HasPod(2)))
    else State(t[Pod(2) := Row(3, POD)][Svc(2) := Row(3, SERVICE)], Three(Scan(2), Holding(2)))
  }

  function Cue(n: nat): Action {
    if n == 0 then Start(1, 1)
    else if n == 3 then Release(1)
    else if n == 5 then Start(2, 2)
    else if n == 9 then Start(3, 3)
    else if n in {1, 2, 4, 8} then Statement(1, Success)
    else if n in {6, 7, 11} then Statement(2, Success)
    else Statement(3, Success)
  }

  lemma FirstScene(t: Table, n: nat)
    requires TwoFree(t) && n < 5
    ensures Step(Scene(t, n), Cue(n)) == Scene(t, n + 1) && TwoCalls(Scene(t, n + 1), 1, 2)
  {
    if n == 4 {
      assert t[Pod(1) := Row(1, POD)][Svc(1) := Row(1, SERVICE)] - {Pod(1)} == t[Svc(1) := Row(1, SERVICE)];
    }
  }

  lemma MiddleScene(t: Table, n: nat)
    requires TwoFree(t) && 5 <= n < 9
    ensures Step(Scene(t, n), Cue(n)) == Scene(t, n + 1) && TwoCalls(Scene(t, n + 1), 1, 2)
  {
    if n == 8 {
      assert t[Svc(1) := Row(1, SERVICE)][Pod(1) := Row(2, POD)] - {Svc(1)} == t[Pod(1) := Row(2, POD)];
    }
  }

  lemma LateScene(t: Table, n: nat)
    requires TwoFree(t) && 9 <= n < 12
    ensures Step(Scene(t, n), Cue(n)) == Scene(t, n + 1) && TwoCalls(Scene(t, n + 1), 2, 3)
  {
    if n == 11 {
      assert t[Pod(1) := Row(2, POD)] - {Pod(1)} == t;
    }
  }

  lemma FinalScene(t: Table, n: nat)
    requires TwoFree(t) && 12 <= n < 14
    ensures Step(Scene(t, n), Cue(n)) == Scene(t, n + 1) && TwoCalls(Scene(t, n + 1), 2, 3)
  {
  }

  lemma NextScene(t: Table, n: nat)
    requires TwoFree(t) && n < 14
    ensures Step(Scene(t, n), Cue(n)) == Scene(t, n + 1)
    ensures if n < 9 then TwoCalls(Scene(t, n + 1), 1, 2) else TwoCalls(Scene(t, n + 1), 2, 3)
  {
    if n < 5 {
      FirstScene(t, n);
    } else if n < 9 {
      MiddleScene(t, n);
    } else if n < 12 {
      LateScene(t, n);
    } else {
      FinalScene(t, n);
    }
  }

  lemma SceneZero(t: Table)
    requires TwoFree(t)
    ensures Visited(t, Fresh(t))
  {
    TwoCallsLoad(Fresh(t), 1, 2);
    assert Light(t, [], Fresh(t));
  }

  lemma {:induction false} SceneIsVisited(t: Table, n: nat)
    requires TwoFree(t) && n <= 14
    ensures Visited(t, Scene(t, n))
  {
    if n == 0 {
      SceneZero(t);
    } else {
      var before := n - 1;
      SceneIsVisited(t, before);
      NextScene(t, before);
      Visit(t, Scene(t, before), Cue(before), if before < 9 then 1 else 2, if before < 9 then 2 else 3);
    }
  }

  lemma {:induction false} VisitTheRest(t: Table, s: State, p: nat, i: nat, y: nat)
    requires p in s.procs && s.procs[p].alive && InRange(i) && PodOf(s.procs[p].pc) == 0
    requires Visited(t, Moved(s, p, Scan(i))) && TwoCalls(s, p, y)
    requires forall k :: i <= k <= MAX_TENANTS ==> Pod(k) in s.rows
    ensures Visited(t, Moved(s, p, Exhausted))
    decreases MAX_TENANTS - i
  {
    ProbeTaken(s, p, i);
    Visit(t, Moved(s, p, Scan(i)), Statement(p, Success), p, y);
    if i < MAX_TENANTS {
      VisitTheRest(t, s, p, i + 1, y);
    }
  }

  /** The end of the race, with call 2 at the given position. */
  function Ending(t: Table, pc: Pc): State {
    State(t[Pod(2) := Row(3, POD)][Svc(2) := Row(3, SERVICE)], Three(pc, Holding(2)))
  }

  lemma EndingMoves(t: Table, pc: Pc)
    ensures Moved(Ending(t, Scan(2)), 2, pc) == Ending(t, pc)
  {
  }

  lemma EndingIsVisited(t: Table, n: nat)
    requires TwoFree(t) && n == 14
    ensures Visited(t, Ending(t, Scan(2))) && TwoCalls(Ending(t, Scan(2)), 2, 3)
  {
    SceneIsVisited(t, n);
    NextScene(t, n - 1);
    assert Scene(t, n) == Ending(t, Scan(2));
  }

  lemma LastScene(t: Table)
    requires TwoFree(t) && forall k :: 3 <= k <= MAX_TENANTS ==> Pod(k) in t && Svc(k) in t
    ensures Visited(t, Ending(t, Exhausted))
  {
    var s := Ending(t, Scan(2));
    EndingIsVisited(t, 14);
    EndingMoves(t, Scan(2));
    VisitTheRest(t, s, 2, 2, 3);
    EndingMoves(t, Exhausted);
  }

  /** Without the proviso it is false. Start with pairs 3 to N taken. A run in which never more than
      N calls scan or hold, no statement fails and nobody crashes ends with a call that reports
      exhaustion although both blocks of index 1 are free. ReleaseTenantCIDRs deletes the pod row
      first; that lets a scan take the pod row, be refused the service row, and move on for good. */
  lemma ExhaustedWithAFreePair(t: Table)
    requires TwoFree(t) && forall k :: 3 <= k <= MAX_TENANTS ==> Pod(k) in t && Svc(k) in t
    ensures exists run, p ::
              var s := Exec(Fresh(t), run);
              && Uncrowded(Fresh(t), run) && (forall a :: a in run ==> ErrorFree(a))
              && p in s.procs && s.procs[p].pc.Exhausted? && Pod(1) !in s.rows && Svc(1) !in s.rows
  {
    LastScene(t);
    var s := Ending(t, Exhausted);
    var run :| Light(t, run, s);
    assert 2 in s.procs && Exec(Fresh(t), run) == s;
  }
}

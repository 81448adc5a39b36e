// When AllocateCIDRs can report ErrCIDRExhausted: a counting argument over racing scans.

module CidrExhaustion {
  import opened Faults
  import opened CidrBlocks
  import opened CidrMachine
  import opened CidrLoneRows
  import opened CidrSafety

  /** Pod block i is taken and no call in the system owns it. */
  ghost predicate Unclaimed(s: State, i: nat) {
    Pod(i) in s.rows && forall p :: p in s.procs ==> PodOf(s.procs[p].pc) != i
  }

  /** The index a call occupies: where it scans, or whose pod row it owns; 0 when it occupies none. */
  function Place(proc: Proc): nat {
    match proc.pc
    case Scan(i) => if proc.alive then i else 0
    case Exhausted => MAX_TENANTS + 1
    case pc => PodOf(pc)
  }

  /** The things that can stand in the way of a scan: calls, and taken blocks without a call. */
  datatype Token = Call(p: nat) | Orphan(i: nat)

  ghost predicate Occupies(s: State, j: nat, t: Token) {
    match t
    case Call(p) => p in s.procs && Place(s.procs[p]) >= j
    case Orphan(i) => j <= i <= MAX_TENANTS && Unclaimed(s, i)
  }

  /** Everything that occupies an index from j upwards. */
  ghost function Tokens(s: State, j: nat): (r: set<Token>)
    ensures forall t :: t in r <==> Occupies(s, j, t)
  {
    (set p | p in s.procs && Place(s.procs[p]) >= j :: Call(p))
    + (set i | j <= i <= MAX_TENANTS && Unclaimed(s, i) :: Orphan(i))
  }

  /** The calls that are scanning or hold a pod row, and the taken pod rows that no call owns (they were
      there before, or their delete failed). */
  ghost function Crowd(s: State): (r: set<Token>)
    ensures forall t :: t in r <==> Occupies(s, 1, t) && (t.Call? ==> !s.procs[t.p].pc.Exhausted?)
  {
    set t | t in Tokens(s, 1) && (t.Call? ==> !s.procs[t.p].pc.Exhausted?)
  }

  ghost function Load(s: State): nat {
    |Crowd(s)|
  }

  lemma LoadWithin(s: State, bound: set<Token>)
    requires forall t :: Occupies(s, 1, t) && (t.Call? ==> !s.procs[t.p].pc.Exhausted?) ==> t in bound
    ensures Load(s) <= |bound|
  {
    SubsetSize(Crowd(s), bound);
  }

  /** The guard of the branch that rolls a pod row back and scans on. */
  ghost predicate ServiceRejected(s: State, a: Action) {
    && a.Statement? && a.o.Success? && a.p in s.procs && s.procs[a.p].alive
    && s.procs[a.p].pc.HasPod? && Svc(s.procs[a.p].pc.i) in s.rows
  }

  /** The guard of the branch that finds a pod block taken. */
  ghost predicate PodRejected(s: State, a: Action) {
    && a.Statement? && a.o.Success? && a.p in s.procs && s.procs[a.p].alive
    && s.procs[a.p].pc.Scan? && Pod(s.procs[a.p].pc.i) in s.rows
  }

  ghost predicate NobodyContinues(s: State) {
    forall p :: p in s.procs ==> !(s.procs[p].pc.Rollback? && !s.procs[p].pc.fatal)
  }

  /** At most N - j + 1 things occupy the indices from j upwards, and so nothing is past N. */
  ghost predicate Crowded(s: State) {
    && Inv(s) && NobodyContinues(s)
    && forall j :: 1 <= j <= MAX_TENANTS + 1 ==> |Tokens(s, j)| <= MAX_TENANTS + 1 - j
  }

  lemma {:induction false} SubsetSize<T>(a: set<T>, b: set<T>)
    requires a <= b
    ensures |a| <= |b|
  {
    if a != {} {
      var x :| x in a;
      SubsetSize(a - {x}, b - {x});
    }
  }

  /** One statement seen from pod block k: if afterwards the block is taken and not by this call,
      either that was so before, or the call stood at k and has just let go of the row. */
  lemma DbAtBlock(rows: Table, proc: Proc, o: Outcome, k: nat)
    requires Backed(rows, proc) && proc.alive && k != 0
    requires !(proc.pc.Rollback? && !proc.pc.fatal)
    requires !(proc.pc.Scan? && o.Success? && Pod(proc.pc.i) in rows)
    ensures var (rows', pc') := Db(rows, proc.tenant, proc.pc, o);
            var place' := Place(proc.(pc := pc'));
            && (place' == Place(proc) || place' == 0)
            && (Pod(k) in rows' && PodOf(pc') != k ==>
                  (Pod(k) in rows && PodOf(proc.pc) != k) || (k == Place(proc) && place' == 0))
  {
  }

  /** The moving call ends its claim on a pod row that stays in the table. */
  ghost predicate LeavesOrphan(s: State, a: Action, k: nat) {
    && a.p in s.procs && a.p in Step(s, a).procs
    && Place(s.procs[a.p]) == k && Place(Step(s, a).procs[a.p]) == 0
  }

  lemma UnclaimedAfter(s: State, a: Action, k: nat)
    requires Inv(s) && NobodyContinues(s) && !PodRejected(s, a) && k != 0
    ensures Unclaimed(Step(s, a), k) ==> Unclaimed(s, k) || LeavesOrphan(s, a, k)
  {
    var s' := Step(s, a);
    if Unclaimed(s', k) && s' != s {
      if a.p in s.procs {
        assert Backed(s.rows, s.procs[a.p]);
        if a.Statement? {
          DbAtBlock(s.rows, s.procs[a.p], a.o, k);
        }
        assert PodOf(s'.procs[a.p].pc) != k;
      }
      forall q | q in s.procs && q != a.p
        ensures PodOf(s.procs[q].pc) != k
      {
        assert q in s'.procs && s'.procs[q] == s.procs[q];
      }
    }
  }

  lemma PlaceAfter(s: State, a: Action)
    requires Inv(s) && NobodyContinues(s) && !PodRejected(s, a) && a.p in s.procs
    ensures a.p in Step(s, a).procs
    ensures Place(Step(s, a).procs[a.p]) == Place(s.procs[a.p]) || Place(Step(s, a).procs[a.p]) == 0
  {
    assert Backed(s.rows, s.procs[a.p]);
    if a.Statement? && s.procs[a.p].alive {
      DbAtBlock(s.rows, s.procs[a.p], a.o, 1);
    }
  }

  /** What the crowd sees of a step of p that is not a lost race: p stays or goes, and only the
      block where it stood can become unclaimed. */
  ghost predicate Quiet(s: State, s': State, p: nat) {
    && s'.procs.Keys == s.procs.Keys && p in s.procs
    && (forall q :: q in s.procs && q != p ==> s'.procs[q] == s.procs[q])
    && (Place(s'.procs[p]) == Place(s.procs[p]) || Place(s'.procs[p]) == 0)
    && (forall k :: k != 0 && Unclaimed(s', k) ==>
                      Unclaimed(s, k) || (k == Place(s.procs[p]) && Place(s'.procs[p]) == 0))
  }

  lemma StepIsQuiet(s: State, a: Action)
    requires Inv(s) && NobodyContinues(s) && !PodRejected(s, a) && a.p in s.procs
    ensures Quiet(s, Step(s, a), a.p)
  {
    PlaceAfter(s, a);
    forall k | k != 0 && Unclaimed(Step(s, a), k)
      ensures Unclaimed(s, k) || LeavesOrphan(s, a, k)
    {
      UnclaimedAfter(s, a, k);
    }
  }

  /** Where a token of the new state comes from. */
  lemma QuietToken(s: State, s': State, p: nat, j: nat, t: Token)
    requires Quiet(s, s', p) && j >= 1 && Occupies(s', j, t)
    ensures var left := Place(s.procs[p]) >= j && Place(s'.procs[p]) == 0;
            if left then t != Call(p) && (Occupies(s, j, t) || t == Orphan(Place(s.procs[p]))) else Occupies(s, j, t)
  {
  }

  lemma ReplacedSize<T>(a: set<T>, b: set<T>, x: T, y: T)
    requires x in a && forall t :: t in b ==> t != x && (t in a || t == y)
    ensures |b| <= |a|
  {
    SubsetSize(b, a - {x} + {y});
  }

  /** A quiet step never adds to the crowd: at most the moving call's place is taken over by the row
      it leaves behind. */
  lemma QuietTokens(s: State, s': State, p: nat, j: nat)
    requires Quiet(s, s', p) && j >= 1
    ensures |Tokens(s', j)| <= |Tokens(s, j)|
  {
    var i := Place(s.procs[p]);
    if i >= j && Place(s'.procs[p]) == 0 {
      forall t | t in Tokens(s', j)
        ensures t != Call(p) && (t in Tokens(s, j) || t == Orphan(i))
      {
        QuietToken(s, s', p, j, t);
      }
      assert Call(p) in Tokens(s, j);
      ReplacedSize(Tokens(s, j), Tokens(s', j), Call(p), Orphan(i));
    } else {
      forall t | t in Tokens(s', j)
        ensures t in Tokens(s, j)
      {
        QuietToken(s, s', p, j, t);
      }
      SubsetSize(Tokens(s', j), Tokens(s, j));
    }
  }

  lemma StartUnclaimed(s: State, a: Action, k: nat)
    requires a.p !in s.procs && Unclaimed(Step(s, a), k)
    ensures Unclaimed(s, k)
  {
    forall q | q in s.procs
      ensures PodOf(s.procs[q].pc) != k
    {
      assert q in Step(s, a).procs;
    }
  }

  /** A new call stands at index 1. */
  lemma StartTokens(s: State, a: Action, j: nat)
    requires a.p !in s.procs && (a.Start? ==> j >= 2)
    ensures |Tokens(Step(s, a), j)| <= |Tokens(s, j)|
  {
    var s' := Step(s, a);
    forall t | t in Tokens(s', j)
      ensures t in Tokens(s, j)
    {
      if t.Orphan? {
        StartUnclaimed(s, a, t.i);
      }
    }
    SubsetSize(Tokens(s', j), Tokens(s, j));
  }

  /** A lost race changes nothing but the loser's place. */
  lemma RejectedStep(s: State, a: Action)
    requires Inv(s) && PodRejected(s, a)
    ensures var (i, s') := (s.procs[a.p].pc.i, Step(s, a));
            && InRange(i) && Place(s.procs[a.p]) == i && a.p in s'.procs && Place(s'.procs[a.p]) == i + 1
            && s'.rows == s.rows && PodOf(s.procs[a.p].pc) == PodOf(s'.procs[a.p].pc) == 0
  {
    assert Backed(s.rows, s.procs[a.p]);
  }

  /** What the crowd sees of a lost race of p at index i. */
  ghost predicate Overtaken(s: State, s': State, p: nat, i: nat) {
    && s'.procs.Keys == s.procs.Keys && p in s.procs
    && (forall q :: q in s.procs && q != p ==> s'.procs[q] == s.procs[q])
    && Place(s.procs[p]) == i && Place(s'.procs[p]) == i + 1
    && PodOf(s.procs[p].pc) == PodOf(s'.procs[p].pc) == 0
    && s'.rows == s.rows && Pod(i) in s.rows && 1 <= i <= MAX_TENANTS
  }

  lemma RejectedOvertakes(s: State, a: Action)
    requires Inv(s) && PodRejected(s, a)
    ensures Overtaken(s, Step(s, a), a.p, s.procs[a.p].pc.i)
  {
    RejectedStep(s, a);
  }

  lemma OvertakenUnclaimed(s: State, s': State, p: nat, i: nat, k: nat)
    requires Overtaken(s, s', p, i) && k != 0
    ensures Unclaimed(s', k) <==> Unclaimed(s, k)
  {
    forall q | q in s.procs
      ensures q in s'.procs && PodOf(s'.procs[q].pc) == k <==> PodOf(s.procs[q].pc) == k
    {
    }
  }

  /** Nothing new stands at j or beyond but the loser, who comes from i. */
  lemma OvertakenToken(s: State, s': State, p: nat, i: nat, j: nat, t: Token)
    requires Overtaken(s, s', p, i) && j >= 1 && Occupies(s', j, t)
    ensures Occupies(s, if j == i + 1 then i else j, t)
  {
    if t.Orphan? {
      OvertakenUnclaimed(s, s', p, i, t.i);
    }
  }

  /** A lost race moves one call from i to i + 1 and leaves the winner at i. */
  lemma OvertakenTokens(s: State, s': State, p: nat, i: nat, j: nat)
    requires Overtaken(s, s', p, i) && j >= 1
    ensures if j == i + 1 then |Tokens(s', j)| < |Tokens(s, i)| else |Tokens(s', j)| <= |Tokens(s, j)|
  {
    var from := if j == i + 1 then i else j;
    forall t | t in Tokens(s', j)
      ensures t in Tokens(s, from)
    {
      OvertakenToken(s, s', p, i, j, t);
    }
    if j == i + 1 {
      var winner := Winner(s, s', p, i);
      SubsetSize(Tokens(s', j), Tokens(s, i) - {winner});
    } else {
      SubsetSize(Tokens(s', j), Tokens(s, j));
    }
  }

  /** What stands at the index where the race was lost, and stays there. */
  lemma Winner(s: State, s': State, p: nat, i: nat) returns (w: Token)
    requires Overtaken(s, s', p, i)
    ensures w in Tokens(s, i) && w !in Tokens(s', i + 1)
  {
    if Unclaimed(s, i) {
      w := Orphan(i);
    } else {
      var q :| q in s.procs && PodOf(s.procs[q].pc) == i;
      w := Call(q);
    }
  }

  lemma StepKeepsCrowd(s: State, a: Action)
    requires Crowded(s) && !ServiceRejected(s, a) && Load(Step(s, a)) <= MAX_TENANTS
    ensures Crowded(Step(s, a))
  {
    var s' := Step(s, a);
    StepKeepsInv(s, a);
    NobodyStartsToContinue(s, a);
    NobodyExhausted(s);
    forall j | 1 <= j <= MAX_TENANTS + 1
      ensures |Tokens(s', j)| <= MAX_TENANTS + 1 - j
    {
      if PodRejected(s, a) {
        RejectedOvertakes(s, a);
        OvertakenTokens(s, s', a.p, s.procs[a.p].pc.i, j);
      } else if a.Start? && j == 1 {
        StartedLoad(s, a);
      } else if a.p in s.procs {
        StepIsQuiet(s, a);
        QuietTokens(s, s', a.p, j);
      } else {
        StartTokens(s, a, j);
      }
    }
  }

  lemma StartedLoad(s: State, a: Action)
    requires a.Start? && forall p :: p in s.procs ==> !s.procs[p].pc.Exhausted?
    ensures |Tokens(Step(s, a), 1)| == Load(Step(s, a))
  {
    assert Tokens(Step(s, a), 1) == Crowd(Step(s, a));
  }

  lemma NobodyStartsToContinue(s: State, a: Action)
    requires NobodyContinues(s) && !ServiceRejected(s, a)
    ensures NobodyContinues(Step(s, a))
  {
  }

  lemma NobodyExhausted(s: State)
    requires forall j :: 1 <= j <= MAX_TENANTS + 1 ==> |Tokens(s, j)| <= MAX_TENANTS + 1 - j
    ensures forall p :: p in s.procs ==> !s.procs[p].pc.Exhausted?
  {
    assert |Tokens(s, MAX_TENANTS + 1)| == 0;
    forall p | p in s.procs
      ensures Place(s.procs[p]) <= MAX_TENANTS
    {
      assert Call(p) !in Tokens(s, MAX_TENANTS + 1);
    }
  }

  // ----- Runs.

  /** At no moment of the run do more than N calls scan or hold (orphaned rows included). */
  ghost predicate Uncrowded(s: State, run: seq<Action>) {
    Load(Exec(s, run)) <= MAX_TENANTS && (run == [] || Uncrowded(s, run[..|run| - 1]))
  }

  /** No service insert of the run is refused after the pod insert at the same index succeeded. */
  ghost predicate NeverRejected(s: State, run: seq<Action>) {
    run != [] ==>
      var n := |run| - 1;
      NeverRejected(s, run[..n]) && !ServiceRejected(Exec(s, run[..n]), run[n])
  }

  lemma {:induction false} OrphansFit(s: State, lo: nat, hi: nat)
    requires lo <= hi + 1
    ensures |set i | lo <= i <= hi && Unclaimed(s, i) :: Orphan(i)| <= hi + 1 - lo
    decreases hi + 1 - lo
  {
    var all := set i | lo <= i <= hi && Unclaimed(s, i) :: Orphan(i);
    if lo <= hi {
      OrphansFit(s, lo + 1, hi);
      SubsetSize(all, (set i | lo + 1 <= i <= hi && Unclaimed(s, i) :: Orphan(i)) + {Orphan(lo)});
    } else {
      assert all == {};
    }
  }

  lemma FreshIsCrowded(initial: Table)
    ensures Crowded(Fresh(initial))
  {
    var s := Fresh(initial);
    forall j: nat | 1 <= j <= MAX_TENANTS + 1
      ensures |Tokens(s, j)| <= MAX_TENANTS + 1 - j
    {
      OrphansFit(s, j, MAX_TENANTS);
      assert Tokens(s, j) == set i | j <= i <= MAX_TENANTS && Unclaimed(s, i) :: Orphan(i);
    }
  }

  lemma {:induction false} RunKeepsCrowd(initial: Table, run: seq<Action>)
    requires Uncrowded(Fresh(initial), run) && NeverRejected(Fresh(initial), run)
    ensures Crowded(Exec(Fresh(initial), run))
  {
    if run == [] {
      FreshIsCrowded(initial);
    } else {
      var n := |run| - 1;
      RunKeepsCrowd(initial, run[..n]);
      StepKeepsCrowd(Exec(Fresh(initial), run[..n]), run[n]);
    }
  }

  /** The scan is never exhausted as long as at most N calls are in progress or hold a pair at any
      one time, whatever errors, crashes and releases happen, provided no service insert is refused. */
  lemma NeverExhausted(initial: Table, run: seq<Action>, p: nat)
    requires Uncrowded(Fresh(initial), run) && NeverRejected(Fresh(initial), run)
    ensures var s := Exec(Fresh(initial), run); p in s.procs ==> !s.procs[p].pc.Exhausted?
  {
    RunKeepsCrowd(initial, run);
    NobodyExhausted(Exec(Fresh(initial), run));
  }

  // ----- Without releases and errors no service insert is refused.

  ghost predicate Releasing(pc: Pc) {
    pc.DropPod? || pc.DropSvc? || pc.Released?
  }

  ghost predicate NobodyReleases(s: State) {
    forall p :: p in s.procs ==> !Releasing(s.procs[p].pc)
  }

  lemma {:induction false} NeverReleased(initial: Table, run: seq<Action>)
    requires forall a :: a in run ==> !a.Release?
    ensures NobodyReleases(Exec(Fresh(initial), run))
  {
    if run != [] {
      NeverReleased(initial, run[..|run| - 1]);
    }
  }

  lemma {:induction false} ErrorFreeIsClean(s: State, run: seq<Action>, i: nat)
    requires forall a :: a in run ==> ErrorFree(a)
    ensures CleanInserts(s, run, i)
  {
    if run != [] {
      assert run[|run| - 1] in run;
      ErrorFreeIsClean(s, run[..|run| - 1], i);
    }
  }

  lemma {:induction false} NoReleaseNoRejection(initial: Table, run: seq<Action>)
    requires forall i :: Svc(i) in initial ==> Pod(i) in initial
    requires forall a :: a in run ==> ErrorFree(a) && !a.Release?
    ensures NeverRejected(Fresh(initial), run)
  {
    if run != [] {
      var n := |run| - 1;
      NoReleaseNoRejection(initial, run[..n]);
      NeverReleased(initial, run[..n]);
      var s, a := Exec(Fresh(initial), run[..n]), run[n];
      if ServiceRejected(s, a) {
        var i := s.procs[a.p].pc.i;
        ErrorFreeIsClean(Fresh(initial), run[..n], i);
        LoneServiceRow(initial, run[..n], i);
        assert Claiming(s.procs[a.p].pc, i);
        assert false;
      }
    }
  }

  ghost function Calls(ps: set<nat>): (r: set<Token>)
    ensures forall t :: t in r <==> t.Call? && t.p in ps
  {
    set p | p in ps :: Call(p)
  }

  ghost function Orphans(pods: set<Block>): (r: set<Token>)
    ensures forall t :: t in r <==> t.Orphan? && exists b :: b in pods && b.i == t.i
  {
    set b | b in pods :: Orphan(b.i)
  }

  lemma {:induction false} CallsSize(ps: set<nat>)
    ensures |Calls(ps)| <= |ps|
  {
    if ps != {} {
      var p :| p in ps;
      CallsSize(ps - {p});
      assert Calls(ps) == Calls(ps - {p}) + {Call(p)};
    }
  }

  lemma {:induction false} OrphansSize(pods: set<Block>)
    ensures |Orphans(pods)| <= |pods|
  {
    if pods != {} {
      var b :| b in pods;
      OrphansSize(pods - {b});
      SubsetSize(Orphans(pods), Orphans(pods - {b}) + {Orphan(b.i)});
    }
  }

  lemma UnclaimedFromTheStart(initial: Table, run: seq<Action>, i: nat)
    requires forall a :: a in run ==> ErrorFree(a)
    requires Unclaimed(Exec(Fresh(initial), run), i)
    ensures Pod(i) in initial
  {
    NothingLeaks(initial, run, Pod(i));
  }

  ghost function PodsOf(table: Table): set<Block> {
    set b | b in table && b.Pod? && InRange(b.i)
  }

  /** In an error-free run every taken pod row without a call was there from the start. */
  lemma LoadBound(initial: Table, run: seq<Action>)
    requires forall a :: a in run ==> ErrorFree(a)
    ensures var s := Exec(Fresh(initial), run); Load(s) <= |PodsOf(initial)| + |s.procs.Keys|
  {
    var s := Exec(Fresh(initial), run);
    forall i | InRange(i) && Unclaimed(s, i)
      ensures Pod(i) in initial
    {
      UnclaimedFromTheStart(initial, run, i);
    }
    LoadOfParts(s, PodsOf(initial));
  }

  lemma LoadOfParts(s: State, pods: set<Block>)
    requires forall i :: InRange(i) && Unclaimed(s, i) ==> Pod(i) in pods
    ensures Load(s) <= |pods| + |s.procs.Keys|
  {
    CallsSize(s.procs.Keys);
    OrphansSize(pods);
    LoadWithin(s, Calls(s.procs.Keys) + Orphans(pods));
  }

  lemma {:induction false} LightRun(initial: Table, run: seq<Action>, calls: set<nat>)
    requires forall a :: a in run ==> ErrorFree(a)
    requires Exec(Fresh(initial), run).procs.Keys <= calls
    requires |PodsOf(initial)| + |calls| <= MAX_TENANTS
    ensures Uncrowded(Fresh(initial), run)
  {
    LoadBound(initial, run);
    SubsetSize(Exec(Fresh(initial), run).procs.Keys, calls);
    if run != [] {
      LightRun(initial, run[..|run| - 1], calls);
    }
  }

  /** With no releases and no database errors, starting from a table whose service rows all have
      their pod rows, the scan is never exhausted if the pairs taken at the start and all the calls
      ever made number at most N. */
  lemma NeverExhaustedWithoutReleases(initial: Table, run: seq<Action>, p: nat)
    requires forall i :: Svc(i) in initial ==> Pod(i) in initial
    requires forall a :: a in run ==> ErrorFree(a) && !a.Release?
    requires |PodsOf(initial)| + |Exec(Fresh(initial), run).procs.Keys| <= MAX_TENANTS
    ensures var s := Exec(Fresh(initial), run); p in s.procs ==> !s.procs[p].pc.Exhausted?
  {
    NoReleaseNoRejection(initial, run);
    LightRun(initial, run, Exec(Fresh(initial), run).procs.Keys);
    NeverExhausted(initial, run, p);
  }
}

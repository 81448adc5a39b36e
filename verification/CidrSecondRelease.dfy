// A second ReleaseTenantCIDRs with the same pair, after an error of the first: when it is safe.

module CidrSecondRelease {
  import opened Faults
  import opened CidrBlocks
  import opened CidrMachine
  import opened CidrSafety
  import opened NewNames

  /** A delete of a block outside the machine: by whoever thinks the block is theirs. */
  function Deleted(s: State, b: Block, o: Outcome): State {
    s.(rows := Delete(s.rows, b, o))
  }

  /** A second release is two more deletes, with runs of any kind before the first and between the two. It
      is safe if, however they go and whatever the others do, every call keeps the rows it owns. */
  ghost predicate RetrySafe(s: State, i: nat) {
    forall r1, o1, r2, o2 :: RetryKeeps(s, i, r1, o1, r2, o2)
  }

  ghost predicate RetryKeeps(s: State, i: nat, r1: seq<Action>, o1: Outcome, r2: seq<Action>, o2: Outcome) {
    var half := Deleted(Exec(s, r1), Pod(i), o1);
    Inv(half) && Inv(Deleted(Exec(half, r2), Svc(i), o2))
  }

  /** The row stands in the table and no call owns it. */
  ghost predicate Stray(s: State, b: Block) {
    b in s.rows && !Owned(s, b)
  }

  // ----- Stray rows stay, and may be deleted.

  lemma StepKeepsStray(s: State, a: Action, b: Block)
    requires Inv(s) && Stray(s, b)
    ensures Stray(Step(s, a), b)
  {
    var s' := Step(s, a);
    forall p | p in s'.procs
      ensures !Owns(s'.procs[p].pc, b)
    {
      if p in s.procs {
        assert !Owns(s.procs[p].pc, b) && Backed(s.rows, s.procs[p]);
      }
    }
    if a.p in s.procs {
      assert !Owns(s.procs[a.p].pc, b) && Backed(s.rows, s.procs[a.p]);
    }
  }

  lemma {:induction false} RunKeepsStray(s: State, run: seq<Action>, b: Block)
    requires Inv(s) && Stray(s, b)
    ensures Inv(Exec(s, run)) && Stray(Exec(s, run), b)
  {
    RunKeepsInv(s, run);
    if run != [] {
      var n := |run| - 1;
      RunKeepsStray(s, run[..n], b);
      RunKeepsInv(s, run[..n]);
      StepKeepsStray(Exec(s, run[..n]), run[n], b);
    }
  }

  lemma DeletedUnowned(s: State, b: Block, o: Outcome)
    requires Inv(s) && !Owned(s, b)
    ensures Inv(Deleted(s, b, o))
    ensures forall c :: c != b && Stray(s, c) ==> Stray(Deleted(s, b, o), c)
  {
    var s' := Deleted(s, b, o);
    forall p | p in s'.procs
      ensures Backed(s'.rows, s'.procs[p])
    {
      assert Backed(s.rows, s.procs[p]) && !Owns(s.procs[p].pc, b);
    }
    forall c | Stray(s, c)
      ensures !Owned(s', c)
    {
      assert forall p :: p in s'.procs ==> p in s.procs && s'.procs[p] == s.procs[p];
    }
  }

  lemma StrayIsSafe(s: State, i: nat)
    requires Inv(s) && Stray(s, Pod(i)) && Stray(s, Svc(i))
    ensures RetrySafe(s, i)
  {
    forall r1, o1, r2, o2
      ensures RetryKeeps(s, i, r1, o1, r2, o2)
    {
      RunKeepsStray(s, r1, Pod(i));
      RunKeepsStray(s, r1, Svc(i));
      DeletedUnowned(Exec(s, r1), Pod(i), o1);
      var half := Deleted(Exec(s, r1), Pod(i), o1);
      RunKeepsStray(half, r2, Svc(i));
      DeletedUnowned(Exec(half, r2), Svc(i), o2);
    }
  }

  // ----- A block that is gone can be taken and stripped.

  lemma DeletedOwned(s: State, b: Block)
    requires Owned(s, b)
    ensures !Inv(Deleted(s, b, Success))
  {
    var p :| p in s.procs && Owns(s.procs[p].pc, b);
    Stripped(Deleted(s, b, Success), p, b);
  }

  lemma Stripped(s: State, p: nat, b: Block)
    requires p in s.procs && Owns(s.procs[p].pc, b) && b !in s.rows
    ensures !Inv(s)
  {
    assert !Backed(s.rows, s.procs[p]);
  }

  /** Some run leads from s to s'. */
  ghost predicate Leads(s: State, s': State) {
    exists run :: Exec(s, run) == s'
  }

  lemma LeadsOn(s: State, s1: State, a: Action) returns (s': State)
    requires Leads(s, s1)
    ensures Leads(s, s') && s' == Step(s1, a)
  {
    var run :| Exec(s, run) == s1;
    ExecOne(s, run, a);
    s' := Step(s1, a);
    assert Exec(s, run + [a]) == s';
  }

  /** The free pod blocks up to i. */
  ghost function FreeUpTo(rows: Table, i: nat): (r: set<nat>)
    ensures forall k :: k in r <==> 1 <= k <= i && Pod(k) !in rows
  {
    set k: nat | 1 <= k <= i && Pod(k) !in rows
  }

  /** A scan that has a free pod block ahead takes one no further than it. */
  lemma {:induction false} ScanTakes(s0: State, s: State, q: nat, i: nat) returns (s': State)
    requires Leads(s0, s) && q in s.procs && s.procs[q].alive && s.procs[q].pc.Scan?
    requires 1 <= s.procs[q].pc.i <= i <= MAX_TENANTS && Pod(i) !in s.rows
    ensures Leads(s0, s') && q in s'.procs && s'.procs[q].alive && s'.procs[q].pc.HasPod?
    ensures var k := s'.procs[q].pc.i;
            k in FreeUpTo(s.rows, i) && s'.rows == s.rows[Pod(k) := Row(s.procs[q].tenant, POD)]
    decreases i - s.procs[q].pc.i
  {
    s' := LeadsOn(s0, s, Statement(q, Success));
    if s'.procs[q].pc.Scan? {
      s' := ScanTakes(s0, s', q, i);
    }
  }

  /** New calls take the free blocks below i one by one, and then i. */
  lemma {:induction false} TakeBlock(s0: State, s: State, i: nat) returns (s': State, q: nat)
    requires Leads(s0, s) && InRange(i) && Pod(i) !in s.rows
    ensures Leads(s0, s') && q in s'.procs && s'.procs[q].alive && s'.procs[q].pc == HasPod(i)
    ensures Svc(i) in s'.rows <==> Svc(i) in s.rows
    decreases FreeUpTo(s.rows, i)
  {
    q := FreshNat(s.procs.Keys);
    assert q !in s.procs.Keys;
    var s1 := LeadsOn(s0, s, Start(q, 0));
    s' := ScanTakes(s0, s1, q, i);
    var k := s'.procs[q].pc.i;
    if k != i {
      assert FreeUpTo(s'.rows, i) == FreeUpTo(s.rows, i) - {k};
      s', q := TakeBlock(s0, s', i);
    }
  }

  lemma PodGoneIsUnsafe(s: State, i: nat)
    requires InRange(i) && Pod(i) !in s.rows
    ensures !RetrySafe(s, i)
  {
    assert Exec(s, []) == s;
    var s1, q := TakeBlock(s, s, i);
    assert Owns(s1.procs[q].pc, Pod(i));
    DeletedOwned(s1, Pod(i));
    var r1 :| Exec(s, r1) == s1;
    assert !RetryKeeps(s, i, r1, Success, [], Success);
  }

  /** Once the pod row has been deleted again, somebody can take the pair before the second delete. */
  lemma SvcGoneIsUnsafe(s: State, i: nat)
    requires InRange(i) && Svc(i) !in s.rows
    ensures !RetrySafe(s, i)
  {
    assert Exec(s, []) == s;
    var half := Deleted(s, Pod(i), Success);
    assert Exec(half, []) == half;
    var s1, q := TakeBlock(half, half, i);
    var s2 := LeadsOn(half, s1, Statement(q, Success));
    assert Owns(s2.procs[q].pc, Svc(i));
    DeletedOwned(s2, Svc(i));
    var r2 :| Exec(half, r2) == s2;
    assert !RetryKeeps(s, i, [], Success, r2, Success);
  }

  lemma OwnedIsUnsafe(s: State, i: nat)
    requires Owned(s, Pod(i)) || Owned(s, Svc(i))
    ensures !RetrySafe(s, i)
  {
    assert Exec(s, []) == s;
    var half := Deleted(s, Pod(i), Success);
    assert Exec(half, []) == half;
    if Owned(s, Pod(i)) {
      DeletedOwned(s, Pod(i));
    } else {
      var p :| p in s.procs && Owns(s.procs[p].pc, Svc(i));
      assert p in half.procs && Owned(half, Svc(i));
      DeletedOwned(half, Svc(i));
    }
    assert !RetryKeeps(s, i, [], Success, [], Success);
  }

  /** After any run, a second release of a pair is safe in every interleaving exactly if both rows still
      stand in the table and no call owns either of them: once a row is gone, another call can take its
      block, before the retry or between its two deletes. */
  lemma RetrySafeIff(initial: Table, run: seq<Action>, i: nat)
    requires InRange(i)
    ensures var s := Exec(Fresh(initial), run); RetrySafe(s, i) <==> Stray(s, Pod(i)) && Stray(s, Svc(i))
  {
    var s := Exec(Fresh(initial), run);
    RunKeepsInv(Fresh(initial), run);
    if Stray(s, Pod(i)) && Stray(s, Svc(i)) {
      StrayIsSafe(s, i);
    } else if Owned(s, Pod(i)) || Owned(s, Svc(i)) {
      OwnedIsUnsafe(s, i);
    } else if Pod(i) !in s.rows {
      PodGoneIsUnsafe(s, i);
    } else {
      SvcGoneIsUnsafe(s, i);
    }
  }

  /** Call p has been told that its release failed, and call q holds the pair. */
  ghost predicate StripsAnother(s: State, p: nat, q: nat, i: nat) {
    && p in s.procs && s.procs[p].pc == Released(i, true, false)
    && q in s.procs && q != p && s.procs[q].pc == Holding(i)
  }

  /** A call alone on an empty table takes pair 1. */
  lemma GoHold(s: State, p: nat) returns (s': State)
    requires Leads(Fresh(map[]), s) && s.rows == map[] && p !in s.procs
    ensures Leads(Fresh(map[]), s') && s'.procs == s.procs[p := Proc(p, Holding(1), true)]
    ensures s'.rows == map[Pod(1) := Row(p, POD), Svc(1) := Row(p, SERVICE)]
  {
    s' := LeadsOn(Fresh(map[]), s, Start(p, p));
    s' := LeadsOn(Fresh(map[]), s', Statement(p, Success));
    s' := LeadsOn(Fresh(map[]), s', Statement(p, Success));
  }

  /** A holder's release whose delete of the pod row is executed but reported as an error. */
  lemma GoRelease(s: State, p: nat) returns (s': State)
    requires Leads(Fresh(map[]), s) && p in s.procs && s.procs[p] == Proc(p, Holding(1), true)
    requires s.rows == map[Pod(1) := Row(p, POD), Svc(1) := Row(p, SERVICE)]
    ensures Leads(Fresh(map[]), s') && s'.rows == map[]
    ensures s'.procs == s.procs[p := Proc(p, Released(1, true, false), true)]
  {
    s' := LeadsOn(Fresh(map[]), s, Release(p));
    s' := LeadsOn(Fresh(map[]), s', Statement(p, DirtyError));
    s' := LeadsOn(Fresh(map[]), s', Statement(p, Success));
  }

  /** It can go wrong: a first release whose delete of the pod row is executed but reported as an error
      frees the pair, another call takes it, and a second release would delete that call's rows. */
  lemma SecondReleaseCanStrip(p: nat, q: nat)
    requires p != q
    ensures exists run :: StripsAnother(Exec(Fresh(map[]), run), p, q, 1)
  {
    assert Exec(Fresh(map[]), []) == Fresh(map[]);
    var s := GoHold(Fresh(map[]), p);
    s := GoRelease(s, p);
    s := GoHold(s, q);
    assert StripsAnother(s, p, q, 1);
  }
}

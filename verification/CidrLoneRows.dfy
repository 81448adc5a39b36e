// When a service row can stand without its pod row, and exactly which states stay clear of it.

module CidrLoneRows {
  import opened Faults
  import opened CidrBlocks
  import opened CidrMachine
  import opened CidrSafety
  import opened Options

  ghost predicate Claiming(pc: Pc, i: nat) {
    pc == HasPod(i) || (pc.Rollback? && pc.i == i)
  }

  /** A call that can still move has claimed pod block i and not yet its service block. */
  ghost predicate LiveClaim(s: State, i: nat) {
    exists p :: p in s.procs && s.procs[p].alive && Claiming(s.procs[p].pc, i)
  }

  /** The call has tried to delete its pod row and has not, or not without an error, deleted its
      service row. */
  ghost predicate BetweenDeletes(pc: Pc, i: nat) {
    (pc.DropSvc? && pc.i == i) || (pc.Released? && pc.i == i && pc.svcErr)
  }

  /** The call whose statement put the row of b into the table; None if there is no row, or if it was there
      from the start. */
  ghost function InsertedBy(initial: Table, run: seq<Action>, b: Block): Option<nat> {
    if run == [] then None
    else
      var s, s' := Exec(Fresh(initial), run[..|run| - 1]), Exec(Fresh(initial), run);
      if b !in s'.rows then None
      else if b !in s.rows then Some(run[|run| - 1].p)
      else InsertedBy(initial, run[..|run| - 1], b)
  }

  lemma InsertedLast(initial: Table, run: seq<Action>, a: Action, b: Block)
    ensures var s, s' := Exec(Fresh(initial), run), Step(Exec(Fresh(initial), run), a);
            && Exec(Fresh(initial), run + [a]) == s'
            && InsertedBy(initial, run + [a], b) ==
               if b !in s'.rows then None else if b !in s.rows then Some(a.p) else InsertedBy(initial, run, b)
  {
    ExecOne(Fresh(initial), run, a);
    assert (run + [a])[..|run + [a]| - 1] == run;
  }

  /** Call r stands between the two deletes of pair i, and the service row is the one it inserted. */
  ghost predicate StandsBetween(initial: Table, run: seq<Action>, i: nat, r: nat) {
    var s := Exec(Fresh(initial), run);
    && r in s.procs && BetweenDeletes(s.procs[r].pc, i)
    && Svc(i) in s.rows && InsertedBy(initial, run, Svc(i)) == Some(r)
  }

  ghost predicate Midway(initial: Table, run: seq<Action>, i: nat) {
    exists r :: StandsBetween(initial, run, i, r)
  }

  /** A service row without its pod row is that of the call that inserted it and is between the two deletes
      of its release. */
  ghost predicate LoneRowExplained(initial: Table, run: seq<Action>, i: nat) {
    var s := Exec(Fresh(initial), run);
    Svc(i) in s.rows && Pod(i) !in s.rows ==> Midway(initial, run, i)
  }

  /** What keeps it so: a service row is that of such a call, or stands beside a pod row that nobody is
      about to roll back. */
  ghost predicate Steady(initial: Table, run: seq<Action>, i: nat) {
    var s := Exec(Fresh(initial), run);
    Svc(i) in s.rows ==> Midway(initial, run, i) || (Pod(i) in s.rows && !LiveClaim(s, i))
  }

  /** The insert of service row i is not executed and reported as an error; other statements may be. */
  ghost predicate CleanInsert(s: State, a: Action, i: nat) {
    a.Statement? && a.p in s.procs && s.procs[a.p].pc == HasPod(i) ==> !a.o.DirtyError?
  }

  ghost predicate CleanInserts(s: State, run: seq<Action>, i: nat) {
    run != [] ==> CleanInserts(s, run[..|run| - 1], i) && CleanInsert(Exec(s, run[..|run| - 1]), run[|run| - 1], i)
  }

  // ----- Whoever owns a row has inserted it.

  lemma StepOwns(s: State, a: Action, p: nat, b: Block)
    requires Inv(s) && p in Step(s, a).procs && Owns(Step(s, a).procs[p].pc, b)
    ensures b in Step(s, a).rows
    ensures if b in s.rows then p in s.procs && Owns(s.procs[p].pc, b) else p == a.p
  {
    StepKeepsInv(s, a);
    assert Backed(Step(s, a).rows, Step(s, a).procs[p]);
  }

  lemma {:induction false} OwnerInserted(initial: Table, run: seq<Action>, p: nat, b: Block)
    requires var s := Exec(Fresh(initial), run); p in s.procs && Owns(s.procs[p].pc, b)
    ensures InsertedBy(initial, run, b) == Some(p)
  {
    if run != [] {
      var before, a := run[..|run| - 1], run[|run| - 1];
      assert before + [a] == run;
      RunKeepsInv(Fresh(initial), before);
      InsertedLast(initial, before, a, b);
      var s := Exec(Fresh(initial), before);
      StepOwns(s, a, p, b);
      if b in s.rows {
        OwnerInserted(initial, before, p, b);
      }
    }
  }

  // ----- One more step.

  /** Whoever is between the two deletes stays there, or takes the service row along. */
  lemma StepKeepsMidway(initial: Table, run: seq<Action>, a: Action, i: nat)
    requires Midway(initial, run, i)
    ensures Svc(i) in Exec(Fresh(initial), run + [a]).rows ==> Midway(initial, run + [a], i)
  {
    InsertedLast(initial, run, a, Svc(i));
    var r :| StandsBetween(initial, run, i, r);
    if Svc(i) in Exec(Fresh(initial), run + [a]).rows {
      assert StandsBetween(initial, run + [a], i, r);
    }
  }

  /** Only its owner deletes a pod row, and with the service row still there comes to stand between the
      two deletes; and nobody begins to claim a pair whose pod row is there. */
  lemma PairStep(s: State, a: Action, i: nat)
    requires Inv(s) && Svc(i) in s.rows && Pod(i) in s.rows && !LiveClaim(s, i) && Svc(i) in Step(s, a).rows
    ensures var s' := Step(s, a);
            if Pod(i) in s'.rows then !LiveClaim(s', i)
            else && a.p in s.procs && Owns(s.procs[a.p].pc, Svc(i))
                 && a.p in s'.procs && BetweenDeletes(s'.procs[a.p].pc, i)
  {
    var s' := Step(s, a);
    if a.p in s.procs {
      assert Backed(s.rows, s.procs[a.p]);
      assert s.procs[a.p].alive ==> !Claiming(s.procs[a.p].pc, i);
    }
    if Pod(i) in s'.rows {
      forall q | q in s'.procs && s'.procs[q].alive
        ensures !Claiming(s'.procs[q].pc, i)
      {
        assert q in s.procs && s.procs[q].alive ==> !Claiming(s.procs[q].pc, i);
      }
    }
  }

  lemma StepKeepsPair(initial: Table, run: seq<Action>, a: Action, i: nat)
    requires var s := Exec(Fresh(initial), run); Svc(i) in s.rows && Pod(i) in s.rows && !LiveClaim(s, i)
    ensures Steady(initial, run + [a], i)
  {
    var s := Exec(Fresh(initial), run);
    RunKeepsInv(Fresh(initial), run);
    InsertedLast(initial, run, a, Svc(i));
    if Svc(i) in Step(s, a).rows {
      PairStep(s, a, i);
      if Pod(i) !in Step(s, a).rows {
        OwnerInserted(initial, run, a.p, Svc(i));
        assert StandsBetween(initial, run + [a], i, a.p);
      }
    }
  }

  /** A service row that appears was inserted by the one call that owns the pod row. */
  lemma NewRowStep(s: State, a: Action, i: nat)
    requires Inv(s) && CleanInsert(s, a, i) && Svc(i) !in s.rows && Svc(i) in Step(s, a).rows
    ensures Pod(i) in Step(s, a).rows && !LiveClaim(Step(s, a), i)
  {
    var s' := Step(s, a);
    assert s.procs[a.p].pc == HasPod(i) && Backed(s.rows, s.procs[a.p]);
    forall q | q in s'.procs
      ensures !Claiming(s'.procs[q].pc, i)
    {
      assert q != a.p ==> Apart(s.procs[q].pc, s.procs[a.p].pc);
    }
  }

  lemma StepKeepsSteady(initial: Table, run: seq<Action>, a: Action, i: nat)
    requires CleanInsert(Exec(Fresh(initial), run), a, i) && Steady(initial, run, i)
    ensures Steady(initial, run + [a], i)
  {
    var s := Exec(Fresh(initial), run);
    RunKeepsInv(Fresh(initial), run);
    ExecOne(Fresh(initial), run, a);
    if Svc(i) in Step(s, a).rows {
      if Svc(i) !in s.rows {
        NewRowStep(s, a, i);
      } else if Midway(initial, run, i) {
        StepKeepsMidway(initial, run, a, i);
      } else {
        StepKeepsPair(initial, run, a, i);
      }
    }
  }

  lemma {:induction false} RunKeepsSteady(initial: Table, run: seq<Action>, more: seq<Action>, i: nat)
    requires Steady(initial, run, i) && CleanInserts(Exec(Fresh(initial), run), more, i)
    ensures Steady(initial, run + more, i)
  {
    if more == [] {
      assert run + more == run;
    } else {
      var before, a := more[..|more| - 1], more[|more| - 1];
      RunKeepsSteady(initial, run, before, i);
      ExecConcat(Fresh(initial), run, before);
      StepKeepsSteady(initial, run + before, a, i);
      assert run + before + [a] == run + more;
    }
  }

  /** Starting from a table without a lone service row i, and if no insert of service row i is executed
      and yet reported as an error, whatever else fails: the service row stands without its pod row only
      while the call that inserted it is between the two deletes of its release (or the second failed). */
  lemma LoneServiceRow(initial: Table, run: seq<Action>, i: nat)
    requires Svc(i) in initial ==> Pod(i) in initial
    requires CleanInserts(Fresh(initial), run, i)
    ensures Steady(initial, run, i) && LoneRowExplained(initial, run, i)
  {
    assert Exec(Fresh(initial), []) == Fresh(initial) && [] + run == run;
    assert !LiveClaim(Fresh(initial), i);
    assert Steady(initial, [], i);
    RunKeepsSteady(initial, [], run, i);
  }

  // ----- Exactly when lone service rows stay explained.

  /** The longer run continues run with clean inserts. */
  ghost predicate Continues(initial: Table, run: seq<Action>, longer: seq<Action>, i: nat) {
    run <= longer && CleanInserts(Exec(Fresh(initial), run), longer[|run|..], i)
  }

  /** Some continuation with clean inserts leaves the service row alone and unexplained. */
  ghost predicate CanStrand(initial: Table, run: seq<Action>, i: nat) {
    exists longer :: Continues(initial, run, longer, i) && !LoneRowExplained(initial, longer, i)
  }

  lemma {:induction false} CleanConcat(s: State, run1: seq<Action>, run2: seq<Action>, i: nat)
    requires CleanInserts(s, run1, i) && CleanInserts(Exec(s, run1), run2, i)
    ensures CleanInserts(s, run1 + run2, i)
  {
    if run2 == [] {
      assert run1 + run2 == run1;
    } else {
      var n := |run2| - 1;
      CleanConcat(s, run1, run2[..n], i);
      assert (run1 + run2)[..|run1 + run2| - 1] == run1 + run2[..n];
      ExecConcat(s, run1, run2[..n]);
    }
  }

  lemma OneClean(s: State, a: Action, i: nat)
    requires CleanInsert(s, a, i)
    ensures CleanInserts(s, [a], i) && Exec(s, [a]) == Step(s, a)
  {
    assert [a][..0] == [];
  }

  lemma ContinuesSooner(initial: Table, run: seq<Action>, a: Action, longer: seq<Action>, i: nat)
    requires CleanInsert(Exec(Fresh(initial), run), a, i) && Continues(initial, run + [a], longer, i)
    ensures Continues(initial, run, longer, i)
  {
    var first, more := [a], longer[|run| + 1..];
    OneClean(Exec(Fresh(initial), run), a, i);
    ExecOne(Fresh(initial), run, a);
    CleanConcat(Exec(Fresh(initial), run), first, more, i);
    assert longer[|run|..] == first + more;
  }

  lemma StrandsLater(initial: Table, run: seq<Action>, a: Action, i: nat)
    requires CleanInsert(Exec(Fresh(initial), run), a, i) && CanStrand(initial, run + [a], i)
    ensures CanStrand(initial, run, i)
  {
    var longer :| Continues(initial, run + [a], longer, i) && !LoneRowExplained(initial, longer, i);
    ContinuesSooner(initial, run, a, longer, i);
  }

  lemma StrandsNow(initial: Table, run: seq<Action>, i: nat)
    requires !LoneRowExplained(initial, run, i)
    ensures CanStrand(initial, run, i)
  {
    assert run[|run|..] == [];
    assert Continues(initial, run, run, i);
  }

  /** A claiming call that moves on leaves the service row where it is, and brings nobody between the two
      deletes. */
  lemma ClaimStep(initial: Table, run: seq<Action>, p: nat, i: nat)
    requires var s := Exec(Fresh(initial), run);
             && p in s.procs && s.procs[p].alive && Claiming(s.procs[p].pc, i)
             && Svc(i) in s.rows && !Midway(initial, run, i)
    ensures var (s, run') := (Exec(Fresh(initial), run), run + [Statement(p, Success)]);
            && Exec(Fresh(initial), run') == Step(s, Statement(p, Success))
            && Svc(i) in Exec(Fresh(initial), run').rows && !Midway(initial, run', i)
  {
    var a := Statement(p, Success);
    InsertedLast(initial, run, a, Svc(i));
    forall r
      ensures !StandsBetween(initial, run + [a], i, r)
    {
      assert !StandsBetween(initial, run, i, r);
    }
  }

  lemma RollbackStrands(initial: Table, run: seq<Action>, p: nat, i: nat)
    requires var s := Exec(Fresh(initial), run);
             && p in s.procs && s.procs[p].alive && s.procs[p].pc.Rollback? && s.procs[p].pc.i == i
             && Svc(i) in s.rows && !Midway(initial, run, i)
    ensures CanStrand(initial, run, i)
  {
    var a := Statement(p, Success);
    ClaimStep(initial, run, p, i);
    StrandsNow(initial, run + [a], i);
    StrandsLater(initial, run, a, i);
  }

  lemma UnsteadyStrands(initial: Table, run: seq<Action>, i: nat)
    requires !Steady(initial, run, i)
    ensures CanStrand(initial, run, i)
  {
    var s := Exec(Fresh(initial), run);
    if Pod(i) !in s.rows {
      StrandsNow(initial, run, i);
    } else {
      var p :| p in s.procs && s.procs[p].alive && Claiming(s.procs[p].pc, i);
      if s.procs[p].pc.Rollback? {
        RollbackStrands(initial, run, p, i);
      } else {
        var a := Statement(p, Success);
        ClaimStep(initial, run, p, i);
        RollbackStrands(initial, run + [a], p, i);
        StrandsLater(initial, run, a, i);
      }
    }
  }

  /** After any run, ambiguous inserts included, a lone service row i stays explained in every
      continuation with clean inserts exactly if the service row now is that of a call between its two
      deletes, or stands beside a pod row that no live call is about to roll back. */
  lemma LoneRowsStayExplainedIff(initial: Table, run: seq<Action>, i: nat)
    ensures Steady(initial, run, i) <==>
            forall more :: CleanInserts(Exec(Fresh(initial), run), more, i) ==> LoneRowExplained(initial, run + more, i)
  {
    if Steady(initial, run, i) {
      forall more | CleanInserts(Exec(Fresh(initial), run), more, i)
        ensures LoneRowExplained(initial, run + more, i)
      {
        RunKeepsSteady(initial, run, more, i);
      }
    } else {
      UnsteadyStrands(initial, run, i);
      var longer :| Continues(initial, run, longer, i) && !LoneRowExplained(initial, longer, i);
      assert longer == run + longer[|run|..];
    }
  }

  /** A service row is left behind by a call that has ended, and no pod row with it. */
  ghost predicate Stranded(s: State, p: nat, tenant: nat) {
    s == State(map[Svc(1) := Row(tenant, SERVICE)], map[p := Proc(tenant, Failed(Svc(1)), true)])
  }

  /** The assumption is needed: one service insert that is executed but reported as an error, and
      the roll-back of the pod row leaves a service row that no call will ever delete. */
  lemma DirtyErrorStrandsServiceRow(p: nat, tenant: nat)
    ensures exists run :: Stranded(Exec(Fresh(map[]), run), p, tenant)
  {
    var s0 := Fresh(map[]);
    var r1 := [] + [Start(p, tenant)];
    ExecOne(s0, [], Start(p, tenant));
    ExecOne(s0, r1, Statement(p, Success));
    var r2 := r1 + [Statement(p, Success)];
    ExecOne(s0, r2, Statement(p, DirtyError));
    var r3 := r2 + [Statement(p, DirtyError)];
    ExecOne(s0, r3, Statement(p, Success));
    var r4 := r3 + [Statement(p, Success)];
    assert Exec(s0, r3).procs == map[p := Proc(tenant, Rollback(1, true), true)];
    assert Stranded(Exec(s0, r4), p, tenant);
  }
}

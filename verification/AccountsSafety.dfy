// Slug uniqueness, and what every registration, issued key and revocation leaves behind.

module AccountsSafety {
  import opened Faults
  import opened Accounts
  import opened NewNames

  // ----- The reservation protocol, with every kind of error.

  /** The slug a call has reserved and may still give back. */
  predicate HasReservation(pc: Pc) {
    pc.InsertTenant? || pc.CleanUp?
  }

  /** Whoever holds a reservation has its slug in the table, and is the only one with that slug. */
  ghost predicate ReservationsOk(s: State) {
    && (forall p :: p in s.procs && HasReservation(s.procs[p].pc) ==> s.procs[p].request.slug in s.db.slugs)
    && (forall p, q :: p in s.procs && q in s.procs && p != q
                       && HasReservation(s.procs[p].pc) && HasReservation(s.procs[q].pc)
                       ==> s.procs[p].request.slug != s.procs[q].request.slug)
  }

  lemma StepKeepsReservations(s: State, a: Action)
    requires ReservationsOk(s)
    ensures ReservationsOk(Step(s, a))
  {
    if a.Next? && a.p in s.procs {
      SlugsAfter(s.db, s.procs[a.p].request, s.procs[a.p].pc, a.o, a.picks);
    }
  }

  /** What a step of one call does to the slug table. */
  lemma SlugsAfter(db: Db, r: Request, pc: Pc, o: Outcome, picks: Picks)
    ensures var (db', pc') := StepProc(db, r, pc, o, picks);
            && (forall x :: x != r.slug ==> (x in db'.slugs <==> x in db.slugs))
            && (r.slug in db.slugs && r.slug !in db'.slugs ==> pc.CleanUp? && !HasReservation(pc'))
            && (HasReservation(pc') ==> r.slug in db'.slugs || HasReservation(pc))
            && (HasReservation(pc') && !HasReservation(pc) ==> r.slug !in db.slugs)
  {
  }

  lemma {:induction false} RunKeepsReservations(run: seq<Action>)
    ensures ReservationsOk(Exec(EMPTY, run))
  {
    if run != [] {
      RunKeepsReservations(run[..|run| - 1]);
      StepKeepsReservations(Exec(EMPTY, run[..|run| - 1]), run[|run| - 1]);
    }
  }

  /** A compensating delete removes only the deleter's own reservation: in every run, with any errors,
      a slug leaves the table only by the clean-up of a call that reserved it, and nobody else has a
      reservation for it then. */
  lemma CleanUpIsOwn(run: seq<Action>, a: Action, slug: string)
    requires slug in Exec(EMPTY, run).db.slugs && slug !in Step(Exec(EMPTY, run), a).db.slugs
    ensures var s := Exec(EMPTY, run);
            && a.Next? && a.p in s.procs && s.procs[a.p].pc.CleanUp? && s.procs[a.p].request.slug == slug
            && forall q :: q in s.procs && q != a.p && HasReservation(s.procs[q].pc) ==> s.procs[q].request.slug != slug
  {
    RunKeepsReservations(run);
    var s := Exec(EMPTY, run);
    if a.Next? && a.p in s.procs {
      SlugsAfter(s.db, s.procs[a.p].request, s.procs[a.p].pc, a.o, a.picks);
    }
  }

  // ----- Slug uniqueness.

  ghost predicate Unique(db: Db) {
    forall t, u :: t in db.tenants && u in db.tenants && db.tenants[t].slug == db.tenants[u].slug ==> t == u
  }

  ghost predicate AllReserved(db: Db) {
    forall t :: t in db.tenants ==> db.tenants[t].slug in db.slugs
  }

  /** No call that can still move holds a reservation for a slug that a tenant row has. */
  ghost predicate NobodyBehind(s: State) {
    forall p :: p in s.procs && s.procs[p].alive && HasReservation(s.procs[p].pc) ==>
        !SlugKnown(s.db, s.procs[p].request.slug)
  }

  ghost predicate SlugsOk(s: State) {
    Unique(s.db) && AllReserved(s.db) && NobodyBehind(s)
  }

  /** The insert of a tenant row is not executed and reported as an error. */
  ghost predicate CleanInsert(s: State, a: Action) {
    a.Next? && a.p in s.procs && s.procs[a.p].pc.InsertTenant? ==> !a.o.DirtyError?
  }

  ghost predicate CleanRun(s: State, run: seq<Action>) {
    run != [] ==> CleanRun(s, run[..|run| - 1]) && CleanInsert(Exec(s, run[..|run| - 1]), run[|run| - 1])
  }

  /** What a step of one call does to the tenant rows. */
  lemma TenantsAfter(db: Db, r: Request, pc: Pc, o: Outcome, picks: Picks)
    ensures var (db', pc') := StepProc(db, r, pc, o, picks);
            && (db'.tenants == db.tenants
                || (pc.InsertTenant? && pc.tenant !in db.tenants
                    && db'.tenants == db.tenants[pc.tenant := Tenant(r.slug, PROVISIONING)]))
            && (pc.InsertTenant? && !o.DirtyError? && db'.tenants != db.tenants ==> !HasReservation(pc'))
            && (HasReservation(pc') && !HasReservation(pc) ==> r.slug !in db.slugs && db'.tenants == db.tenants)
  {
  }

  lemma NewTenant(db: Db, id: Uuid, slug: string)
    requires id !in db.tenants && Unique(db) && !SlugKnown(db, slug)
    ensures Unique(db.(tenants := db.tenants[id := Tenant(slug, PROVISIONING)]))
    ensures forall x :: SlugKnown(db.(tenants := db.tenants[id := Tenant(slug, PROVISIONING)]), x) ==>
            x == slug || SlugKnown(db, x)
  {
    var db' := db.(tenants := db.tenants[id := Tenant(slug, PROVISIONING)]);
    assert forall t :: t in db.tenants ==> HasSlug(db, t, db.tenants[t].slug);
    forall x | SlugKnown(db', x)
      ensures x == slug || SlugKnown(db, x)
    {
      var t :| HasSlug(db', t, x);
      assert t != id ==> HasSlug(db, t, x);
    }
  }

  lemma NextKeepsSlugs(s: State, a: Action)
    requires ReservationsOk(s) && SlugsOk(s) && CleanInsert(s, a)
    requires a.Next? && a.p in s.procs && s.procs[a.p].alive && Fits(s.db, s.procs[a.p], a.picks)
    ensures SlugsOk(Step(s, a))
  {
    var proc := s.procs[a.p];
    var (db', pc') := StepProc(s.db, proc.request, proc.pc, a.o, a.picks);
    var s' := Step(s, a);
    SlugsAfter(s.db, proc.request, proc.pc, a.o, a.picks);
    TenantsAfter(s.db, proc.request, proc.pc, a.o, a.picks);
    if db'.tenants != s.db.tenants {
      NewTenant(s.db, proc.pc.tenant, proc.request.slug);
    } else {
      assert forall x :: SlugKnown(db', x) ==> SlugKnown(s.db, x) by {
        assert forall t, x :: HasSlug(db', t, x) ==> HasSlug(s.db, t, x);
      }
    }
    assert forall t :: t in s.db.tenants ==> HasSlug(s.db, t, s.db.tenants[t].slug);
  }

  lemma StepKeepsSlugs(s: State, a: Action)
    requires ReservationsOk(s) && SlugsOk(s) && CleanInsert(s, a)
    ensures SlugsOk(Step(s, a))
  {
    if a.Next? && a.p in s.procs && s.procs[a.p].alive && Fits(s.db, s.procs[a.p], a.picks) {
      NextKeepsSlugs(s, a);
    } else {
      var s' := Step(s, a);
      assert forall t, x :: HasSlug(s'.db, t, x) <==> HasSlug(s.db, t, x);
    }
  }

  lemma {:induction false} CleanRunKeepsSlugs(s: State, more: seq<Action>)
    requires ReservationsOk(s) && SlugsOk(s) && CleanRun(s, more)
    ensures ReservationsOk(Exec(s, more)) && SlugsOk(Exec(s, more))
  {
    if more != [] {
      var n := |more| - 1;
      CleanRunKeepsSlugs(s, more[..n]);
      StepKeepsReservations(Exec(s, more[..n]), more[n]);
      StepKeepsSlugs(Exec(s, more[..n]), more[n]);
    }
  }

  /** If no insert of a tenant row is executed and yet reported as an error, then whatever else fails,
      crashes or collides, no two tenant rows share a slug and every tenant's slug is reserved. */
  lemma SlugsUnique(run: seq<Action>)
    requires CleanRun(EMPTY, run)
    ensures Unique(Exec(EMPTY, run).db) && AllReserved(Exec(EMPTY, run).db)
  {
    CleanRunKeepsSlugs(EMPTY, run);
  }

  // ----- Exactly when slugs stay unique.

  ghost predicate CanBreak(s: State) {
    exists more :: CleanRun(s, more) && !Unique(Exec(s, more).db)
  }

  lemma {:induction false} CleanConcat(s: State, run1: seq<Action>, run2: seq<Action>)
    requires CleanRun(s, run1) && CleanRun(Exec(s, run1), run2)
    ensures CleanRun(s, run1 + run2)
  {
    if run2 == [] {
      assert run1 + run2 == run1;
    } else {
      var n := |run2| - 1;
      CleanConcat(s, run1, run2[..n]);
      assert (run1 + run2)[..|run1 + run2| - 1] == run1 + run2[..n];
      ExecConcat(s, run1, run2[..n]);
    }
  }

  lemma BreaksLater(s: State, a: Action)
    requires CleanInsert(s, a) && CanBreak(Step(s, a))
    ensures CanBreak(s)
  {
    var more :| CleanRun(Step(s, a), more) && !Unique(Exec(Step(s, a), more).db);
    assert [a][..0] == [];
    assert Exec(s, [a]) == Step(s, a);
    CleanConcat(s, [a], more);
    ExecConcat(s, [a], more);
    assert CleanRun(s, [a] + more) && !Unique(Exec(s, [a] + more).db);
  }

  /** A call that holds a reservation for a slug somebody has, about to insert under a new id. */
  lemma InsertBreaks(s: State, p: nat, id: Uuid)
    requires p in s.procs && s.procs[p].alive && s.procs[p].pc == InsertTenant(id) && id !in s.db.tenants
    requires SlugKnown(s.db, s.procs[p].request.slug)
    ensures CanBreak(s)
  {
    var a := Next(p, Success, Picks(0, 0, ""));
    var t :| HasSlug(s.db, t, s.procs[p].request.slug);
    var s' := Step(s, a);
    assert HasSlug(s'.db, t, s.procs[p].request.slug) && HasSlug(s'.db, id, s.procs[p].request.slug);
    assert Exec(s', []) == s';
    assert CanBreak(s');
    BreaksLater(s, a);
  }

  /** A tenant whose slug is not reserved: the next registration with that slug succeeds. */
  lemma UnreservedBreaks(s: State, t: Uuid)
    requires t in s.db.tenants && s.db.tenants[t].slug !in s.db.slugs
    ensures CanBreak(s)
  {
    var slug := s.db.tenants[t].slug;
    var p := FreshNat(s.procs.Keys);
    var email := FreshString(set u | u in s.db.users :: s.db.users[u].email);
    var id := FreshNat(s.db.tenants.Keys);
    var picks := Picks(id, 0, "");
    var a0 := Call(p, Register(email, slug));
    var a1 := Next(p, Success, picks);
    var s1 := Step(s, a0);
    assert !EmailTakenBy(s1.db, email) by {
      forall u | u in s.db.users
        ensures s.db.users[u].email != email
      {
        assert s.db.users[u].email in set u | u in s.db.users :: s.db.users[u].email;
      }
    }
    var s2 := Step(s1, a1);
    assert s2 == State(s.db, s.procs[p := Proc(Register(email, slug), ReserveSlug, true)]);
    var s3 := Step(s2, a1);
    assert s3.procs[p].pc == InsertTenant(id) && HasSlug(s3.db, t, slug);
    InsertBreaks(s3, p, id);
    BreaksLater(s2, a1);
    BreaksLater(s1, a1);
    BreaksLater(s, a0);
  }

  /** A call about to give back a reservation for a slug that somebody has. */
  lemma CleanUpBreaks(s: State, p: nat)
    requires p in s.procs && s.procs[p].alive && s.procs[p].pc.CleanUp? && SlugKnown(s.db, s.procs[p].request.slug)
    ensures CanBreak(s)
  {
    var a := Next(p, Success, Picks(0, 0, ""));
    var t :| HasSlug(s.db, t, s.procs[p].request.slug);
    UnreservedBreaks(Step(s, a), t);
    BreaksLater(s, a);
  }

  lemma ReservationBreaks(s: State, p: nat)
    requires p in s.procs && s.procs[p].alive && HasReservation(s.procs[p].pc)
            && SlugKnown(s.db, s.procs[p].request.slug)
    ensures CanBreak(s)
  {
    if s.procs[p].pc.CleanUp? {
      CleanUpBreaks(s, p);
    } else if s.procs[p].pc.tenant !in s.db.tenants {
      InsertBreaks(s, p, s.procs[p].pc.tenant);
    } else {
      var a := Next(p, Success, Picks(0, 0, ""));
      CleanUpBreaks(Step(s, a), p);
      BreaksLater(s, a);
    }
  }

  /** After any run, ambiguous inserts included, slugs stay unique in every clean continuation exactly
      if they are unique now, every tenant's slug is reserved, and no call that can still move holds a
      reservation for a slug that a tenant has. */
  lemma SlugsStayUniqueIff(run: seq<Action>)
    ensures SlugsOk(Exec(EMPTY, run)) <==>
            forall more :: CleanRun(Exec(EMPTY, run), more) ==> Unique(Exec(EMPTY, run + more).db)
  {
    var s := Exec(EMPTY, run);
    RunKeepsReservations(run);
    if SlugsOk(s) {
      forall more | CleanRun(s, more)
        ensures Unique(Exec(EMPTY, run + more).db)
      {
        CleanRunKeepsSlugs(s, more);
        ExecConcat(EMPTY, run, more);
      }
    } else {
      NotOkBreaks(s);
      var more :| CleanRun(s, more) && !Unique(Exec(s, more).db);
      ExecConcat(EMPTY, run, more);
      assert !Unique(Exec(EMPTY, run + more).db);
    }
  }

  lemma NotOkBreaks(s: State)
    requires !SlugsOk(s)
    ensures CanBreak(s)
  {
    if !Unique(s.db) {
      assert Exec(s, []) == s && CleanRun(s, []);
    } else if !AllReserved(s.db) {
      var t :| t in s.db.tenants && s.db.tenants[t].slug !in s.db.slugs;
      UnreservedBreaks(s, t);
    } else {
      var p :| p in s.procs && s.procs[p].alive && HasReservation(s.procs[p].pc)
          && SlugKnown(s.db, s.procs[p].request.slug);
      ReservationBreaks(s, p);
    }
  }

  /** The assumption is needed: one tenant insert that is executed but reported as an error leads to
      two tenants with one slug. */
  lemma DirtyInsertDuplicates()
    ensures exists run :: !Unique(Exec(EMPTY, run).db)
  {
    var run := DirtyInsert();
    SlugsStayUniqueIff(run);
    var more :| CleanRun(Exec(EMPTY, run), more) && !Unique(Exec(EMPTY, run + more).db);
  }

  lemma DirtyInsert() returns (run: seq<Action>)
    ensures !SlugsOk(Exec(EMPTY, run))
  {
    var picks := Picks(5, 0, "");
    run := [Call(1, Register("e", "a"))];
    assert run[..0] == [];
    var s1 := Exec(EMPTY, run);
    assert s1 == Step(EMPTY, Call(1, Register("e", "a")));
    ExecConcat(EMPTY, run, [Next(1, Success, picks)]);
    assert [Next(1, Success, picks)][..0] == [] && [Next(1, DirtyError, picks)][..0] == [];
    run := run + [Next(1, Success, picks)];
    var s2 := Exec(EMPTY, run);
    assert s2 == Step(s1, Next(1, Success, picks));
    ExecConcat(EMPTY, run, [Next(1, Success, picks)]);
    run := run + [Next(1, Success, picks)];
    var s3 := Exec(EMPTY, run);
    assert s3 == Step(s2, Next(1, Success, picks));
    ExecConcat(EMPTY, run, [Next(1, DirtyError, picks)]);
    run := run + [Next(1, DirtyError, picks)];
    var s4 := Exec(EMPTY, run);
    assert s4 == Step(s3, Next(1, DirtyError, picks));
    assert HasSlug(s4.db, 5, "a") && s4.procs[1].pc.CleanUp? && s4.procs[1].alive;
  }
}

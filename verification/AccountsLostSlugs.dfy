// Slugs that a failed registration leaves reserved for nobody, and exactly when that is final.

module AccountsLostSlugs {
  import opened Faults
  import opened Accounts
  import opened AccountsSafety
  import opened NewNames

  /** The slug is reserved, no tenant has it, and no call that can still move holds its reservation. */
  ghost predicate Lost(s: State, slug: string) {
    && slug in s.db.slugs && !SlugKnown(s.db, slug)
    && forall p :: p in s.procs && s.procs[p].alive && HasReservation(s.procs[p].pc) ==> s.procs[p].request.slug != slug
  }

  lemma StepKeepsLost(s: State, a: Action, slug: string)
    requires Lost(s, slug)
    ensures Lost(Step(s, a), slug)
  {
    var s' := Step(s, a);
    if a.Next? && a.p in s.procs && s.procs[a.p].alive && Fits(s.db, s.procs[a.p], a.picks) {
      var proc := s.procs[a.p];
      SlugsAfter(s.db, proc.request, proc.pc, a.o, a.picks);
      TenantsAfter(s.db, proc.request, proc.pc, a.o, a.picks);
      assert HasReservation(proc.pc) ==> proc.request.slug != slug;
    }
    forall t
      ensures !HasSlug(s'.db, t, slug)
    {
      assert !HasSlug(s.db, t, slug);
    }
  }

  /** A lost slug stays lost in every continuation, and every registration that tries to reserve it is
      refused. */
  lemma {:induction false} LostForever(run: seq<Action>, more: seq<Action>, slug: string)
    requires Lost(Exec(EMPTY, run), slug)
    ensures var s := Exec(EMPTY, run + more);
            && Lost(s, slug)
            && forall p, o, picks :: p in s.procs && s.procs[p].pc == ReserveSlug && s.procs[p].request.slug == slug
                 ==> StepProc(s.db, s.procs[p].request, ReserveSlug, o, picks).1.Failed?
  {
    if more == [] {
      assert run + more == run;
    } else {
      var n := |more| - 1;
      LostForever(run, more[..n], slug);
      StepKeepsLost(Exec(EMPTY, run + more[..n]), more[n], slug);
      assert (run + more)[..|run + more| - 1] == run + more[..n];
    }
  }

  // ----- Any other slug can still become a tenant's.

  ghost predicate CanBeKnown(s: State, slug: string) {
    exists more :: SlugKnown(Exec(s, more).db, slug)
  }

  lemma KnownNow(s: State, t: Uuid, slug: string)
    requires HasSlug(s.db, t, slug)
    ensures CanBeKnown(s, slug)
  {
    assert Exec(s, []) == s;
  }

  lemma KnownLater(s: State, a: Action, slug: string)
    requires CanBeKnown(Step(s, a), slug)
    ensures CanBeKnown(s, slug)
  {
    var more :| SlugKnown(Exec(Step(s, a), more).db, slug);
    assert [a][..0] == [];
    assert Exec(s, [a]) == Step(s, a);
    ExecConcat(s, [a], more);
    assert SlugKnown(Exec(s, [a] + more).db, slug);
  }

  /** A new registration passes its e-mail check. */
  lemma NewRegistration(s: State, slug: string) returns (p: nat, email: string)
    ensures p !in s.procs && !EmailTakenBy(s.db, email)
  {
    p := FreshNat(s.procs.Keys);
    assert p !in s.procs.Keys;
    email := FreshString(set u | u in s.db.users :: s.db.users[u].email);
    forall u | u in s.db.users
      ensures s.db.users[u].email != email
    {
      assert s.db.users[u].email in set u | u in s.db.users :: s.db.users[u].email;
    }
  }

  lemma HeldCanBeKnown(s: State, p: nat, id: Uuid)
    requires p in s.procs && s.procs[p].alive && s.procs[p].pc == InsertTenant(id) && id !in s.db.tenants
    ensures CanBeKnown(s, s.procs[p].request.slug)
  {
    var a := Next(p, Success, Picks(0, 0, ""));
    assert HasSlug(Step(s, a).db, id, s.procs[p].request.slug);
    KnownNow(Step(s, a), id, s.procs[p].request.slug);
    KnownLater(s, a, s.procs[p].request.slug);
  }

  lemma UnreservedCanBeKnown(s: State, slug: string)
    requires slug !in s.db.slugs
    ensures CanBeKnown(s, slug)
  {
    var p, email := NewRegistration(s, slug);
    var id := FreshNat(s.db.tenants.Keys);
    assert id !in s.db.tenants.Keys;
    var a0 := Call(p, Register(email, slug));
    var a1 := Next(p, Success, Picks(id, 0, ""));
    var s1 := Step(s, a0);
    assert !EmailTakenBy(s1.db, email);
    var s2 := Step(s1, a1);
    assert s2 == State(s.db, s.procs[p := Proc(Register(email, slug), ReserveSlug, true)]);
    HeldCanBeKnown(Step(s2, a1), p, id);
    KnownLater(s2, a1, slug);
    KnownLater(s1, a1, slug);
    KnownLater(s, a0, slug);
  }

  lemma GivenBackCanBeKnown(s: State, p: nat)
    requires p in s.procs && s.procs[p].alive && s.procs[p].pc.CleanUp?
    ensures CanBeKnown(s, s.procs[p].request.slug)
  {
    var a := Next(p, Success, Picks(0, 0, ""));
    UnreservedCanBeKnown(Step(s, a), s.procs[p].request.slug);
    KnownLater(s, a, s.procs[p].request.slug);
  }

  lemma ReservedCanBeKnown(s: State, p: nat)
    requires p in s.procs && s.procs[p].alive && HasReservation(s.procs[p].pc)
    ensures CanBeKnown(s, s.procs[p].request.slug)
  {
    if s.procs[p].pc.CleanUp? {
      GivenBackCanBeKnown(s, p);
    } else if s.procs[p].pc.tenant !in s.db.tenants {
      HeldCanBeKnown(s, p, s.procs[p].pc.tenant);
    } else {
      var a := Next(p, Success, Picks(0, 0, ""));
      GivenBackCanBeKnown(Step(s, a), p);
      KnownLater(s, a, s.procs[p].request.slug);
    }
  }

  /** Exactly when no tenant can ever have a slug: after any run, no continuation gives it to a tenant if
      and only if it is lost. */
  lemma LostIff(run: seq<Action>, slug: string)
    ensures Lost(Exec(EMPTY, run), slug) <==> forall more :: !SlugKnown(Exec(EMPTY, run + more).db, slug)
  {
    var s := Exec(EMPTY, run);
    if Lost(s, slug) {
      forall more
        ensures !SlugKnown(Exec(EMPTY, run + more).db, slug)
      {
        LostForever(run, more, slug);
      }
    } else {
      NotLostCanBeKnown(s, slug);
      var more :| SlugKnown(Exec(s, more).db, slug);
      ExecConcat(EMPTY, run, more);
      assert SlugKnown(Exec(EMPTY, run + more).db, slug);
    }
  }

  lemma NotLostCanBeKnown(s: State, slug: string)
    requires !Lost(s, slug)
    ensures CanBeKnown(s, slug)
  {
    if t :| HasSlug(s.db, t, slug) {
      KnownNow(s, t, slug);
    } else if slug !in s.db.slugs {
      UnreservedCanBeKnown(s, slug);
    } else {
      var p :| p in s.procs && s.procs[p].alive && HasReservation(s.procs[p].pc) && s.procs[p].request.slug == slug;
      ReservedCanBeKnown(s, p);
    }
  }

  // ----- It happens.

  ghost predicate Reachable(s: State) {
    exists run :: Exec(EMPTY, run) == s
  }

  lemma Go(s: State, a: Action) returns (s': State)
    requires Reachable(s)
    ensures Reachable(s') && s' == Step(s, a)
  {
    var run :| Exec(EMPTY, run) == s;
    s' := Step(s, a);
    assert (run + [a])[..|run + [a]| - 1] == run;
    assert Exec(EMPTY, run + [a]) == s';
  }

  /** Any slug can be lost: the call that reserved it dies before it inserts its tenant. */
  lemma LostIsReachable(email: string, slug: string)
    ensures exists run :: Lost(Exec(EMPTY, run), slug)
  {
    var picks := Picks(1, 0, "");
    assert Exec(EMPTY, []) == EMPTY;
    var s := Go(EMPTY, Call(1, Register(email, slug)));
    s := Go(s, Next(1, Success, picks));
    assert s.procs[1].pc == ReserveSlug;
    s := Go(s, Next(1, Success, picks));
    s := Go(s, Crash(1));
    assert s.db.tenants == map[];
    assert Lost(s, slug);
  }
}

// How a call of Register, IssueKey or RevokeKey ends, and what it leaves in the tables, for every script of
// faults: read off the tables it found and the numbers of the statements that failed.

module AccountsEndings {
  import opened Faults
  import opened Options
  import opened Accounts
  import opened AccountsAlone

  // ----- Registering. Its statements are, in order: check the e-mail (0), reserve the slug (1), insert the
  // tenant (2), hash the password (3), insert the user (4), store the key (5).

  /** Statement k finds taken what it needs. */
  ghost predicate Refused(db: Db, email: string, slug: string, c: Choices, k: nat) {
    || (k == 0 && EmailTakenBy(db, email))
    || (k == 1 && slug in db.slugs)
    || (k == 2 && c.tenant in db.tenants)
    || (k == 4 && c.user in db.users)
  }

  ghost predicate Stops(db: Db, email: string, slug: string, script: Script, c: Choices, k: nat) {
    At(script, k).Reported() || Refused(db, email, slug, c, k)
  }

  /** Statement k is the first that fails or is refused; 6 if none is. */
  ghost predicate StopsFirst(db: Db, email: string, slug: string, script: Script, c: Choices, k: nat) {
    && k <= 6 && (k < 6 ==> Stops(db, email, slug, script, c, k))
    && forall j: nat :: j < k ==> !Stops(db, email, slug, script, c, j)
  }

  /** A reported error is internal; refused for its e-mail or its user, a call is told of the e-mail, and for
      its slug or its tenant, of the account. */
  function ToldAt(script: Script, k: nat): Option<Error> {
    if k == 6 then None
    else if At(script, k).Reported() then Some(Internal)
    else if k == 0 || k == 4 then Some(EmailTaken)
    else Some(SlugTaken)
  }

  /** A call stopped at statement k has executed those before it, and k itself if it was executed; stopped
      at the tenant, it has tried to give the slug back with its next statement. */
  ghost predicate Leaves(db: Db, db': Db, email: string, slug: string, script: Script, c: Choices, k: nat) {
    var ran := (j: nat) => j < k || (j == k && At(script, k).Executed());
    && db'.slugs == (if ran(1) && !(k == 2 && At(script, 3).Executed()) then db.slugs + {slug} else db.slugs)
    && db'.tenants == (if ran(2) && c.tenant !in db.tenants
                       then db.tenants[c.tenant := Tenant(slug, PROVISIONING)] else db.tenants)
    && db'.users == (if ran(4) && c.user !in db.users
                     then db.users[c.user := User(email, c.tenant)] else db.users)
    && db'.keys == (if ran(5) && c.hash !in db.keys
                    then db.keys[c.hash := ApiKeys.Key(Some(c.keyId), Some(c.tenant), ApiKeys.ACTIVE)] else db.keys)
  }

  lemma KeyStep(db: Db, email: string, slug: string, script: Script, c: Choices)
    ensures var out := Alone(db, Register(email, slug), InitialKey(c.tenant), Drop(script, 5), c);
            && out.end == Ending(if At(script, 5).Reported() then Some(Internal) else None)
            && out.db == db.(keys := if At(script, 5).Executed() && c.hash !in db.keys
                 then db.keys[c.hash := ApiKeys.Key(Some(c.keyId), Some(c.tenant), ApiKeys.ACTIVE)] else db.keys)
  {
    Dropped(script, 5);
    AloneStep(db, Register(email, slug), InitialKey(c.tenant), Drop(script, 5), c);
  }

  /** The tables once the tenant is there, and then the user. */
  ghost predicate HasTenant(db0: Db, db: Db, slug: string, c: Choices) {
    && db.users == db0.users && db.keys == db0.keys
    && db.slugs == db0.slugs + {slug} && db.tenants == db0.tenants[c.tenant := Tenant(slug, PROVISIONING)]
  }

  lemma UserStep(db0: Db, db: Db, email: string, slug: string, script: Script, c: Choices, k: nat)
    requires StopsFirst(db0, email, slug, script, c, k) && k >= 4 && HasTenant(db0, db, slug, c)
    requires c.tenant !in db0.tenants
    ensures var out := Alone(db, Register(email, slug), InsertUser(c.tenant), Drop(script, 4), c);
            out.end == Ending(ToldAt(script, k)) && Leaves(db0, out.db, email, slug, script, c, k)
  {
    Dropped(script, 4);
    AloneStep(db, Register(email, slug), InsertUser(c.tenant), Drop(script, 4), c);
    if k > 4 {
      assert !Stops(db0, email, slug, script, c, 4);
      KeyStep(db.(users := db.users[c.user := User(email, c.tenant)]), email, slug, script, c);
      if k > 5 {
        assert !Stops(db0, email, slug, script, c, 5);
      }
    }
  }

  lemma UserSteps(db0: Db, db: Db, email: string, slug: string, script: Script, c: Choices, k: nat)
    requires StopsFirst(db0, email, slug, script, c, k) && k >= 3 && HasTenant(db0, db, slug, c)
    ensures var out := Alone(db, Register(email, slug), HashPassword(c.tenant), Drop(script, 3), c);
            out.end == Ending(ToldAt(script, k)) && Leaves(db0, out.db, email, slug, script, c, k)
  {
    assert !Stops(db0, email, slug, script, c, 2);
    Dropped(script, 3);
    AloneStep(db, Register(email, slug), HashPassword(c.tenant), Drop(script, 3), c);
    if k > 3 {
      assert !Stops(db0, email, slug, script, c, 3);
      UserStep(db0, db, email, slug, script, c, k);
    }
  }

  lemma TenantSteps(db: Db, email: string, slug: string, script: Script, c: Choices, k: nat)
    requires StopsFirst(db, email, slug, script, c, k) && k >= 2
    ensures var out := Alone(db.(slugs := db.slugs + {slug}), Register(email, slug), InsertTenant(c.tenant),
                Drop(script, 2), c);
            out.end == Ending(ToldAt(script, k)) && Leaves(db, out.db, email, slug, script, c, k)
  {
    var r := Register(email, slug);
    var reserved := db.(slugs := db.slugs + {slug});
    assert !Stops(db, email, slug, script, c, 1);
    assert db.slugs + {slug} - {slug} == db.slugs;
    Dropped(script, 2);
    AloneStep(reserved, r, InsertTenant(c.tenant), Drop(script, 2), c);
    var (tenants', applied) := InsertIfAbsent(db.tenants, c.tenant, Tenant(slug, PROVISIONING), At(script, 2));
    var tried := reserved.(tenants := tenants');
    if k == 2 {
      var error := if At(script, 2).Reported() then Internal else SlugTaken;
      Dropped(script, 3);
      AloneStep(tried, r, CleanUp(c.tenant, error), Drop(script, 3), c);
    } else {
      assert !Stops(db, email, slug, script, c, 2);
      UserSteps(db, tried, email, slug, script, c, k);
    }
  }

  /** For every script of faults a registration ends at its first statement that fails or is refused, with the
      error of that statement, and leaves what the statements before it did; the slug it gives back. */
  lemma RegisterEnds(db: Db, email: string, slug: string, script: Script, c: Choices, k: nat)
    requires StopsFirst(db, email, slug, script, c, k)
    ensures var out := Alone(db, Register(email, slug), CheckEmail, script, c);
            out.end == Ending(ToldAt(script, k)) && Leaves(db, out.db, email, slug, script, c, k)
  {
    var r := Register(email, slug);
    AtDropped(script, 0);
    Dropped(script, 0);
    AloneStep(db, r, CheckEmail, script, c);
    if k > 0 {
      assert !Stops(db, email, slug, script, c, 0);
      Dropped(script, 1);
      AloneStep(db, r, ReserveSlug, Drop(script, 1), c);
      if k > 1 {
        assert !Stops(db, email, slug, script, c, 1);
        TenantSteps(db, email, slug, script, c, k);
      } else {
        assert slug in db.slugs ==> db.slugs + {slug} == db.slugs;
      }
    }
  }

  lemma {:induction false} FirstStop(db: Db, email: string, slug: string, script: Script, c: Choices, from: nat)
      returns (k: nat)
    requires from <= 6 && forall j: nat :: j < from ==> !Stops(db, email, slug, script, c, j)
    ensures StopsFirst(db, email, slug, script, c, k)
    decreases 6 - from
  {
    if from == 6 || Stops(db, email, slug, script, c, from) {
      k := from;
    } else {
      k := FirstStop(db, email, slug, script, c, from + 1);
    }
  }

  /** The result of a registration and the tables it leaves, from the tables it found and the script. */
  ghost predicate Registered(db: Db, email: string, slug: string, script: Script, c: Choices, error: Option<Error>,
                             db': Db) {
    exists k :: StopsFirst(db, email, slug, script, c, k) && error == ToldAt(script, k)
                && Leaves(db, db', email, slug, script, c, k)
  }

  lemma AloneRegisters(db: Db, email: string, slug: string, script: Script, c: Choices, error: Option<Error>)
    requires Alone(db, Register(email, slug), CheckEmail, script, c).end == Ending(error)
    ensures Registered(db, email, slug, script, c, error,
                       Alone(db, Register(email, slug), CheckEmail, script, c).db)
  {
    var k := FirstStop(db, email, slug, script, c, 0);
    RegisterEnds(db, email, slug, script, c, k);
  }

  /** Without faults: a taken e-mail is reported before a taken slug, and a taken slug or tenant id before a
      taken user id. With faults, nobody is told of an internal error but for a reported one, nor of a taken
      slug or e-mail but for one that was taken. */
  lemma ErrorPrecedence(db: Db, email: string, slug: string, script: Script, c: Choices)
    ensures var end := Alone(db, Register(email, slug), CheckEmail, script, c).end;
            && (script == [] ==>
                 end == if EmailTakenBy(db, email) then Failed(EmailTaken)
                        else if slug in db.slugs || c.tenant in db.tenants then Failed(SlugTaken)
                        else if c.user in db.users then Failed(EmailTaken)
                        else Done)
            && (end == Failed(Internal) ==> exists k :: 0 <= k < |script| && script[k].Reported())
            && (end == Failed(SlugTaken) ==> slug in db.slugs || c.tenant in db.tenants)
            && (end == Failed(EmailTaken) ==> EmailTakenBy(db, email) || c.user in db.users)
            && (end == Done ==> !EmailTakenBy(db, email) && slug !in db.slugs && c.tenant !in db.tenants
                                && c.user !in db.users)
            && (end == Done || end == Failed(Internal) || end == Failed(SlugTaken) || end == Failed(EmailTaken))
  {
    var k := FirstStop(db, email, slug, script, c, 0);
    RegisterEnds(db, email, slug, script, c, k);
    if k == 6 {
      assert !Stops(db, email, slug, script, c, 0) && !Stops(db, email, slug, script, c, 1);
      assert !Stops(db, email, slug, script, c, 2) && !Stops(db, email, slug, script, c, 4);
    }
    if script == [] {
      assert Refused(db, email, slug, c, 0) ==> !(k > 0) by { assert k > 0 ==> !Stops(db, email, slug, script, c, 0); }
      assert Refused(db, email, slug, c, 1) ==> !(k > 1) by { assert k > 1 ==> !Stops(db, email, slug, script, c, 1); }
      assert Refused(db, email, slug, c, 2) ==> !(k > 2) by { assert k > 2 ==> !Stops(db, email, slug, script, c, 2); }
      assert Refused(db, email, slug, c, 4) ==> !(k > 4) by { assert k > 4 ==> !Stops(db, email, slug, script, c, 4); }
    }
  }

  // ----- Registering when nothing fails.

  /** Whether a registration that runs alone without faults succeeds. */
  ghost predicate Free(db: Db, email: string, slug: string, c: Choices) {
    !EmailTakenBy(db, email) && slug !in db.slugs && c.tenant !in db.tenants && c.user !in db.users
  }

  /** Without faults a registration succeeds exactly if its e-mail and slug and its generated ids are
      free, and then adds exactly its four rows (an existing key row is kept); refused for its e-mail,
      its slug or its tenant id it leaves the tables as they were, the reservation being given back. */
  lemma RegisterIsAllOrNothing(db: Db, email: string, slug: string, c: Choices)
    ensures var out := Alone(db, Register(email, slug), CheckEmail, [], c);
            && (out.end == Done <==> Free(db, email, slug, c))
            && (out.end == Done ==>
                  out.db == Db(db.slugs + {slug},
                               db.tenants[c.tenant := Tenant(slug, PROVISIONING)],
                               db.users[c.user := User(email, c.tenant)],
                               if c.hash in db.keys then db.keys
                                   else db.keys[c.hash := ApiKeys.Key(Some(c.keyId), Some(c.tenant), ApiKeys.ACTIVE)]))
            && (out.end != Done && c.user !in db.users ==> out.db == db)
  {
    var r := Register(email, slug);
    AloneStep(db, r, CheckEmail, [], c);
    if !EmailTakenBy(db, email) {
      AloneStep(db, r, ReserveSlug, [], c);
      if slug !in db.slugs {
        var reserved := db.(slugs := db.slugs + {slug});
        AloneStep(reserved, r, InsertTenant(c.tenant), [], c);
        if c.tenant in db.tenants {
          AloneStep(reserved, r, CleanUp(c.tenant, SlugTaken), [], c);
          assert db.slugs + {slug} - {slug} == db.slugs;
        } else {
          var created := reserved.(tenants := db.tenants[c.tenant := Tenant(slug, PROVISIONING)]);
          UserStepsAlone(created, r, c);
        }
      } else {
        assert db.slugs + {slug} == db.slugs;
      }
    }
  }

  lemma UserStepsAlone(db: Db, r: Request, c: Choices)
    ensures Alone(db, r, HashPassword(c.tenant), [], c) ==
            if c.user in db.users then Outcomes(db, [], Failed(EmailTaken))
            else Outcomes(StoreKeyRow(db.(users := db.users[c.user := User(EmailOf(r), c.tenant)]), c.tenant,
                Picks(c.tenant, c.keyId, c.hash), Success), [], Done)
  {
    AloneStep(db, r, HashPassword(c.tenant), [], c);
    AloneStep(db, r, InsertUser(c.tenant), [], c);
    if c.user !in db.users {
      AloneStep(db.(users := db.users[c.user := User(EmailOf(r), c.tenant)]), r, InitialKey(c.tenant), [], c);
    }
  }

  // ----- Issuing. Its statements are: find the tenant (0), store the key (1).

  ghost predicate FoundActive(db: Db, slug: string, c: Choices) {
    HasSlug(db, c.tenant, slug) && db.tenants[c.tenant].status == ACTIVE
  }

  /** The result of issuing a key and the tables it leaves: one key more, and that only for a tenant found
      ACTIVE under the slug. */
  ghost predicate Issued(db: Db, slug: string, script: Script, c: Choices, error: Option<Error>, db': Db) {
    && error == (if At(script, 0).Reported() then Some(Internal)
                 else if !SlugKnown(db, slug) then Some(NotFound)
                 else if !FoundActive(db, slug, c) then Some(NotActive)
                 else if At(script, 1).Reported() then Some(Internal)
                 else None)
    && var stored := !At(script, 0).Reported() && FoundActive(db, slug, c) && At(script, 1).Executed();
       if stored && c.hash !in db.keys
       then db' == db.(keys := db.keys[c.hash := ApiKeys.Key(Some(c.keyId), Some(c.tenant), ApiKeys.ACTIVE)])
       else db' == db
  }

  lemma IssueKeyNeedsActive(db: Db, slug: string, script: Script, c: Choices, error: Option<Error>)
    requires SlugKnown(db, slug) ==> HasSlug(db, c.tenant, slug)
    requires Alone(db, IssueKey(slug), FindActive, script, c).end == Ending(error)
    ensures Issued(db, slug, script, c, error, Alone(db, IssueKey(slug), FindActive, script, c).db)
  {
    var r := IssueKey(slug);
    AtDropped(script, 0);
    Dropped(script, 0);
    Dropped(script, 1);
    AloneStep(db, r, FindActive, script, c);
    if FoundActive(db, slug, c) && !At(script, 0).Reported() {
      AloneStep(db, r, StoreKey(c.tenant), Drop(script, 1), c);
    }
  }

  // ----- Revoking. Its statements are: find the tenant (0), find the row (1), mark it (2).

  predicate FoundRow(db: Db, keyId: Uuid, c: Choices) {
    c.hash in db.keys && db.keys[c.hash].id == Some(keyId)
  }

  /** The result of revoking and the tables it leaves, the row being looked up by statement n: nothing but the
      one row found is revoked, whoever it belongs to, and success means that it is. */
  ghost predicate RevokedOne(db: Db, keyId: Uuid, script: Script, n: nat, c: Choices, error: Option<Error>,
                             db': Db) {
    && error == (if At(script, n).Reported() then Some(Internal)
                 else if FoundRow(db, keyId, c) && At(script, n + 1).Reported() then Some(Internal)
                 else None)
    && if !At(script, n).Reported() && FoundRow(db, keyId, c) && At(script, n + 1).Executed()
       then db' == db.(keys := db.keys[c.hash := db.keys[c.hash].(status := ApiKeys.REVOKED)])
       else db' == db
  }

  lemma RevokeByIDRevokesOne(db: Db, slug: string, keyId: Uuid, script: Script, n: nat, c: Choices,
                             error: Option<Error>)
    requires Alone(db, RevokeKey(slug, keyId), FindHash, Drop(script, n), c).end == Ending(error)
    ensures RevokedOne(db, keyId, script, n, c, error,
                       Alone(db, RevokeKey(slug, keyId), FindHash, Drop(script, n), c).db)
  {
    var r := RevokeKey(slug, keyId);
    Dropped(script, n);
    Dropped(script, n + 1);
    AloneStep(db, r, FindHash, Drop(script, n), c);
    if FoundRow(db, keyId, c) && !At(script, n).Reported() {
      AloneStep(db, r, MarkRevoked(c.hash), Drop(script, n + 1), c);
    }
  }

  /** Revoking fails for an unknown slug, and else goes on by the id of the key alone. */
  ghost predicate Revoked(db: Db, slug: string, keyId: Uuid, script: Script, c: Choices, error: Option<Error>,
                          db': Db) {
    if At(script, 0).Reported() then error == Some(Internal) && db' == db
    else if !SlugKnown(db, slug) then error == Some(NotFound) && db' == db
    else RevokedOne(db, keyId, script, 1, c, error, db')
  }

  lemma RevokeKeyRevokesOne(db: Db, slug: string, keyId: Uuid, script: Script, c: Choices, error: Option<Error>)
    requires Alone(db, RevokeKey(slug, keyId), FindTenant, script, c).end == Ending(error)
    ensures Revoked(db, slug, keyId, script, c, error,
                    Alone(db, RevokeKey(slug, keyId), FindTenant, script, c).db)
  {
    AtDropped(script, 0);
    Dropped(script, 0);
    AloneStep(db, RevokeKey(slug, keyId), FindTenant, script, c);
    if !At(script, 0).Reported() && SlugKnown(db, slug) {
      RevokeByIDRevokesOne(db, slug, keyId, script, 1, c, error);
    }
  }
}

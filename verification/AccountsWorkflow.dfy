// Register, IssueKey and RevokeKey as the programs they are (services/accounts/service/service.go,
// internal/accounts/tenant.go), each equal to one call of the machine run to its end.

module AccountsWorkflow {
  import opened Faults
  import opened Options
  import opened Accounts
  import opened AccountsAlone
  import opened AccountsEndings

  class Service {
    var db: Db
    var script: Script

    constructor (db: Db, script: Script)
      ensures this.db == db && this.script == script
    {
      this.db := db;
      this.script := script;
    }

    /** How the next statement ends. */
    method NextOutcome() returns (o: Outcome)
      modifies this`script
      ensures o == Faults.Next(old(script)) && script == Rest(old(script))
    {
      o := Faults.Next(script);
      script := Rest(script);
    }

    /** TenantStore.GetBySlug on the tables as they are. */
    method FindBySlug(slug: string) returns (found: Option<Uuid>)
      ensures found.Some? ==> HasSlug(db, found.value, slug)
      ensures found.None? ==> !SlugKnown(db, slug)
    {
      if t :| t in db.tenants && db.tenants[t].slug == slug {
        found := Some(t);
      } else {
        found := None;
      }
    }

    /** TenantStore.Create: reserve the slug, insert the row under a generated id, and give the
        reservation back if that fails; a failing clean-up is ignored. */
    method CreateTenant(email: string, slug: string, c: Choices) returns (error: Option<Error>)
      modifies this
      ensures Alone(old(db), Request.Register(email, slug), ReserveSlug, old(script), c) ==
              Alone(db, Request.Register(email, slug), if error.None? then HashPassword(c.tenant)
                  else Failed(error.value), script, c)
      ensures var (db0, o0, o1) := (old(db), At(old(script), 0), At(old(script), 1));
              var held := !o0.Reported() && slug !in db0.slugs;
              && error == (if o0.Reported() then Some(Internal)
                           else if slug in db0.slugs then Some(SlugTaken)
                           else if o1.Reported() then Some(Internal)
                           else if c.tenant in db0.tenants then Some(SlugTaken)
                           else None)
              && db.slugs == (if !o0.Executed() || (held && error.Some? && At(old(script), 2).Executed())
                              then db0.slugs else db0.slugs + {slug})
              && db.tenants == (if held && o1.Executed() && c.tenant !in db0.tenants
                                then db0.tenants[c.tenant := Tenant(slug, PROVISIONING)] else db0.tenants)
              && db.users == db0.users && db.keys == db0.keys
    {
      ghost var r := Request.Register(email, slug);
      AloneStep(db, r, ReserveSlug, script, c);
      var taken := slug in db.slugs;
      var o := NextOutcome();
      if o.Executed() {
        db := db.(slugs := db.slugs + {slug});
      }
      if o.Reported() { return Some(Internal); }
      if taken { return Some(SlugTaken); }

      AloneStep(db, r, InsertTenant(c.tenant), script, c);
      o := NextOutcome();
      var (tenants', applied) := InsertIfAbsent(db.tenants, c.tenant, Tenant(slug, PROVISIONING), o);
      db := db.(tenants := tenants');
      if !o.Reported() && applied { return None; }

      error := Some(if o.Reported() then Internal else SlugTaken);
      AloneStep(db, r, CleanUp(c.tenant, error.value), script, c);
      o := NextOutcome();
      if o.Executed() {
        db := db.(slugs := db.slugs - {slug});
        assert db.slugs == old(db).slugs;
      }
    }

    /** UserStore.Create and the initial key, after the tenant exists. */
    method CreateUser(email: string, slug: string, c: Choices) returns (error: Option<Error>)
      modifies this
      ensures Alone(old(db), Request.Register(email, slug), HashPassword(c.tenant), old(script), c) ==
              Alone(db, Request.Register(email, slug), Ending(error), script, c)
    {
      ghost var r := Request.Register(email, slug);
      AloneStep(db, r, HashPassword(c.tenant), script, c);
      var o := NextOutcome();
      if o.Reported() { return Some(Internal); }

      AloneStep(db, r, InsertUser(c.tenant), script, c);
      o := NextOutcome();
      var (users', applied) := InsertIfAbsent(db.users, c.user, User(email, c.tenant), o);
      db := db.(users := users');
      if o.Reported() { return Some(Internal); }
      if !applied { return Some(EmailTaken); }

      AloneStep(db, r, InitialKey(c.tenant), script, c);
      o := NextOutcome();
      db := StoreKeyRow(db, c.tenant, PicksAt(InitialKey(c.tenant), c), o);
      return if o.Reported() then Some(Internal) else None;
    }

    /** CFAccountsService.Register. It does exactly what the machine's call does alone. */
    method Register(email: string, slug: string, c: Choices) returns (error: Option<Error>)
      modifies this
      ensures Reached(old(db)) ==> Reached(db)
      ensures Outcomes(db, script, Ending(error)) ==
              Alone(old(db), Request.Register(email, slug), CheckEmail, old(script), c)
      ensures Registered(old(db), email, slug, old(script), c, error, db)
    {
      ghost var r := Request.Register(email, slug);
      forall e | Alone(db, r, CheckEmail, script, c).end == Ending(e)
        ensures Registered(db, email, slug, script, c, e, Alone(db, r, CheckEmail, script, c).db)
      {
        AloneRegisters(db, email, slug, script, c, e);
      }
      if Reached(db) { RegisterReaches(db, email, slug, script, c); }
      AloneStep(db, r, CheckEmail, script, c);
      var taken := exists u :: u in db.users && db.users[u].email == email;
      var o := NextOutcome();
      if o.Reported() { return Some(Internal); }
      if taken { return Some(EmailTaken); }
      error := CreateTenant(email, slug, c);
      if error.Some? { return; }
      error := CreateUser(email, slug, c);
    }

    /** CFAccountsService.IssueKey: only an ACTIVE tenant gets a key. */
    method IssueKey(slug: string, keyId: Uuid, hash: string) returns (error: Option<Error>, ghost c: Choices)
      modifies this
      ensures Reached(old(db)) ==> Reached(db)
      ensures SlugKnown(old(db), slug) ==> HasSlug(old(db), c.tenant, slug)
      ensures c.keyId == keyId && c.hash == hash
      ensures Outcomes(db, script, Ending(error)) == Alone(old(db), Request.IssueKey(slug), FindActive, old(script), c)
      ensures Issued(old(db), slug, old(script), c, error, db)
    {
      ghost var r := Request.IssueKey(slug);
      var found := FindBySlug(slug);
      c := Choices(if found.Some? then found.value else 0, 0, keyId, hash);
      if Reached(db) { IssueReaches(db, slug, script, c); }
      ghost var db0, script0 := db, script;
      AloneStep(db, r, FindActive, script, c);
      assert found.None? ==> !HasSlug(db, c.tenant, slug);
      var o := NextOutcome();
      if o.Reported() {
        error := Some(Internal);
      } else if found.None? {
        error := Some(NotFound);
      } else if !db.tenants[found.value].status.ACTIVE? {
        error := Some(NotActive);
      } else {
        AloneStep(db, r, StoreKey(found.value), script, c);
        o := NextOutcome();
        db := StoreKeyRow(db, found.value, Picks(found.value, keyId, hash), o);
        error := if o.Reported() then Some(Internal) else None;
      }
      IssueKeyNeedsActive(db0, slug, script0, c, error);
    }

    /** The filtered read of revokeWhere on the table as it is. */
    method FindHashById(keyId: Uuid) returns (hash: Option<string>)
      ensures hash.Some? ==> hash.value in db.keys && db.keys[hash.value].id == Some(keyId)
      ensures hash.None? ==> forall h :: h in db.keys ==> db.keys[h].id != Some(keyId)
    {
      if h :| h in db.keys && db.keys[h].id == Some(keyId) {
        hash := Some(h);
      } else {
        hash := None;
      }
    }

    /** APIKeyStore.RevokeByID: find a row by its key id, mark it. */
    method RevokeByID(slug: string, keyId: Uuid) returns (error: Option<Error>, ghost c: Choices)
      modifies this
      ensures Finds(old(db), keyId, c)
      ensures Outcomes(db, script, Ending(error)) ==
              Alone(old(db), Request.RevokeKey(slug, keyId), FindHash, old(script), c)
      ensures RevokedOne(old(db), keyId, old(script), 0, c, error, db)
    {
      ghost var r := Request.RevokeKey(slug, keyId);
      var hash := FindHashById(keyId);
      c := Choices(0, 0, keyId, if hash.Some? then hash.value else "");
      ghost var db0, script0 := db, script;
      AloneStep(db, r, FindHash, script, c);
      var o := NextOutcome();
      if o.Reported() {
        error := Some(Internal);
      } else if hash.None? {
        error := None;
      } else {
        AloneStep(db, r, MarkRevoked(hash.value), script, c);
        o := NextOutcome();
        db := Revoke(db, hash.value, o);
        error := if o.Reported() then Some(Internal) else None;
      }
      AtDropped(script0, 0);
      RevokeByIDRevokesOne(db0, slug, keyId, script0, 0, c, error);
    }

    /** CFAccountsService.RevokeKey: look the tenant up, then revoke by id. Whether the key belongs to the
        tenant is not checked. */
    method RevokeKey(slug: string, keyId: Uuid) returns (error: Option<Error>, ghost c: Choices)
      modifies this
      ensures Reached(old(db)) ==> Reached(db)
      ensures Finds(old(db), keyId, c)
      ensures Outcomes(db, script, Ending(error)) ==
              Alone(old(db), Request.RevokeKey(slug, keyId), FindTenant, old(script), c)
      ensures Revoked(old(db), slug, keyId, old(script), c, error, db)
    {
      ghost var r := Request.RevokeKey(slug, keyId);
      var found := FindBySlug(slug);
      assert found.Some? ==> SlugKnown(db, slug);
      ghost var db0, script0 := db, script;
      c := AnyFind(db, keyId);
      var o := NextOutcome();
      if o.Reported() || found.None? {
        AloneStep(db0, r, FindTenant, script0, c);
        if Reached(db0) { RevokeReaches(db0, slug, keyId, script0, c); }
        error := Some(if o.Reported() then Internal else NotFound);
      } else {
        error, c := RevokeByID(slug, keyId);
        AloneStep(db0, r, FindTenant, script0, c);
        if Reached(db0) { RevokeReaches(db0, slug, keyId, script0, c); }
      }
      RevokeKeyRevokesOne(db0, slug, keyId, script0, c, error);
    }
  }
}

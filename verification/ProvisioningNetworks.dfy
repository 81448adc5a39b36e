// What an ACTIVE tenant has, over every run: exactly what no teardown has removed since it was made.

module ProvisioningNetworks {
  import opened Faults
  import opened Jobs
  import opened Provisioning
  import opened ProvisioningTenants

  /** Only the stages touch anything but the job tables. */
  lemma QueueStepsOnly(db: Db, proc: Proc, o: Outcome, pick: Uuid, hash: string)
    requires !proc.pc.Work?
    ensures var db' := StepProc(db, proc, o, pick, hash).0;
            && db'.tenants == db.tenants && db'.keys == db.keys && db'.things == db.things
            && db'.history.statuses == db.history.statuses
            && db'.history.removed == db.history.removed && db'.history.torn == db.history.torn
  {
  }

  // ----- What is there has not been removed since it was made.

  predicate Removable(thing: Thing) {
    thing.VCluster? || thing.Kubeconfig?
  }

  ghost predicate ThingsOk(db: Db) {
    && (forall x :: x in db.things ==> x !in db.history.removed)
    && (forall x :: x in db.history.removed ==> Removable(x.1))
  }

  lemma EffectKeepsThings(db: Db, slug: string, tenant: Uuid, stage: Stage, hash: string)
    requires ThingsOk(db)
    ensures ThingsOk(Effect(db, slug, tenant, stage, hash))
  {
  }

  lemma StepKeepsThings(s: State, a: Action)
    requires ThingsOk(s.db)
    ensures ThingsOk(Step(s, a).db)
  {
    if a.Next? && a.p in s.procs && s.procs[a.p].alive && Fits(s.db, s.procs[a.p], a.pick, a.hash) {
      var proc := s.procs[a.p];
      if proc.pc.Work? {
        EffectKeepsThings(s.db, proc.request.slug, proc.pc.tenant, proc.pc.stage, a.hash);
      } else {
        QueueStepsOnly(s.db, proc, a.o, a.pick, a.hash);
      }
    }
  }

  lemma {:induction false} RunKeepsThings(run: seq<Action>)
    ensures ThingsOk(Exec(EMPTY, run).db)
  {
    if run != [] {
      RunKeepsThings(run[..|run| - 1]);
      StepKeepsThings(Exec(EMPTY, run[..|run| - 1]), run[|run| - 1]);
    }
  }

  /** A tenant that is, or ever was, ACTIVE has each part of its network exactly if no teardown has
      removed that part since it was last made; its namespace and policies, an API key row and the CIDR
      pair it has in any case. */
  lemma ActiveHasNetwork(run: seq<Action>, t: Uuid, thing: Thing)
    requires ACTIVE in StatusesOf(Exec(EMPTY, run).db, t)
    ensures var db := Exec(EMPTY, run).db;
            && t in db.tenants && HasKey(db, t) && HasCidrs(db, t)
            && var part := (db.tenants[t].slug, thing);
               && (part in db.things <==> part !in db.history.removed)
               && (!Removable(thing) ==> part in db.things)
  {
    RunKeepsTInv(run);
    RunKeepsThings(run);
    var db := Exec(EMPTY, run).db;
    assert TenantOk(db, t) && Made(db, db.tenants[t].slug, thing);
  }

  // ----- Without a teardown of its own.

  /** Nobody calls for the teardown of this slug; others may be torn down. */
  ghost predicate NoTeardownOf(run: seq<Action>, slug: string) {
    forall a :: a in run && a.Call? && a.request.Deprovision? ==> a.request.slug != slug
  }

  ghost predicate Untouched(s: State, slug: string) {
    && (forall x :: x in s.db.history.removed ==> x.0 != slug)
    && (forall p :: p in s.procs && s.procs[p].request.Deprovision? ==> s.procs[p].request.slug != slug)
  }

  /** Only a teardown removes, and only of its own slug. */
  lemma EffectRemoves(db: Db, slug: string, tenant: Uuid, stage: Stage, hash: string, x: (string, Thing))
    requires x in Effect(db, slug, tenant, stage, hash).history.removed && x !in db.history.removed
    ensures x.0 == slug && !Building(stage)
  {
  }

  lemma StepKeepsUntouched(s: State, a: Action, slug: string)
    requires TInv(s) && Untouched(s, slug)
    requires a.Call? && a.request.Deprovision? ==> a.request.slug != slug
    ensures Untouched(Step(s, a), slug)
  {
    if a.Next? && a.p in s.procs && s.procs[a.p].alive && Fits(s.db, s.procs[a.p], a.pick, a.hash) {
      var proc := s.procs[a.p];
      assert KnowsTenant(s.db, proc);
      if proc.pc.Work? {
        var db' := Effect(s.db, proc.request.slug, proc.pc.tenant, proc.pc.stage, a.hash);
        forall x | x in db'.history.removed
          ensures x.0 != slug
        {
          if x !in s.db.history.removed {
            EffectRemoves(s.db, proc.request.slug, proc.pc.tenant, proc.pc.stage, a.hash, x);
          }
        }
      } else {
        QueueStepsOnly(s.db, proc, a.o, a.pick, a.hash);
      }
    }
  }

  lemma {:induction false} RunKeepsUntouched(run: seq<Action>, slug: string)
    requires NoTeardownOf(run, slug)
    ensures Untouched(Exec(EMPTY, run), slug)
  {
    if run != [] {
      var n := |run| - 1;
      assert forall a :: a in run[..n] ==> a in run;
      RunKeepsUntouched(run[..n], slug);
      RunKeepsTInv(run[..n]);
      StepKeepsUntouched(Exec(EMPTY, run[..n]), run[n], slug);
    }
  }

  /** An ACTIVE tenant that nobody has called to deprovision has everything, whatever happens to others. */
  lemma ActiveHasEverything(run: seq<Action>, t: Uuid, thing: Thing)
    requires var db := Exec(EMPTY, run).db;
             t in db.tenants && db.tenants[t].status == ACTIVE && NoTeardownOf(run, db.tenants[t].slug)
    ensures var db := Exec(EMPTY, run).db;
            HasKey(db, t) && HasCidrs(db, t) && (db.tenants[t].slug, thing) in db.things
  {
    RunKeepsTInv(run);
    var db := Exec(EMPTY, run).db;
    assert TenantOk(db, t);
    ActiveHasNetwork(run, t, thing);
    RunKeepsUntouched(run, db.tenants[t].slug);
  }
}

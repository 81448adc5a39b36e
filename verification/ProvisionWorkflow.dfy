// The job store, Provision and Deprovision and their workflows as the programs they are
// (internal/accounts/job.go, services/provisioner/service/service.go), each equal to one process of the
// machine run to its end.

module ProvisionWorkflow {
  import opened Faults
  import opened Options
  import opened JobLives
  import opened Jobs
  import opened Provisioning
  import opened ProvisioningJobs
  import opened ProvisioningOutcomes
  import opened ProvisionAlone
  import opened ProvisionEffects

  class Service {
    var db: Db
    var script: Script

    constructor (db: Db, script: Script)
      ensures this.db == db && this.script == script
    {
      this.db := db;
      this.script := script;
    }

    /** JobStore.Enqueue: reserve the slot with a generated id; on success insert the row; on a taken
        slot return its job. */
    method Enqueue(owner: Uuid, r: Request, newId: Uuid) returns (job: Option<Uuid>)
      modifies this
      ensures var (db', script', pc') := Enqueued(old(db), r, owner, old(script), newId);
              db == db' && script == script' && pc' == if job.Some? then Claim(owner, job.value) else Ended
      ensures job == Answered(old(db).queue, r, owner, old(script), newId)
      ensures Enqueues(old(db).queue, db.queue, r, owner, old(script), newId) && SameTables(old(db), db)
      ensures job.Some? ==> Holds(db.queue, SlotFor(r, owner), job.value)
                            && (SlotFor(r, owner), job.value) in db.history.returned
    {
      EnqueueAnswers(db, r, owner, script, newId);
      var slot := Slot(owner, KeyOf(r));
      var taken := slot in db.queue.slots;
      var o := Faults.Next(script);
      script := Rest(script);
      db := db.(queue := TakeSlot(db.queue, slot, newId, o));
      if o.Reported() {
        return None;
      }
      if taken {
        job := Some(db.queue.slots[slot]);
        db := db.(history := Answer(db.history, r, Claim(owner, job.value)));
        return;
      }
      o := Faults.Next(script);
      script := Rest(script);
      db := db.(queue := InsertQueued(db.queue, JobId(owner, newId), KeyOf(r), o));
      if o.Reported() {
        return None;
      }
      db := db.(history := Answer(db.history, r, Claim(owner, newId)));
      return Some(newId);
    }

    /** JobStore.Claim: whether this caller won. */
    method ClaimFor(r: Request, owner: Uuid, job: Uuid) returns (won: bool)
      modifies this
      ensures var (db', pc') := StepProc(old(db), Proc(r, Claim(owner, job), true), Faults.Next(old(script)), NIL, "");
              db == db' && won == !pc'.Ended? && script == Rest(old(script))
    {
      var o := Faults.Next(script);
      script := Rest(script);
      won := Claimable(db.queue, JobId(owner, job)) && !o.Reported();
      db := db.(queue := SetClaimed(db.queue, JobId(owner, job), o));
      if won {
        db := db.(history := Begun(db.history, r, if r.Provision? then Lookup(job)
            else Work(job, owner, RevokeKubeconfig)));
      }
    }

    /** An upsert: the row says FAILED whatever it said, and is created if missing. */
    method Fail(id: JobId, error: string)
      modifies this
      ensures script == Rest(old(script))
      ensures db == old(db).(queue := SetFailed(old(db).queue, id, error, Faults.Next(old(script))))
      ensures if !Faults.Next(old(script)).Executed() then db == old(db)
              else id in db.queue.jobs && Ends(old(db).queue, db.queue, id)
                   && db.queue.jobs[id].status == FAILED && db.queue.jobs[id].error == error
                   && (id in old(db).queue.jobs ==> db.queue.jobs[id].result == old(db).queue.jobs[id].result)
    {
      db := db.(queue := SetFailed(db.queue, id, error, Faults.Next(script)));
      script := Rest(script);
    }

    /** An upsert: the row says READY whatever it said, and is created if missing. */
    method Complete(id: JobId, result: string)
      modifies this
      ensures script == Rest(old(script))
      ensures db == old(db).(queue := SetReady(old(db).queue, id, result, Faults.Next(old(script))))
      ensures if !Faults.Next(old(script)).Executed() then db == old(db)
              else id in db.queue.jobs && Ends(old(db).queue, db.queue, id)
                   && db.queue.jobs[id].status == READY && db.queue.jobs[id].result == result
                   && (id in old(db).queue.jobs ==> db.queue.jobs[id].error == old(db).queue.jobs[id].error)
    {
      db := db.(queue := SetReady(db.queue, id, result, Faults.Next(script)));
      script := Rest(script);
    }

    /** One command of a workflow: to the cluster, to OpenBao, or to another store. */
    method Do(stage: Stage, slug: string, tenant: Uuid, hash: string) returns (err: bool)
      modifies this
      ensures var o := Faults.Next(old(script));
              && db == (if o.Executed() then Effect(old(db), slug, tenant, stage, hash) else old(db))
              && err == o.Reported() && script == Rest(old(script))
    {
      var o := Faults.Next(script);
      script := Rest(script);
      if o.Executed() {
        db := Effect(db, slug, tenant, stage, hash);
      }
      err := o.Reported();
    }

    /** One stage and, if it fails, failJob. */
    method DoOrFail(r: Request, job: Uuid, tenant: Uuid, stage: Stage, ghost c: Choices, hash: string)
        returns (ok: bool)
      requires c.hash == hash
      modifies this
      ensures Alone(old(db), r, Work(job, tenant, stage), old(script), c) ==
              Alone(db, r, if ok then After(job, tenant, stage) else Ended, script, c)
      ensures ok <==> !At(old(script), 0).Reported()
      ensures if At(old(script), 0).Executed() then SameTables(Effect(old(db), r.slug, tenant, stage, hash), db)
              else SameTables(old(db), db)
      ensures ok ==> db.queue == old(db).queue
      ensures !ok ==> Says(old(db).queue, db.queue, JobId(tenant, job), At(old(script), 1), Some(Label(stage)), "")
    {
      Dropped(script, 0);
      Dropped(script, 1);
      AtDropped(script, 0);
      EffectAside(db, r.slug, tenant, stage, hash);
      FailSays(db.queue, JobId(tenant, job), Label(stage), At(script, 1), "");
      AloneStep(db, r, Work(job, tenant, stage), script, c);
      var err := Do(stage, r.slug, tenant, hash);
      ok := !err;
      if err {
        AloneStep(db, r, FailUnderTenant(job, tenant, stage), script, c);
        Fail(JobId(tenant, job), Label(stage));
      }
    }

    /** TenantStore.GetBySlug on the tables as they are. */
    method FindBySlug(slug: string) returns (found: Option<Uuid>)
      ensures found.Some? ==> HasSlug(db, found.value, slug)
      ensures found.None? ==> NoTenant(db, slug)
    {
      if t :| t in db.tenants && db.tenants[t].slug == slug {
        found := Some(t);
      } else {
        found := None;
      }
    }

    /** The tenant lookup of runProvisionWorkflow, after the claim. */
    method LookUpTenant(r: Request, job: Uuid, ghost newId: Uuid, ghost hash: string) returns (ok: bool, found: Uuid)
      requires r.Provision?
      modifies this
      ensures Finds(old(db), r.slug, found)
      ensures var c := Choices(newId, found, hash);
              Alone(old(db), r, Lookup(job), old(script), c) ==
              Alone(db, r, if ok then Work(job, found, MakeNamespace) else Ended, script, c)
    {
      var row := FindBySlug(r.slug);
      found := if row.Some? then row.value else NIL;
      assert row.None? ==> !HasSlug(db, found, r.slug);
      ghost var c := Choices(newId, found, hash);
      AloneStep(db, r, Lookup(job), script, c);
      var o := Faults.Next(script);
      script := Rest(script);
      if o.Reported() || row.None? {
        var error := if o.Reported() then "get tenant record" else "tenant not found: " + r.slug;
        AloneStep(db, r, FailUnderNil(job, error), script, c);
        Fail(JobId(NIL, job), error);
        return false, found;
      }
      return true, found;
    }

    /** The claim and the tenant lookup of runProvisionWorkflow. */
    method StartProvisioning(r: Request, job: Uuid, ghost newId: Uuid, ghost hash: string)
        returns (ok: bool, found: Uuid)
      requires r.Provision?
      modifies this
      ensures Finds(old(db), r.slug, found)
      ensures var c := Choices(newId, found, hash);
              Alone(old(db), r, Claim(NIL, job), old(script), c) ==
              Alone(db, r, if ok then Work(job, found, MakeNamespace) else Ended, script, c)
    {
      ghost var db0, script0 := db, script;
      var won := ClaimFor(r, NIL, job);
      assert db.tenants == db0.tenants;
      if !won {
        var row := FindBySlug(r.slug);
        ok, found := false, if row.Some? then row.value else NIL;
      } else {
        ok, found := LookUpTenant(r, job, newId, hash);
      }
      AloneStep(db0, r, Claim(NIL, job), script0, Choices(newId, found, hash));
    }

    /** The network stages: the namespace and its isolation policy. */
    method BuildNetwork(r: Request, job: Uuid, tenant: Uuid, ghost c: Choices, hash: string) returns (ok: bool)
      requires c.hash == hash
      modifies this
      ensures Alone(old(db), r, Work(job, tenant, MakeNamespace), old(script), c) ==
              Alone(db, r, if ok then Work(job, tenant, ApplyAccess) else Ended, script, c)
    {
      ok := DoOrFail(r, job, tenant, MakeNamespace, c, hash);
      if !ok { return; }
      ok := DoOrFail(r, job, tenant, ApplyIsolation, c, hash);
    }

    /** The cluster stages: the access policy and the vCluster. */
    method BuildCluster(r: Request, job: Uuid, tenant: Uuid, ghost c: Choices, hash: string) returns (ok: bool)
      requires c.hash == hash
      modifies this
      ensures Alone(old(db), r, Work(job, tenant, ApplyAccess), old(script), c) ==
              Alone(db, r, if ok then Work(job, tenant, StoreKubeconfig) else Ended, script, c)
    {
      ok := DoOrFail(r, job, tenant, ApplyAccess, c, hash);
      if !ok { return; }
      ok := DoOrFail(r, job, tenant, MakeVCluster, c, hash);
    }

    /** The secret stages: the kubeconfig and the API key. */
    method RecordSecrets(r: Request, job: Uuid, tenant: Uuid, ghost c: Choices, hash: string) returns (ok: bool)
      requires c.hash == hash
      modifies this
      ensures Alone(old(db), r, Work(job, tenant, StoreKubeconfig), old(script), c) ==
              Alone(db, r, if ok then Work(job, tenant, SetCidrs) else Ended, script, c)
    {
      ok := DoOrFail(r, job, tenant, StoreKubeconfig, c, hash);
      if !ok { return; }
      ok := DoOrFail(r, job, tenant, StoreApiKey, c, hash);
    }

    /** The stages on the tenant's row: CIDRs and ACTIVE. */
    method RecordTenant(r: Request, job: Uuid, tenant: Uuid, ghost c: Choices, hash: string) returns (ok: bool)
      requires c.hash == hash
      modifies this
      ensures Alone(old(db), r, Work(job, tenant, SetCidrs), old(script), c) ==
              Alone(db, r, if ok then Finish(job, tenant) else Ended, script, c)
    {
      ok := DoOrFail(r, job, tenant, SetCidrs, c, hash);
      if !ok { return; }
      ok := DoOrFail(r, job, tenant, SetActive, c, hash);
    }

    /** All stages of runProvisionWorkflow. */
    method BuildAndRecord(r: Request, job: Uuid, tenant: Uuid, ghost c: Choices, hash: string) returns (ok: bool)
      requires c.hash == hash
      modifies this
      ensures Alone(old(db), r, Work(job, tenant, MakeNamespace), old(script), c) ==
              Alone(db, r, if ok then Finish(job, tenant) else Ended, script, c)
    {
      ok := BuildNetwork(r, job, tenant, c, hash);
      if !ok { return; }
      ok := BuildCluster(r, job, tenant, c, hash);
      if !ok { return; }
      ok := RecordSecrets(r, job, tenant, c, hash);
      if !ok { return; }
      ok := RecordTenant(r, job, tenant, c, hash);
    }

    /** The last statement of both workflows. */
    method Conclude(r: Request, job: Uuid, tenant: Uuid, ghost c: Choices)
      modifies this
      ensures (db, script) == Alone(old(db), r, Finish(job, tenant), old(script), c)
    {
      AloneStep(db, r, Finish(job, tenant), script, c);
      Complete(JobId(tenant, job), ResultOf(r));
    }

    /** runProvisionWorkflow: claim the job under NIL, look the tenant up, run the stages, complete the
        job under the tenant. It does exactly what the machine's process does alone. */
    method RunProvisionWorkflow(slug: string, job: Uuid, ghost newId: Uuid, hash: string) returns (ghost c: Choices)
      modifies this
      ensures c.newId == newId && c.hash == hash && Finds(old(db), slug, c.found)
      ensures (db, script) == Alone(old(db), Request.Provision(slug), Claim(NIL, job), old(script), c)
      ensures RunDoes(old(db), db, Request.Provision(slug), NIL, job, old(script), c)
    {
      var r := Request.Provision(slug);
      ghost var db0, script0 := db, script;
      var ok, tenant := StartProvisioning(r, job, newId, hash);
      c := Choices(newId, tenant, hash);
      RunAlone(db0, r, NIL, job, script0, c);
      if !ok { return; }
      ok := BuildAndRecord(r, job, tenant, c, hash);
      if !ok { return; }
      Conclude(r, job, tenant, c);
    }

    /** Provision: enqueue under NIL, answer, and run the workflow on the job. */
    method Provision(slug: string, newId: Uuid, hash: string) returns (job: Option<Uuid>, ghost c: Choices)
      modifies this
      ensures c.newId == newId && c.hash == hash && Finds(old(db), slug, c.found)
      ensures (db, script) == Alone(old(db), Request.Provision(slug), Reserve(NIL), old(script), c)
      ensures Reached(old(db)) && New(old(db), c) ==> Reached(db)
      ensures CallDoes(old(db), db, Request.Provision(slug), NIL, old(script), c, job)
      ensures var k := Slot(NIL, ProvisionVpc(slug));
              && (job.Some? ==> Holds(db.queue, k, job.value) && (k, job.value) in db.history.returned)
              && (job.Some? && k !in old(db).queue.slots ==> job.value == newId)
              && (job.None? <==> At(old(script), 0).Reported()
                                 || (k !in old(db).queue.slots && At(old(script), 1).Reported()))
    {
      var r := Request.Provision(slug);
      ghost var db0, script0 := db, script;
      job := Enqueue(NIL, r, newId);
      ghost var db1, script1 := db, script;
      assert db.tenants == db0.tenants;
      if job.None? {
        var row := FindBySlug(slug);
        c := Choices(newId, if row.Some? then row.value else NIL, hash);
      } else {
        c := RunProvisionWorkflow(slug, job.value, newId, hash);
        AloneKeepsAnswers(db1, r, Claim(NIL, job.value), script1, c);
      }
      EnqueueAlone(db0, r, NIL, script0, c);
      CallAlone(db0, r, NIL, script0, c);
      AnswerHolds(db0, db, r, NIL, script0, c, job);
      if Reached(db0) && New(db0, c) {
        ProvisionReaches(db0, slug, script0, c);
      }
    }

    /** The first two stages of runDeprovisionWorkflow. */
    method RemoveCluster(r: Request, job: Uuid, tenant: Uuid, ghost c: Choices, hash: string) returns (ok: bool)
      requires c.hash == hash
      modifies this
      ensures Alone(old(db), r, Work(job, tenant, RevokeKubeconfig), old(script), c) ==
              Alone(db, r, if ok then Work(job, tenant, SetDeleted) else Ended, script, c)
    {
      ok := DoOrFail(r, job, tenant, RevokeKubeconfig, c, hash);
      if !ok { return; }
      ok := DoOrFail(r, job, tenant, DeleteVCluster, c, hash);
    }

    /** All stages of runDeprovisionWorkflow. */
    method TearDown(r: Request, job: Uuid, tenant: Uuid, ghost c: Choices, hash: string) returns (ok: bool)
      requires c.hash == hash
      modifies this
      ensures Alone(old(db), r, Work(job, tenant, RevokeKubeconfig), old(script), c) ==
              Alone(db, r, if ok then Finish(job, tenant) else Ended, script, c)
    {
      ok := RemoveCluster(r, job, tenant, c, hash);
      if !ok { return; }
      ok := DoOrFail(r, job, tenant, SetDeleted, c, hash);
    }

    /** runDeprovisionWorkflow: claim, tear down, complete, all under the tenant. */
    method RunDeprovisionWorkflow(slug: string, day: string, tenant: Uuid, job: Uuid, ghost c: Choices)
      requires c.hash == ""
      modifies this
      ensures (db, script) == Alone(old(db), Request.Deprovision(slug, day), Claim(tenant, job), old(script), c)
      ensures RunDoes(old(db), db, Request.Deprovision(slug, day), tenant, job, old(script), c)
    {
      var r := Request.Deprovision(slug, day);
      RunAlone(db, r, tenant, job, script, c);
      AloneStep(db, r, Claim(tenant, job), script, c);
      var won := ClaimFor(r, tenant, job);
      if !won { return; }
      var ok := TearDown(r, job, tenant, c, "");
      if !ok { return; }
      Conclude(r, job, tenant, c);
    }

    /** Deprovision: find the tenant, enqueue under it, answer, and run the workflow on the job. */
    method Deprovision(slug: string, day: string, newId: Uuid) returns (job: Option<Uuid>, ghost c: Choices)
      modifies this
      ensures c.newId == newId && c.hash == "" && Finds(old(db), slug, c.found)
      ensures (db, script) == Alone(old(db), Request.Deprovision(slug, day), Find, old(script), c)
      ensures Reached(old(db)) && newId != NIL && newId !in old(db).queue.minted ==> Reached(db)
      ensures DeprovisionDoes(old(db), db, slug, day, old(script), c, job)
      ensures var (k, known) := (Slot(c.found, DeprovisionVpc(slug, day)), HasSlug(old(db), c.found, slug));
              && (job.Some? ==> Holds(db.queue, k, job.value) && (k, job.value) in db.history.returned)
              && (job.Some? && k !in old(db).queue.slots ==> job.value == newId)
              && (job.None? <==> At(old(script), 0).Reported() || !known || At(old(script), 1).Reported()
                                 || (k !in old(db).queue.slots && At(old(script), 2).Reported()))
    {
      ghost var db0, script0 := db, script;
      var r := Request.Deprovision(slug, day);
      var row := FindBySlug(slug);
      var tenant := if row.Some? then row.value else NIL;
      c := Choices(newId, tenant, "");
      assert row.None? ==> !HasSlug(db, tenant, slug);
      AloneStep(db, r, Find, script, c);
      if Reached(db) && newId != NIL && newId !in db.queue.minted {
        DeprovisionReaches(db, slug, day, script, c);
      }
      var o := Faults.Next(script);
      script := Rest(script);
      DeprovisionAlone(db0, slug, day, script0, c);
      if o.Reported() || row.None? {
        return None, c;
      }
      ghost var db1, script1 := db, script;
      job := Enqueue(tenant, r, newId);
      if job.Some? {
        ghost var db2, script2 := db, script;
        RunDeprovisionWorkflow(slug, day, tenant, job.value, c);
        AloneKeepsAnswers(db2, r, Claim(tenant, job.value), script2, c);
      }
      EnqueueAlone(db1, r, tenant, script1, c);
      AtDropped(script0, 1);
      AnswerHolds(db1, db, r, tenant, script1, c, job);
    }

    /** GetJob answers the status and the error in the row under NIL, whoever the job belongs to: on tables that
        any run of the service leads to it never answers READY, and finds no deprovisioning job. */
    method GetJob(job: Uuid) returns (found: Option<JobStatus>, error: string)
      ensures found.Some? <==> JobId(NIL, job) in db.queue.jobs
      ensures found.Some? ==>
                var row := db.queue.jobs[JobId(NIL, job)]; found.value == row.status && error == row.error
      ensures Reached(db) ==> found != Some(READY)
      ensures Reached(db) && found.Some? ==>
                var w := Wrote(db.queue, JobId(NIL, job)); w != [] && found.value == w[|w| - 1]
      ensures Reached(db) && job in db.queue.origin && !UnderNil(db.queue.origin[job].key) ==> found == None
    {
      if Reached(db) {
        PollerIsTold(db, job);
      }
      var id := JobId(NIL, job);
      found, error := None, "";
      if id in db.queue.jobs {
        found, error := Some(db.queue.jobs[id].status), db.queue.jobs[id].error;
      }
    }
  }
}

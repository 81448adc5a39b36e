// A final status tells the truth: what READY and DELETED say about the network, in every run, and what
// a teardown leaves behind.

module ProvisioningTruth {
  import opened Faults
  import opened Options
  import opened Jobs
  import opened JobLives
  import opened Provisioning
  import opened ProvisioningJobs
  import opened ProvisioningNetworks
  import opened ProvisioningOutcomes
  import opened ProvisioningTenants

  /** A teardown has revoked the kubeconfig and deleted the vCluster. */
  ghost predicate TornDown(db: Db, slug: string) {
    (slug, Kubeconfig) in db.history.torn && (slug, VCluster) in db.history.torn
  }

  /** The tenant with this slug has been given the status that ends the workflow of the request. */
  ghost predicate Achieved(db: Db, slug: string, tenant: Uuid, provision: bool) {
    HasSlug(db, tenant, slug) && (if provision then ACTIVE else DELETED) in StatusesOf(db, tenant)
  }

  /** What a call knows has been done. */
  ghost predicate ProcTrue(db: Db, r: Request, pc: Pc) {
    match pc
    case Work(_, _, DeleteVCluster) => (r.slug, Kubeconfig) in db.history.torn
    case Work(_, _, SetDeleted) => TornDown(db, r.slug)
    case Finish(_, t) => Achieved(db, r.slug, t, r.Provision?)
    case _ => true
  }

  ghost predicate RowTrue(db: Db, id: JobId) {
    READY in Wrote(db.queue, id) ==>
      && id.job in db.queue.origin
      && var key := db.queue.origin[id.job].key; Achieved(db, key.slug, id.tenant, UnderNil(key))
  }

  ghost predicate TenantTrue(db: Db, t: Uuid) {
    DELETED in StatusesOf(db, t) ==> t in db.tenants && TornDown(db, db.tenants[t].slug)
  }

  ghost predicate Truth(s: State) {
    && (forall p :: p in s.procs ==> ProcTrue(s.db, s.procs[p].request, s.procs[p].pc))
    && (forall id :: RowTrue(s.db, id))
    && (forall t :: TenantTrue(s.db, t))
  }

  // ----- What never goes away.

  /** Nothing recorded is forgotten. */
  ghost predicate Later(db: Db, db': Db) {
    && db.history.torn <= db'.history.torn
    && (forall t, slug :: HasSlug(db, t, slug) ==> HasSlug(db', t, slug))
    && (forall t :: StatusesOf(db, t) <= StatusesOf(db', t))
    && (forall j :: j in db.queue.origin ==> j in db'.queue.origin && db'.queue.origin[j] == db.queue.origin[j])
  }

  lemma EffectIsLater(db: Db, slug: string, tenant: Uuid, stage: Stage, hash: string)
    ensures Later(db, Effect(db, slug, tenant, stage, hash))
  {
  }

  lemma OriginStays(db: Db, proc: Proc, o: Outcome, pick: Uuid, hash: string)
    requires IdsOk(db.queue) && Fits(db, proc, pick, hash)
    ensures var q' := StepProc(db, proc, o, pick, hash).0.queue;
            forall j :: j in db.queue.origin ==> j in q'.origin && q'.origin[j] == db.queue.origin[j]
  {
    if proc.pc.Work? {
      EffectAside(db, proc.request.slug, proc.pc.tenant, proc.pc.stage, hash);
    }
  }

  lemma ProcIsLater(db: Db, proc: Proc, o: Outcome, pick: Uuid, hash: string)
    requires QueueOk(db.queue) && Fits(db, proc, pick, hash)
    ensures Later(db, StepProc(db, proc, o, pick, hash).0)
  {
    OriginStays(db, proc, o, pick, hash);
    if proc.pc.Work? {
      EffectIsLater(db, proc.request.slug, proc.pc.tenant, proc.pc.stage, hash);
    } else {
      QueueStepsOnly(db, proc, o, pick, hash);
    }
  }

  lemma StepIsLater(s: State, a: Action)
    requires TInv(s)
    ensures Later(s.db, Step(s, a).db)
  {
    if a.Next? && a.p in s.procs && s.procs[a.p].alive && Fits(s.db, s.procs[a.p], a.pick, a.hash) {
      ProcIsLater(s.db, s.procs[a.p], a.o, a.pick, a.hash);
    }
  }

  lemma StaysTrue(db: Db, db': Db, r: Request, pc: Pc)
    requires Later(db, db') && ProcTrue(db, r, pc)
    ensures ProcTrue(db', r, pc)
  {
    if pc.Finish? {
      assert forall x :: x in StatusesOf(db, pc.tenant) ==> x in StatusesOf(db', pc.tenant);
    }
  }

  // ----- One step of one call.

  lemma PutWrites(q: Queue, id: JobId, row: Job, i: JobId)
    requires READY in Wrote(Put(q, id, row), i)
    ensures READY in Wrote(q, i) || (i == id && row.status == READY)
  {
    PutIsLocal(q, id, row);
  }

  /** Enqueue and claim write no READY. */
  lemma EnqueueWritten(db: Db, proc: Proc, o: Outcome, pick: Uuid, hash: string, id: JobId)
    requires proc.pc.Reserve? || proc.pc.InsertRow? || proc.pc.Claim?
    requires READY in Wrote(StepProc(db, proc, o, pick, hash).0.queue, id)
    ensures READY in Wrote(db.queue, id)
  {
    var q := db.queue;
    if proc.pc.InsertRow? && o.Executed() {
      PutWrites(q, JobId(proc.pc.owner, proc.pc.job), Job(Some(KeyOf(proc.request)), QUEUED, "", ""), id);
    } else if proc.pc.Claim? && o.Executed() && Claimable(q, JobId(proc.pc.owner, proc.pc.job)) {
      var claimed := JobId(proc.pc.owner, proc.pc.job);
      PutWrites(q, claimed, q.jobs[claimed].(status := PROVISIONING), id);
    }
  }

  /** The end of a workflow writes READY only on completion, to its own row. */
  lemma EndWritten(db: Db, proc: Proc, o: Outcome, pick: Uuid, hash: string, id: JobId)
    requires proc.pc.FailUnderNil? || proc.pc.FailUnderTenant? || proc.pc.Finish?
    requires READY in Wrote(StepProc(db, proc, o, pick, hash).0.queue, id)
    ensures READY in Wrote(db.queue, id) || (proc.pc.Finish? && id == JobId(proc.pc.tenant, proc.pc.job))
  {
    var finish := FinishId(proc.pc);
    var row := RowOrEmpty(db.queue, finish);
    if o.Executed() {
      match proc.pc {
        case FailUnderNil(_, error) => PutWrites(db.queue, finish, row.(status := FAILED, error := error), id);
        case FailUnderTenant(_, _, stage) => PutWrites(db.queue, finish,
            row.(status := FAILED, error := Label(stage)), id);
        case Finish(_, _) => PutWrites(db.queue, finish, row.(status := READY, result := ResultOf(proc.request)), id);
      }
    }
  }

  lemma ReadyWritten(db: Db, proc: Proc, o: Outcome, pick: Uuid, hash: string, id: JobId)
    requires READY in Wrote(StepProc(db, proc, o, pick, hash).0.queue, id)
    ensures READY in Wrote(db.queue, id) || (proc.pc.Finish? && id == JobId(proc.pc.tenant, proc.pc.job))
  {
    if proc.pc.Work? {
      EffectAside(db, proc.request.slug, proc.pc.tenant, proc.pc.stage, hash);
    } else if proc.pc.Reserve? || proc.pc.InsertRow? || proc.pc.Claim? {
      EnqueueWritten(db, proc, o, pick, hash, id);
    } else if proc.pc.FailUnderNil? || proc.pc.FailUnderTenant? || proc.pc.Finish? {
      EndWritten(db, proc, o, pick, hash, id);
    }
  }

  /** Only the last stage of a teardown writes DELETED. */
  lemma DeletedWritten(db: Db, proc: Proc, o: Outcome, pick: Uuid, hash: string, t: Uuid)
    requires DELETED in StatusesOf(StepProc(db, proc, o, pick, hash).0, t)
    ensures DELETED in StatusesOf(db, t)
            || (proc.pc.Work? && proc.pc.stage.SetDeleted? && proc.pc.tenant == t && t in db.tenants)
  {
  }

  /** A stage leaves its call knowing what it has done. */
  lemma StageTells(db: Db, proc: Proc, o: Outcome, pick: Uuid, hash: string)
    requires proc.pc.Work? && KnowsTenant(db, proc) && ProcTrue(db, proc.request, proc.pc)
    ensures var (db', pc') := StepProc(db, proc, o, pick, hash); ProcTrue(db', proc.request, pc')
  {
    var (slug, tenant, stage) := (proc.request.slug, proc.pc.tenant, proc.pc.stage);
    if o.Success? {
      EffectIsLater(db, slug, tenant, stage, hash);
      StageStatus(db, slug, tenant, stage, hash);
    }
  }

  lemma RowsStayTrue(s: State, p: nat, o: Outcome, pick: Uuid, hash: string, id: JobId)
    requires TInv(s) && Truth(s) && p in s.procs && Fits(s.db, s.procs[p], pick, hash)
    ensures RowTrue(StepProc(s.db, s.procs[p], o, pick, hash).0, id)
  {
    var (db, proc) := (s.db, s.procs[p]);
    var db' := StepProc(db, proc, o, pick, hash).0;
    if READY in Wrote(db'.queue, id) {
      ReadyWritten(db, proc, o, pick, hash, id);
      ProcIsLater(db, proc, o, pick, hash);
      if READY in Wrote(db.queue, id) {
        assert RowTrue(db, id);
      } else {
        assert ProcOk(db.queue, proc.request, proc.pc) && ProcTrue(db, proc.request, proc.pc);
        assert db.queue.origin[id.job] == SlotOf(proc.request, id.tenant);
      }
      assert forall x :: x in StatusesOf(db, id.tenant) ==> x in StatusesOf(db', id.tenant);
    }
  }

  lemma TenantsStayTrue(s: State, p: nat, o: Outcome, pick: Uuid, hash: string, t: Uuid)
    requires TInv(s) && Truth(s) && p in s.procs && Fits(s.db, s.procs[p], pick, hash)
    ensures TenantTrue(StepProc(s.db, s.procs[p], o, pick, hash).0, t)
  {
    var (db, proc) := (s.db, s.procs[p]);
    var db' := StepProc(db, proc, o, pick, hash).0;
    if DELETED in StatusesOf(db', t) {
      DeletedWritten(db, proc, o, pick, hash, t);
      ProcIsLater(db, proc, o, pick, hash);
      assert TenantTrue(db, t) && ProcTrue(db, proc.request, proc.pc) && KnowsTenant(db, proc);
      assert HasSlug(db, t, db.tenants[t].slug);
    }
  }

  lemma CallTells(s: State, p: nat, o: Outcome, pick: Uuid, hash: string)
    requires TInv(s) && Truth(s) && p in s.procs
    ensures var (db', pc') := StepProc(s.db, s.procs[p], o, pick, hash); ProcTrue(db', s.procs[p].request, pc')
  {
    assert KnowsTenant(s.db, s.procs[p]) && ProcTrue(s.db, s.procs[p].request, s.procs[p].pc);
    if s.procs[p].pc.Work? {
      StageTells(s.db, s.procs[p], o, pick, hash);
    }
  }

  lemma AssembleTruth(s: State, p: nat, db': Db, pc': Pc)
    requires Truth(s) && p in s.procs && Later(s.db, db') && ProcTrue(db', s.procs[p].request, pc')
    requires (forall id :: RowTrue(db', id)) && (forall t :: TenantTrue(db', t))
    ensures Truth(State(db', s.procs[p := s.procs[p].(pc := pc')]))
  {
    forall q | q in s.procs && q != p
      ensures ProcTrue(db', s.procs[q].request, s.procs[q].pc)
    {
      StaysTrue(s.db, db', s.procs[q].request, s.procs[q].pc);
    }
  }

  lemma NextKeepsTruth(s: State, p: nat, o: Outcome, pick: Uuid, hash: string)
    requires TInv(s) && Truth(s) && p in s.procs && s.procs[p].alive && Fits(s.db, s.procs[p], pick, hash)
    ensures Truth(Step(s, Next(p, o, pick, hash)))
  {
    var (db', pc') := StepProc(s.db, s.procs[p], o, pick, hash);
    ProcIsLater(s.db, s.procs[p], o, pick, hash);
    CallTells(s, p, o, pick, hash);
    forall id
      ensures RowTrue(db', id)
    {
      RowsStayTrue(s, p, o, pick, hash, id);
    }
    forall t
      ensures TenantTrue(db', t)
    {
      TenantsStayTrue(s, p, o, pick, hash, t);
    }
    AssembleTruth(s, p, db', pc');
  }

  lemma RegisterKeepsTruth(s: State, tenant: Uuid, slug: string)
    requires TInv(s) && Truth(s)
    ensures Truth(Step(s, Register(tenant, slug)))
  {
    var s' := Step(s, Register(tenant, slug));
    StepIsLater(s, Register(tenant, slug));
    forall p | p in s.procs
      ensures ProcTrue(s'.db, s.procs[p].request, s.procs[p].pc)
    {
      StaysTrue(s.db, s'.db, s.procs[p].request, s.procs[p].pc);
    }
    forall id
      ensures RowTrue(s'.db, id)
    {
      assert RowTrue(s.db, id) && Wrote(s'.db.queue, id) == Wrote(s.db.queue, id);
    }
    forall t
      ensures TenantTrue(s'.db, t)
    {
      assert TenantTrue(s.db, t) && StatusesOf(s'.db, t) == StatusesOf(s.db, t);
    }
  }

  lemma StepKeepsTruth(s: State, a: Action)
    requires TInv(s) && Truth(s)
    ensures Truth(Step(s, a))
  {
    match a {
      case Next(p, o, pick, hash) =>
        if p in s.procs && s.procs[p].alive && Fits(s.db, s.procs[p], pick, hash) {
          NextKeepsTruth(s, p, o, pick, hash);
        }
      case Register(tenant, slug) => RegisterKeepsTruth(s, tenant, slug);
      case Call(_, _) =>
      case Crash(_) =>
    }
  }

  lemma {:induction false} RunKeepsTruth(run: seq<Action>)
    ensures Truth(Exec(EMPTY, run))
  {
    if run != [] {
      RunKeepsTruth(run[..|run| - 1]);
      RunKeepsTInv(run[..|run| - 1]);
      StepKeepsTruth(Exec(EMPTY, run[..|run| - 1]), run[|run| - 1]);
    }
  }

  // ----- The theorems.

  /** In every run a row that says READY tells the truth about its tenant. If its job was enqueued to
      provision a slug, the tenant with that slug has been ACTIVE, and has a key row and its CIDR pair;
      if to deprovision it, the tenant has been DELETED, and its kubeconfig and vCluster removed. */
  lemma ReadyIsTrue(run: seq<Action>, id: JobId)
    requires var q := Exec(EMPTY, run).db.queue; id in q.jobs && q.jobs[id].status == READY
    ensures var db := Exec(EMPTY, run).db;
            && id.job in db.queue.origin
            && var key := db.queue.origin[id.job].key;
               && HasSlug(db, id.tenant, key.slug)
               && match key
                  case ProvisionVpc(_) => ACTIVE in StatusesOf(db, id.tenant) && HasKey(db, id.tenant)
                      && HasCidrs(db, id.tenant)
                  case DeprovisionVpc(slug, _) => DELETED in StatusesOf(db, id.tenant) && TornDown(db, slug)
  {
    RunKeepsTruth(run);
    RowLife(run, id);
    var db := Exec(EMPTY, run).db;
    assert RowTrue(db, id);
    if UnderNil(db.queue.origin[id.job].key) {
      ActiveHasNetwork(run, id.tenant, Namespace);
    } else {
      assert TenantTrue(db, id.tenant);
    }
  }

  /** In every run a tenant that is DELETED has had its kubeconfig and its vCluster removed. */
  lemma DeletedWasTornDown(run: seq<Action>, t: Uuid)
    requires var db := Exec(EMPTY, run).db; t in db.tenants && db.tenants[t].status == DELETED
    ensures var db := Exec(EMPTY, run).db; TornDown(db, db.tenants[t].slug)
  {
    RunKeepsTruth(run);
    RunKeepsTInv(run);
    var db := Exec(EMPTY, run).db;
    assert TenantOk(db, t) && TenantTrue(db, t);
  }

  // ----- What a teardown leaves.

  ghost predicate LeftAlone(db: Db, db': Db) {
    && (forall slug, thing :: (slug, thing) in db.things && thing in {Namespace, IsolationPolicy, AccessPolicy} ==>
        (slug, thing) in db'.things)
    && (forall h :: h in db.keys ==> h in db'.keys && db'.keys[h] == db.keys[h])
    && (forall t :: HasCidrs(db, t) ==> HasCidrs(db', t))
  }

  lemma EffectLeavesAlone(db: Db, slug: string, tenant: Uuid, stage: Stage, hash: string)
    requires stage.StoreApiKey? ==> hash !in db.keys
    ensures LeftAlone(db, Effect(db, slug, tenant, stage, hash))
  {
  }

  lemma StepLeavesAlone(s: State, a: Action)
    requires TInv(s)
    ensures LeftAlone(s.db, Step(s, a).db)
  {
    if a.Next? && a.p in s.procs && s.procs[a.p].alive && Fits(s.db, s.procs[a.p], a.pick, a.hash) {
      var proc := s.procs[a.p];
      if proc.pc.Work? {
        EffectLeavesAlone(s.db, proc.request.slug, proc.pc.tenant, proc.pc.stage, a.hash);
      } else {
        QueueStepsOnly(s.db, proc, a.o, a.pick, a.hash);
      }
    }
  }

  /** No continuation of any run, whatever teardowns it completes, removes a namespace or a policy,
      takes back an API key, or clears a tenant's CIDR pair. */
  lemma {:induction false} TeardownLeaves(run: seq<Action>, more: seq<Action>)
    ensures LeftAlone(Exec(EMPTY, run).db, Exec(EMPTY, run + more).db)
  {
    if more == [] {
      assert run + more == run;
    } else {
      var n := |more| - 1;
      TeardownLeaves(run, more[..n]);
      RunKeepsTInv(run + more[..n]);
      StepLeavesAlone(Exec(EMPTY, run + more[..n]), more[n]);
      assert (run + more)[..|run + more| - 1] == run + more[..n];
    }
  }
}

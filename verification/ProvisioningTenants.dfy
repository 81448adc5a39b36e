// What the workflows do to a tenant, over every run: one workflow per request, one activation per
// tenant, and what an active tenant is sure to have.

module ProvisioningTenants {
  import opened Faults
  import opened Options
  import opened Jobs
  import opened JobLives
  import opened Provisioning
  import opened ProvisioningJobs
  import opened ProvisioningOutcomes

  // ----- The parts of a network.

  predicate Building(stage: Stage) {
    !(stage.RevokeKubeconfig? || stage.DeleteVCluster? || stage.SetDeleted?)
  }

  function Rank(stage: Stage): nat {
    match stage
    case MakeNamespace => 0
    case ApplyIsolation => 1
    case ApplyAccess => 2
    case MakeVCluster => 3
    case StoreKubeconfig => 4
    case StoreApiKey => 5
    case SetCidrs => 6
    case _ => 7
  }

  /** The thing is there, or a teardown has taken it away. */
  ghost predicate Made(db: Db, slug: string, thing: Thing) {
    (slug, thing) in db.things || (slug, thing) in db.history.removed
  }

  ghost predicate HasKey(db: Db, tenant: Uuid) {
    exists hash :: hash in db.keys && db.keys[hash] == tenant
  }

  ghost predicate HasCidrs(db: Db, tenant: Uuid) {
    tenant in db.tenants && db.tenants[tenant].cidrs == Some(FIXED_PAIR)
  }

  /** Everything the first n building stages make. */
  ghost predicate Built(db: Db, slug: string, tenant: Uuid, n: nat) {
    && (n > 0 ==> Made(db, slug, Namespace))
    && (n > 1 ==> Made(db, slug, IsolationPolicy))
    && (n > 2 ==> Made(db, slug, AccessPolicy))
    && (n > 3 ==> Made(db, slug, VCluster))
    && (n > 4 ==> Made(db, slug, Kubeconfig))
    && (n > 5 ==> HasKey(db, tenant))
    && (n > 6 ==> HasCidrs(db, tenant))
  }

  // ----- The invariant.

  ghost predicate NotActive(db: Db, slug: string) {
    forall t :: HasSlug(db, t, slug) ==> ACTIVE !in StatusesOf(db, t)
  }

  /** What a call knows of its tenant. */
  ghost predicate KnowsTenant(db: Db, proc: Proc) {
    var r := proc.request;
    match proc.pc
    case Reserve(owner) => r.Deprovision? ==> HasSlug(db, owner, r.slug)
    case Lookup(_) => NotActive(db, r.slug) && db.history.started[r] >= 1
    case Work(_, t, stage) =>
      HasSlug(db, t, r.slug) && (r.Provision? <==> Building(stage))
      && (r.Provision? ==> NotActive(db, r.slug) && db.history.started[r] >= 1 && Built(db, r.slug, t, Rank(stage)))
    case _ => true
  }

  /** No slot of this request has a claimed job. */
  ghost predicate Unclaimed(q: Queue, r: Request) {
    forall k :: k in q.slots && k.key == KeyOf(r) ==> |Wrote(q, JobId(k.owner, q.slots[k]))| < 2
  }

  ghost predicate OnceOk(db: Db) {
    forall r :: db.history.started[r] <= 1 && (Unclaimed(db.queue, r) ==> db.history.started[r] == 0)
  }

  ghost predicate OwnersOk(db: Db) {
    && db.tenants.Keys <= db.queue.minted
    && (forall t, u :: t in db.tenants && u in db.tenants && db.tenants[t].slug == db.tenants[u].slug ==> t == u)
    && (forall k :: k in db.queue.slots && k.key.DeprovisionVpc? ==> HasSlug(db, k.owner, k.key.slug))
  }

  ghost predicate ActiveOnce(w: seq<TenantStatus>) {
    forall i, l :: 0 <= i < |w| && 0 <= l < |w| && w[i] == w[l] == ACTIVE ==> i == l
  }

  ghost predicate TenantOk(db: Db, t: Uuid) {
    var w := StatusesOf(db, t);
    && (t in db.tenants ==> db.tenants[t].status == if w == [] then PENDING else w[|w| - 1])
    && (w != [] ==> t in db.tenants) && ActiveOnce(w) && PENDING !in w
    && (ACTIVE in w ==> db.history.started[Provision(db.tenants[t].slug)] >= 1 && Built(db, db.tenants[t].slug, t, 7))
  }

  ghost predicate TInv(s: State) {
    && Inv(s) && OwnersOk(s.db) && OnceOk(s.db)
    && (forall t :: TenantOk(s.db, t))
    && (forall p :: p in s.procs ==> KnowsTenant(s.db, s.procs[p]))
  }

  // ----- Steps that do not touch tenants.

  /** Only the job tables, the answers and the counts of started workflows differ. */
  ghost predicate SameTenants(db: Db, db': Db) {
    && db'.tenants == db.tenants && db'.keys == db.keys && db'.things == db.things
    && db'.history.statuses == db.history.statuses
    && db'.history.removed == db.history.removed && db'.history.torn == db.history.torn
    && (forall r :: db.history.started[r] <= db'.history.started[r])
  }

  lemma SameTenantsKeep(db: Db, db': Db, t: Uuid)
    requires SameTenants(db, db') && TenantOk(db, t) && OnceOk(db')
    ensures TenantOk(db', t)
  {
  }

  lemma SameTenantsKnow(db: Db, db': Db, proc: Proc)
    requires SameTenants(db, db') && KnowsTenant(db, proc)
    ensures KnowsTenant(db', proc)
  {
    assert forall t, slug :: HasSlug(db', t, slug) ==> HasSlug(db, t, slug);
  }

  /** The tenant a request is about has one slot for it. */
  lemma OneSlot(db: Db, k: Slot, l: Slot)
    requires QueueOk(db.queue) && OwnersOk(db) && k in db.queue.slots && l in db.queue.slots && k.key == l.key
    ensures k == l
  {
  }

  lemma EnqueueKeepsOnce(db: Db, proc: Proc, o: Outcome, pick: Uuid, hash: string)
    requires QueueOk(db.queue) && OwnersOk(db) && OnceOk(db) && KnowsTenant(db, proc)
    requires ProcOk(db.queue, proc.request, proc.pc) && (proc.pc.Reserve? || proc.pc.InsertRow?)
    ensures var db' := StepProc(db, proc, o, pick, hash).0; OnceOk(db') && OwnersOk(db') && SameTenants(db, db')
  {
    var db' := StepProc(db, proc, o, pick, hash).0;
    EnqueueGrows(db, proc, o, pick, hash);
    OnceGrows(db, db');
  }

  lemma OnceGrows(db: Db, db': Db)
    requires OnceOk(db) && Grows(db.queue, db'.queue) && db'.history.started == db.history.started
    ensures OnceOk(db')
  {
    forall r | Unclaimed(db'.queue, r)
      ensures Unclaimed(db.queue, r)
    {
      forall k | k in db.queue.slots && k.key == KeyOf(r)
        ensures |Wrote(db.queue, JobId(k.owner, db.queue.slots[k]))| < 2
      {
        assert RowGrows(db.queue, db'.queue, JobId(k.owner, db.queue.slots[k]));
        assert k in db'.queue.slots;
      }
    }
  }

  /** A claim that is won is the first for its request, and uses up its slot. */
  lemma FirstClaim(db: Db, r: Request, owner: Uuid, job: Uuid, o: Outcome)
    requires QueueOk(db.queue) && OwnersOk(db) && Holds(db.queue, Slot(owner, KeyOf(r)), job)
    requires o.Executed() && Claimable(db.queue, JobId(owner, job))
    ensures Unclaimed(db.queue, r) && !Unclaimed(SetClaimed(db.queue, JobId(owner, job), o), r)
  {
    var k := Slot(owner, KeyOf(r));
    ClaimKeeps(db.queue, k, job, o);
    forall l | l in db.queue.slots && l.key == k.key
      ensures l == k
    {
      OneSlot(db, k, l);
    }
    var q' := SetClaimed(db.queue, JobId(owner, job), o);
    assert k in q'.slots && |Wrote(q', JobId(k.owner, q'.slots[k]))| == 2;
  }

  lemma LostClaimKeepsOnce(db: Db, proc: Proc, o: Outcome, pick: Uuid, hash: string)
    requires QueueOk(db.queue) && OwnersOk(db) && OnceOk(db)
    requires ProcOk(db.queue, proc.request, proc.pc) && proc.pc.Claim?
    requires StepProc(db, proc, o, pick, hash).1.Ended?
    ensures var db' := StepProc(db, proc, o, pick, hash).0; OnceOk(db') && OwnersOk(db') && SameTenants(db, db')
  {
    EnqueueGrows(db, proc, o, pick, hash);
    OnceGrows(db, StepProc(db, proc, o, pick, hash).0);
  }

  /** The tables after a claim that is won, and the workflow counted as started. */
  function Won(db: Db, r: Request, owner: Uuid, job: Uuid, o: Outcome): Db {
    db.(queue := SetClaimed(db.queue, JobId(owner, job), o),
        history := db.history.(started := db.history.started + multiset{r}))
  }

  lemma WonClaimKeepsOnce(db: Db, r: Request, owner: Uuid, job: Uuid, o: Outcome)
    requires QueueOk(db.queue) && OwnersOk(db) && OnceOk(db) && Holds(db.queue, Slot(owner, KeyOf(r)), job)
    requires o.Executed() && Claimable(db.queue, JobId(owner, job))
    ensures OnceOk(Won(db, r, owner, job, o)) && db.history.started[r] == 0
  {
    var id := JobId(owner, job);
    FirstClaim(db, r, owner, job, o);
    PutGrows(db.queue, id, db.queue.jobs[id].(status := PROVISIONING));
    OnceGrows(db, db.(queue := SetClaimed(db.queue, id, o)));
  }

  lemma ClaimKeepsOnce(db: Db, proc: Proc, o: Outcome, pick: Uuid, hash: string)
    requires QueueOk(db.queue) && OwnersOk(db) && OnceOk(db)
    requires ProcOk(db.queue, proc.request, proc.pc) && proc.pc.Claim?
    ensures var (db', pc') := StepProc(db, proc, o, pick, hash);
            && OnceOk(db') && OwnersOk(db') && SameTenants(db, db')
            && (!pc'.Ended? ==> db.history.started[proc.request] == 0)
  {
    var (db', pc') := StepProc(db, proc, o, pick, hash);
    if pc'.Ended? {
      LostClaimKeepsOnce(db, proc, o, pick, hash);
    } else {
      WonClaimKeepsOnce(db, proc.request, proc.pc.owner, proc.pc.job, o);
      assert db' == Won(db, proc.request, proc.pc.owner, proc.pc.job, o);
    }
  }

  lemma EndKeepsOnce(db: Db, proc: Proc, o: Outcome, pick: Uuid, hash: string)
    requires OwnersOk(db) && OnceOk(db) && (proc.pc.FailUnderNil? || proc.pc.FailUnderTenant? || proc.pc.Finish?)
    ensures var db' := StepProc(db, proc, o, pick, hash).0; OnceOk(db') && OwnersOk(db') && SameTenants(db, db')
  {
    EndGrows(db, proc, o, pick, hash);
    OnceGrows(db, StepProc(db, proc, o, pick, hash).0);
  }

  // ----- The stages.

  /** Nothing made is lost, tenants stay, and only the statuses of one tenant may grow. */
  ghost predicate Progress(db: Db, db': Db, tenant: Uuid) {
    && db'.queue == db.queue && db'.history.started == db.history.started
    && db'.tenants.Keys == db.tenants.Keys && (forall t :: t in db.tenants ==>
        db'.tenants[t].slug == db.tenants[t].slug)
    && (forall slug, thing :: Made(db, slug, thing) ==> Made(db', slug, thing))
    && (forall t :: HasKey(db, t) ==> HasKey(db', t))
    && (forall t :: HasCidrs(db, t) ==> HasCidrs(db', t))
    && (forall t :: t != tenant ==> StatusesOf(db', t) == StatusesOf(db, t))
    && (forall t :: t != tenant && t in db.tenants ==> db'.tenants[t].status == db.tenants[t].status)
  }

  lemma EffectProgresses(db: Db, slug: string, tenant: Uuid, stage: Stage, hash: string)
    requires stage.StoreApiKey? ==> hash !in db.keys
    ensures Progress(db, Effect(db, slug, tenant, stage, hash), tenant)
  {
    var db' := Effect(db, slug, tenant, stage, hash);
    forall t | HasKey(db, t)
      ensures HasKey(db', t)
    {
      var h :| h in db.keys && db.keys[h] == t;
      assert h in db'.keys && db'.keys[h] == t;
    }
  }

  /** A stage makes what the next stage counts on. */
  lemma StageBuilds(db: Db, slug: string, tenant: Uuid, stage: Stage, hash: string)
    requires Building(stage) && Built(db, slug, tenant, Rank(stage)) && HasSlug(db, tenant, slug)
    requires stage.StoreApiKey? ==> hash !in db.keys
    ensures !stage.SetActive? ==> Built(Effect(db, slug, tenant, stage, hash), slug, tenant, Rank(stage) + 1)
  {
    EffectProgresses(db, slug, tenant, stage, hash);
    if stage.StoreApiKey? {
      assert hash in db.keys[hash := tenant];
    }
  }

  /** What a stage writes to its tenant's status: nothing, ACTIVE or DELETED. */
  lemma StageStatus(db: Db, slug: string, tenant: Uuid, stage: Stage, hash: string)
    requires HasSlug(db, tenant, slug)
    ensures var db' := Effect(db, slug, tenant, stage, hash);
            if stage.SetActive? || stage.SetDeleted? then
              var status := if stage.SetActive? then ACTIVE else DELETED;
              StatusesOf(db', tenant) == StatusesOf(db, tenant) + [status] && db'.tenants[tenant].status == status
            else
              StatusesOf(db', tenant) == StatusesOf(db, tenant)
                  && db'.tenants[tenant].status == db.tenants[tenant].status
  {
  }

  lemma StageKeepsTenant(db: Db, proc: Proc, hash: string, t: Uuid)
    requires proc.pc.Work? && KnowsTenant(db, proc) && TenantOk(db, t)
    requires proc.pc.stage.StoreApiKey? ==> hash !in db.keys
    ensures TenantOk(Effect(db, proc.request.slug, proc.pc.tenant, proc.pc.stage, hash), t)
  {
    var (slug, tenant, stage) := (proc.request.slug, proc.pc.tenant, proc.pc.stage);
    var db' := Effect(db, slug, tenant, stage, hash);
    EffectProgresses(db, slug, tenant, stage, hash);
    StageStatus(db, slug, tenant, stage, hash);
    if t == tenant {
      assert StatusesOf(db', t) == StatusesOf(db, t) || StatusesOf(db', t) == StatusesOf(db, t) + [ACTIVE]
          || StatusesOf(db', t) == StatusesOf(db, t) + [DELETED];
      if stage.SetActive? {
        assert ACTIVE !in StatusesOf(db, t);
      }
    }
  }

  /** Where a building stage before the activation leaves its own call. */
  lemma BuildingStageKnows(db: Db, proc: Proc, hash: string)
    requires proc.pc.Work? && KnowsTenant(db, proc) && Building(proc.pc.stage) && !proc.pc.stage.SetActive?
    requires proc.pc.stage.StoreApiKey? ==> hash !in db.keys
    ensures var db' := Effect(db, proc.request.slug, proc.pc.tenant, proc.pc.stage, hash);
            && HasSlug(db', proc.pc.tenant, proc.request.slug) && NotActive(db', proc.request.slug)
            && Built(db', proc.request.slug, proc.pc.tenant, Rank(proc.pc.stage) + 1)
  {
    var (slug, tenant, stage) := (proc.request.slug, proc.pc.tenant, proc.pc.stage);
    EffectProgresses(db, slug, tenant, stage, hash);
    StageStatus(db, slug, tenant, stage, hash);
    StageBuilds(db, slug, tenant, stage, hash);
    NotActiveStays(db, Effect(db, slug, tenant, stage, hash), tenant, slug);
  }

  /** The stage after a building stage before the activation. */
  lemma NextBuilding(job: Uuid, tenant: Uuid, stage: Stage)
    requires Building(stage) && !stage.SetActive?
    ensures var pc' := After(job, tenant, stage);
            pc'.Work? && pc'.tenant == tenant && Building(pc'.stage) && Rank(pc'.stage) == Rank(stage) + 1
  {
  }

  lemma NextTearing(job: Uuid, tenant: Uuid, stage: Stage)
    requires !Building(stage) || stage.SetActive?
    ensures var pc' := After(job, tenant, stage); pc'.Work? ==>
            pc'.tenant == tenant && !Building(pc'.stage) && !Building(stage)
  {
  }

  /** Where a stage leaves its own call. */
  lemma StageKnows(db: Db, proc: Proc, hash: string)
    requires proc.pc.Work? && KnowsTenant(db, proc)
    requires proc.pc.stage.StoreApiKey? ==> hash !in db.keys
    ensures KnowsTenant(Effect(db, proc.request.slug, proc.pc.tenant, proc.pc.stage, hash),
                        proc.(pc := After(proc.pc.job, proc.pc.tenant, proc.pc.stage)))
  {
    var (slug, tenant, stage) := (proc.request.slug, proc.pc.tenant, proc.pc.stage);
    EffectProgresses(db, slug, tenant, stage, hash);
    if Building(stage) && !stage.SetActive? {
      BuildingStageKnows(db, proc, hash);
      NextBuilding(proc.pc.job, tenant, stage);
    } else {
      NextTearing(proc.pc.job, tenant, stage);
    }
  }

  lemma NotActiveStays(db: Db, db': Db, tenant: Uuid, slug: string)
    requires Progress(db, db', tenant) && NotActive(db, slug)
    requires HasSlug(db, tenant, slug) ==> (ACTIVE in StatusesOf(db', tenant) ==> ACTIVE in StatusesOf(db, tenant))
    ensures NotActive(db', slug)
  {
    assert forall t :: HasSlug(db', t, slug) ==> HasSlug(db, t, slug);
  }

  /** Two provisioning workflows in progress for one slug are the same call. */
  lemma OneWorkflow(s: State, p: nat, q: nat)
    requires Inv(s) && p in s.procs && q in s.procs && s.procs[p].request == s.procs[q].request
            && s.procs[p].request.Provision?
    requires StakeOf(s.procs[p].pc).Executing? && StakeOf(s.procs[q].pc).Executing?
    ensures p == q
  {
    assert ProcOk(s.db.queue, s.procs[p].request, s.procs[p].pc);
    assert ProcOk(s.db.queue, s.procs[q].request, s.procs[q].pc);
  }

  /** Nobody else is disturbed by a stage: an activation is the business of its own call alone. */
  lemma StageLeavesOthers(s: State, p: nat, hash: string, q: nat)
    requires TInv(s) && p in s.procs && q in s.procs && p != q && s.procs[p].pc.Work?
    requires s.procs[p].pc.stage.StoreApiKey? ==> hash !in s.db.keys
    ensures KnowsTenant(Effect(s.db, s.procs[p].request.slug, s.procs[p].pc.tenant, s.procs[p].pc.stage, hash),
            s.procs[q])
  {
    var proc, other := s.procs[p], s.procs[q];
    var (slug, tenant, stage) := (proc.request.slug, proc.pc.tenant, proc.pc.stage);
    var db' := Effect(s.db, slug, tenant, stage, hash);
    assert KnowsTenant(s.db, proc) && KnowsTenant(s.db, other);
    EffectProgresses(s.db, slug, tenant, stage, hash);
    StageStatus(s.db, slug, tenant, stage, hash);
    if other.request.Provision? && (other.pc.Lookup? || other.pc.Work?) {
      if stage.SetActive? && other.request.slug == slug {
        OneWorkflow(s, p, q);
      }
      NotActiveStays(s.db, db', tenant, other.request.slug);
    }
  }

  // ----- All steps.

  /** Puts the parts together after a step that does not touch tenants. */
  lemma QuietStep(s: State, p: nat, db': Db, pc': Pc)
    requires TInv(s) && p in s.procs && SameTenants(s.db, db') && OnceOk(db') && OwnersOk(db')
    requires Inv(State(db', s.procs[p := s.procs[p].(pc := pc')])) && KnowsTenant(db', s.procs[p].(pc := pc'))
    ensures TInv(State(db', s.procs[p := s.procs[p].(pc := pc')]))
  {
    forall t
      ensures TenantOk(db', t)
    {
      SameTenantsKeep(s.db, db', t);
    }
    forall q | q in s.procs && q != p
      ensures KnowsTenant(db', s.procs[q])
    {
      SameTenantsKnow(s.db, db', s.procs[q]);
    }
  }

  lemma EnqueueStep(s: State, p: nat, o: Outcome, pick: Uuid, hash: string)
    requires TInv(s) && p in s.procs && s.procs[p].alive && Fits(s.db, s.procs[p], pick, hash)
    requires s.procs[p].pc.Reserve? || s.procs[p].pc.InsertRow?
    ensures TInv(Step(s, Next(p, o, pick, hash)))
  {
    var (db', pc') := StepProc(s.db, s.procs[p], o, pick, hash);
    StepKeepsInv(s, Next(p, o, pick, hash));
    assert ProcOk(s.db.queue, s.procs[p].request, s.procs[p].pc);
    EnqueueKeepsOnce(s.db, s.procs[p], o, pick, hash);
    QuietStep(s, p, db', pc');
  }

  lemma ClaimStep(s: State, p: nat, o: Outcome, pick: Uuid, hash: string)
    requires TInv(s) && p in s.procs && s.procs[p].alive && Fits(s.db, s.procs[p], pick, hash) && s.procs[p].pc.Claim?
    ensures TInv(Step(s, Next(p, o, pick, hash)))
  {
    var proc := s.procs[p];
    var (db', pc') := StepProc(s.db, proc, o, pick, hash);
    StepKeepsInv(s, Next(p, o, pick, hash));
    assert ProcOk(s.db.queue, proc.request, proc.pc);
    ClaimKeepsOnce(s.db, proc, o, pick, hash);
    if !pc'.Ended? {
      assert OwnersOk(s.db) && Holds(s.db.queue, Slot(proc.pc.owner, KeyOf(proc.request)), proc.pc.job);
      if proc.request.Provision? {
        forall t | HasSlug(db', t, proc.request.slug)
          ensures ACTIVE !in StatusesOf(db', t)
        {
          assert TenantOk(s.db, t);
        }
      }
    }
    QuietStep(s, p, db', pc');
  }

  lemma ReadStep(s: State, p: nat, o: Outcome, pick: Uuid, hash: string)
    requires TInv(s) && p in s.procs && s.procs[p].alive && Fits(s.db, s.procs[p], pick, hash)
    requires s.procs[p].pc.Find? || s.procs[p].pc.Lookup? || s.procs[p].pc.Ended?
    ensures TInv(Step(s, Next(p, o, pick, hash)))
  {
    var (db', pc') := StepProc(s.db, s.procs[p], o, pick, hash);
    StepKeepsInv(s, Next(p, o, pick, hash));
    assert ProcOk(s.db.queue, s.procs[p].request, s.procs[p].pc) && KnowsTenant(s.db, s.procs[p]);
    QuietStep(s, p, db', pc');
  }

  lemma EndStep(s: State, p: nat, o: Outcome, pick: Uuid, hash: string)
    requires TInv(s) && p in s.procs && s.procs[p].alive && Fits(s.db, s.procs[p], pick, hash)
    requires s.procs[p].pc.FailUnderNil? || s.procs[p].pc.FailUnderTenant? || s.procs[p].pc.Finish?
    ensures TInv(Step(s, Next(p, o, pick, hash)))
  {
    var (db', pc') := StepProc(s.db, s.procs[p], o, pick, hash);
    StepKeepsInv(s, Next(p, o, pick, hash));
    EndKeepsOnce(s.db, s.procs[p], o, pick, hash);
    QuietStep(s, p, db', pc');
  }

  lemma ExecutedStage(s: State, p: nat, hash: string, pc': Pc)
    requires TInv(s) && p in s.procs && s.procs[p].pc.Work?
    requires s.procs[p].pc.stage.StoreApiKey? ==> hash !in s.db.keys
    requires pc'.FailUnderTenant? || pc' == After(s.procs[p].pc.job, s.procs[p].pc.tenant, s.procs[p].pc.stage)
    ensures var proc := s.procs[p];
            var db' := Effect(s.db, proc.request.slug, proc.pc.tenant, proc.pc.stage, hash);
            Inv(State(db', s.procs[p := proc.(pc := pc')])) ==> TInv(State(db', s.procs[p := proc.(pc := pc')]))
  {
    var proc := s.procs[p];
    var db' := Effect(s.db, proc.request.slug, proc.pc.tenant, proc.pc.stage, hash);
    assert KnowsTenant(s.db, proc);
    forall t
      ensures TenantOk(db', t)
    {
      StageKeepsTenant(s.db, proc, hash, t);
    }
    forall q | q in s.procs
      ensures KnowsTenant(db', if q == p then proc.(pc := pc') else s.procs[q])
    {
      if q == p {
        StageKnows(s.db, proc, hash);
      } else {
        StageLeavesOthers(s, p, hash, q);
      }
    }
    ProgressKeepsOwners(s.db, proc, hash);
  }

  lemma ProgressKeepsOwners(db: Db, proc: Proc, hash: string)
    requires OwnersOk(db) && OnceOk(db) && proc.pc.Work? && (proc.pc.stage.StoreApiKey? ==> hash !in db.keys)
    ensures var db' := Effect(db, proc.request.slug, proc.pc.tenant, proc.pc.stage, hash); OwnersOk(db') && OnceOk(db')
  {
    EffectProgresses(db, proc.request.slug, proc.pc.tenant, proc.pc.stage, hash);
  }

  lemma WorkStep(s: State, p: nat, o: Outcome, pick: Uuid, hash: string)
    requires TInv(s) && p in s.procs && s.procs[p].alive && Fits(s.db, s.procs[p], pick, hash) && s.procs[p].pc.Work?
    ensures TInv(Step(s, Next(p, o, pick, hash)))
  {
    var (db', pc') := StepProc(s.db, s.procs[p], o, pick, hash);
    StepKeepsInv(s, Next(p, o, pick, hash));
    if o.Executed() {
      ExecutedStage(s, p, hash, pc');
    } else {
      QuietStep(s, p, db', pc');
    }
  }

  lemma RegisterStep(s: State, a: Action)
    requires TInv(s) && a.Register?
    ensures TInv(Step(s, a))
  {
    StepKeepsInv(s, a);
    if Step(s, a) != s {
      assert TenantOk(s.db, a.tenant);
      assert StatusesOf(s.db, a.tenant) == [];
      WithTenantKeeps(s.db, a.tenant, a.slug);
      forall q | q in s.procs
        ensures KnowsTenant(WithTenant(s.db, a.tenant, a.slug), s.procs[q])
      {
        KnowsWithMore(s.db, a.tenant, a.slug, s.procs[q]);
      }
    }
  }

  lemma WithTenantKeeps(db: Db, tenant: Uuid, slug: string)
    requires OwnersOk(db) && OnceOk(db) && (forall t :: TenantOk(db, t)) && NoTenant(db, slug)
    requires tenant !in db.tenants && StatusesOf(db, tenant) == []
    ensures var db' := WithTenant(db, tenant, slug); OwnersOk(db') && OnceOk(db') && forall t :: TenantOk(db', t)
  {
    var db' := WithTenant(db, tenant, slug);
    OnceGrows(db, db');
    BuiltWithMore(db, db');
    forall t
      ensures TenantOk(db', t)
    {
      assert TenantOk(db, t);
    }
  }

  function WithTenant(db: Db, tenant: Uuid, slug: string): Db {
    db.(tenants := db.tenants[tenant := Tenant(slug, PENDING, None)],
        queue := db.queue.(minted := db.queue.minted + {tenant}))
  }

  lemma BuiltWithMore(db: Db, db': Db)
    requires db'.things == db.things && db'.history == db.history && db'.keys == db.keys
    requires forall t :: t in db.tenants ==> t in db'.tenants && db'.tenants[t] == db.tenants[t]
    ensures forall slug, t, n :: Built(db, slug, t, n) ==> Built(db', slug, t, n)
  {
  }

  lemma KnowsWithMore(db: Db, tenant: Uuid, slug: string, proc: Proc)
    requires KnowsTenant(db, proc) && tenant !in db.tenants && StatusesOf(db, tenant) == []
    ensures KnowsTenant(WithTenant(db, tenant, slug), proc)
  {
    var db' := WithTenant(db, tenant, slug);
    BuiltWithMore(db, db');
    forall t, x | HasSlug(db', t, x)
      ensures t == tenant || HasSlug(db, t, x)
    {
    }
  }

  lemma StepKeepsTInv(s: State, a: Action)
    requires TInv(s)
    ensures TInv(Step(s, a))
  {
    match a {
      case Next(p, o, pick, hash) =>
        if p in s.procs && s.procs[p].alive && Fits(s.db, s.procs[p], pick, hash) {
          var pc := s.procs[p].pc;
          if pc.Reserve? || pc.InsertRow? {
            EnqueueStep(s, p, o, pick, hash);
          } else if pc.Claim? {
            ClaimStep(s, p, o, pick, hash);
          } else if pc.Work? {
            WorkStep(s, p, o, pick, hash);
          } else if pc.Find? || pc.Lookup? || pc.Ended? {
            ReadStep(s, p, o, pick, hash);
          } else {
            EndStep(s, p, o, pick, hash);
          }
        }
      case Register(_, _) => RegisterStep(s, a);
      case Call(p, r) => StepKeepsInv(s, a);
      case Crash(p) => StepKeepsInv(s, a);
    }
  }

  lemma {:induction false} RunKeepsTInv(run: seq<Action>)
    ensures TInv(Exec(EMPTY, run))
  {
    if run != [] {
      RunKeepsTInv(run[..|run| - 1]);
      StepKeepsTInv(Exec(EMPTY, run[..|run| - 1]), run[|run| - 1]);
    }
  }

  // ----- What follows for every run.

  /** Over any number of calls, replicas, errors and crashes, the workflow of a request gets past its
      claim at most once; and not at all while the job has no row to claim. */
  lemma WorkflowRunsOnce(run: seq<Action>, r: Request)
    ensures Exec(EMPTY, run).db.history.started[r] <= 1
  {
    RunKeepsTInv(run);
  }

  /** A request whose slot was won by a call that died between its two inserts is never worked on. */
  lemma StuckNeverStarts(run: seq<Action>, more: seq<Action>, r: Request, job: Uuid)
    requires r.Provision? && Stuck(Exec(EMPTY, run), Slot(NIL, KeyOf(r)), job)
    ensures Exec(EMPTY, run + more).db.history.started[r] == 0
  {
    StuckForever(run, more, Slot(NIL, KeyOf(r)), job);
    RunKeepsTInv(run + more);
    var db := Exec(EMPTY, run + more).db;
    forall k | k in db.queue.slots && k.key == KeyOf(r)
      ensures |Wrote(db.queue, JobId(k.owner, db.queue.slots[k]))| < 2
    {
      OneSlot(db, k, Slot(NIL, KeyOf(r)));
    }
    assert Unclaimed(db.queue, r);
  }

  /** ACTIVE is written at most once per tenant. */
  lemma ActivatedOnce(run: seq<Action>, t: Uuid)
    ensures ActiveOnce(StatusesOf(Exec(EMPTY, run).db, t))
  {
    RunKeepsTInv(run);
    assert TenantOk(Exec(EMPTY, run).db, t);
  }

  lemma StatusesGrow(s: State, a: Action, t: Uuid)
    ensures StatusesOf(s.db, t) <= StatusesOf(Step(s, a).db, t)
  {
  }

  lemma {:induction false} StatusesGrowOver(s: State, more: seq<Action>, t: Uuid)
    ensures StatusesOf(s.db, t) <= StatusesOf(Exec(s, more).db, t)
  {
    if more != [] {
      StatusesGrowOver(s, more[..|more| - 1], t);
      StatusesGrow(Exec(s, more[..|more| - 1]), more[|more| - 1], t);
    }
  }

  /** A tenant that has been DELETED after it was ACTIVE stays DELETED in every continuation. */
  lemma DeletedForGood(run: seq<Action>, more: seq<Action>, t: Uuid, i: nat, l: nat)
    requires var w := StatusesOf(Exec(EMPTY, run).db, t); i < l < |w| && w[i] == ACTIVE && w[l] == DELETED
    ensures var db := Exec(EMPTY, run + more).db; t in db.tenants && db.tenants[t].status == DELETED
  {
    ExecConcat(EMPTY, run, more);
    StatusesGrowOver(Exec(EMPTY, run), more, t);
    RunKeepsTInv(run + more);
    var db := Exec(EMPTY, run + more).db;
    var w := StatusesOf(db, t);
    assert TenantOk(db, t);
    assert w[i] == ACTIVE && w[|w| - 1] != PENDING;
    assert w[|w| - 1] == ACTIVE ==> |w| - 1 == i;
  }
}

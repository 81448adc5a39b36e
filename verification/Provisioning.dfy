// Provision and Deprovision calls and the workflows they start, as concurrent processes over the
// account tables (services/provisioner/service/service.go). Every database statement and every
// external command is one atomic step; runs are arbitrary interleavings over any number of calls
// and replicas, with errors and crashes between any two steps.

module Provisioning {
  import opened Faults
  import opened Options
  import opened Jobs

  datatype TenantStatus = PENDING | ACTIVE | DELETED

  /** A row of cf.tenants; PENDING is the status PROVISIONING a tenant is registered with. */
  datatype Tenant = Tenant(slug: string, status: TenantStatus, cidrs: Option<(string, string)>)

  /** What a tenant's network is made of outside the database. */
  datatype Thing = Namespace | IsolationPolicy | AccessPolicy | VCluster | Kubeconfig

  /** The pair the workflow uses for every tenant. */
  const FIXED_PAIR: (string, string) := ("10.100.1.0/24", "10.200.1.0/24")

  datatype Db = Db(
    queue: Queue,                              // the two job tables
    tenants: map<Uuid, Tenant>,                // cf.tenants
    keys: map<string, Uuid>,                   // cf.api_keys: hash to tenant
    things: set<(string, Thing)>,              // by slug, in the cluster and in OpenBao
    history: History)

  /** What has happened; no step reads it. */
  datatype History = History(
    statuses: map<Uuid, seq<TenantStatus>>,    // every status written to a tenant since registration
    returned: set<(Slot, Uuid)>,               // slot and job of each Enqueue that succeeded
    started: multiset<Request>,                // each time a workflow got past its claim
    removed: set<(string, Thing)>,             // what a teardown has removed and nothing has made since
    torn: set<(string, Thing)>)                // what a teardown has ever removed

  datatype Request = Provision(slug: string) | Deprovision(slug: string, day: string)

  function KeyOf(r: Request): IdemKey {
    match r
    case Provision(slug) => ProvisionVpc(slug)
    case Deprovision(slug, day) => DeprovisionVpc(slug, day)
  }

  /** The steps between a claim and the final status, in the order of the two workflows. */
  datatype Stage =
    | MakeNamespace | ApplyIsolation | ApplyAccess | MakeVCluster | StoreKubeconfig
    | StoreApiKey | SetCidrs | SetActive
    | RevokeKubeconfig | DeleteVCluster | SetDeleted

  datatype Pc =
    | Find                                     // Deprovision: about to look the tenant up
    | Reserve(owner: Uuid)                     // Enqueue: about to insert the idempotency slot
    | InsertRow(owner: Uuid, job: Uuid)        // Enqueue: slot won, about to insert the job row
    | Claim(owner: Uuid, job: Uuid)            // workflow: about to claim
    | Lookup(job: Uuid)                        // provisioning: claimed, about to look the tenant up
    | FailUnderNil(job: Uuid, error: string)   // about to record that there is no tenant
    | Work(job: Uuid, tenant: Uuid, stage: Stage)
    | FailUnderTenant(job: Uuid, tenant: Uuid, stage: Stage)
    | Finish(job: Uuid, tenant: Uuid)          // about to complete the job
    | Ended

  datatype Proc = Proc(request: Request, pc: Pc, alive: bool)

  datatype State = State(db: Db, procs: map<nat, Proc>)

  datatype Action =
    | Call(p: nat, request: Request)
    | Next(p: nat, o: Outcome, pick: Uuid, hash: string)   // pick: the id generated or the row found
    | Crash(p: nat)
    | Register(tenant: Uuid, slug: string)                 // a new tenant row, its slug not taken

  // ----- Single writes, with their history.

  function StatusesOf(db: Db, tenant: Uuid): seq<TenantStatus> {
    if tenant in db.history.statuses then db.history.statuses[tenant] else []
  }

  function SetStatus(db: Db, tenant: Uuid, status: TenantStatus): Db {
    if tenant in db.tenants then
      db.(tenants := db.tenants[tenant := db.tenants[tenant].(status := status)],
          history := db.history.(statuses := db.history.statuses[tenant := StatusesOf(db, tenant) + [status]]))
    else db
  }

  function AddThing(db: Db, slug: string, thing: Thing): Db {
    db.(things := db.things + {(slug, thing)}, history := db.history.(removed := db.history.removed - {(slug, thing)}))
  }

  function RemoveThing(db: Db, slug: string, thing: Thing): Db {
    db.(things := db.things - {(slug, thing)},
        history := db.history.(removed := db.history.removed + {(slug, thing)},
            torn := db.history.torn + {(slug, thing)}))
  }

  /** What a stage does when it is executed. */
  function Effect(db: Db, slug: string, tenant: Uuid, stage: Stage, hash: string): Db {
    match stage
    case MakeNamespace => AddThing(db, slug, Namespace)
    case ApplyIsolation => AddThing(db, slug, IsolationPolicy)
    case ApplyAccess => AddThing(db, slug, AccessPolicy)
    case MakeVCluster => AddThing(db, slug, VCluster)
    case StoreKubeconfig => AddThing(db, slug, Kubeconfig)
    case StoreApiKey => db.(keys := db.keys[hash := tenant])
    case SetCidrs =>
      if tenant !in db.tenants then db
      else db.(tenants := db.tenants[tenant := db.tenants[tenant].(cidrs := Some(FIXED_PAIR))])
    case SetActive => SetStatus(db, tenant, ACTIVE)
    case RevokeKubeconfig => RemoveThing(db, slug, Kubeconfig)
    case DeleteVCluster => RemoveThing(db, slug, VCluster)
    case SetDeleted => SetStatus(db, tenant, DELETED)
  }

  function After(job: Uuid, tenant: Uuid, stage: Stage): Pc {
    match stage
    case MakeNamespace => Work(job, tenant, ApplyIsolation)
    case ApplyIsolation => Work(job, tenant, ApplyAccess)
    case ApplyAccess => Work(job, tenant, MakeVCluster)
    case MakeVCluster => Work(job, tenant, StoreKubeconfig)
    case StoreKubeconfig => Work(job, tenant, StoreApiKey)
    case StoreApiKey => Work(job, tenant, SetCidrs)
    case SetCidrs => Work(job, tenant, SetActive)
    case SetActive => Finish(job, tenant)
    case RevokeKubeconfig => Work(job, tenant, DeleteVCluster)
    case DeleteVCluster => Work(job, tenant, SetDeleted)
    case SetDeleted => Finish(job, tenant)
  }

  /** The text failJob records: the stage that failed. */
  function Label(stage: Stage): string {
    match stage
    case MakeNamespace => "create namespace"
    case ApplyIsolation => "apply Cilium policies"
    case ApplyAccess => "apply Cilium policies"
    case MakeVCluster => "create vCluster"
    case StoreKubeconfig => "store kubeconfig"
    case StoreApiKey => "generate api key"
    case SetCidrs => "set CIDRs"
    case SetActive => "set tenant ACTIVE"
    case RevokeKubeconfig => "revoke kubeconfig"
    case DeleteVCluster => "delete vCluster"
    case SetDeleted => "set tenant DELETED"
  }

  /** The result blob: the network's description, or the note that it is gone. */
  function ResultOf(r: Request): string {
    if r.Provision? then "vpc_info" else "{\"deprovisioned\":true}"
  }

  // ----- One step of one process.

  ghost predicate HasSlug(db: Db, tenant: Uuid, slug: string) {
    tenant in db.tenants && db.tenants[tenant].slug == slug
  }

  ghost predicate NoTenant(db: Db, slug: string) {
    forall t :: t in db.tenants ==> db.tenants[t].slug != slug
  }

  /** Whether the id or the row an action names is one the statement can produce. */
  ghost predicate Fits(db: Db, proc: Proc, pick: Uuid, hash: string) {
    match proc.pc
    case Reserve(_) => pick != NIL && pick !in db.queue.minted
    case Find => HasSlug(db, pick, proc.request.slug) || NoTenant(db, proc.request.slug)
    case Lookup(_) => HasSlug(db, pick, proc.request.slug) || NoTenant(db, proc.request.slug)
    case Work(_, _, StoreApiKey) => hash !in db.keys
    case _ => true
  }

  /** Enqueue's first statement. */
  function ReserveSlot(q: Queue, r: Request, owner: Uuid, o: Outcome, newId: Uuid): (Queue, Pc) {
    var slot := Slot(owner, KeyOf(r));
    (TakeSlot(q, slot, newId, o),
     if o.Reported() then Ended
     else if slot in q.slots then Claim(owner, q.slots[slot])
     else InsertRow(owner, newId))
  }

  /** Enqueue's second statement. */
  function InsertJobRow(q: Queue, r: Request, owner: Uuid, job: Uuid, o: Outcome): (Queue, Pc) {
    (InsertQueued(q, JobId(owner, job), KeyOf(r), o), if o.Reported() then Ended else Claim(owner, job))
  }

  /** The workflow's claim, and where each workflow goes after it. */
  function ClaimJob(q: Queue, r: Request, owner: Uuid, job: Uuid, o: Outcome): (Queue, Pc) {
    (SetClaimed(q, JobId(owner, job), o),
     if o.Reported() || !Claimable(q, JobId(owner, job)) then Ended
     else if r.Provision? then Lookup(job)
     else Work(job, owner, RevokeKubeconfig))
  }

  /** The handler's answer: Enqueue returned this job. */
  function Answer(h: History, r: Request, pc: Pc): History {
    if pc.Claim? then h.(returned := h.returned + {(Slot(pc.owner, KeyOf(r)), pc.job)}) else h
  }

  function Begun(h: History, r: Request, pc: Pc): History {
    if pc.Ended? then h else h.(started := h.started + multiset{r})
  }

  ghost function StepProc(db: Db, proc: Proc, o: Outcome, pick: Uuid, hash: string): (Db, Pc) {
    var r := proc.request;
    match proc.pc
    case Find =>
      (db, if o.Reported() || !HasSlug(db, pick, r.slug) then Ended else Reserve(pick))
    case Reserve(owner) =>
      var (q', pc') := ReserveSlot(db.queue, r, owner, o, pick);
      (db.(queue := q', history := Answer(db.history, r, pc')), pc')
    case InsertRow(owner, job) =>
      var (q', pc') := InsertJobRow(db.queue, r, owner, job, o);
      (db.(queue := q', history := Answer(db.history, r, pc')), pc')
    case Claim(owner, job) =>
      var (q', pc') := ClaimJob(db.queue, r, owner, job, o);
      (db.(queue := q', history := Begun(db.history, r, pc')), pc')
    case Lookup(job) =>
      (db, if o.Reported() then FailUnderNil(job, "get tenant record")
           else if !HasSlug(db, pick, r.slug) then FailUnderNil(job, "tenant not found: " + r.slug)
           else Work(job, pick, MakeNamespace))
    case FailUnderNil(job, error) =>
      (db.(queue := SetFailed(db.queue, JobId(NIL, job), error, o)), Ended)
    case Work(job, tenant, stage) =>
      (if o.Executed() then Effect(db, r.slug, tenant, stage, hash) else db,
       if o.Reported() then FailUnderTenant(job, tenant, stage) else After(job, tenant, stage))
    case FailUnderTenant(job, tenant, stage) =>
      (db.(queue := SetFailed(db.queue, JobId(tenant, job), Label(stage), o)), Ended)
    case Finish(job, tenant) =>
      (db.(queue := SetReady(db.queue, JobId(tenant, job), ResultOf(r), o)), Ended)
    case Ended =>
      (db, Ended)
  }

  /** One step of the system. An action that is not possible leaves the state alone. */
  ghost function Step(s: State, a: Action): State {
    match a
    case Call(p, r) =>
      if p in s.procs then s
      else s.(procs := s.procs[p := Proc(r, if r.Provision? then Reserve(NIL) else Find, true)])
    case Next(p, o, pick, hash) =>
      if p in s.procs && s.procs[p].alive && Fits(s.db, s.procs[p], pick, hash) then
        var (db', pc') := StepProc(s.db, s.procs[p], o, pick, hash);
        State(db', s.procs[p := s.procs[p].(pc := pc')])
      else s
    case Crash(p) =>
      if p in s.procs then s.(procs := s.procs[p := s.procs[p].(alive := false)]) else s
    case Register(tenant, slug) =>
      if tenant != NIL && tenant !in s.db.queue.minted && NoTenant(s.db, slug)
      then s.(db := s.db.(tenants := s.db.tenants[tenant := Tenant(slug, PENDING, None)],
                          queue := s.db.queue.(minted := s.db.queue.minted + {tenant})))
      else s
  }

  ghost function Exec(s: State, run: seq<Action>): State {
    if run == [] then s else Step(Exec(s, run[..|run| - 1]), run[|run| - 1])
  }

  const EMPTY: State := State(Db(NO_JOBS, map[], map[], {}, History(map[], {}, multiset{}, {}, {})), map[])

  lemma {:induction false} ExecConcat(s: State, run1: seq<Action>, run2: seq<Action>)
    ensures Exec(s, run1 + run2) == Exec(Exec(s, run1), run2)
  {
    if run2 == [] {
      assert run1 + run2 == run1;
    } else {
      var n := |run2| - 1;
      assert (run1 + run2)[..|run1 + run2| - 1] == run1 + run2[..n];
      ExecConcat(s, run1, run2[..n]);
    }
  }
}

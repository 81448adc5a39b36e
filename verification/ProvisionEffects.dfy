// What a call of Provision or Deprovision that nobody interrupts comes to, for every script of faults: read
// off the tables it found, the numbers of the statements that failed, and the order of the stages
// (services/provisioner/service/service.go:130-254).

module ProvisionEffects {
  import opened CidrBlocks
  import opened CidrText
  import opened Faults
  import opened Jobs
  import opened JobLives
  import opened Options
  import opened Provisioning
  import opened ProvisioningJobs
  import opened ProvisionAlone

  // ----- The stages in order, and what the first k of them have done.

  const BUILD: seq<Stage> :=
    [MakeNamespace, ApplyIsolation, ApplyAccess, MakeVCluster, StoreKubeconfig, StoreApiKey, SetCidrs, SetActive]

  const BUILD_ERRORS: seq<string> :=
    ["create namespace", "apply Cilium policies", "apply Cilium policies", "create vCluster", "store kubeconfig",
     "generate api key", "set CIDRs", "set tenant ACTIVE"]

  const TEARDOWN: seq<Stage> := [RevokeKubeconfig, DeleteVCluster, SetDeleted]

  const TEARDOWN_ERRORS: seq<string> := ["revoke kubeconfig", "delete vCluster", "set tenant DELETED"]

  function StagesOf(r: Request): seq<Stage> {
    if r.Provision? then BUILD else TEARDOWN
  }

  /** How many stages a workflow has. */
  function Stages(r: Request): nat {
    if r.Provision? then 8 else 3
  }

  function ErrorOf(r: Request, i: nat): string
    requires i < Stages(r)
  {
    if r.Provision? then BUILD_ERRORS[i] else TEARDOWN_ERRORS[i]
  }

  /** Other tenants are as they were, and this one but for its status and CIDRs. */
  predicate SameTenantBut(db: Db, db': Db, tenant: Uuid, status: TenantStatus, cidrs: Option<(string, string)>) {
    && db'.tenants.Keys == db.tenants.Keys
    && (forall t :: t in db.tenants && t != tenant ==> db'.tenants[t] == db.tenants[t])
    && (tenant in db.tenants ==> db'.tenants[tenant] == Tenant(db.tenants[tenant].slug, status, cidrs))
  }

  /** The parts of the network that the first k stages make. */
  function PartsMade(k: nat): set<Thing> {
    (if k > 0 then {Namespace} else {}) + (if k > 1 then {IsolationPolicy} else {})
    + (if k > 2 then {AccessPolicy} else {}) + (if k > 3 then {VCluster} else {})
    + if k > 4 then {Kubeconfig} else {}
  }

  /** The first k stages of a provisioning have been executed, and nothing else. */
  ghost predicate Built(db: Db, db': Db, slug: string, tenant: Uuid, hash: string, k: nat) {
    && (forall x :: x in db'.things <==> x in db.things || (x.0 == slug && x.1 in PartsMade(k)))
    && db'.keys == (if k > 5 then db.keys[hash := tenant] else db.keys)
    && (tenant in db.tenants ==>
          SameTenantBut(db, db', tenant, if k > 7 then ACTIVE else db.tenants[tenant].status,
                        if k > 6 then Some(("10.100.1.0/24", "10.200.1.0/24")) else db.tenants[tenant].cidrs))
    && (tenant !in db.tenants ==> db'.tenants == db.tenants)
  }

  /** The first k stages of a teardown have been executed, and nothing else. */
  ghost predicate Torn(db: Db, db': Db, slug: string, tenant: Uuid, k: nat) {
    && (forall x :: x in db'.things <==>
          x in db.things && !(k > 0 && x == (slug, Kubeconfig)) && !(k > 1 && x == (slug, VCluster)))
    && db'.keys == db.keys
    && (tenant in db.tenants ==>
          SameTenantBut(db, db', tenant, if k > 2 then DELETED else db.tenants[tenant].status,
                        db.tenants[tenant].cidrs))
    && (tenant !in db.tenants ==> db'.tenants == db.tenants)
  }

  ghost predicate Did(db: Db, db': Db, r: Request, tenant: Uuid, hash: string, k: nat) {
    if r.Provision? then Built(db, db', r.slug, tenant, hash, k) else Torn(db, db', r.slug, tenant, k)
  }

  /** The pair every tenant is given denotes the first pod block and the first service block. */
  lemma FixedPairDenotes()
    ensures FIXED_PAIR == (Text(Pod(1)), Text(Svc(1)))
    ensures Read(FIXED_PAIR.0) == Some(Network(First(Pod(1)), 24))
    ensures Read(FIXED_PAIR.1) == Some(Network(First(Svc(1)), 24))
  {
    FirstPair();
    TextDenotes(Pod(1));
    TextDenotes(Svc(1));
  }

  lemma ThingMade(db: Db, db1: Db, slug: string, tenant: Uuid, hash: string, i: nat)
    requires i < 5 && Built(db, db1, slug, tenant, hash, i)
    ensures Built(db, Effect(db1, slug, tenant, BUILD[i], hash), slug, tenant, hash, i + 1)
  {
  }

  lemma RowMade(db: Db, db1: Db, slug: string, tenant: Uuid, hash: string, i: nat)
    requires 5 <= i < 8 && Built(db, db1, slug, tenant, hash, i)
    ensures Built(db, Effect(db1, slug, tenant, BUILD[i], hash), slug, tenant, hash, i + 1)
  {
  }

  lemma PartTorn(db: Db, db1: Db, slug: string, tenant: Uuid, hash: string, i: nat)
    requires i < 3 && Torn(db, db1, slug, tenant, i)
    ensures Torn(db, Effect(db1, slug, tenant, TEARDOWN[i], hash), slug, tenant, i + 1)
  {
  }

  lemma StageDid(db: Db, db1: Db, r: Request, tenant: Uuid, hash: string, i: nat)
    requires i < Stages(r) && Did(db, db1, r, tenant, hash, i)
    ensures Did(db, Effect(db1, r.slug, tenant, StagesOf(r)[i], hash), r, tenant, hash, i + 1)
  {
    if r.Deprovision? {
      PartTorn(db, db1, r.slug, tenant, hash, i);
    } else if i < 5 {
      ThingMade(db, db1, r.slug, tenant, hash, i);
    } else {
      RowMade(db, db1, r.slug, tenant, hash, i);
    }
  }

  lemma NothingDid(db: Db, db': Db, r: Request, tenant: Uuid, hash: string)
    requires db'.things == db.things && db'.keys == db.keys && db'.tenants == db.tenants
    ensures Did(db, db', r, tenant, hash, 0)
  {
  }

  lemma StageFollows(r: Request, job: Uuid, tenant: Uuid, i: nat)
    requires i < Stages(r)
    ensures After(job, tenant, StagesOf(r)[i]) ==
            if i + 1 < Stages(r) then Work(job, tenant, StagesOf(r)[i + 1]) else Finish(job, tenant)
    ensures Label(StagesOf(r)[i]) == ErrorOf(r, i)
  {
  }

  // ----- The row that says how it ended.

  /** Exactly one row has been written: one more status in its life, its key kept, or none if it is new;
      no other row has changed, and no slot. */
  ghost predicate Ends(q: Queue, q': Queue, id: JobId) {
    && id in q'.jobs && q'.slots == q.slots
    && Wrote(q', id) == Wrote(q, id) + [q'.jobs[id].status]
    && (if id in q.jobs then q'.jobs[id].key == q.jobs[id].key else q'.jobs[id].key == None)
    && forall other :: other != id ==>
         && Wrote(q', other) == Wrote(q, other) && (other in q'.jobs <==> other in q.jobs)
         && (other in q.jobs ==> q'.jobs[other] == q.jobs[other])
  }

  /** If the write was executed the row says READY with the result, or FAILED with the error; if it was not,
      nothing has changed. */
  ghost predicate Says(q: Queue, q': Queue, id: JobId, o: Outcome, error: Option<string>, result: string) {
    if !o.Executed() then q' == q
    else
      && Ends(q, q', id)
      && (if error.None? then q'.jobs[id].status == READY && q'.jobs[id].result == result
          else q'.jobs[id].status == FAILED && q'.jobs[id].error == error.value)
      && (id in q.jobs && error.None? ==> q'.jobs[id].error == q.jobs[id].error)
      && (id in q.jobs && error.Some? ==> q'.jobs[id].result == q.jobs[id].result)
  }

  lemma FailSays(q: Queue, id: JobId, error: string, o: Outcome, result: string)
    ensures Says(q, SetFailed(q, id, error, o), id, o, Some(error), result)
  {
  }

  lemma ReadySays(q: Queue, id: JobId, result: string, o: Outcome)
    ensures Says(q, SetReady(q, id, result, o), id, o, None, result)
  {
  }

  // ----- The stages of one workflow. Stage i is statement i of what is left of the script.

  /** Stage f is the first that fails; the number of stages if none does. */
  predicate FailsAt(r: Request, script: Script, f: nat) {
    && f <= Stages(r) && (f < Stages(r) ==> At(script, f).Reported())
    && forall i: nat :: i < f ==> At(script, i).Success?
  }

  /** The text recorded then: the stage that failed. */
  function ErrorAt(r: Request, f: nat): Option<string> {
    if f < Stages(r) then Some(ErrorOf(r, f)) else None
  }

  function ResultFor(r: Request): string {
    if r.Provision? then "vpc_info" else "{\"deprovisioned\":true}"
  }

  /** How many stages have been executed if stage f is the first that fails. */
  function Executed(r: Request, script: Script, f: nat): nat {
    if f < Stages(r) && At(script, f).DirtyError? then f + 1 else f
  }

  /** The stages before the first that fails have been executed, that one if its error is dirty, and none
      after it; and the next statement records the outcome under the tenant: READY if none failed, and else
      FAILED with the stage that did. */
  ghost predicate Worked(db: Db, db': Db, r: Request, job: Uuid, tenant: Uuid, hash: string, script: Script, f: nat) {
    && FailsAt(r, script, f) && Did(db, db', r, tenant, hash, Executed(r, script, f))
    && Says(db.queue, db'.queue, JobId(tenant, job), At(script, if f < Stages(r) then f + 1 else f), ErrorAt(r, f),
            ResultFor(r))
  }

  ghost predicate WorksThrough(db: Db, db': Db, r: Request, job: Uuid, tenant: Uuid, hash: string, script: Script) {
    exists f: nat :: Worked(db, db', r, job, tenant, hash, script, f)
  }

  lemma FailAlone(db: Db, r: Request, job: Uuid, tenant: Uuid, stage: Stage, script: Script, n: nat, c: Choices)
    ensures Alone(db, r, FailUnderTenant(job, tenant, stage), Drop(script, n), c).0 ==
            db.(queue := SetFailed(db.queue, JobId(tenant, job), Label(stage), At(script, n)))
  {
    Dropped(script, n);
    AloneStep(db, r, FailUnderTenant(job, tenant, stage), Drop(script, n), c);
  }

  lemma FinishAlone(db: Db, r: Request, job: Uuid, tenant: Uuid, script: Script, n: nat, c: Choices)
    ensures Alone(db, r, Finish(job, tenant), Drop(script, n), c).0 ==
            db.(queue := SetReady(db.queue, JobId(tenant, job), ResultFor(r), At(script, n)))
  {
    Dropped(script, n);
    AloneStep(db, r, Finish(job, tenant), Drop(script, n), c);
  }

  lemma WorkAlone(db: Db, r: Request, job: Uuid, tenant: Uuid, stage: Stage, script: Script, n: nat, c: Choices)
    ensures var db' := if At(script, n).Executed() then Effect(db, r.slug, tenant, stage, c.hash) else db;
            Alone(db, r, Work(job, tenant, stage), Drop(script, n), c) ==
            Alone(db', r, if At(script, n).Reported() then FailUnderTenant(job, tenant, stage)
                          else After(job, tenant, stage), Drop(script, n + 1), c)
  {
    Dropped(script, n);
    AloneStep(db, r, Work(job, tenant, stage), Drop(script, n), c);
  }

  /** The tables may differ from those before only in what no predicate here reads. */
  lemma DidAside(db: Db, db1: Db, db': Db, r: Request, tenant: Uuid, hash: string, k: nat)
    requires Did(db, db1, r, tenant, hash, k)
    requires db'.things == db1.things && db'.keys == db1.keys && db'.tenants == db1.tenants
    ensures Did(db, db', r, tenant, hash, k)
  {
  }

  lemma FailedStage(db: Db, db1: Db, r: Request, job: Uuid, tenant: Uuid, script: Script, c: Choices, f: nat)
    requires f < Stages(r) && FailsAt(r, script, f)
    requires Did(db, db1, r, tenant, c.hash, f) && db1.queue == db.queue
    ensures var db' := Alone(db1, r, Work(job, tenant, StagesOf(r)[f]), Drop(script, f), c).0;
            Worked(db, db', r, job, tenant, c.hash, script, f)
  {
    var stage := StagesOf(r)[f];
    StageFollows(r, job, tenant, f);
    StageDid(db, db1, r, tenant, c.hash, f);
    EffectAside(db1, r.slug, tenant, stage, c.hash);
    WorkAlone(db1, r, job, tenant, stage, script, f, c);
    var db2 := if At(script, f).Executed() then Effect(db1, r.slug, tenant, stage, c.hash) else db1;
    FailAlone(db2, r, job, tenant, stage, script, f + 1, c);
    FailSays(db.queue, JobId(tenant, job), Label(stage), At(script, f + 1), ResultFor(r));
    var q := SetFailed(db.queue, JobId(tenant, job), Label(stage), At(script, f + 1));
    DidAside(db, db2, db2.(queue := q), r, tenant, c.hash, Executed(r, script, f));
  }

  /** From stage i on. */
  lemma {:induction false} WorkEnds(db: Db, db1: Db, r: Request, job: Uuid, tenant: Uuid, script: Script, c: Choices,
                                    i: nat, f: nat)
    requires i <= f && i < Stages(r) && FailsAt(r, script, f)
    requires Did(db, db1, r, tenant, c.hash, i) && db1.queue == db.queue
    ensures var db' := Alone(db1, r, Work(job, tenant, StagesOf(r)[i]), Drop(script, i), c).0;
            Worked(db, db', r, job, tenant, c.hash, script, f)
    decreases f - i
  {
    if i == f {
      FailedStage(db, db1, r, job, tenant, script, c, f);
    } else {
      var stage := StagesOf(r)[i];
      var db2 := Effect(db1, r.slug, tenant, stage, c.hash);
      assert At(script, i).Success?;
      WorkAlone(db1, r, job, tenant, stage, script, i, c);
      StageFollows(r, job, tenant, i);
      StageDid(db, db1, r, tenant, c.hash, i);
      EffectAside(db1, r.slug, tenant, stage, c.hash);
      if i + 1 < Stages(r) {
        WorkEnds(db, db2, r, job, tenant, script, c, i + 1, f);
      } else {
        FinishAlone(db2, r, job, tenant, script, f, c);
        ReadySays(db.queue, JobId(tenant, job), ResultFor(r), At(script, f));
        DidAside(db, db2, db2.(queue := SetReady(db.queue, JobId(tenant, job), ResultFor(r), At(script, f))), r, tenant,
                 c.hash, f);
      }
    }
  }

  lemma {:induction false} FirstFailure(r: Request, script: Script, from: nat) returns (f: nat)
    requires from <= Stages(r) && forall i: nat :: i < from ==> At(script, i).Success?
    ensures FailsAt(r, script, f)
    decreases Stages(r) - from
  {
    if from == Stages(r) || At(script, from).Reported() {
      f := from;
    } else {
      f := FirstFailure(r, script, from + 1);
    }
  }

  // ----- One workflow, from its claim on: statement 0 claims, and in a provisioning statement 1 looks the
  // tenant up.

  predicate SameTables(db: Db, db': Db) {
    db'.things == db.things && db'.keys == db.keys && db'.tenants == db.tenants
  }

  /** The row says PROVISIONING, and nothing else has changed. */
  ghost predicate Claims(q: Queue, q': Queue, id: JobId) {
    id in q.jobs && Ends(q, q', id) && q'.jobs[id] == q.jobs[id].(status := PROVISIONING)
  }

  function LookupError(r: Request, o: Outcome): string {
    if o.Reported() then "get tenant record" else "tenant not found: " + r.slug
  }

  /** After the claim, which has left the tables in db: a provisioning without a tenant records that under
      the partition its job was claimed in, and any other does its stages. */
  ghost predicate Ran(db: Db, db': Db, r: Request, owner: Uuid, job: Uuid, script: Script, c: Choices) {
    if r.Provision? && (At(script, 1).Reported() || !HasSlug(db, c.found, r.slug)) then
      && SameTables(db, db')
      && Says(db.queue, db'.queue, JobId(NIL, job), At(script, 2), Some(LookupError(r, At(script, 1))), "")
    else
      WorksThrough(db, db', r, job, if r.Provision? then c.found else owner, c.hash,
                   Drop(script, if r.Provision? then 2 else 1))
  }

  /** A workflow does nothing unless its job waits to be claimed and the claim is executed; it stops there if
      the claim reports an error. */
  ghost predicate RunDoes(db: Db, db': Db, r: Request, owner: Uuid, job: Uuid, script: Script, c: Choices) {
    var id := JobId(owner, job);
    if !Claimable(db.queue, id) || !At(script, 0).Executed() then SameTables(db, db') && db'.queue == db.queue
    else
      exists q :: Claims(db.queue, q, id) &&
        if At(script, 0).Reported() then SameTables(db, db') && db'.queue == q
        else Ran(db.(queue := q), db', r, owner, job, script, c)
  }

  lemma ClaimClaims(q: Queue, id: JobId)
    requires Claimable(q, id)
    ensures Claims(q, SetClaimed(q, id, Success), id)
    ensures SetClaimed(q, id, DirtyError) == SetClaimed(q, id, Success)
  {
  }

  lemma ClaimAlone(db: Db, r: Request, owner: Uuid, job: Uuid, script: Script, c: Choices)
    ensures var (db', pc') := StepProc(db, Proc(r, Claim(owner, job), true), At(script, 0), c.found, c.hash);
            && Alone(db, r, Claim(owner, job), script, c) == Alone(db', r, pc', Drop(script, 1), c)
            && SameTables(db, db') && db'.queue == SetClaimed(db.queue, JobId(owner, job), At(script, 0))
            && pc' == if At(script, 0).Reported() || !Claimable(db.queue, JobId(owner, job)) then Ended
                      else if r.Provision? then Lookup(job) else Work(job, owner, RevokeKubeconfig)
  {
    AtDropped(script, 0);
    Dropped(script, 0);
    AloneStep(db, r, Claim(owner, job), script, c);
  }

  lemma NoTenantAlone(db: Db, r: Request, owner: Uuid, job: Uuid, script: Script, c: Choices)
    requires r.Provision? && (At(script, 1).Reported() || !HasSlug(db, c.found, r.slug))
    ensures Ran(db, Alone(db, r, Lookup(job), Drop(script, 1), c).0, r, owner, job, script, c)
  {
    Dropped(script, 1);
    AloneStep(db, r, Lookup(job), Drop(script, 1), c);
    var error := LookupError(r, At(script, 1));
    Dropped(script, 2);
    AloneStep(db, r, FailUnderNil(job, error), Drop(script, 2), c);
    FailSays(db.queue, JobId(NIL, job), error, At(script, 2), "");
  }

  lemma StagesAlone(db: Db, r: Request, job: Uuid, tenant: Uuid, script: Script, c: Choices)
    ensures WorksThrough(db, Alone(db, r, Work(job, tenant, StagesOf(r)[0]), script, c).0, r, job, tenant, c.hash,
                         script)
  {
    var f := FirstFailure(r, script, 0);
    AtDropped(script, 0);
    NothingDid(db, db, r, tenant, c.hash);
    WorkEnds(db, db, r, job, tenant, script, c, 0, f);
  }

  lemma RanAlone(db: Db, r: Request, owner: Uuid, job: Uuid, script: Script, c: Choices)
    ensures var pc := if r.Provision? then Lookup(job) else Work(job, owner, RevokeKubeconfig);
            Ran(db, Alone(db, r, pc, Drop(script, 1), c).0, r, owner, job, script, c)
  {
    if r.Deprovision? {
      StagesAlone(db, r, job, owner, Drop(script, 1), c);
    } else if At(script, 1).Reported() || !HasSlug(db, c.found, r.slug) {
      NoTenantAlone(db, r, owner, job, script, c);
    } else {
      Dropped(script, 1);
      AloneStep(db, r, Lookup(job), Drop(script, 1), c);
      StagesAlone(db, r, job, c.found, Drop(script, 2), c);
    }
  }

  lemma WorkedFrom(db1: Db, db2: Db, db': Db, r: Request, job: Uuid, tenant: Uuid, hash: string, script: Script, f: nat)
    requires Worked(db1, db', r, job, tenant, hash, script, f) && SameTables(db1, db2) && db1.queue == db2.queue
    ensures Worked(db2, db', r, job, tenant, hash, script, f)
  {
    var o := At(script, if f < Stages(r) then f + 1 else f);
    assert Says(db1.queue, db'.queue, JobId(tenant, job), o, ErrorAt(r, f), ResultFor(r));
  }

  lemma RanFrom(db: Db, db1: Db, db': Db, r: Request, owner: Uuid, job: Uuid, script: Script, c: Choices)
    requires Ran(db1, db', r, owner, job, script, c) && SameTables(db, db1)
    ensures Ran(db.(queue := db1.queue), db', r, owner, job, script, c)
  {
    var db2 := db.(queue := db1.queue);
    if r.Provision? && (At(script, 1).Reported() || !HasSlug(db, c.found, r.slug)) {
    } else {
      var (tenant, rest) := (if r.Provision? then c.found else owner, Drop(script, if r.Provision? then 2 else 1));
      var f: nat :| Worked(db1, db', r, job, tenant, c.hash, rest, f);
      WorkedFrom(db1, db2, db', r, job, tenant, c.hash, rest, f);
      assert Worked(db2, db', r, job, tenant, c.hash, rest, f);
    }
  }

  /** For every script of faults. */
  lemma RunAlone(db: Db, r: Request, owner: Uuid, job: Uuid, script: Script, c: Choices)
    ensures RunDoes(db, Alone(db, r, Claim(owner, job), script, c).0, r, owner, job, script, c)
  {
    ClaimAlone(db, r, owner, job, script, c);
    var (db1, pc1) := StepProc(db, Proc(r, Claim(owner, job), true), At(script, 0), c.found, c.hash);
    if Claimable(db.queue, JobId(owner, job)) && At(script, 0).Executed() {
      ClaimClaims(db.queue, JobId(owner, job));
      if !At(script, 0).Reported() {
        RanAlone(db1, r, owner, job, script, c);
        RanFrom(db, db1, Alone(db1, r, pc1, Drop(script, 1), c).0, r, owner, job, script, c);
      }
    }
  }

  // ----- The whole call. Statement 0 of its enqueue reserves the slot, and if that wins it, statement 1
  // inserts the row.

  function SlotFor(r: Request, owner: Uuid): Slot {
    Slot(owner, KeyOf(r))
  }

  /** How many statements an enqueue takes that sees no error. */
  function EnqueueLength(q: Queue, r: Request, owner: Uuid): nat {
    if SlotFor(r, owner) in q.slots then 1 else 2
  }

  /** The answer of an enqueue: the job that holds the slot, or the new one, unless an error is seen. */
  function Answered(q: Queue, r: Request, owner: Uuid, script: Script, newId: Uuid): Option<Uuid> {
    var k := SlotFor(r, owner);
    if At(script, 0).Reported() then None
    else if k in q.slots then Some(q.slots[k])
    else if At(script, 1).Reported() then None
    else Some(newId)
  }

  /** What it does to the job tables: it takes the slot if that is free, and then inserts one row. */
  ghost predicate Enqueues(q: Queue, q': Queue, r: Request, owner: Uuid, script: Script, newId: Uuid) {
    var (k, id) := (SlotFor(r, owner), JobId(owner, newId));
    && q'.slots == (if k !in q.slots && At(script, 0).Executed() then q.slots[k := newId] else q.slots)
    && if k !in q.slots && !At(script, 0).Reported() && At(script, 1).Executed()
       then && q'.jobs == q.jobs[id := Job(Some(KeyOf(r)), QUEUED, "", "")]
            && q'.written == q.written[id := Wrote(q, id) + [QUEUED]]
       else q'.jobs == q.jobs && q'.written == q.written
  }

  /** An enqueue under the owner and, if it is answered with a job, the workflow of that job. */
  ghost predicate CallDoes(db: Db, db': Db, r: Request, owner: Uuid, script: Script, c: Choices, job: Option<Uuid>) {
    && job == Answered(db.queue, r, owner, script, c.newId)
    && exists q :: Enqueues(db.queue, q, r, owner, script, c.newId) &&
         if job.None? then SameTables(db, db') && db'.queue == q
         else RunDoes(db.(queue := q), db', r, owner, job.value, Drop(script, EnqueueLength(db.queue, r, owner)), c)
  }

  lemma EnqueueAnswers(db: Db, r: Request, owner: Uuid, script: Script, newId: Uuid)
    ensures var (db', script', pc') := Enqueued(db, r, owner, script, newId);
            var job := Answered(db.queue, r, owner, script, newId);
            && Enqueues(db.queue, db'.queue, r, owner, script, newId) && SameTables(db, db')
            && pc' == (if job.Some? then Claim(owner, job.value) else Ended)
            && (job.Some? ==> script' == Drop(script, EnqueueLength(db.queue, r, owner)))
  {
    AtDropped(script, 0);
    Dropped(script, 0);
    Dropped(script, 1);
  }

  lemma RunFrom(db: Db, db1: Db, db': Db, r: Request, owner: Uuid, job: Uuid, script: Script, c: Choices)
    requires RunDoes(db1, db', r, owner, job, script, c) && SameTables(db, db1)
    ensures RunDoes(db.(queue := db1.queue), db', r, owner, job, script, c)
  {
    var db2 := db.(queue := db1.queue);
    var id := JobId(owner, job);
    if Claimable(db1.queue, id) && At(script, 0).Executed() && !At(script, 0).Reported() {
      var q :| Claims(db1.queue, q, id) && Ran(db1.(queue := q), db', r, owner, job, script, c);
      RanFrom(db, db1.(queue := q), db', r, owner, job, script, c);
      assert db2.(queue := q) == db.(queue := q);
    }
  }

  /** For every script of faults. */
  lemma CallAlone(db: Db, r: Request, owner: Uuid, script: Script, c: Choices)
    ensures CallDoes(db, Alone(db, r, Reserve(owner), script, c).0, r, owner, script, c,
                     Answered(db.queue, r, owner, script, c.newId))
  {
    var job := Answered(db.queue, r, owner, script, c.newId);
    var (db1, script1, pc1) := Enqueued(db, r, owner, script, c.newId);
    EnqueueAlone(db, r, owner, script, c);
    EnqueueAnswers(db, r, owner, script, c.newId);
    if job.Some? {
      RunAlone(db1, r, owner, job.value, script1, c);
      RunFrom(db, db1, Alone(db1, r, pc1, script1, c).0, r, owner, job.value, script1, c);
    }
  }

  /** A teardown begins with the lookup of its tenant, as its own first statement. */
  ghost predicate DeprovisionDoes(db: Db, db': Db, slug: string, day: string, script: Script, c: Choices,
                                  job: Option<Uuid>) {
    if At(script, 0).Reported() || !HasSlug(db, c.found, slug) then
      job.None? && SameTables(db, db') && db'.queue == db.queue
    else CallDoes(db, db', Deprovision(slug, day), c.found, Drop(script, 1), c, job)
  }

  lemma DeprovisionAlone(db: Db, slug: string, day: string, script: Script, c: Choices)
    ensures var job := if At(script, 0).Reported() || !HasSlug(db, c.found, slug) then None
                       else Answered(db.queue, Deprovision(slug, day), c.found, Drop(script, 1), c.newId);
            DeprovisionDoes(db, Alone(db, Deprovision(slug, day), Find, script, c).0, slug, day, script, c, job)
  {
    AtDropped(script, 0);
    Dropped(script, 0);
    AloneStep(db, Deprovision(slug, day), Find, script, c);
    if !At(script, 0).Reported() && HasSlug(db, c.found, slug) {
      CallAlone(db, Deprovision(slug, day), c.found, Drop(script, 1), c);
    }
  }

  // ----- The answer stays true.

  lemma RunKeepsSlots(db: Db, db': Db, r: Request, owner: Uuid, job: Uuid, script: Script, c: Choices)
    requires RunDoes(db, db', r, owner, job, script, c)
    ensures db'.queue.slots == db.queue.slots
  {
    if Claimable(db.queue, JobId(owner, job)) && At(script, 0).Executed() && !At(script, 0).Reported() {
      var q :| Claims(db.queue, q, JobId(owner, job)) && Ran(db.(queue := q), db', r, owner, job, script, c);
      var db1 := db.(queue := q);
      if !(r.Provision? && (At(script, 1).Reported() || !HasSlug(db1, c.found, r.slug))) {
        var (tenant, rest) := (if r.Provision? then c.found else owner, Drop(script, if r.Provision? then 2 else 1));
        var f: nat :| Worked(db1, db', r, job, tenant, c.hash, rest, f);
      }
    }
  }

  /** An answer names the job that holds the slot afterwards, which is the new one if the slot was free. */
  lemma AnswerHolds(db: Db, db': Db, r: Request, owner: Uuid, script: Script, c: Choices, job: Option<Uuid>)
    requires CallDoes(db, db', r, owner, script, c, job)
    ensures job.Some? ==> Holds(db'.queue, SlotFor(r, owner), job.value)
    ensures job.Some? && SlotFor(r, owner) !in db.queue.slots ==> job.value == c.newId
    ensures job.None? <==>
            At(script, 0).Reported() || (SlotFor(r, owner) !in db.queue.slots && At(script, 1).Reported())
  {
    if job.Some? {
      var rest := Drop(script, EnqueueLength(db.queue, r, owner));
      var q :| Enqueues(db.queue, q, r, owner, script, c.newId)
        && RunDoes(db.(queue := q), db', r, owner, job.value, rest, c);
      RunKeepsSlots(db.(queue := q), db', r, owner, job.value, rest, c);
    }
  }

  // ----- The two plain cases.

  lemma OneFirst(r: Request, script: Script, f: nat, g: nat)
    requires FailsAt(r, script, f) && FailsAt(r, script, g)
    ensures f == g
  {
  }

  lemma NewRowWaits(q: Queue, q': Queue, r: Request, owner: Uuid, script: Script, newId: Uuid)
    requires Enqueues(q, q', r, owner, script, newId) && SlotFor(r, owner) !in q.slots
    requires At(script, 0).Success? && At(script, 1).Success?
    ensures Claimable(q', JobId(owner, newId))
  {
  }

  /** The first four statements see no error. */
  predicate Starts(script: Script) {
    At(script, 0).Success? && At(script, 1).Success? && At(script, 2).Success? && At(script, 3).Success?
  }

  /** A provisioning with a free slot, a known slug and no error before its stages. */
  ghost predicate PlainCall(db: Db, db': Db, slug: string, script: Script, c: Choices, job: Option<Uuid>) {
    && CallDoes(db, db', Provision(slug), NIL, script, c, job)
    && HasSlug(db, c.found, slug) && c.found != NIL && SlotFor(Provision(slug), NIL) !in db.queue.slots
    && Starts(script)
  }

  lemma GetsToClaim(db: Db, db': Db, slug: string, script: Script, c: Choices, job: Option<Uuid>) returns (q: Queue)
    requires PlainCall(db, db', slug, script, c, job)
    ensures job == Some(c.newId) && Claimable(q, JobId(NIL, c.newId))
    ensures RunDoes(db.(queue := q), db', Provision(slug), NIL, c.newId, Drop(script, 2), c)
  {
    var r := Provision(slug);
    q :| Enqueues(db.queue, q, r, NIL, script, c.newId)
      && RunDoes(db.(queue := q), db', r, NIL, c.newId, Drop(script, 2), c);
    NewRowWaits(db.queue, q, r, NIL, script, c.newId);
  }

  lemma GetsToWork(db: Db, db': Db, slug: string, script: Script, c: Choices, job: Option<Uuid>)
      returns (q: Queue, f: nat)
    requires PlainCall(db, db', slug, script, c, job)
    ensures job == Some(c.newId)
    ensures JobId(NIL, c.newId) in q.jobs && q.jobs[JobId(NIL, c.newId)].status == PROVISIONING
    ensures Worked(db.(queue := q), db', Provision(slug), c.newId, c.found, c.hash, Drop(script, 4), f)
  {
    var r := Provision(slug);
    var rest := Drop(script, 2);
    var q0 := GetsToClaim(db, db', slug, script, c, job);
    AtDropped(script, 2);
    assert At(rest, 0) == At(script, 2 + 0) && At(rest, 1) == At(script, 2 + 1);
    var db0 := db.(queue := q0);
    q :| Claims(q0, q, JobId(NIL, c.newId)) && Ran(db0.(queue := q), db', r, NIL, c.newId, rest, c);
    assert Drop(rest, 2) == Drop(script, 4) && db0.(queue := q) == db.(queue := q);
    f :| Worked(db.(queue := q), db', r, c.newId, c.found, c.hash, Drop(script, 4), f);
  }

  lemma SaidUnder(q: Queue, q': Queue, id: JobId, other: JobId, o: Outcome, error: Option<string>, result: string)
    requires Says(q, q', id, o, error, result) && o.Executed() && other != id && other in q.jobs
    ensures id in q'.jobs && q'.jobs[id].status == if error.Some? then FAILED else READY
    ensures error.Some? ==> q'.jobs[id].error == error.value
    ensures other in q'.jobs && q'.jobs[other] == q.jobs[other]
  {
  }

  lemma BuiltAll(db: Db, db': Db, slug: string, tenant: Uuid, hash: string)
    requires Built(db, db', slug, tenant, hash, 8) && HasSlug(db, tenant, slug)
    ensures HasSlug(db', tenant, slug)
            && db'.tenants[tenant] == Tenant(slug, ACTIVE, Some(("10.100.1.0/24", "10.200.1.0/24")))
    ensures (forall thing :: (slug, thing) in db'.things) && hash in db'.keys && db'.keys[hash] == tenant
  {
    forall thing
      ensures (slug, thing) in db'.things
    {
      assert thing in {Namespace, IsolationPolicy, AccessPolicy, VCluster, Kubeconfig} by {
        assert !thing.Namespace? && !thing.IsolationPolicy? && !thing.AccessPolicy? && !thing.VCluster? ==>
            thing.Kubeconfig?;
      }
      assert thing in PartsMade(8);
    }
  }

  /** With a free slot, a known slug and no fault: the tenant is ACTIVE, and has its whole network, the pair and
      the key; its job says READY under the tenant, and still PROVISIONING under NIL. */
  lemma ProvisionSucceeds(db: Db, db': Db, slug: string, c: Choices, job: Option<Uuid>)
    requires PlainCall(db, db', slug, [], c, job)
    ensures job == Some(c.newId)
    ensures HasSlug(db', c.found, slug)
            && db'.tenants[c.found] == Tenant(slug, ACTIVE, Some(("10.100.1.0/24", "10.200.1.0/24")))
    ensures (forall thing :: (slug, thing) in db'.things) && c.hash in db'.keys && db'.keys[c.hash] == c.found
    ensures var jobs := db'.queue.jobs;
            && JobId(c.found, c.newId) in jobs && jobs[JobId(c.found, c.newId)].status == READY
            && JobId(NIL, c.newId) in jobs && jobs[JobId(NIL, c.newId)].status == PROVISIONING
  {
    var q, f := GetsToWork(db, db', slug, [], c, job);
    OneFirst(Provision(slug), [], f, 8);
    BuiltAll(db.(queue := q), db', slug, c.found, c.hash);
    SaidUnder(q, db'.queue, JobId(c.found, c.newId), JobId(NIL, c.newId), Success, None, "vpc_info");
  }

  lemma BuiltSome(db: Db, db': Db, slug: string, tenant: Uuid, hash: string, k: nat)
    requires Built(db, db', slug, tenant, hash, k) && HasSlug(db, tenant, slug)
    ensures HasSlug(db', tenant, slug)
    ensures db'.tenants[tenant].status == if k > 7 then ACTIVE else db.tenants[tenant].status
    ensures forall thing :: thing in PartsMade(k) ==> (slug, thing) in db'.things
  {
  }

  lemma FailsThere(script: Script, f: nat, g: nat)
    requires f < 8 && (forall j: nat :: j < 4 + f ==> At(script, j).Success?) && At(script, 4 + f).Reported()
    requires FailsAt(Provision(""), Drop(script, 4), g)
    ensures f == g && At(Drop(script, 4), f) == At(script, 4 + f) && At(Drop(script, 4), f + 1) == At(script, 5 + f)
  {
    AtDropped(script, 4);
    assert forall j: nat :: j <= f + 1 ==> At(Drop(script, 4), j) == At(script, 4 + j);
    OneFirst(Provision(""), Drop(script, 4), f, g);
  }

  /** With a free slot and a known slug, if only stage f fails and that is recorded: the row under the tenant
      says FAILED with the name of the stage, the parts made before it stay, and ACTIVE has been written only
      if it was the activation itself that failed, after being executed. */
  lemma StageFailureShows(db: Db, db': Db, slug: string, script: Script, c: Choices, job: Option<Uuid>, f: nat)
    requires PlainCall(db, db', slug, script, c, job)
    requires f < 8 && (forall j: nat :: j < 4 + f ==> At(script, j).Success?)
    requires At(script, 4 + f).Reported() && At(script, 5 + f).Executed()
    ensures job == Some(c.newId)
    ensures var (jobs, id) := (db'.queue.jobs, JobId(c.found, c.newId));
            && id in jobs && jobs[id].status == FAILED && jobs[id].error == BUILD_ERRORS[f]
            && JobId(NIL, c.newId) in jobs && jobs[JobId(NIL, c.newId)].status == PROVISIONING
    ensures HasSlug(db', c.found, slug)
            && db'.tenants[c.found].status == if f == 7 && At(script, 11).DirtyError? then ACTIVE
                                              else db.tenants[c.found].status
    ensures forall thing :: thing in PartsMade(f) ==> (slug, thing) in db'.things
  {
    var q, g := GetsToWork(db, db', slug, script, c, job);
    FailsThere(script, f, g);
    BuiltSome(db.(queue := q), db', slug, c.found, c.hash, Executed(Provision(slug), Drop(script, 4), f));
    SaidUnder(q, db'.queue, JobId(c.found, c.newId), JobId(NIL, c.newId), At(script, 5 + f), Some(BUILD_ERRORS[f]),
              "vpc_info");
  }
}

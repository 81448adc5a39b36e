// From which states a DELETED tenant stays DELETED, and an ACTIVE tenant keeps its network, whatever
// follows.

module ProvisioningFinality {
  import opened Faults
  import opened Options
  import opened Jobs
  import opened NewNames
  import opened Provisioning
  import opened ProvisioningJobs
  import opened ProvisioningNetworks
  import opened ProvisioningOutcomes
  import opened ProvisioningTenants

  // ----- Slots that can still be won.

  /** A call about to enqueue under the slot can go on to win a claim: the slot is free, or its job waits
      to be claimed. */
  predicate Winnable(q: Queue, k: Slot) {
    k !in q.slots || Claimable(q, JobId(k.owner, q.slots[k]))
  }

  /** A live call has won the slot and is about to insert the job row. */
  ghost predicate Inserter(s: State, p: nat, k: Slot) {
    p in s.procs && s.procs[p].alive && s.procs[p].pc.InsertRow?
        && Slot(s.procs[p].pc.owner, KeyOf(s.procs[p].request)) == k
  }

  lemma PutQueued(q: Queue, id: JobId, row: Job, i: JobId)
    requires Claimable(Put(q, id, row), i) && !Claimable(q, i)
    ensures i == id && row.status == QUEUED
  {
  }

  lemma EnqueueQueued(db: Db, proc: Proc, o: Outcome, pick: Uuid, hash: string, id: JobId)
    requires proc.pc.Reserve? || proc.pc.InsertRow? || proc.pc.Claim?
    requires Claimable(StepProc(db, proc, o, pick, hash).0.queue, id) && !Claimable(db.queue, id)
    ensures proc.pc.InsertRow? && id == JobId(proc.pc.owner, proc.pc.job)
  {
    var q := db.queue;
    if proc.pc.InsertRow? && o.Executed() {
      PutQueued(q, JobId(proc.pc.owner, proc.pc.job), Job(Some(KeyOf(proc.request)), QUEUED, "", ""), id);
    } else if proc.pc.Claim? && o.Executed() && Claimable(q, JobId(proc.pc.owner, proc.pc.job)) {
      var claimed := JobId(proc.pc.owner, proc.pc.job);
      PutQueued(q, claimed, q.jobs[claimed].(status := PROVISIONING), id);
    }
  }

  lemma EndNotQueued(db: Db, proc: Proc, o: Outcome, pick: Uuid, hash: string, id: JobId)
    requires proc.pc.FailUnderNil? || proc.pc.FailUnderTenant? || proc.pc.Finish?
    requires !Claimable(db.queue, id)
    ensures !Claimable(StepProc(db, proc, o, pick, hash).0.queue, id)
  {
  }

  /** Only the insert of its row makes a job wait to be claimed. */
  lemma NewlyQueued(db: Db, proc: Proc, o: Outcome, pick: Uuid, hash: string, id: JobId)
    requires Claimable(StepProc(db, proc, o, pick, hash).0.queue, id) && !Claimable(db.queue, id)
    ensures proc.pc.InsertRow? && id == JobId(proc.pc.owner, proc.pc.job)
  {
    if proc.pc.Work? {
      EffectAside(db, proc.request.slug, proc.pc.tenant, proc.pc.stage, hash);
    } else if proc.pc.Reserve? || proc.pc.InsertRow? || proc.pc.Claim? {
      EnqueueQueued(db, proc, o, pick, hash, id);
    } else if proc.pc.FailUnderNil? || proc.pc.FailUnderTenant? || proc.pc.Finish? {
      EndNotQueued(db, proc, o, pick, hash, id);
    }
  }

  lemma NewInserter(s: State, a: Action, p: nat, k: Slot)
    requires Inserter(Step(s, a), p, k) && !Inserter(s, p, k)
    ensures k !in s.db.queue.slots
  {
    if a.Next? && a.p in s.procs && s.procs[a.p].pc.Work? {
      AfterWork(s.procs[a.p].pc.job, s.procs[a.p].pc.tenant, s.procs[a.p].pc.stage);
    }
  }

  /** A slot that cannot be won, and that nobody is about to give a row, stays so. */
  lemma StaysUnwinnable(s: State, a: Action, k: Slot)
    requires Inv(s) && !Winnable(s.db.queue, k) && forall p :: !Inserter(s, p, k)
    ensures !Winnable(Step(s, a).db.queue, k) && forall p :: !Inserter(Step(s, a), p, k)
  {
    var (q, q') := (s.db.queue, Step(s, a).db.queue);
    StepGrows(s, a);
    var id := JobId(k.owner, q.slots[k]);
    if Claimable(q', id) && a.Next? && a.p in s.procs && s.procs[a.p].alive
        && Fits(s.db, s.procs[a.p], a.pick, a.hash) {
      NewlyQueued(s.db, s.procs[a.p], a.o, a.pick, a.hash, id);
      assert ProcOk(q, s.procs[a.p].request, s.procs[a.p].pc);
      assert Inserter(s, a.p, k);
      assert false;
    }
    forall p
      ensures !Inserter(Step(s, a), p, k)
    {
      if Inserter(Step(s, a), p, k) {
        NewInserter(s, a, p, k);
      }
    }
  }

  // ----- Winning them.

  /** Some run without new calls to deprovision leads from s0 to s. */
  ghost predicate Leads(s0: State, s: State) {
    exists more :: Exec(s0, more) == s && NoNewTeardown(more)
  }

  ghost predicate NoNewTeardown(more: seq<Action>) {
    forall a :: a in more && a.Call? ==> a.request.Provision?
  }

  lemma LeadsOn(s0: State, s: State, a: Action) returns (s': State)
    requires Leads(s0, s) && TInv(s) && (a.Call? ==> a.request.Provision?)
    ensures Leads(s0, s') && TInv(s') && s' == Step(s, a)
  {
    var more :| Exec(s0, more) == s && NoNewTeardown(more);
    s' := Step(s, a);
    assert (more + [a])[..|more + [a]| - 1] == more;
    assert Exec(s0, more + [a]) == s';
    StepKeepsTInv(s, a);
  }

  /** Where a call of the request stands once it has won its claim. */
  function PastClaim(r: Request, owner: Uuid, job: Uuid): Pc {
    if r.Provision? then Lookup(job) else Work(job, owner, RevokeKubeconfig)
  }

  /** Only call p has moved, up to past its claim, and nothing but the job tables has changed. */
  ghost predicate HasWon(s: State, s': State, p: nat, owner: Uuid) {
    && p in s.procs && p in s'.procs && SameTenants(s.db, s'.db)
    && exists job :: s'.procs[p] == Proc(s.procs[p].request, PastClaim(s.procs[p].request, owner, job), true)
  }

  /** One step of call p alone, to the given position, that changes nothing but the job tables. */
  ghost predicate StepsTo(s: State, s': State, p: nat, pc: Pc) {
    p in s.procs && p in s'.procs && s'.procs[p] == Proc(s.procs[p].request, pc, true) && SameTenants(s.db, s'.db)
  }

  lemma ClaimWon(s: State, p: nat, owner: Uuid, job: Uuid)
    requires p in s.procs && s.procs[p] == Proc(s.procs[p].request, Claim(owner, job), true)
    requires Claimable(s.db.queue, JobId(owner, job))
    ensures StepsTo(s, Step(s, Next(p, Success, NIL, "")), p, PastClaim(s.procs[p].request, owner, job))
  {
  }

  lemma WinsClaim(s0: State, s: State, p: nat, owner: Uuid, job: Uuid) returns (s': State)
    requires Leads(s0, s) && TInv(s) && p in s.procs && s.procs[p].alive && s.procs[p].pc == Claim(owner, job)
    requires Claimable(s.db.queue, JobId(owner, job))
    ensures Leads(s0, s') && TInv(s') && HasWon(s, s', p, owner)
  {
    s' := LeadsOn(s0, s, Next(p, Success, NIL, ""));
    ClaimWon(s, p, owner, job);
  }

  lemma RowInserted(s: State, p: nat, owner: Uuid, job: Uuid)
    requires p in s.procs && s.procs[p] == Proc(s.procs[p].request, InsertRow(owner, job), true)
    ensures var s' := Step(s, Next(p, Success, NIL, ""));
            StepsTo(s, s', p, Claim(owner, job)) && Claimable(s'.db.queue, JobId(owner, job))
  {
  }

  /** What was won after a step that changes only the job tables was won. */
  lemma WonLater(s: State, s1: State, s': State, p: nat, pc: Pc, owner: Uuid)
    requires StepsTo(s, s1, p, pc) && HasWon(s1, s', p, owner)
    ensures HasWon(s, s', p, owner)
  {
  }

  lemma WinsInsert(s0: State, s: State, p: nat, owner: Uuid, job: Uuid) returns (s': State)
    requires Leads(s0, s) && TInv(s) && p in s.procs && s.procs[p].alive && s.procs[p].pc == InsertRow(owner, job)
    ensures Leads(s0, s') && TInv(s') && HasWon(s, s', p, owner)
  {
    var s1 := LeadsOn(s0, s, Next(p, Success, NIL, ""));
    RowInserted(s, p, owner, job);
    s' := WinsClaim(s0, s1, p, owner, job);
    WonLater(s, s1, s', p, Claim(owner, job), owner);
  }

  lemma SlotReserved(s: State, p: nat, owner: Uuid, id: Uuid)
    requires p in s.procs && s.procs[p] == Proc(s.procs[p].request, Reserve(owner), true)
    requires id != NIL && id !in s.db.queue.minted && Winnable(s.db.queue, Slot(owner, KeyOf(s.procs[p].request)))
    ensures var (k, s') := (Slot(owner, KeyOf(s.procs[p].request)), Step(s, Next(p, Success, id, "")));
            if k !in s.db.queue.slots then StepsTo(s, s', p, InsertRow(owner, id))
            else && StepsTo(s, s', p, Claim(owner, s.db.queue.slots[k]))
                 && Claimable(s'.db.queue, JobId(owner, s.db.queue.slots[k]))
  {
  }

  lemma WinsSlot(s0: State, s: State, p: nat, owner: Uuid) returns (s': State)
    requires Leads(s0, s) && TInv(s) && p in s.procs && s.procs[p].alive && s.procs[p].pc == Reserve(owner)
    requires Winnable(s.db.queue, Slot(owner, KeyOf(s.procs[p].request)))
    ensures Leads(s0, s') && TInv(s') && HasWon(s, s', p, owner)
  {
    var k := Slot(owner, KeyOf(s.procs[p].request));
    var id := FreshNat(s.db.queue.minted + {NIL});
    assert id !in s.db.queue.minted + {NIL};
    var s1 := LeadsOn(s0, s, Next(p, Success, id, ""));
    SlotReserved(s, p, owner, id);
    if k in s.db.queue.slots {
      s' := WinsClaim(s0, s1, p, owner, s.db.queue.slots[k]);
    } else {
      s' := WinsInsert(s0, s1, p, owner, id);
    }
    WonLater(s, s1, s', p, s1.procs[p].pc, owner);
  }

  // ----- Activations still ahead.

  /** A live provisioning workflow of the slug that has won its claim and not yet activated. */
  ghost predicate Worker(s: State, p: nat, slug: string) {
    && p in s.procs && s.procs[p].alive && s.procs[p].request == Provision(slug)
    && (s.procs[p].pc.Lookup? || (s.procs[p].pc.Work? && Building(s.procs[p].pc.stage)))
  }

  /** The workflow for the slug runs, or can still be started. */
  ghost predicate ActivationAhead(s: State, slug: string) {
    var k := Slot(NIL, ProvisionVpc(slug));
    Winnable(s.db.queue, k) || exists p :: Worker(s, p, slug) || Inserter(s, p, k)
  }

  lemma WorkerBefore(s: State, a: Action, slug: string, p: nat)
    requires TInv(s) && Worker(Step(s, a), p, slug) && !Worker(s, p, slug)
    ensures Winnable(s.db.queue, Slot(NIL, ProvisionVpc(slug)))
  {
    if a.Next? && a.p == p && p in s.procs && s.procs[p].alive && Fits(s.db, s.procs[p], a.pick, a.hash) {
      var proc := s.procs[p];
      assert ProcOk(s.db.queue, proc.request, proc.pc) && KnowsTenant(s.db, proc);
    }
  }

  lemma StepKeepsIdle(s: State, a: Action, slug: string)
    requires TInv(s) && !ActivationAhead(s, slug)
    ensures !ActivationAhead(Step(s, a), slug)
  {
    StaysUnwinnable(s, a, Slot(NIL, ProvisionVpc(slug)));
    forall p
      ensures !Worker(Step(s, a), p, slug)
    {
      if Worker(Step(s, a), p, slug) {
        WorkerBefore(s, a, slug, p);
      }
    }
  }

  /** What a step appends to the statuses of a tenant. */
  lemma StatusWritten(db: Db, proc: Proc, o: Outcome, pick: Uuid, hash: string, t: Uuid)
    ensures var (w, w') := (StatusesOf(db, t), StatusesOf(StepProc(db, proc, o, pick, hash).0, t));
            w' == w || (proc.pc.Work? && proc.pc.tenant == t
                        && ((proc.pc.stage.SetActive? && w' == w + [ACTIVE])
                            || (proc.pc.stage.SetDeleted? && w' == w + [DELETED])))
  {
    if !proc.pc.Work? {
      QueueStepsOnly(db, proc, o, pick, hash);
    }
  }

  lemma IdleWritesNoActive(s: State, a: Action, slug: string, t: Uuid)
    requires TInv(s) && !ActivationAhead(s, slug) && HasSlug(s.db, t, slug)
    ensures StatusesOf(Step(s, a).db, t) in {StatusesOf(s.db, t), StatusesOf(s.db, t) + [DELETED]}
  {
    if a.Next? && a.p in s.procs && s.procs[a.p].alive && Fits(s.db, s.procs[a.p], a.pick, a.hash) {
      var proc := s.procs[a.p];
      StatusWritten(s.db, proc, a.o, a.pick, a.hash, t);
      assert KnowsTenant(s.db, proc) && !Worker(s, a.p, slug);
    }
  }

  /** With no activation ahead there never will be, and nothing but DELETED is written to the tenant. */
  lemma {:induction false} NoMoreActive(run: seq<Action>, more: seq<Action>, slug: string, t: Uuid)
    requires !ActivationAhead(Exec(EMPTY, run), slug) && HasSlug(Exec(EMPTY, run).db, t, slug)
    ensures !ActivationAhead(Exec(EMPTY, run + more), slug) && HasSlug(Exec(EMPTY, run + more).db, t, slug)
    ensures var (w, w') := (StatusesOf(Exec(EMPTY, run).db, t), StatusesOf(Exec(EMPTY, run + more).db, t));
            w <= w' && forall i :: |w| <= i < |w'| ==> w'[i] == DELETED
  {
    if more == [] {
      assert run + more == run;
    } else {
      var n := |more| - 1;
      NoMoreActive(run, more[..n], slug, t);
      assert (run + more)[..|run + more| - 1] == run + more[..n];
      var s := Exec(EMPTY, run + more[..n]);
      RunKeepsTInv(run + more[..n]);
      StepKeepsIdle(s, more[n], slug);
      IdleWritesNoActive(s, more[n], slug, t);
      SlugStays(s, more[n], slug, t);
    }
  }

  // ----- An activation that is ahead can happen.

  /** A building stage of a worker, executed. */
  lemma StageDone(s: State, p: nat, slug: string, t: Uuid, hash: string)
    requires TInv(s) && Worker(s, p, slug) && s.procs[p].pc.Work? && HasSlug(s.db, t, slug) && hash !in s.db.keys
    ensures var (s', pc) := (Step(s, Next(p, Success, NIL, hash)), s.procs[p].pc);
            && pc.tenant == t && s'.db == Effect(s.db, slug, t, pc.stage, hash)
            && p in s'.procs && s'.procs[p] == Proc(Provision(slug), After(pc.job, t, pc.stage), true)
  {
    assert KnowsTenant(s.db, s.procs[p]);
  }

  lemma EffectOnWorker(db: Db, slug: string, t: Uuid, stage: Stage, hash: string)
    requires HasSlug(db, t, slug) && hash !in db.keys
    ensures var db' := Effect(db, slug, t, stage, hash);
            HasSlug(db', t, slug) && (stage.SetActive? ==> db'.tenants[t].status == ACTIVE)
  {
    StageStatus(db, slug, t, stage, hash);
    EffectProgresses(db, slug, t, stage, hash);
  }

  lemma {:induction false} WorkActivates(s0: State, s: State, p: nat, slug: string, t: Uuid) returns (s': State)
    requires Leads(s0, s) && TInv(s) && Worker(s, p, slug) && s.procs[p].pc.Work? && HasSlug(s.db, t, slug)
    ensures Leads(s0, s') && t in s'.db.tenants && s'.db.tenants[t].status == ACTIVE
    decreases 8 - Rank(s.procs[p].pc.stage)
  {
    var stage := s.procs[p].pc.stage;
    var hash := FreshString(s.db.keys.Keys);
    assert hash !in s.db.keys.Keys;
    s' := LeadsOn(s0, s, Next(p, Success, NIL, hash));
    StageDone(s, p, slug, t, hash);
    EffectOnWorker(s.db, slug, t, stage, hash);
    if !stage.SetActive? {
      NextBuilding(s.procs[p].pc.job, t, stage);
      s' := WorkActivates(s0, s', p, slug, t);
    }
  }

  lemma LookupActivates(s0: State, s: State, p: nat, slug: string, t: Uuid) returns (s': State)
    requires Leads(s0, s) && TInv(s) && Worker(s, p, slug) && s.procs[p].pc.Lookup? && HasSlug(s.db, t, slug)
    ensures Leads(s0, s') && t in s'.db.tenants && s'.db.tenants[t].status == ACTIVE
  {
    s' := LeadsOn(s0, s, Next(p, Success, t, ""));
    assert s'.procs[p].pc == Work(s.procs[p].pc.job, t, MakeNamespace) && s'.db == s.db;
    s' := WorkActivates(s0, s', p, slug, t);
  }

  lemma WonActivates(s0: State, s: State, s1: State, p: nat, slug: string, t: Uuid) returns (s': State)
    requires Leads(s0, s1) && TInv(s1) && HasWon(s, s1, p, NIL) && s.procs[p].request == Provision(slug)
    requires HasSlug(s.db, t, slug)
    ensures Leads(s0, s') && t in s'.db.tenants && s'.db.tenants[t].status == ACTIVE
  {
    s' := LookupActivates(s0, s1, p, slug, t);
  }

  lemma AheadActivates(s: State, slug: string, t: Uuid) returns (s': State)
    requires TInv(s) && ActivationAhead(s, slug) && HasSlug(s.db, t, slug)
    ensures Leads(s, s') && t in s'.db.tenants && s'.db.tenants[t].status == ACTIVE
  {
    var k := Slot(NIL, ProvisionVpc(slug));
    assert Exec(s, []) == s && NoNewTeardown([]);
    if p :| Worker(s, p, slug) {
      if s.procs[p].pc.Lookup? {
        s' := LookupActivates(s, s, p, slug, t);
      } else {
        s' := WorkActivates(s, s, p, slug, t);
      }
    } else if p :| Inserter(s, p, k) {
      var s1 := WinsInsert(s, s, p, NIL, s.procs[p].pc.job);
      s' := WonActivates(s, s, s1, p, slug, t);
    } else {
      var p := FreshNat(s.procs.Keys);
      assert p !in s.procs.Keys;
      var s1 := LeadsOn(s, s, Call(p, Provision(slug)));
      var s2 := WinsSlot(s, s1, p, NIL);
      s' := WonActivates(s, s1, s2, p, slug, t);
    }
  }

  lemma IdleStaysDeleted(run: seq<Action>, more: seq<Action>, slug: string, t: Uuid)
    requires !ActivationAhead(Exec(EMPTY, run), slug) && HasSlug(Exec(EMPTY, run).db, t, slug)
    requires Exec(EMPTY, run).db.tenants[t].status == DELETED
    ensures var db := Exec(EMPTY, run + more).db; t in db.tenants && db.tenants[t].status == DELETED
  {
    NoMoreActive(run, more, slug, t);
    RunKeepsTInv(run);
    RunKeepsTInv(run + more);
    assert TenantOk(Exec(EMPTY, run).db, t) && TenantOk(Exec(EMPTY, run + more).db, t);
  }

  /** Exactly when DELETED is final: after any run, a DELETED tenant stays DELETED in every continuation if
      and only if no workflow that provisions its slug has won its claim and not yet activated, or can still
      be started. */
  lemma DeletedStaysIff(run: seq<Action>, t: Uuid)
    requires var db := Exec(EMPTY, run).db; t in db.tenants && db.tenants[t].status == DELETED
    ensures !ActivationAhead(Exec(EMPTY, run), Exec(EMPTY, run).db.tenants[t].slug) <==>
            forall more :: var db := Exec(EMPTY, run + more).db; t in db.tenants && db.tenants[t].status == DELETED
  {
    var s := Exec(EMPTY, run);
    var slug := s.db.tenants[t].slug;
    RunKeepsTInv(run);
    if ActivationAhead(s, slug) {
      var s' := AheadActivates(s, slug, t);
      var more :| Exec(s, more) == s' && NoNewTeardown(more);
      ExecConcat(EMPTY, run, more);
      assert Exec(EMPTY, run + more).db.tenants[t].status != DELETED;
    } else {
      forall more
        ensures var db := Exec(EMPTY, run + more).db; t in db.tenants && db.tenants[t].status == DELETED
      {
        IdleStaysDeleted(run, more, slug, t);
      }
    }
  }

  // ----- Teardowns still ahead.

  /** Every part of the network is there. */
  ghost predicate Complete(db: Db, slug: string) {
    forall thing :: (slug, thing) in db.things
  }

  /** A live teardown of tenant t that can still remove something. */
  ghost predicate TearsDown(s: State, p: nat, slug: string, t: Uuid) {
    && p in s.procs && s.procs[p].alive && s.procs[p].request.Deprovision? && s.procs[p].request.slug == slug
    && var k := Slot(t, KeyOf(s.procs[p].request));
       match s.procs[p].pc
       case Find => Winnable(s.db.queue, k)
       case Reserve(_) => Winnable(s.db.queue, k)
       case InsertRow(_, _) => true
       case Claim(_, _) => Winnable(s.db.queue, k)
       case Work(_, _, stage) => stage.RevokeKubeconfig? || stage.DeleteVCluster?
       case _ => false
  }

  ghost predicate TeardownAhead(s: State, slug: string, t: Uuid) {
    exists p :: TearsDown(s, p, slug, t)
  }

  /** The calls about to enqueue or claim under one of the tenant's teardown slots are under that slot. */
  lemma OwnerIsTenant(s: State, p: nat, t: Uuid)
    requires TInv(s) && p in s.procs && s.procs[p].request.Deprovision? && HasSlug(s.db, t, s.procs[p].request.slug)
    ensures s.procs[p].pc.Reserve? || s.procs[p].pc.Claim? || s.procs[p].pc.InsertRow? ==> s.procs[p].pc.owner == t
  {
    assert KnowsTenant(s.db, s.procs[p]) && ProcOk(s.db.queue, s.procs[p].request, s.procs[p].pc);
  }

  lemma UntornSlot(s: State, a: Action, p: nat, slug: string, t: Uuid)
    requires TInv(s) && HasSlug(s.db, t, slug) && !TeardownAhead(s, slug, t)
    requires p in s.procs && s.procs[p].request.Deprovision? && s.procs[p].request.slug == slug
    requires !Winnable(s.db.queue, Slot(t, KeyOf(s.procs[p].request)))
    ensures !Winnable(Step(s, a).db.queue, Slot(t, KeyOf(s.procs[p].request)))
  {
    var k := Slot(t, KeyOf(s.procs[p].request));
    forall i
      ensures !Inserter(s, i, k)
    {
      assert !TearsDown(s, i, slug, t);
    }
    StaysUnwinnable(s, a, k);
  }

  /** Where one step leaves a call of a teardown whose slot cannot be won. */
  lemma TeardownMoves(s: State, p: nat, o: Outcome, pick: Uuid, hash: string, t: Uuid)
    requires TInv(s) && p in s.procs && Fits(s.db, s.procs[p], pick, hash) && s.procs[p].request.Deprovision?
    requires HasSlug(s.db, t, s.procs[p].request.slug)
    requires !Winnable(s.db.queue, Slot(t, KeyOf(s.procs[p].request)))
    requires !s.procs[p].pc.InsertRow? && !s.procs[p].pc.Work?
    ensures var pc' := StepProc(s.db, s.procs[p], o, pick, hash).1; !pc'.InsertRow? && !pc'.Work?
  {
    OwnerIsTenant(s, p, t);
    assert ProcOk(s.db.queue, s.procs[p].request, s.procs[p].pc);
  }

  lemma StageMoves(s: State, p: nat, o: Outcome, pick: Uuid, hash: string)
    requires TInv(s) && p in s.procs && s.procs[p].request.Deprovision? && s.procs[p].pc.Work?
    requires !s.procs[p].pc.stage.RevokeKubeconfig? && !s.procs[p].pc.stage.DeleteVCluster?
    ensures var pc' := StepProc(s.db, s.procs[p], o, pick, hash).1; pc'.FailUnderTenant? || pc'.Finish?
  {
    assert KnowsTenant(s.db, s.procs[p]);
  }

  /** The call that moves, if it can tear down afterwards, could before. */
  lemma MoverTears(s: State, a: Action, slug: string, t: Uuid)
    requires TInv(s) && HasSlug(s.db, t, slug) && !TeardownAhead(s, slug, t)
    requires a.Next? && a.p in s.procs && s.procs[a.p].alive && Fits(s.db, s.procs[a.p], a.pick, a.hash)
    ensures !TearsDown(Step(s, a), a.p, slug, t)
  {
    var proc := s.procs[a.p];
    assert !TearsDown(s, a.p, slug, t);
    if proc.request.Deprovision? && proc.request.slug == slug {
      if proc.pc.Work? {
        StageMoves(s, a.p, a.o, a.pick, a.hash);
      } else if Winnable(s.db.queue, Slot(t, KeyOf(proc.request))) {
        EndMoves(s.db, proc, a.o, a.pick, a.hash);
      } else {
        TeardownMoves(s, a.p, a.o, a.pick, a.hash, t);
        UntornSlot(s, a, a.p, slug, t);
      }
    }
  }

  lemma EndMoves(db: Db, proc: Proc, o: Outcome, pick: Uuid, hash: string)
    requires proc.request.Deprovision?
    requires !(proc.pc.Find? || proc.pc.Reserve? || proc.pc.InsertRow? || proc.pc.Claim? || proc.pc.Work?
            || proc.pc.Lookup?)
    ensures StepProc(db, proc, o, pick, hash).1.Ended?
  {
  }

  lemma StepKeepsUntorn(s: State, a: Action, slug: string, t: Uuid)
    requires TInv(s) && HasSlug(s.db, t, slug) && !TeardownAhead(s, slug, t)
    requires a.Call? && a.request.Deprovision? ==> a.request.slug != slug
    ensures !TeardownAhead(Step(s, a), slug, t)
  {
    var s' := Step(s, a);
    forall p
      ensures !TearsDown(s', p, slug, t)
    {
      if a.Next? && a.p == p && p in s.procs && s.procs[p].alive && Fits(s.db, s.procs[p], a.pick, a.hash) {
        MoverTears(s, a, slug, t);
      } else if p in s.procs && s.procs[p].request.Deprovision? && s.procs[p].request.slug == slug {
        assert !TearsDown(s, p, slug, t);
        if !Winnable(s.db.queue, Slot(t, KeyOf(s.procs[p].request))) {
          UntornSlot(s, a, p, slug, t);
        }
      }
    }
  }

  lemma StageKeepsThings(db: Db, slug: string, tenant: Uuid, stage: Stage, hash: string, x: (string, Thing))
    requires x in db.things && (x.0 == slug ==> !stage.RevokeKubeconfig? && !stage.DeleteVCluster?)
    ensures x in Effect(db, slug, tenant, stage, hash).things
  {
  }

  lemma StageKeepsComplete(db: Db, proc: Proc, o: Outcome, pick: Uuid, hash: string, slug: string)
    requires Complete(db, slug) && proc.pc.Work? && Fits(db, proc, pick, hash)
    requires proc.request.slug == slug ==> !proc.pc.stage.RevokeKubeconfig? && !proc.pc.stage.DeleteVCluster?
    ensures Complete(StepProc(db, proc, o, pick, hash).0, slug)
  {
    forall thing
      ensures (slug, thing) in Effect(db, proc.request.slug, proc.pc.tenant, proc.pc.stage, hash).things
    {
      StageKeepsThings(db, proc.request.slug, proc.pc.tenant, proc.pc.stage, hash, (slug, thing));
    }
  }

  lemma UntornKeepsThings(s: State, a: Action, slug: string, t: Uuid)
    requires TInv(s) && HasSlug(s.db, t, slug) && !TeardownAhead(s, slug, t) && Complete(s.db, slug)
    ensures Complete(Step(s, a).db, slug)
  {
    if a.Next? && a.p in s.procs && s.procs[a.p].alive && Fits(s.db, s.procs[a.p], a.pick, a.hash) {
      var proc := s.procs[a.p];
      if proc.pc.Work? {
        assert KnowsTenant(s.db, proc) && !TearsDown(s, a.p, slug, t);
        StageKeepsComplete(s.db, proc, a.o, a.pick, a.hash, slug);
      } else {
        QueueStepsOnly(s.db, proc, a.o, a.pick, a.hash);
      }
    }
  }

  lemma SlugStays(s: State, a: Action, slug: string, t: Uuid)
    requires TInv(s) && HasSlug(s.db, t, slug)
    ensures HasSlug(Step(s, a).db, t, slug)
  {
    if a.Next? && a.p in s.procs && s.procs[a.p].alive && Fits(s.db, s.procs[a.p], a.pick, a.hash) {
      var proc := s.procs[a.p];
      if proc.pc.Work? {
        EffectProgresses(s.db, proc.request.slug, proc.pc.tenant, proc.pc.stage, a.hash);
      } else {
        QueueStepsOnly(s.db, proc, a.o, a.pick, a.hash);
      }
    }
  }

  /** The network is complete and no teardown of the tenant is ahead. */
  ghost predicate Safe(s: State, slug: string, t: Uuid) {
    HasSlug(s.db, t, slug) && !TeardownAhead(s, slug, t) && Complete(s.db, slug)
  }

  lemma StepKeepsSafe(s: State, a: Action, slug: string, t: Uuid)
    requires TInv(s) && Safe(s, slug, t) && (a.Call? && a.request.Deprovision? ==> a.request.slug != slug)
    ensures Safe(Step(s, a), slug, t)
  {
    StepKeepsUntorn(s, a, slug, t);
    UntornKeepsThings(s, a, slug, t);
    SlugStays(s, a, slug, t);
  }

  lemma LastStepKeepsSafe(run: seq<Action>, slug: string, t: Uuid)
    requires run != [] && Safe(Exec(EMPTY, run[..|run| - 1]), slug, t) && NoTeardownOf([run[|run| - 1]], slug)
    ensures Safe(Exec(EMPTY, run), slug, t)
  {
    RunKeepsTInv(run[..|run| - 1]);
    assert run[|run| - 1] in [run[|run| - 1]];
    StepKeepsSafe(Exec(EMPTY, run[..|run| - 1]), run[|run| - 1], slug, t);
  }

  lemma {:induction false} SafeStays(run: seq<Action>, more: seq<Action>, slug: string, t: Uuid)
    requires Safe(Exec(EMPTY, run), slug, t) && NoTeardownOf(more, slug)
    ensures Safe(Exec(EMPTY, run + more), slug, t)
  {
    if more == [] {
      assert run + more == run;
    } else {
      var n := |more| - 1;
      SafeStays(run, more[..n], slug, t);
      assert (run + more)[..|run + more| - 1] == run + more[..n];
      LastStepKeepsSafe(run + more, slug, t);
    }
  }

  // ----- A teardown that is ahead can happen.

  lemma StageRemoves(s: State, p: nat)
    requires p in s.procs && s.procs[p].alive && s.procs[p].pc.Work?
    requires s.procs[p].pc.stage.RevokeKubeconfig? || s.procs[p].pc.stage.DeleteVCluster?
    ensures var gone := if s.procs[p].pc.stage.RevokeKubeconfig? then Kubeconfig else VCluster;
            (s.procs[p].request.slug, gone) !in Step(s, Next(p, Success, NIL, "")).db.things
  {
  }

  lemma WorkTears(s0: State, s: State, p: nat, slug: string) returns (s': State)
    requires Leads(s0, s) && TInv(s) && p in s.procs && s.procs[p].alive && s.procs[p].request.slug == slug
    requires s.procs[p].pc.Work? && (s.procs[p].pc.stage.RevokeKubeconfig? || s.procs[p].pc.stage.DeleteVCluster?)
    ensures Leads(s0, s') && !Complete(s'.db, slug)
  {
    s' := LeadsOn(s0, s, Next(p, Success, NIL, ""));
    StageRemoves(s, p);
  }

  lemma WonTears(s0: State, s: State, s1: State, p: nat, slug: string, t: Uuid) returns (s': State)
    requires Leads(s0, s1) && TInv(s1) && HasWon(s, s1, p, t)
    requires s.procs[p].request.Deprovision? && s.procs[p].request.slug == slug
    ensures Leads(s0, s') && !Complete(s'.db, slug)
  {
    s' := WorkTears(s0, s1, p, slug);
  }

  lemma AheadTears(s: State, p: nat, slug: string, t: Uuid) returns (s': State)
    requires TInv(s) && TearsDown(s, p, slug, t) && HasSlug(s.db, t, slug)
    ensures Leads(s, s') && !Complete(s'.db, slug)
  {
    assert Exec(s, []) == s && NoNewTeardown([]);
    OwnerIsTenant(s, p, t);
    assert ProcOk(s.db.queue, s.procs[p].request, s.procs[p].pc);
    match s.procs[p].pc {
      case Find =>
        var s1 := LeadsOn(s, s, Next(p, Success, t, ""));
        var s2 := WinsSlot(s, s1, p, t);
        s' := WonTears(s, s1, s2, p, slug, t);
      case Reserve(_) =>
        var s1 := WinsSlot(s, s, p, t);
        s' := WonTears(s, s, s1, p, slug, t);
      case InsertRow(_, job) =>
        var s1 := WinsInsert(s, s, p, t, job);
        s' := WonTears(s, s, s1, p, slug, t);
      case Claim(_, job) =>
        var s1 := WinsClaim(s, s, p, t, job);
        s' := WonTears(s, s, s1, p, slug, t);
      case Work(_, _, _) =>
        s' := WorkTears(s, s, p, slug);
    }
  }

  /** Exactly when a complete network stays so: after any run, the network of a tenant that is complete stays
      complete in every continuation in which nobody newly calls to deprovision its slug, if and only if no
      live call of that kind can still win its claim or is about to remove something. */
  lemma CompleteStaysIff(run: seq<Action>, t: Uuid)
    requires var db := Exec(EMPTY, run).db; t in db.tenants && Complete(db, db.tenants[t].slug)
    ensures var (s, slug) := (Exec(EMPTY, run), Exec(EMPTY, run).db.tenants[t].slug);
            !TeardownAhead(s, slug, t) <==>
            forall more :: NoTeardownOf(more, slug) ==> Complete(Exec(EMPTY, run + more).db, slug)
  {
    var s := Exec(EMPTY, run);
    var slug := s.db.tenants[t].slug;
    RunKeepsTInv(run);
    if p :| TearsDown(s, p, slug, t) {
      var s' := AheadTears(s, p, slug, t);
      var more :| Exec(s, more) == s' && NoNewTeardown(more);
      ExecConcat(EMPTY, run, more);
      assert NoTeardownOf(more, slug) && !Complete(Exec(EMPTY, run + more).db, slug);
    } else {
      forall more | NoTeardownOf(more, slug)
        ensures Complete(Exec(EMPTY, run + more).db, slug)
      {
        SafeStays(run, more, slug, t);
      }
    }
  }

  lemma CallTears(s: State, slug: string, t: Uuid, day: string) returns (a: Action, s': State)
    requires TInv(s) && HasSlug(s.db, t, slug) && Slot(t, DeprovisionVpc(slug, day)) !in s.db.queue.slots
    ensures Leads(Step(s, a), s') && !Complete(s'.db, slug)
  {
    var p := FreshNat(s.procs.Keys);
    assert p !in s.procs.Keys;
    a := Call(p, Deprovision(slug, day));
    StepKeepsTInv(s, a);
    s' := AheadTears(Step(s, a), p, slug, t);
  }

  lemma ReachedBy(run: seq<Action>, a: Action, s': State) returns (more: seq<Action>)
    requires Leads(Step(Exec(EMPTY, run), a), s')
    ensures Exec(EMPTY, run + more) == s'
  {
    var rest :| Exec(Step(Exec(EMPTY, run), a), rest) == s' && NoNewTeardown(rest);
    assert (run + [a])[..|run + [a]| - 1] == run;
    ExecConcat(EMPTY, run + [a], rest);
    more := [a] + rest;
    assert run + [a] + rest == run + more;
  }

  /** The restriction to continuations without new calls is needed: on a day on which nobody has yet asked
      for it, a new call can tear down the network of any tenant. */
  lemma NewDayTearsDown(run: seq<Action>, t: Uuid, day: string)
    requires var db := Exec(EMPTY, run).db;
             t in db.tenants && Slot(t, DeprovisionVpc(db.tenants[t].slug, day)) !in db.queue.slots
    ensures exists more :: !Complete(Exec(EMPTY, run + more).db, Exec(EMPTY, run).db.tenants[t].slug)
  {
    var s := Exec(EMPTY, run);
    RunKeepsTInv(run);
    var a, s' := CallTears(s, s.db.tenants[t].slug, t, day);
    var more := ReachedBy(run, a, s');
  }
}

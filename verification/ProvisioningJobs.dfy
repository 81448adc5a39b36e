// In every run of the provisioning service every statement on the job tables finds what it needs:
// enqueue is idempotent, a job is claimed at most once, and no row gets two final statuses.

module ProvisioningJobs {
  import opened Faults
  import opened Jobs
  import opened JobLives
  import opened Provisioning

  /** The slot of a request: provisioning is enqueued under NIL, deprovisioning under its tenant. */
  function SlotOf(r: Request, tenant: Uuid): Slot {
    Slot(if r.Provision? then NIL else tenant, KeyOf(r))
  }

  /** What a call knows of the job tables at each position. */
  ghost predicate ProcOk(q: Queue, r: Request, pc: Pc) {
    match pc
    case Find => r.Deprovision?
    case Reserve(owner) => owner == NIL <==> r.Provision?
    case InsertRow(owner, job) => Unwritten(q, Slot(owner, KeyOf(r)), job)
    case Claim(owner, job) => Holds(q, Slot(owner, KeyOf(r)), job)
    case Lookup(job) => r.Provision? && Running(q, Slot(NIL, KeyOf(r)), job)
    case FailUnderNil(job, _) => r.Provision? && Running(q, Slot(NIL, KeyOf(r)), job)
    case Work(job, tenant, _) => tenant != NIL && Running(q, SlotOf(r, tenant), job)
    case FailUnderTenant(job, tenant, _) => tenant != NIL && Running(q, SlotOf(r, tenant), job)
    case Finish(job, tenant) => tenant != NIL && Running(q, SlotOf(r, tenant), job)
    case Ended => true
  }

  /** The exclusive part a call has in a job: inserting its row, or running its workflow. */
  datatype Stake = Nothing | Inserting(job: Uuid) | Executing(job: Uuid)

  function StakeOf(pc: Pc): Stake {
    match pc
    case InsertRow(_, job) => Inserting(job)
    case Lookup(job) => Executing(job)
    case FailUnderNil(job, _) => Executing(job)
    case Work(job, _, _) => Executing(job)
    case FailUnderTenant(job, _, _) => Executing(job)
    case Finish(job, _) => Executing(job)
    case _ => Nothing
  }

  ghost predicate Inv(s: State) {
    && QueueOk(s.db.queue)
    && (forall t :: t in s.db.tenants ==> t != NIL)
    && (forall p :: p in s.procs ==> ProcOk(s.db.queue, s.procs[p].request, s.procs[p].pc))
    && (forall p, q :: p in s.procs && q in s.procs && p != q && StakeOf(s.procs[p].pc) == StakeOf(s.procs[q].pc)
          ==> StakeOf(s.procs[p].pc).Nothing?)
  }

  /** What a step of one call does to the job tables: it writes to one job at most, the call knows
      what its next position needs, and no other call has a stake in that job. */
  ghost predicate Advances(q: Queue, r: Request, pc: Pc, q': Queue, pc': Pc, job: Uuid) {
    && QueueOk(q') && Touches(q, q', job) && ProcOk(q', r, pc')
    && (StakeOf(pc').Nothing? || StakeOf(pc').job == job)
    && ((q' == q && StakeOf(pc') in {StakeOf(pc), Nothing}) || Exclusive(q, pc, job))
  }

  /** Nobody but a call at pc can have a stake in the job. */
  ghost predicate Exclusive(q: Queue, pc: Pc, job: Uuid) {
    forall r2, pc2 :: ProcOk(q, r2, pc2) && StakeOf(pc2) in {Inserting(job), Executing(job)} ==>
        StakeOf(pc2) == StakeOf(pc)
  }

  /** A stake is in a job with a slot, and shows in what has been written to the job's home row. */
  lemma StakeShows(q: Queue, r: Request, pc: Pc)
    requires QueueOk(q) && ProcOk(q, r, pc) && !StakeOf(pc).Nothing?
    ensures var job := StakeOf(pc).job;
            && job in q.minted && job in q.origin
            && Wrote(q, JobId(q.origin[job].owner, job)) == if StakeOf(pc).Inserting? then []
                else [QUEUED, PROVISIONING]
  {
  }

  lemma OnlyStake(q: Queue, pc: Pc, job: Uuid)
    requires QueueOk(q)
    requires job !in q.minted
             || (job in q.origin && var w := Wrote(q, JobId(q.origin[job].owner, job));
                                    w == [QUEUED] || (w == [] && StakeOf(pc) == Inserting(job))
                                    || (w == [QUEUED, PROVISIONING] && StakeOf(pc) == Executing(job)))
    ensures Exclusive(q, pc, job)
  {
    forall r2, pc2 | ProcOk(q, r2, pc2) && StakeOf(pc2) in {Inserting(job), Executing(job)}
      ensures StakeOf(pc2) == StakeOf(pc)
    {
      StakeShows(q, r2, pc2);
    }
  }

  lemma ReserveAdvances(q: Queue, r: Request, owner: Uuid, o: Outcome, newId: Uuid)
    requires QueueOk(q) && ProcOk(q, r, Reserve(owner)) && newId != NIL && newId !in q.minted
    ensures var (q', pc') := ReserveSlot(q, r, owner, o, newId); Advances(q, r, Reserve(owner), q', pc', newId)
  {
    TakeSlotKeeps(q, Slot(owner, KeyOf(r)), newId, o);
    OnlyStake(q, Reserve(owner), newId);
  }

  lemma InsertAdvances(q: Queue, r: Request, owner: Uuid, job: Uuid, o: Outcome)
    requires QueueOk(q) && ProcOk(q, r, InsertRow(owner, job))
    ensures var (q', pc') := InsertJobRow(q, r, owner, job, o); Advances(q, r, InsertRow(owner, job), q', pc', job)
  {
    InsertKeeps(q, Slot(owner, KeyOf(r)), job, o);
    OnlyStake(q, InsertRow(owner, job), job);
  }

  lemma ClaimAdvances(q: Queue, r: Request, owner: Uuid, job: Uuid, o: Outcome)
    requires QueueOk(q) && ProcOk(q, r, Claim(owner, job))
    ensures var (q', pc') := ClaimJob(q, r, owner, job, o); Advances(q, r, Claim(owner, job), q', pc', job)
  {
    ClaimKeeps(q, Slot(owner, KeyOf(r)), job, o);
    if o.Executed() && Claimable(q, JobId(owner, job)) {
      OnlyStake(q, Claim(owner, job), job);
    }
  }

  /** The final write of a workflow, or its failure to write. */
  lemma EndAdvances(q: Queue, r: Request, pc: Pc, tenant: Uuid, job: Uuid, row: Job, o: Outcome)
    requires QueueOk(q) && ProcOk(q, r, pc) && StakeOf(pc) == Executing(job) && Running(q, SlotOf(r, tenant), job)
    requires row.status.FAILED? || (row.status.READY? && tenant != NIL)
    ensures Advances(q, r, pc, if o.Executed() then Put(q, JobId(tenant, job), row) else q, Ended, job)
  {
    EndKeeps(q, SlotOf(r, tenant), JobId(tenant, job), row);
    OnlyStake(q, pc, job);
  }

  /** A stage of a workflow does not touch the job tables, nor the set of tenants. */
  lemma EffectAside(db: Db, slug: string, tenant: Uuid, stage: Stage, hash: string)
    ensures var db' := Effect(db, slug, tenant, stage, hash);
            db'.queue == db.queue && db'.tenants.Keys == db.tenants.Keys
  {
  }

  lemma AfterWork(job: Uuid, tenant: Uuid, stage: Stage)
    ensures var pc' := After(job, tenant, stage);
            (pc'.Work? && pc'.job == job && pc'.tenant == tenant) || pc' == Finish(job, tenant)
  {
  }

  lemma WorkAdvances(db: Db, proc: Proc, o: Outcome, pick: Uuid, hash: string)
    requires QueueOk(db.queue) && ProcOk(db.queue, proc.request, proc.pc) && proc.pc.Work?
    ensures var (db', pc') := StepProc(db, proc, o, pick, hash);
            Advances(db.queue, proc.request, proc.pc, db'.queue, pc', proc.pc.job)
                && db'.tenants.Keys == db.tenants.Keys
  {
    EffectAside(db, proc.request.slug, proc.pc.tenant, proc.pc.stage, hash);
    AfterWork(proc.pc.job, proc.pc.tenant, proc.pc.stage);
  }

  lemma EndsAdvance(db: Db, proc: Proc, o: Outcome, pick: Uuid, hash: string)
    requires QueueOk(db.queue) && ProcOk(db.queue, proc.request, proc.pc)
    requires proc.pc.FailUnderNil? || proc.pc.FailUnderTenant? || proc.pc.Finish?
    ensures var (db', pc') := StepProc(db, proc, o, pick, hash);
            Advances(db.queue, proc.request, proc.pc, db'.queue, pc', proc.pc.job)
  {
    var (q, r) := (db.queue, proc.request);
    var tenant := if proc.pc.FailUnderNil? then NIL else proc.pc.tenant;
    var row := RowOrEmpty(q, JobId(tenant, proc.pc.job));
    var end := match proc.pc
      case FailUnderNil(_, error) => row.(status := FAILED, error := error)
      case FailUnderTenant(_, _, stage) => row.(status := FAILED, error := Label(stage))
      case _ => row.(status := READY, result := ResultOf(r));
    EndAdvances(q, r, proc.pc, tenant, proc.pc.job, end, o);
  }

  lemma EnqueueAdvances(db: Db, proc: Proc, o: Outcome, pick: Uuid, hash: string)
    requires QueueOk(db.queue) && ProcOk(db.queue, proc.request, proc.pc) && Fits(db, proc, pick, hash)
    requires proc.pc.Reserve? || proc.pc.InsertRow? || proc.pc.Claim?
    ensures var (db', pc') := StepProc(db, proc, o, pick, hash);
            && Advances(db.queue, proc.request, proc.pc, db'.queue, pc', if proc.pc.Reserve? then pick else proc.pc.job)
            && db'.tenants.Keys == db.tenants.Keys
  {
    match proc.pc {
      case Reserve(owner) => ReserveAdvances(db.queue, proc.request, owner, o, pick);
      case InsertRow(owner, job) => InsertAdvances(db.queue, proc.request, owner, job, o);
      case Claim(owner, job) => ClaimAdvances(db.queue, proc.request, owner, job, o);
    }
  }

  lemma ReadAdvances(db: Db, proc: Proc, o: Outcome, pick: Uuid, hash: string)
    requires QueueOk(db.queue) && (forall t :: t in db.tenants ==> t != NIL)
    requires ProcOk(db.queue, proc.request, proc.pc) && (proc.pc.Find? || proc.pc.Lookup? || proc.pc.Ended?)
    ensures var (db', pc') := StepProc(db, proc, o, pick, hash);
            db' == db && Advances(db.queue, proc.request, proc.pc, db'.queue, pc', if proc.pc.Lookup? then proc.pc.job
                else NIL)
  {
  }

  /** The job tables after a step, and the job it concerns. */
  lemma StepAdvances(db: Db, proc: Proc, o: Outcome, pick: Uuid, hash: string) returns (job: Uuid)
    requires QueueOk(db.queue) && (forall t :: t in db.tenants ==> t != NIL)
    requires ProcOk(db.queue, proc.request, proc.pc) && Fits(db, proc, pick, hash)
    ensures var (db', pc') := StepProc(db, proc, o, pick, hash);
            Advances(db.queue, proc.request, proc.pc, db'.queue, pc', job) && db'.tenants.Keys == db.tenants.Keys
  {
    if proc.pc.Find? || proc.pc.Lookup? || proc.pc.Ended? {
      job := if proc.pc.Lookup? then proc.pc.job else NIL;
      ReadAdvances(db, proc, o, pick, hash);
    } else if proc.pc.Reserve? || proc.pc.InsertRow? || proc.pc.Claim? {
      job := if proc.pc.Reserve? then pick else proc.pc.job;
      EnqueueAdvances(db, proc, o, pick, hash);
    } else {
      job := proc.pc.job;
      if proc.pc.Work? {
        WorkAdvances(db, proc, o, pick, hash);
      } else {
        EndsAdvance(db, proc, o, pick, hash);
      }
    }
  }

  /** A call with no stake in the job, or in a job nobody wrote to, still knows what it knew. */
  lemma OthersKnow(q: Queue, q': Queue, job: Uuid, r: Request, pc: Pc)
    requires Touches(q, q', job) && ProcOk(q, r, pc)
    requires StakeOf(pc).Nothing? || StakeOf(pc).job != job || q' == q
    ensures ProcOk(q', r, pc)
  {
  }

  lemma NextKeepsInv(s: State, p: nat, o: Outcome, pick: Uuid, hash: string)
    requires Inv(s) && p in s.procs && s.procs[p].alive && Fits(s.db, s.procs[p], pick, hash)
    ensures Inv(Step(s, Next(p, o, pick, hash)))
  {
    var job := StepAdvances(s.db, s.procs[p], o, pick, hash);
    var (db', pc') := StepProc(s.db, s.procs[p], o, pick, hash);
    Assemble(s, p, db', pc', job);
  }

  lemma Assemble(s: State, p: nat, db': Db, pc': Pc, job: Uuid)
    requires Inv(s) && p in s.procs && db'.tenants.Keys == s.db.tenants.Keys
    requires Advances(s.db.queue, s.procs[p].request, s.procs[p].pc, db'.queue, pc', job)
    ensures Inv(State(db', s.procs[p := s.procs[p].(pc := pc')]))
  {
    forall q | q in s.procs && q != p
      ensures ProcOk(db'.queue, s.procs[q].request, s.procs[q].pc)
      ensures StakeOf(s.procs[q].pc) == StakeOf(pc') ==> StakeOf(pc').Nothing?
    {
      assert ProcOk(s.db.queue, s.procs[q].request, s.procs[q].pc);
      OthersKnow(s.db.queue, db'.queue, job, s.procs[q].request, s.procs[q].pc);
    }
  }

  lemma StepKeepsInv(s: State, a: Action)
    requires Inv(s)
    ensures Inv(Step(s, a))
  {
    match a {
      case Next(p, o, pick, hash) =>
        if p in s.procs && s.procs[p].alive && Fits(s.db, s.procs[p], pick, hash) {
          NextKeepsInv(s, p, o, pick, hash);
        }
      case Call(p, r) =>
      case Crash(p) =>
      case Register(tenant, slug) =>
        if Step(s, a) != s {
          MintKeeps(s.db.queue, tenant);
          SameRows(s.db.queue, Step(s, a).db.queue);
          MintedElsewhere(s, tenant);
        }
    }
  }

  lemma MintedElsewhere(s: State, newId: Uuid)
    requires Inv(s)
    ensures var q' := s.db.queue.(minted := s.db.queue.minted + {newId});
            forall p :: p in s.procs ==> ProcOk(q', s.procs[p].request, s.procs[p].pc)
  {
    var q' := s.db.queue.(minted := s.db.queue.minted + {newId});
    forall p | p in s.procs
      ensures ProcOk(q', s.procs[p].request, s.procs[p].pc)
    {
      SameRows(s.db.queue, q');
      assert ProcOk(s.db.queue, s.procs[p].request, s.procs[p].pc);
    }
  }

  lemma {:induction false} RunKeepsInv(run: seq<Action>)
    ensures Inv(Exec(EMPTY, run))
  {
    if run != [] {
      RunKeepsInv(run[..|run| - 1]);
      StepKeepsInv(Exec(EMPTY, run[..|run| - 1]), run[|run| - 1]);
    }
  }
}

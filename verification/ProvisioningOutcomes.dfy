// What the service promises about its jobs, over every run; and what a poller really sees.

module ProvisioningOutcomes {
  import opened Faults
  import opened Options
  import opened Jobs
  import opened JobLives
  import opened Provisioning
  import opened ProvisioningJobs

  // ----- Rows only gain statuses.

  ghost predicate RowGrows(q: Queue, q': Queue, id: JobId) {
    && Wrote(q, id) <= Wrote(q', id)
    && (Wrote(q', id) == Wrote(q, id) ==>
        (id in q'.jobs <==> id in q.jobs) && (id in q.jobs ==> q'.jobs[id] == q.jobs[id]))
  }

  ghost predicate Grows(q: Queue, q': Queue) {
    && q.minted <= q'.minted
    && (forall k :: k in q.slots ==> k in q'.slots && q'.slots[k] == q.slots[k])
    && forall id :: RowGrows(q, q', id)
  }

  lemma PutGrows(q: Queue, id: JobId, row: Job)
    ensures Grows(q, Put(q, id, row))
  {
  }

  lemma EnqueueGrows(db: Db, proc: Proc, o: Outcome, pick: Uuid, hash: string)
    requires proc.pc.Reserve? || proc.pc.InsertRow? || proc.pc.Claim?
    ensures Grows(db.queue, StepProc(db, proc, o, pick, hash).0.queue)
  {
    var q := db.queue;
    if proc.pc.InsertRow? {
      PutGrows(q, JobId(proc.pc.owner, proc.pc.job), Job(Some(KeyOf(proc.request)), QUEUED, "", ""));
    } else if proc.pc.Claim? && Claimable(q, JobId(proc.pc.owner, proc.pc.job)) {
      var id := JobId(proc.pc.owner, proc.pc.job);
      PutGrows(q, id, q.jobs[id].(status := PROVISIONING));
    }
  }

  lemma ProcGrows(db: Db, proc: Proc, o: Outcome, pick: Uuid, hash: string)
    ensures Grows(db.queue, StepProc(db, proc, o, pick, hash).0.queue)
  {
    if proc.pc.Work? {
      EffectAside(db, proc.request.slug, proc.pc.tenant, proc.pc.stage, hash);
    } else if proc.pc.FailUnderNil? || proc.pc.FailUnderTenant? || proc.pc.Finish? {
      EndGrows(db, proc, o, pick, hash);
    } else if proc.pc.Reserve? || proc.pc.InsertRow? || proc.pc.Claim? {
      EnqueueGrows(db, proc, o, pick, hash);
    }
  }

  lemma EndGrows(db: Db, proc: Proc, o: Outcome, pick: Uuid, hash: string)
    requires proc.pc.FailUnderNil? || proc.pc.FailUnderTenant? || proc.pc.Finish?
    ensures Grows(db.queue, StepProc(db, proc, o, pick, hash).0.queue)
  {
    var id := FinishId(proc.pc);
    var row := RowOrEmpty(db.queue, id);
    match proc.pc {
      case FailUnderNil(_, error) => PutGrows(db.queue, id, row.(status := FAILED, error := error));
      case FailUnderTenant(_, _, stage) => PutGrows(db.queue, id, row.(status := FAILED, error := Label(stage)));
      case Finish(_, _) => PutGrows(db.queue, id, row.(status := READY, result := ResultOf(proc.request)));
    }
  }

  lemma StepGrows(s: State, a: Action)
    ensures Grows(s.db.queue, Step(s, a).db.queue)
  {
    if a.Next? && a.p in s.procs {
      ProcGrows(s.db, s.procs[a.p], a.o, a.pick, a.hash);
    }
  }

  lemma GrowsOn(q: Queue, q1: Queue, q2: Queue)
    requires Grows(q, q1) && Grows(q1, q2)
    ensures Grows(q, q2)
  {
    forall id
      ensures RowGrows(q, q2, id)
    {
      assert RowGrows(q, q1, id) && RowGrows(q1, q2, id);
    }
  }

  lemma {:induction false} RunGrows(s: State, more: seq<Action>)
    ensures Grows(s.db.queue, Exec(s, more).db.queue)
  {
    if more != [] {
      RunGrows(s, more[..|more| - 1]);
      StepGrows(Exec(s, more[..|more| - 1]), more[|more| - 1]);
      GrowsOn(s.db.queue, Exec(s, more[..|more| - 1]).db.queue, Exec(s, more).db.queue);
    }
  }

  // ----- The life of a row.

  ghost predicate Terminal(status: JobStatus) {
    status.READY? || status.FAILED?
  }

  /** In every run every job row has lived a prefix of one of four lives: QUEUED, PROVISIONING, READY;
      QUEUED, PROVISIONING, FAILED; or created READY, or created FAILED, by an upsert. Its status is
      the last one written. The row under NIL, the only one a poller reads, is never READY. */
  lemma RowLife(run: seq<Action>, id: JobId)
    ensures var (q, w) := (Exec(EMPTY, run).db.queue, Wrote(Exec(EMPTY, run).db.queue, id));
            && (w <= [QUEUED, PROVISIONING, READY] || w <= [QUEUED, PROVISIONING, FAILED] || w == [READY]
                || w == [FAILED])
            && (id.tenant == NIL ==> w <= [QUEUED, PROVISIONING, FAILED])
            && (id in q.jobs <==> w != []) && (w != [] ==> q.jobs[id].status == w[|w| - 1])
  {
    RunKeepsInv(run);
    var q := Exec(EMPTY, run).db.queue;
    assert RowOk(q, id);
    if Wrote(q, id) != [] {
      assert JobLife(q, q.origin[id.job], id.job);
      assert id == JobId(id.tenant, id.job);
    }
  }

  /** A final status is final: READY is never turned into FAILED, nor FAILED into READY, and no second
      result or error is ever recorded, although Complete and Fail are unconditional. */
  lemma FinalIsFinal(run: seq<Action>, more: seq<Action>, id: JobId)
    requires var q := Exec(EMPTY, run).db.queue; id in q.jobs && Terminal(q.jobs[id].status)
    ensures var (q, q') := (Exec(EMPTY, run).db.queue, Exec(EMPTY, run + more).db.queue);
            id in q'.jobs && q'.jobs[id] == q.jobs[id]
  {
    RowLife(run, id);
    RowLife(run + more, id);
    ExecConcat(EMPTY, run, more);
    RunGrows(Exec(EMPTY, run), more);
    assert RowGrows(Exec(EMPTY, run).db.queue, Exec(EMPTY, run + more).db.queue, id);
  }

  // ----- Enqueue and claim.

  lemma StepReturns(s: State, a: Action)
    requires Inv(s) && forall e :: e in s.db.history.returned ==> Holds(s.db.queue, e.0, e.1)
    ensures forall e :: e in Step(s, a).db.history.returned ==> Holds(Step(s, a).db.queue, e.0, e.1)
  {
    StepGrows(s, a);
    StepKeepsInv(s, a);
    var s' := Step(s, a);
    forall e | e in s'.db.history.returned
      ensures Holds(s'.db.queue, e.0, e.1)
    {
      if e !in s.db.history.returned {
        ReturnedNow(s, a, e);
      }
    }
  }

  /** An answer is given on the way to the claim, and names the job about to be claimed. */
  lemma AnswerNow(db: Db, proc: Proc, o: Outcome, pick: Uuid, hash: string)
    ensures var (db', pc') := StepProc(db, proc, o, pick, hash);
            db'.history.returned == db.history.returned
            || (pc'.Claim? && db'.history.returned ==
                db.history.returned + {(Slot(pc'.owner, KeyOf(proc.request)), pc'.job)})
  {
    if proc.pc.Work? {
      EffectKeepsReturned(db, proc.request.slug, proc.pc.tenant, proc.pc.stage, hash);
    }
  }

  /** What Enqueue returns is the holder of the slot. */
  lemma ReturnedNow(s: State, a: Action, e: (Slot, Uuid))
    requires Inv(Step(s, a)) && e in Step(s, a).db.history.returned && e !in s.db.history.returned
    ensures Holds(Step(s, a).db.queue, e.0, e.1)
  {
    if a.Next? && a.p in s.procs {
      AnswerNow(s.db, s.procs[a.p], a.o, a.pick, a.hash);
      assert a.p in Step(s, a).procs;
    }
  }

  lemma EffectKeepsReturned(db: Db, slug: string, tenant: Uuid, stage: Stage, hash: string)
    ensures Effect(db, slug, tenant, stage, hash).history.returned == db.history.returned
    ensures Effect(db, slug, tenant, stage, hash).history.started == db.history.started
  {
  }

  lemma {:induction false} ReturnedHold(run: seq<Action>)
    ensures forall e :: e in Exec(EMPTY, run).db.history.returned ==> Holds(Exec(EMPTY, run).db.queue, e.0, e.1)
  {
    if run != [] {
      RunKeepsInv(run[..|run| - 1]);
      ReturnedHold(run[..|run| - 1]);
      StepReturns(Exec(EMPTY, run[..|run| - 1]), run[|run| - 1]);
    }
  }

  /** Enqueue is idempotent: all calls that succeed for one partition and key return the same job, even
      the one that gets the id before the winner has inserted the row; that job is claimed at most
      once, and calls for different keys get different jobs. */
  lemma EnqueueIsIdempotent(run: seq<Action>, k1: Slot, j1: Uuid, k2: Slot, j2: Uuid)
    requires (k1, j1) in Exec(EMPTY, run).db.history.returned && (k2, j2) in Exec(EMPTY, run).db.history.returned
    ensures k1 == k2 <==> j1 == j2
    ensures var w := Wrote(Exec(EMPTY, run).db.queue, JobId(k1.owner, j1));
            forall i, l :: 0 <= i < |w| && 0 <= l < |w| && w[i] == w[l] == PROVISIONING ==> i == l
  {
    ReturnedHold(run);
    RunKeepsInv(run);
    var q := Exec(EMPTY, run).db.queue;
    assert q.origin[j1] == k1 && q.origin[j2] == k2;
    RowLife(run, JobId(k1.owner, j1));
  }

  // ----- What a poller sees. GetJob reads the row under NIL.

  /** The row GetJob reads, if any. */
  function Polled(db: Db, job: Uuid): Option<JobStatus> {
    if JobId(NIL, job) in db.queue.jobs then Some(db.queue.jobs[JobId(NIL, job)].status) else None
  }

  /** Once a provisioning workflow has recorded its end under its tenant, the row a poller reads says
      PROVISIONING, and keeps saying so in every continuation. */
  lemma PolledForever(run: seq<Action>, more: seq<Action>, tenant: Uuid, job: Uuid)
    requires var q := Exec(EMPTY, run).db.queue;
             tenant != NIL && JobId(tenant, job) in q.jobs && job in q.origin && UnderNil(q.origin[job].key)
    ensures Polled(Exec(EMPTY, run + more).db, job) == Some(PROVISIONING)
  {
    RunKeepsInv(run + more);
    ExecConcat(EMPTY, run, more);
    RunGrows(Exec(EMPTY, run), more);
    RunKeepsInv(run);
    var (q, q') := (Exec(EMPTY, run).db.queue, Exec(EMPTY, run + more).db.queue);
    assert RowOk(q, JobId(tenant, job)) && RowGrows(q, q', JobId(tenant, job));
    var k := q.origin[job];
    assert q'.slots[k] == job && JobLife(q', k, job) && RowOk(q', JobId(NIL, job));
  }

  /** A deprovisioning job is enqueued under its tenant, and a poller never finds it. */
  lemma DeprovisioningIsNeverFound(run: seq<Action>, job: Uuid)
    requires var q := Exec(EMPTY, run).db.queue; job in q.origin && !UnderNil(q.origin[job].key)
    ensures Polled(Exec(EMPTY, run).db, job) == None
  {
    RunKeepsInv(run);
    var q := Exec(EMPTY, run).db.queue;
    assert JobLife(q, q.origin[job], job) && RowOk(q, JobId(NIL, job));
  }

  /** The row a workflow at this position is about to give its final status. */
  function FinishId(pc: Pc): JobId
    requires pc.FailUnderNil? || pc.FailUnderTenant? || pc.Finish?
  {
    JobId(if pc.FailUnderNil? then NIL else pc.tenant, pc.job)
  }

  /** The row it claimed. */
  function ClaimId(r: Request, pc: Pc): JobId
    requires pc.FailUnderNil? || pc.FailUnderTenant? || pc.Finish?
  {
    JobId(if r.Provision? || pc.FailUnderNil? then NIL else pc.tenant, pc.job)
  }

  /** When a workflow records its end, the row it claimed under shows that end exactly if the claim key
      is the finish key; otherwise it stays at PROVISIONING. For provisioning the keys are equal only
      when the tenant was not found, so the result of a provisioned network never reaches its poller. */
  lemma OutcomeShowsIffKeysAgree(run: seq<Action>, p: nat, o: Outcome, pick: Uuid, hash: string)
    requires var s := Exec(EMPTY, run);
             && p in s.procs && s.procs[p].alive && o.Executed()
             && (s.procs[p].pc.FailUnderNil? || s.procs[p].pc.FailUnderTenant? || s.procs[p].pc.Finish?)
    ensures var s := Exec(EMPTY, run);
            var (claim, finish) := (ClaimId(s.procs[p].request, s.procs[p].pc), FinishId(s.procs[p].pc));
            var q' := Step(s, Next(p, o, pick, hash)).db.queue;
            && finish in q'.jobs && q'.jobs[finish].status == (if s.procs[p].pc.Finish? then READY else FAILED)
            && claim in q'.jobs && (if claim == finish then Terminal(q'.jobs[claim].status)
                else q'.jobs[claim].status == PROVISIONING)
            && (s.procs[p].request.Provision? ==> (claim == finish <==> s.procs[p].pc.FailUnderNil?))
  {
    RunKeepsInv(run);
    var s := Exec(EMPTY, run);
    assert ProcOk(s.db.queue, s.procs[p].request, s.procs[p].pc);
    assert RowOk(s.db.queue, ClaimId(s.procs[p].request, s.procs[p].pc));
  }

  // ----- The gap between the two inserts of Enqueue.

  /** The slot has a job, no row of it exists, and nobody alive is about to insert one. */
  ghost predicate Stuck(s: State, k: Slot, job: Uuid) {
    && Unwritten(s.db.queue, k, job)
    && forall p :: p in s.procs && s.procs[p].alive && s.procs[p].pc.InsertRow? ==> s.procs[p].pc.job != job
  }

  lemma StepKeepsStuck(s: State, a: Action, k: Slot, job: Uuid)
    requires Inv(s) && Stuck(s, k, job)
    ensures Stuck(Step(s, a), k, job)
  {
    StepGrows(s, a);
    if a.Next? && a.p in s.procs && s.procs[a.p].alive && Fits(s.db, s.procs[a.p], a.pick, a.hash) {
      var proc := s.procs[a.p];
      var touched := StepAdvances(s.db, proc, a.o, a.pick, a.hash);
      assert ProcOk(s.db.queue, proc.request, proc.pc);
      if proc.pc.Claim? && proc.pc.job == job {
        assert RowOk(s.db.queue, JobId(proc.pc.owner, job));
      } else if proc.pc.Work? {
        EffectAside(s.db, proc.request.slug, proc.pc.tenant, proc.pc.stage, a.hash);
      }
      NotWrittenBy(s, a, k, job);
    }
  }

  lemma NotWrittenBy(s: State, a: Action, k: Slot, job: Uuid)
    requires Inv(s) && Stuck(s, k, job) && a.Next? && a.p in s.procs && s.procs[a.p].alive
    requires Fits(s.db, s.procs[a.p], a.pick, a.hash)
    ensures forall t :: Wrote(Step(s, a).db.queue, JobId(t, job)) == []
    ensures Step(s, a).procs[a.p].pc.InsertRow? ==> Step(s, a).procs[a.p].pc.job != job
  {
    var proc := s.procs[a.p];
    assert ProcOk(s.db.queue, proc.request, proc.pc);
    assert s.db.queue.origin[job] == k && job in s.db.queue.minted;
    match proc.pc {
      case Work(j, t, stage) =>
        EffectAside(s.db, proc.request.slug, t, stage, a.hash);
        AfterWork(j, t, stage);
      case Claim(owner, j) => assert RowOk(s.db.queue, JobId(owner, j));
      case _ =>
    }
  }

  lemma {:induction false} StaysStuck(run: seq<Action>, more: seq<Action>, k: Slot, job: Uuid)
    requires Stuck(Exec(EMPTY, run), k, job)
    ensures Stuck(Exec(EMPTY, run + more), k, job)
  {
    if more == [] {
      assert run + more == run;
    } else {
      var n := |more| - 1;
      StaysStuck(run, more[..n], k, job);
      RunKeepsInv(run + more[..n]);
      StepKeepsStuck(Exec(EMPTY, run + more[..n]), more[n], k, job);
      assert (run + more)[..|run + more| - 1] == run + more[..n];
    }
  }

  /** If the call that won a slot dies between its two inserts, no workflow for that request ever
      starts: in every continuation, every later call is handed the same job, and the job has no row. */
  lemma StuckForever(run: seq<Action>, more: seq<Action>, k: Slot, job: Uuid)
    requires Stuck(Exec(EMPTY, run), k, job)
    ensures Stuck(Exec(EMPTY, run + more), k, job)
    ensures forall j :: (k, j) in Exec(EMPTY, run + more).db.history.returned ==> j == job
    ensures Polled(Exec(EMPTY, run + more).db, job) == None
  {
    StaysStuck(run, more, k, job);
    ReturnedHold(run + more);
    RunKeepsInv(run + more);
    assert RowOk(Exec(EMPTY, run + more).db.queue, JobId(NIL, job));
  }

  /** Some call can still insert the row of the job. */
  lemma InsertMakesRow(run: seq<Action>, p: nat, job: Uuid)
    requires var s := Exec(EMPTY, run);
             p in s.procs && s.procs[p].alive && s.procs[p].pc.InsertRow? && s.procs[p].pc.job == job
    ensures exists more, t :: JobId(t, job) in Exec(EMPTY, run + more).db.queue.jobs
  {
    var s := Exec(EMPTY, run);
    var a := Next(p, Success, NIL, "");
    assert (run + [a])[..|run + [a]| - 1] == run;
    assert JobId(s.procs[p].pc.owner, job) in Exec(EMPTY, run + [a]).db.queue.jobs;
  }

  /** Exactly when a job never gets a row: while its slot is held, no row of it exists in any continuation
      if and only if none exists now and no live call is about to insert one. */
  lemma StuckIff(run: seq<Action>, k: Slot, job: Uuid)
    requires Holds(Exec(EMPTY, run).db.queue, k, job)
    ensures Stuck(Exec(EMPTY, run), k, job) <==>
            forall more, t :: JobId(t, job) !in Exec(EMPTY, run + more).db.queue.jobs
  {
    var s := Exec(EMPTY, run);
    if Stuck(s, k, job) {
      forall more, t
        ensures JobId(t, job) !in Exec(EMPTY, run + more).db.queue.jobs
      {
        StuckForever(run, more, k, job);
        RunKeepsInv(run + more);
        assert RowOk(Exec(EMPTY, run + more).db.queue, JobId(t, job));
      }
    } else if Unwritten(s.db.queue, k, job) {
      var p :| p in s.procs && s.procs[p].alive && s.procs[p].pc.InsertRow? && s.procs[p].pc.job == job;
      InsertMakesRow(run, p, job);
    } else {
      var t :| Wrote(s.db.queue, JobId(t, job)) != [];
      RunKeepsInv(run);
      assert RowOk(s.db.queue, JobId(t, job));
      assert run + [] == run;
      assert JobId(t, job) in Exec(EMPTY, run + []).db.queue.jobs;
    }
  }

  // ----- What any poller can be told.

  /** Some run leads to these tables. */
  ghost predicate Reached(db: Db) {
    exists run :: Exec(EMPTY, run).db == db
  }

  /** No poller is ever told READY, nor anything about a deprovisioning job. */
  lemma PollerIsTold(db: Db, job: Uuid)
    requires Reached(db)
    ensures Polled(db, job) != Some(READY)
    ensures Polled(db, job).Some? ==>
              var w := Wrote(db.queue, JobId(NIL, job)); w != [] && Polled(db, job) == Some(w[|w| - 1])
    ensures job in db.queue.origin && !UnderNil(db.queue.origin[job].key) ==> Polled(db, job) == None
  {
    var run :| Exec(EMPTY, run).db == db;
    RowLife(run, JobId(NIL, job));
    if job in db.queue.origin && !UnderNil(db.queue.origin[job].key) {
      DeprovisioningIsNeverFound(run, job);
    }
  }
}

// In every run a workflow that has won its claim and ended has recorded how: READY if all its stages went
// well, FAILED if one did not (services/provisioner/service/service.go:117-213, 258-264).

module ProvisioningEndings {
  import opened Faults
  import opened Jobs
  import opened Provisioning
  import opened ProvisioningJobs
  import opened ProvisioningOutcomes

  // ----- What happens at one step of a run.

  /** The tables and calls before step k. */
  ghost function Before(run: seq<Action>, k: nat): State
    requires k <= |run|
  {
    Exec(EMPTY, run[..k])
  }

  lemma BeforeNext(run: seq<Action>, k: nat)
    requires k < |run|
    ensures Before(run, k + 1) == Step(Before(run, k), run[k])
  {
    assert run[..k + 1][..k] == run[..k];
  }

  /** At step k call p executes its next statement. */
  ghost predicate Moves(run: seq<Action>, k: nat, p: nat) {
    && k < |run| && run[k].Next? && run[k].p == p
    && var s := Before(run, k);
       p in s.procs && s.procs[p].alive && Fits(s.db, s.procs[p], run[k].pick, run[k].hash)
  }

  /** At step k call p wins the claim of the job. */
  ghost predicate WinsAt(run: seq<Action>, k: nat, p: nat, job: Uuid) {
    && Moves(run, k, p) && run[k].o.Success?
    && var s := Before(run, k);
       s.procs[p].pc.Claim? && s.procs[p].pc.job == job && Claimable(s.db.queue, JobId(s.procs[p].pc.owner, job))
  }

  /** At step k call p, looking its tenant up or at one of its stages, sees an error or finds no tenant. */
  ghost predicate TroubleAt(run: seq<Action>, k: nat, p: nat) {
    && Moves(run, k, p)
    && var s := Before(run, k);
       || (s.procs[p].pc.Work? && run[k].o.Reported())
       || (s.procs[p].pc.Lookup? && (run[k].o.Reported() || NoTenant(s.db, s.procs[p].request.slug)))
  }

  ghost predicate TroubleBetween(run: seq<Action>, c: nat, n: nat, p: nat) {
    exists m: nat :: c < m < n && TroubleAt(run, m, p)
  }

  /** Step n is the last of call p. */
  ghost predicate EndsAt(run: seq<Action>, n: nat, p: nat) {
    && Moves(run, n, p) && !Before(run, n).procs[p].pc.Ended?
    && p in Before(run, n + 1).procs && Before(run, n + 1).procs[p].pc.Ended?
  }

  // ----- Between the claim and the end.

  /** Where a call past its claim stands: at its stages as long as there was no trouble, about to record it
      as soon as there was. */
  ghost predicate Underway(run: seq<Action>, c: nat, k: nat, p: nat, job: Uuid)
    requires k <= |run|
  {
    && p in Before(run, k).procs
    && var pc := Before(run, k).procs[p].pc;
       pc.Ended? || (StakeOf(pc) == Executing(job)
                     && ((pc.FailUnderNil? || pc.FailUnderTenant?) <==> TroubleBetween(run, c, k, p)))
  }

  lemma TroubleLater(run: seq<Action>, c: nat, k: nat, p: nat)
    requires c < k < |run|
    ensures TroubleBetween(run, c, k + 1, p) <==> TroubleBetween(run, c, k, p) || TroubleAt(run, k, p)
  {
    if TroubleBetween(run, c, k + 1, p) {
      var m: nat :| c < m < k + 1 && TroubleAt(run, m, p);
      assert m == k || m < k;
    }
  }

  /** One move of a call past its claim. */
  lemma MovesOn(s: State, p: nat, o: Outcome, pick: Uuid, hash: string, job: Uuid)
    requires p in s.procs && Fits(s.db, s.procs[p], pick, hash) && StakeOf(s.procs[p].pc) == Executing(job)
    ensures var (pc, pc') := (s.procs[p].pc, StepProc(s.db, s.procs[p], o, pick, hash).1);
            if pc.FailUnderNil? || pc.FailUnderTenant? || pc.Finish? then pc'.Ended?
            else
              && StakeOf(pc') == Executing(job)
              && ((pc'.FailUnderNil? || pc'.FailUnderTenant?) <==>
                  o.Reported() || (pc.Lookup? && NoTenant(s.db, s.procs[p].request.slug)))
  {
    if s.procs[p].pc.Work? {
      AfterWork(s.procs[p].pc.job, s.procs[p].pc.tenant, s.procs[p].pc.stage);
    }
  }

  lemma StaysUnderway(run: seq<Action>, c: nat, k: nat, p: nat, job: Uuid)
    requires c < k < |run| && Underway(run, c, k, p, job)
    ensures Underway(run, c, k + 1, p, job)
  {
    var s := Before(run, k);
    BeforeNext(run, k);
    TroubleLater(run, c, k, p);
    if Moves(run, k, p) && !s.procs[p].pc.Ended? {
      MovesOn(s, p, run[k].o, run[k].pick, run[k].hash, job);
    }
  }

  lemma {:induction false} IsUnderway(run: seq<Action>, c: nat, k: nat, p: nat, job: Uuid)
    requires c < k <= |run| && WinsAt(run, c, p, job)
    ensures Underway(run, c, k, p, job)
  {
    if k == c + 1 {
      BeforeNext(run, c);
      assert !TroubleBetween(run, c, k, p);
    } else {
      IsUnderway(run, c, k - 1, p, job);
      StaysUnderway(run, c, k - 1, p, job);
    }
  }

  // ----- The end.

  ghost predicate RowSays(q: Queue, job: Uuid, status: JobStatus) {
    exists t :: JobId(t, job) in q.jobs && q.jobs[JobId(t, job)].status == status
  }

  /** The last step of a workflow writes its outcome. */
  lemma EndWrites(run: seq<Action>, n: nat, p: nat, job: Uuid)
    requires EndsAt(run, n, p) && StakeOf(Before(run, n).procs[p].pc) == Executing(job) && run[n].o.Executed()
    ensures var pc := Before(run, n).procs[p].pc;
            && (pc.Finish? || pc.FailUnderNil? || pc.FailUnderTenant?)
            && FinishId(pc).job == job && FinishId(pc) in Before(run, n + 1).db.queue.jobs
            && Before(run, n + 1).db.queue.jobs[FinishId(pc)].status == if pc.Finish? then READY else FAILED
  {
    var s := Before(run, n);
    BeforeNext(run, n);
    MovesOn(s, p, run[n].o, run[n].pick, run[n].hash, job);
    OutcomeShowsIffKeysAgree(run[..n], p, run[n].o, run[n].pick, run[n].hash);
  }

  /** And nothing is written to that row afterwards. */
  lemma EndStays(run: seq<Action>, n: nat, p: nat, job: Uuid)
    requires EndsAt(run, n, p) && StakeOf(Before(run, n).procs[p].pc) == Executing(job) && run[n].o.Executed()
    ensures RowSays(Exec(EMPTY, run).db.queue, job, if Before(run, n).procs[p].pc.Finish? then READY else FAILED)
  {
    EndWrites(run, n, p, job);
    var id := FinishId(Before(run, n).procs[p].pc);
    FinalIsFinal(run[..n + 1], run[n + 1..], id);
    assert run[..n + 1] + run[n + 1..] == run;
    assert id == JobId(id.tenant, job);
  }

  lemma EndIsNoStage(run: seq<Action>, n: nat, p: nat, job: Uuid)
    requires EndsAt(run, n, p) && StakeOf(Before(run, n).procs[p].pc) == Executing(job)
    ensures !TroubleAt(run, n, p)
    ensures var pc := Before(run, n).procs[p].pc; pc.Finish? || pc.FailUnderNil? || pc.FailUnderTenant?
  {
    BeforeNext(run, n);
    MovesOn(Before(run, n), p, run[n].o, run[n].pick, run[n].hash, job);
  }

  /** In every run: a failed stage or lookup is never the last thing a workflow does, and when its last write
      is executed, a row of its job says from then on FAILED if there was such trouble, and READY if not. */
  lemma EndIsRecorded(run: seq<Action>, c: nat, n: nat, p: nat, job: Uuid)
    requires c < n && WinsAt(run, c, p, job) && EndsAt(run, n, p)
    ensures !TroubleAt(run, n, p)
    ensures run[n].o.Executed() ==>
              RowSays(Exec(EMPTY, run).db.queue, job, if TroubleBetween(run, c, n, p) then FAILED else READY)
  {
    IsUnderway(run, c, n, p, job);
    EndIsNoStage(run, n, p, job);
    if run[n].o.Executed() {
      EndStays(run, n, p, job);
    }
  }
}

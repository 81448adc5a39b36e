// Two runs the protocol does allow: a teardown that overtakes a provisioning workflow, and a call
// that dies between the two inserts of Enqueue.

module ProvisioningRace {
  import opened Faults
  import opened Options
  import opened Jobs
  import opened Provisioning
  import opened ProvisioningOutcomes
  import opened ProvisioningTenants

  ghost predicate Reachable(s: State) {
    exists run :: Exec(EMPTY, run) == s
  }

  lemma Go(s: State, a: Action)
    requires Reachable(s)
    ensures Reachable(Step(s, a))
  {
    var run :| Exec(EMPTY, run) == s;
    var longer := run + [a];
    assert longer[..|longer| - 1] == run;
    assert Exec(EMPTY, longer) == Step(s, a);
  }

  /** A workflow executes its next stage. */
  lemma GoStage(s: State, p: nat, hash: string) returns (s': State)
    requires Reachable(s) && p in s.procs && s.procs[p].alive && s.procs[p].pc.Work?
    requires s.procs[p].pc.stage.StoreApiKey? ==> hash !in s.db.keys
    ensures Reachable(s')
    ensures var pc := s.procs[p].pc;
            && s'.procs == s.procs[p := s.procs[p].(pc := After(pc.job, pc.tenant, pc.stage))]
            && s'.db == Effect(s.db, s.procs[p].request.slug, pc.tenant, pc.stage, hash)
  {
    s' := Step(s, Next(p, Success, NIL, hash));
    Go(s, Next(p, Success, NIL, hash));
  }

  /** A call wins the slot of a new request. */
  lemma GoReserve(s: State, p: nat, job: Uuid) returns (s': State)
    requires Reachable(s) && p in s.procs && s.procs[p].alive && s.procs[p].pc.Reserve?
    requires job != NIL && job !in s.db.queue.minted
            && Slot(s.procs[p].pc.owner, KeyOf(s.procs[p].request)) !in s.db.queue.slots
    ensures Reachable(s') && SameTenants(s.db, s'.db)
    ensures var proc := s.procs[p];
            && s'.procs == s.procs[p := proc.(pc := InsertRow(proc.pc.owner, job))]
            && s'.db.queue.minted == s.db.queue.minted + {job}
            && s'.db.queue.slots == s.db.queue.slots[Slot(proc.pc.owner, KeyOf(proc.request)) := job]
  {
    s' := Step(s, Next(p, Success, job, ""));
    Go(s, Next(p, Success, job, ""));
  }

  /** A call inserts its job row and wins the claim. */
  lemma GoClaim(s: State, p: nat) returns (s': State)
    requires Reachable(s) && p in s.procs && s.procs[p].alive && s.procs[p].pc.InsertRow?
    ensures Reachable(s') && SameTenants(s.db, s'.db)
    ensures var (r, owner, job) := (s.procs[p].request, s.procs[p].pc.owner, s.procs[p].pc.job);
            && s'.procs == s.procs[p := Proc(r, if r.Provision? then Lookup(job)
                else Work(job, owner, RevokeKubeconfig), true)]
            && s'.db.queue.minted == s.db.queue.minted && s'.db.queue.slots == s.db.queue.slots
  {
    var next := Next(p, Success, NIL, "");
    var s1 := Step(s, next);
    Go(s, next);
    assert Claimable(s1.db.queue, JobId(s.procs[p].pc.owner, s.procs[p].pc.job));
    Go(s1, next);
    s' := Step(s1, next);
  }

  /** A provisioning workflow has done everything but the activation. */
  ghost predicate AboutToActivate(s: State) {
    && Reachable(s) && HasSlug(s.db, 1, "a") && StatusesOf(s.db, 1) == []
    && s.db.queue.minted == {1, 2} && s.db.queue.slots.Keys == {Slot(NIL, ProvisionVpc("a"))}
    && s.procs == map[1 := Proc(Provision("a"), Work(2, 1, SetActive), true)]
  }

  lemma Begins() returns (s: State)
    ensures Reachable(s) && HasSlug(s.db, 1, "a") && StatusesOf(s.db, 1) == [] && s.db.keys == map[]
    ensures s.db.queue.minted == {1, 2} && s.db.queue.slots.Keys == {Slot(NIL, ProvisionVpc("a"))}
    ensures s.procs == map[1 := Proc(Provision("a"), Work(2, 1, MakeNamespace), true)]
  {
    assert Exec(EMPTY, []) == EMPTY;
    Go(EMPTY, Register(1, "a"));
    var s1 := Step(EMPTY, Register(1, "a"));
    Go(s1, Call(1, Provision("a")));
    var s2 := Step(s1, Call(1, Provision("a")));
    var s3 := GoReserve(s2, 1, 2);
    s3 := GoClaim(s3, 1);
    assert HasSlug(s3.db, 1, "a");
    Go(s3, Next(1, Success, 1, ""));
    s := Step(s3, Next(1, Success, 1, ""));
  }

  lemma Builds() returns (s: State)
    ensures AboutToActivate(s)
  {
    s := Begins();
    s := GoStage(s, 1, "");
    s := GoStage(s, 1, "");
    s := GoStage(s, 1, "");
    s := GoStage(s, 1, "");
    s := GoStage(s, 1, "");
    s := GoStage(s, 1, "");
    s := GoStage(s, 1, "");
  }

  /** A teardown has been called for, and has claimed its job. */
  lemma TeardownBegins() returns (s: State)
    ensures Reachable(s) && HasSlug(s.db, 1, "a") && StatusesOf(s.db, 1) == []
    ensures s.procs == map[1 := Proc(Provision("a"), Work(2, 1, SetActive), true),
                           2 := Proc(Deprovision("a", "2026-01-01"), Work(3, 1, RevokeKubeconfig), true)]
  {
    s := Builds();
    var r := Deprovision("a", "2026-01-01");
    Go(s, Call(2, r));
    s := Step(s, Call(2, r));
    Go(s, Next(2, Success, 1, ""));
    s := Step(s, Next(2, Success, 1, ""));
    s := GoReserve(s, 2, 3);
    s := GoClaim(s, 2);
  }

  /** The teardown runs to its end. */
  lemma TearsDown() returns (s: State)
    ensures Reachable(s) && HasSlug(s.db, 1, "a") && StatusesOf(s.db, 1) == [DELETED] && ("a", VCluster) !in s.db.things
    ensures 1 in s.procs && s.procs[1] == Proc(Provision("a"), Work(2, 1, SetActive), true)
  {
    s := TeardownBegins();
    s := GoStage(s, 2, "");
    s := GoStage(s, 2, "");
    s := GoStage(s, 2, "");
  }

  /** Deprovisioning is needed as an assumption where it is assumed: a teardown that completes while
      the provisioning workflow is about to activate leaves the tenant ACTIVE, after it was DELETED,
      and without its vCluster. No statement failed. */
  lemma ActiveWithoutVCluster()
    ensures exists run ::
              var db := Exec(EMPTY, run).db;
              && 1 in db.tenants && db.tenants[1].status == ACTIVE && StatusesOf(db, 1) == [DELETED, ACTIVE]
              && (db.tenants[1].slug, VCluster) !in db.things
  {
    var s := TearsDown();
    s := GoStage(s, 1, "");
    var run :| Exec(EMPTY, run) == s;
    assert Exec(EMPTY, run).db.tenants[1].status == ACTIVE;
  }

  /** The promise that a polled job shows its outcome is broken without any fault: a run ends with the job
      READY under its tenant while a poller is told PROVISIONING (and, by PolledForever, always will). */
  lemma PollerMissesReady()
    ensures exists run, tenant, job ::
              var db := Exec(EMPTY, run).db;
              && JobId(tenant, job) in db.queue.jobs && db.queue.jobs[JobId(tenant, job)].status == READY
              && Polled(db, job) == Some(PROVISIONING)
  {
    var s := Builds();
    s := GoStage(s, 1, "");
    var run :| Exec(EMPTY, run) == s;
    OutcomeShowsIffKeysAgree(run, 1, Success, NIL, "");
    var a := Next(1, Success, NIL, "");
    var longer := run + [a];
    assert longer[..|longer| - 1] == run;
    assert Exec(EMPTY, longer) == Step(s, a);
    assert Exec(EMPTY, longer).db.queue.jobs[JobId(1, 2)].status == READY;
  }

  /** The gap between the two inserts of Enqueue is reached by a call that wins the slot and dies. */
  lemma StuckIsReachable(slug: string)
    ensures exists run, job :: Stuck(Exec(EMPTY, run), Slot(NIL, ProvisionVpc(slug)), job)
  {
    assert Exec(EMPTY, []) == EMPTY;
    Go(EMPTY, Call(1, Provision(slug)));
    var s1 := Step(EMPTY, Call(1, Provision(slug)));
    Go(s1, Next(1, Success, 7, ""));
    var s2 := Step(s1, Next(1, Success, 7, ""));
    Go(s2, Crash(1));
    var s3 := Step(s2, Crash(1));
    var run :| Exec(EMPTY, run) == s3;
    assert Stuck(Exec(EMPTY, run), Slot(NIL, ProvisionVpc(slug)), 7);
  }
}

// A call of Provision or Deprovision that nobody interrupts: what it does to the tables as one function,
// and that it is a run of the machine.

module ProvisionAlone {
  import opened Faults
  import opened Jobs
  import opened NewNames
  import opened Provisioning
  import opened ProvisioningJobs
  import opened ProvisioningOutcomes

  /** How many steps are left at most. */
  function Remaining(pc: Pc): nat {
    match pc
    case Find => 17
    case Reserve(_) => 16
    case InsertRow(_, _) => 15
    case Claim(_, _) => 14
    case Lookup(_) => 13
    case Work(_, _, stage) =>
      (match stage
       case MakeNamespace => 12
       case ApplyIsolation => 11
       case ApplyAccess => 10
       case MakeVCluster => 9
       case StoreKubeconfig => 8
       case StoreApiKey => 7
       case SetCidrs => 6
       case SetActive => 5
       case RevokeKubeconfig => 5
       case DeleteVCluster => 4
       case SetDeleted => 3)
    case Finish(_, _) => 1
    case FailUnderNil(_, _) => 1
    case FailUnderTenant(_, _, _) => 1
    case Ended => 0
  }

  /** What a call generates or finds on its way: its job, its tenant, the hash of its API key. */
  datatype Choices = Choices(newId: Uuid, found: Uuid, hash: string)

  function PickAt(pc: Pc, c: Choices): Uuid {
    if pc.Reserve? then c.newId else c.found
  }

  /** The state and the rest of the script after a call has run alone from pc to its end. */
  ghost function Alone(db: Db, r: Request, pc: Pc, script: Script, c: Choices): (Db, Script)
    decreases Remaining(pc)
  {
    if pc.Ended? then (db, script)
    else
      var (db', pc') := StepProc(db, Proc(r, pc, true), Faults.Next(script), PickAt(pc, c), c.hash);
      Alone(db', r, pc', Rest(script), c)
  }

  lemma AloneStep(db: Db, r: Request, pc: Pc, script: Script, c: Choices)
    requires !pc.Ended?
    ensures var (db', pc') := StepProc(db, Proc(r, pc, true), Faults.Next(script), PickAt(pc, c), c.hash);
            Alone(db, r, pc, script, c) == Alone(db', r, pc', Rest(script), c)
  {
  }

  /** The lookup of a tenant by slug can return this row; with no row, any value stands for nothing. */
  ghost predicate Finds(db: Db, slug: string, found: Uuid) {
    HasSlug(db, found, slug) || NoTenant(db, slug)
  }

  /** The one or two steps of an enqueue, and where they leave the call. */
  ghost function Enqueued(db: Db, r: Request, owner: Uuid, script: Script, newId: Uuid): (Db, Script, Pc) {
    var (db1, pc1) := StepProc(db, Proc(r, Reserve(owner), true), Faults.Next(script), newId, "");
    if !pc1.InsertRow? then (db1, Rest(script), pc1)
    else
      var (db2, pc2) := StepProc(db1, Proc(r, pc1, true), Faults.Next(Rest(script)), newId, "");
      (db2, Rest(Rest(script)), pc2)
  }

  lemma EnqueueAlone(db: Db, r: Request, owner: Uuid, script: Script, c: Choices)
    ensures var (db', script', pc') := Enqueued(db, r, owner, script, c.newId);
            Alone(db, r, Reserve(owner), script, c) == Alone(db', r, pc', script', c)
  {
    AloneStep(db, r, Reserve(owner), script, c);
    var (db1, pc1) := StepProc(db, Proc(r, Reserve(owner), true), Faults.Next(script), c.newId, c.hash);
    if pc1.InsertRow? {
      AloneStep(db1, r, pc1, Rest(script), c);
    }
  }

  /** No answer is taken back. */
  lemma {:induction false} AloneKeepsAnswers(db: Db, r: Request, pc: Pc, script: Script, c: Choices)
    ensures db.history.returned <= Alone(db, r, pc, script, c).0.history.returned
    decreases Remaining(pc)
  {
    if !pc.Ended? {
      var (db', pc') := StepProc(db, Proc(r, pc, true), Faults.Next(script), PickAt(pc, c), c.hash);
      AnswerNow(db, Proc(r, pc, true), Faults.Next(script), PickAt(pc, c), c.hash);
      AloneStep(db, r, pc, script, c);
      AloneKeepsAnswers(db', r, pc', Rest(script), c);
    }
  }

  // ----- It is a run.

  /** Whether every pick of a call that runs alone is one its statements can produce. */
  ghost predicate Plausible(db: Db, r: Request, pc: Pc, script: Script, c: Choices)
    decreases Remaining(pc)
  {
    pc.Ended? ||
    (&& Fits(db, Proc(r, pc, true), PickAt(pc, c), c.hash)
     && var (db', pc') := StepProc(db, Proc(r, pc, true), Faults.Next(script), PickAt(pc, c), c.hash);
        Plausible(db', r, pc', Rest(script), c))
  }

  function NextOf(s: State, p: nat, script: Script, c: Choices): Action
    requires p in s.procs
  {
    Action.Next(p, Faults.Next(script), PickAt(s.procs[p].pc, c), c.hash)
  }

  ghost predicate ByItself(s: State, p: nat, script: Script, c: Choices, run: seq<Action>)
    requires p in s.procs
  {
    && (forall a :: a in run ==> a.Next? && a.p == p)
    && Exec(s, run) == State(Alone(s.db, s.procs[p].request, s.procs[p].pc, script, c).0,
        s.procs[p := s.procs[p].(pc := Ended)])
  }

  /** What a call does alone is a run of the machine in which only its own process moves. */
  lemma {:induction false} AloneIsARun(s: State, p: nat, script: Script, c: Choices)
    requires p in s.procs && s.procs[p].alive && Plausible(s.db, s.procs[p].request, s.procs[p].pc, script, c)
    ensures exists run :: ByItself(s, p, script, c, run)
    decreases Remaining(s.procs[p].pc)
  {
    var proc := s.procs[p];
    if proc.pc.Ended? {
      assert s.procs[p := proc.(pc := Ended)] == s.procs;
      assert ByItself(s, p, script, c, []);
    } else {
      assert proc == Proc(proc.request, proc.pc, true);
      var s1 := Step(s, NextOf(s, p, script, c));
      AloneIsARun(s1, p, Rest(script), c);
      var rest :| ByItself(s1, p, Rest(script), c, rest);
      FirstOfARun(s, p, script, c, rest);
    }
  }

  lemma FirstOfARun(s: State, p: nat, script: Script, c: Choices, rest: seq<Action>)
    requires p in s.procs && s.procs[p].alive && !s.procs[p].pc.Ended?
    requires Fits(s.db, s.procs[p], PickAt(s.procs[p].pc, c), c.hash)
    requires var s1 := Step(s, NextOf(s, p, script, c));
             p in s1.procs && ByItself(s1, p, Rest(script), c, rest)
    ensures ByItself(s, p, script, c, [NextOf(s, p, script, c)] + rest)
  {
    var proc := s.procs[p];
    var first := NextOf(s, p, script, c);
    var s1 := Step(s, first);
    assert proc == Proc(proc.request, proc.pc, true);
    AloneStep(s.db, proc.request, proc.pc, script, c);
    ExecConcat(s, [first], rest);
    assert Exec(s, [first]) == s1 by {
      assert [first][..0] == [];
    }
    assert s1.procs[p := s1.procs[p].(pc := Ended)] == s.procs[p := proc.(pc := Ended)];
  }

  // ----- The picks of the program are plausible.

  /** The generated ids and the hash of the generated key are new. */
  ghost predicate New(db: Db, c: Choices) {
    c.newId != NIL && c.newId !in db.queue.minted && c.hash !in db.keys
  }

  predicate KeyAhead(stage: Stage) {
    stage in {MakeNamespace, ApplyIsolation, ApplyAccess, MakeVCluster, StoreKubeconfig, StoreApiKey}
  }

  lemma KeyStaysAhead(db: Db, slug: string, job: Uuid, tenant: Uuid, stage: Stage, hash: string)
    requires KeyAhead(stage) && hash !in db.keys
    ensures var pc' := After(job, tenant, stage);
            pc'.Work? && (KeyAhead(pc'.stage) ==> hash !in Effect(db, slug, tenant, stage, hash).keys)
  {
  }

  lemma NoKeyAhead(job: Uuid, tenant: Uuid, stage: Stage)
    requires !KeyAhead(stage)
    ensures var pc' := After(job, tenant, stage); pc'.Work? ==> !KeyAhead(pc'.stage)
  {
  }

  lemma {:induction false} WorkIsPlausible(db: Db, r: Request, job: Uuid, tenant: Uuid, stage: Stage, script: Script,
                                           c: Choices)
    requires KeyAhead(stage) ==> c.hash !in db.keys
    ensures Plausible(db, r, Work(job, tenant, stage), script, c)
    decreases Remaining(Work(job, tenant, stage))
  {
    var pc := Work(job, tenant, stage);
    var (db', pc') := StepProc(db, Proc(r, pc, true), Faults.Next(script), PickAt(pc, c), c.hash);
    if pc'.FailUnderTenant? {
      EndIsPlausible(db', r, pc', Rest(script), c);
    } else {
      AfterWork(job, tenant, stage);
      if pc'.Finish? {
        EndIsPlausible(db', r, pc', Rest(script), c);
      } else {
        if KeyAhead(stage) {
          KeyStaysAhead(db, r.slug, job, tenant, stage, c.hash);
        } else {
          NoKeyAhead(job, tenant, stage);
        }
        WorkIsPlausible(db', r, job, tenant, pc'.stage, Rest(script), c);
      }
    }
  }

  lemma EndIsPlausible(db: Db, r: Request, pc: Pc, script: Script, c: Choices)
    requires pc.FailUnderNil? || pc.FailUnderTenant? || pc.Finish? || pc.Ended?
    ensures Plausible(db, r, pc, script, c)
  {
  }

  lemma LookupIsPlausible(db: Db, r: Request, job: Uuid, script: Script, c: Choices)
    requires Finds(db, r.slug, c.found) && c.hash !in db.keys
    ensures Plausible(db, r, Lookup(job), script, c)
  {
    var pc := Lookup(job);
    var (db', pc') := StepProc(db, Proc(r, pc, true), Faults.Next(script), PickAt(pc, c), c.hash);
    if pc'.Work? {
      WorkIsPlausible(db', r, job, c.found, MakeNamespace, Rest(script), c);
    } else {
      EndIsPlausible(db', r, pc', Rest(script), c);
    }
  }

  lemma ClaimIsPlausible(db: Db, r: Request, owner: Uuid, job: Uuid, script: Script, c: Choices)
    requires r.Provision? ==> Finds(db, r.slug, c.found) && c.hash !in db.keys
    ensures Plausible(db, r, Claim(owner, job), script, c)
  {
    var pc := Claim(owner, job);
    var (db', pc') := StepProc(db, Proc(r, pc, true), Faults.Next(script), PickAt(pc, c), c.hash);
    if pc'.Lookup? {
      LookupIsPlausible(db', r, job, Rest(script), c);
    } else if pc'.Work? {
      WorkIsPlausible(db', r, job, owner, RevokeKubeconfig, Rest(script), c);
    } else {
      EndIsPlausible(db', r, pc', Rest(script), c);
    }
  }

  lemma InsertIsPlausible(db: Db, r: Request, owner: Uuid, job: Uuid, script: Script, c: Choices)
    requires r.Provision? ==> Finds(db, r.slug, c.found) && c.hash !in db.keys
    ensures Plausible(db, r, InsertRow(owner, job), script, c)
  {
    var pc := InsertRow(owner, job);
    var (db', pc') := StepProc(db, Proc(r, pc, true), Faults.Next(script), PickAt(pc, c), c.hash);
    if pc'.Claim? {
      ClaimIsPlausible(db', r, owner, job, Rest(script), c);
    } else {
      EndIsPlausible(db', r, pc', Rest(script), c);
    }
  }

  lemma ReserveIsPlausible(db: Db, r: Request, owner: Uuid, script: Script, c: Choices)
    requires c.newId != NIL && c.newId !in db.queue.minted
    requires r.Provision? ==> Finds(db, r.slug, c.found) && c.hash !in db.keys
    ensures Plausible(db, r, Reserve(owner), script, c)
  {
    var pc := Reserve(owner);
    var (db', pc') := StepProc(db, Proc(r, pc, true), Faults.Next(script), PickAt(pc, c), c.hash);
    if pc'.InsertRow? {
      InsertIsPlausible(db', r, owner, pc'.job, Rest(script), c);
    } else if pc'.Claim? {
      ClaimIsPlausible(db', r, owner, pc'.job, Rest(script), c);
    } else {
      EndIsPlausible(db', r, pc', Rest(script), c);
    }
  }

  lemma FindIsPlausible(db: Db, r: Request, script: Script, c: Choices)
    requires r.Deprovision? && c.newId != NIL && c.newId !in db.queue.minted && Finds(db, r.slug, c.found)
    ensures Plausible(db, r, Find, script, c)
  {
    var (db', pc') := StepProc(db, Proc(r, Find, true), Faults.Next(script), PickAt(Find, c), c.hash);
    if pc'.Reserve? {
      ReserveIsPlausible(db', r, c.found, Rest(script), c);
    } else {
      EndIsPlausible(db', r, pc', Rest(script), c);
    }
  }

  // ----- What the program does leads where runs lead.

  lemma Called(db: Db, r: Request) returns (called: seq<Action>, p: nat)
    requires Reached(db)
    ensures var s := Exec(EMPTY, called);
            s.db == db && p in s.procs && s.procs[p] == Proc(r, if r.Provision? then Reserve(NIL) else Find, true)
  {
    var run :| Exec(EMPTY, run).db == db;
    p := FreshNat(Exec(EMPTY, run).procs.Keys);
    assert p !in Exec(EMPTY, run).procs.Keys;
    called := run + [Call(p, r)];
    assert called[..|called| - 1] == run;
    assert Exec(EMPTY, called) == Step(Exec(EMPTY, run), Call(p, r));
  }

  lemma AloneReaches(db: Db, r: Request, script: Script, c: Choices)
    requires Reached(db) && Plausible(db, r, if r.Provision? then Reserve(NIL) else Find, script, c)
    ensures Reached(Alone(db, r, if r.Provision? then Reserve(NIL) else Find, script, c).0)
  {
    var called, p := Called(db, r);
    var s1 := Exec(EMPTY, called);
    AloneIsARun(s1, p, script, c);
    var more :| ByItself(s1, p, script, c, more);
    ExecConcat(EMPTY, called, more);
    assert Exec(EMPTY, called + more).db == Alone(db, r, s1.procs[p].pc, script, c).0;
  }

  /** From the tables of any run, whatever Provision does alone, with any faults, ends in the tables of a
      run: so what holds of the tables of every run holds before and after every call of the program. */
  lemma ProvisionReaches(db: Db, slug: string, script: Script, c: Choices)
    requires Reached(db) && New(db, c) && Finds(db, slug, c.found)
    ensures Reached(Alone(db, Provision(slug), Reserve(NIL), script, c).0)
  {
    ReserveIsPlausible(db, Provision(slug), NIL, script, c);
    AloneReaches(db, Provision(slug), script, c);
  }

  /** The same for Deprovision. */
  lemma DeprovisionReaches(db: Db, slug: string, day: string, script: Script, c: Choices)
    requires Reached(db) && c.newId != NIL && c.newId !in db.queue.minted && Finds(db, slug, c.found)
    ensures Reached(Alone(db, Deprovision(slug, day), Find, script, c).0)
  {
    FindIsPlausible(db, Deprovision(slug, day), script, c);
    AloneReaches(db, Deprovision(slug, day), script, c);
  }
}

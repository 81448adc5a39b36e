// A call of Register, IssueKey or RevokeKey that nobody interrupts: what it does to the tables as one
// function, and that it is a run of the machine.

module AccountsAlone {
  import opened Faults
  import opened Options
  import opened Accounts
  import opened NewNames

  /** What a call generates or finds on its way: the tenant, the user, the key's id, the key's hash. */
  datatype Choices = Choices(tenant: Uuid, user: Uuid, keyId: Uuid, hash: string)

  function PicksAt(pc: Pc, c: Choices): Picks {
    Picks(if pc.InsertUser? then c.user else c.tenant, c.keyId, c.hash)
  }

  predicate Over(pc: Pc) {
    pc.Done? || pc.Failed?
  }

  /** How many steps are left at most. */
  function Remaining(pc: Pc): nat {
    match pc
    case CheckEmail => 7
    case ReserveSlug => 6
    case InsertTenant(_) => 5
    case CleanUp(_, _) => 1
    case HashPassword(_) => 3
    case InsertUser(_) => 2
    case InitialKey(_) => 1
    case FindActive => 2
    case StoreKey(_) => 1
    case FindTenant => 3
    case FindHash => 2
    case MarkRevoked(_) => 1
    case Done => 0
    case Failed(_) => 0
  }

  datatype Outcomes = Outcomes(db: Db, script: Script, end: Pc)

  /** The tables, the rest of the script and the result after a call has run alone from pc to its end. */
  ghost function Alone(db: Db, r: Request, pc: Pc, script: Script, c: Choices): Outcomes
    decreases Remaining(pc)
  {
    if Over(pc) then Outcomes(db, script, pc)
    else
      var (db', pc') := StepProc(db, r, pc, Faults.Next(script), PicksAt(pc, c));
      Alone(db', r, pc', Rest(script), c)
  }

  lemma AloneStep(db: Db, r: Request, pc: Pc, script: Script, c: Choices)
    requires !Over(pc)
    ensures var (db', pc') := StepProc(db, r, pc, Faults.Next(script), PicksAt(pc, c));
            Alone(db, r, pc, script, c) == Alone(db', r, pc', Rest(script), c)
  {
  }

  function Ending(error: Option<Error>): Pc {
    if error.None? then Done else Failed(error.value)
  }

  /** The hash chosen is one the lookup by id can return. */
  ghost predicate Finds(db: Db, keyId: Uuid, c: Choices) {
    (exists h :: h in db.keys && db.keys[h].id == Some(keyId)) ==>
        c.hash in db.keys && db.keys[c.hash].id == Some(keyId)
  }

  ghost function AnyFind(db: Db, keyId: Uuid): (c: Choices)
    ensures Finds(db, keyId, c)
  {
    if h :| h in db.keys && db.keys[h].id == Some(keyId) then Choices(0, 0, keyId, h) else Choices(0, 0, keyId, "")
  }

  // ----- It is a run.

  /** Whether every pick of a call that runs alone is one its statements can produce. */
  ghost predicate Plausible(db: Db, r: Request, pc: Pc, script: Script, c: Choices)
    decreases Remaining(pc)
  {
    Over(pc) ||
    (&& Fits(db, Proc(r, pc, true), PicksAt(pc, c))
     && var (db', pc') := StepProc(db, r, pc, Faults.Next(script), PicksAt(pc, c));
        Plausible(db', r, pc', Rest(script), c))
  }

  ghost predicate ByItself(s: State, p: nat, script: Script, c: Choices, run: seq<Action>)
    requires p in s.procs
  {
    var out := Alone(s.db, s.procs[p].request, s.procs[p].pc, script, c);
    && (forall a :: a in run ==> a.Next? && a.p == p)
    && Exec(s, run) == State(out.db, s.procs[p := s.procs[p].(pc := out.end)])
  }

  /** What a call does alone is a run of the machine in which only that call moves. */
  lemma {:induction false} AloneIsARun(s: State, p: nat, script: Script, c: Choices)
    requires p in s.procs && s.procs[p].alive && Plausible(s.db, s.procs[p].request, s.procs[p].pc, script, c)
    ensures exists run :: ByItself(s, p, script, c, run)
    decreases Remaining(s.procs[p].pc)
  {
    var proc := s.procs[p];
    if Over(proc.pc) {
      assert s.procs[p := proc.(pc := proc.pc)] == s.procs;
      assert ByItself(s, p, script, c, []);
    } else {
      assert proc == Proc(proc.request, proc.pc, true);
      var s1 := Step(s, Action.Next(p, Faults.Next(script), PicksAt(proc.pc, c)));
      AloneIsARun(s1, p, Rest(script), c);
      var rest :| ByItself(s1, p, Rest(script), c, rest);
      FirstOfARun(s, p, script, c, rest);
    }
  }

  lemma FirstOfARun(s: State, p: nat, script: Script, c: Choices, rest: seq<Action>)
    requires p in s.procs && s.procs[p].alive && !Over(s.procs[p].pc)
            && Fits(s.db, s.procs[p], PicksAt(s.procs[p].pc, c))
    requires var s1 := Step(s, Action.Next(p, Faults.Next(script), PicksAt(s.procs[p].pc, c)));
             p in s1.procs && ByItself(s1, p, Rest(script), c, rest)
    ensures ByItself(s, p, script, c, [Action.Next(p, Faults.Next(script), PicksAt(s.procs[p].pc, c))] + rest)
  {
    var proc := s.procs[p];
    var first := Action.Next(p, Faults.Next(script), PicksAt(proc.pc, c));
    var s1 := Step(s, first);
    assert proc == Proc(proc.request, proc.pc, true);
    AloneStep(s.db, proc.request, proc.pc, script, c);
    ExecConcat(s, [first], rest);
    assert Exec(s, [first]) == s1 by {
      assert [first][..0] == [];
    }
    var out := Alone(s.db, proc.request, proc.pc, script, c);
    assert s1.procs[p := s1.procs[p].(pc := out.end)] == s.procs[p := proc.(pc := out.end)];
  }

  // ----- The picks of the program are plausible, and what it does leads where runs lead.

  predicate LooksUp(pc: Pc) {
    pc.FindActive? || pc.FindTenant? || pc.FindHash?
  }

  /** A call past its lookups finds whatever it generates plausible. */
  lemma {:induction false} RestIsPlausible(db: Db, r: Request, pc: Pc, script: Script, c: Choices)
    requires !LooksUp(pc)
    ensures Plausible(db, r, pc, script, c)
    decreases Remaining(pc)
  {
    if !Over(pc) {
      var (db', pc') := StepProc(db, r, pc, Faults.Next(script), PicksAt(pc, c));
      RestIsPlausible(db', r, pc', Rest(script), c);
    }
  }

  lemma IssueIsPlausible(db: Db, slug: string, script: Script, c: Choices)
    requires SlugKnown(db, slug) ==> HasSlug(db, c.tenant, slug)
    ensures Plausible(db, IssueKey(slug), FindActive, script, c)
  {
    var (db', pc') := StepProc(db, IssueKey(slug), FindActive, Faults.Next(script), PicksAt(FindActive, c));
    RestIsPlausible(db', IssueKey(slug), pc', Rest(script), c);
  }

  lemma FindHashIsPlausible(db: Db, slug: string, keyId: Uuid, script: Script, c: Choices)
    requires Finds(db, keyId, c)
    ensures Plausible(db, RevokeKey(slug, keyId), FindHash, script, c)
  {
    var r := RevokeKey(slug, keyId);
    var (db', pc') := StepProc(db, r, FindHash, Faults.Next(script), PicksAt(FindHash, c));
    RestIsPlausible(db', r, pc', Rest(script), c);
  }

  lemma RevokeIsPlausible(db: Db, slug: string, keyId: Uuid, script: Script, c: Choices)
    requires Finds(db, keyId, c)
    ensures Plausible(db, RevokeKey(slug, keyId), FindTenant, script, c)
  {
    var r := RevokeKey(slug, keyId);
    var (db', pc') := StepProc(db, r, FindTenant, Faults.Next(script), PicksAt(FindTenant, c));
    if pc'.FindHash? {
      FindHashIsPlausible(db', slug, keyId, Rest(script), c);
    } else {
      RestIsPlausible(db', r, pc', Rest(script), c);
    }
  }

  /** Some run leads to these tables. */
  ghost predicate Reached(db: Db) {
    exists run :: Exec(EMPTY, run).db == db
  }

  lemma Called(db: Db, r: Request) returns (called: seq<Action>, p: nat)
    requires Reached(db)
    ensures var s := Exec(EMPTY, called);
            s.db == db && p in s.procs && s.procs[p] == Proc(r, Start(r), true)
  {
    var run :| Exec(EMPTY, run).db == db;
    p := FreshNat(Exec(EMPTY, run).procs.Keys);
    assert p !in Exec(EMPTY, run).procs.Keys;
    called := run + [Call(p, r)];
    assert called[..|called| - 1] == run;
    assert Exec(EMPTY, called) == Step(Exec(EMPTY, run), Call(p, r));
  }

  /** From the tables of any run, a plausible call that runs alone, with any faults, ends in the tables of
      a run: so what holds of the tables of every run holds before and after every call of the program. */
  lemma AloneReaches(db: Db, r: Request, script: Script, c: Choices)
    requires Reached(db) && Plausible(db, r, Start(r), script, c)
    ensures Reached(Alone(db, r, Start(r), script, c).db)
  {
    var called, p := Called(db, r);
    var s1 := Exec(EMPTY, called);
    AloneIsARun(s1, p, script, c);
    var more :| ByItself(s1, p, script, c, more);
    ExecConcat(EMPTY, called, more);
    assert Exec(EMPTY, called + more).db == Alone(db, r, Start(r), script, c).db;
  }

  lemma RegisterReaches(db: Db, email: string, slug: string, script: Script, c: Choices)
    requires Reached(db)
    ensures Reached(Alone(db, Register(email, slug), CheckEmail, script, c).db)
  {
    RestIsPlausible(db, Register(email, slug), CheckEmail, script, c);
    AloneReaches(db, Register(email, slug), script, c);
  }

  lemma IssueReaches(db: Db, slug: string, script: Script, c: Choices)
    requires Reached(db) && (SlugKnown(db, slug) ==> HasSlug(db, c.tenant, slug))
    ensures Reached(Alone(db, IssueKey(slug), FindActive, script, c).db)
  {
    IssueIsPlausible(db, slug, script, c);
    AloneReaches(db, IssueKey(slug), script, c);
  }

  lemma RevokeReaches(db: Db, slug: string, keyId: Uuid, script: Script, c: Choices)
    requires Reached(db) && Finds(db, keyId, c)
    ensures Reached(Alone(db, RevokeKey(slug, keyId), FindTenant, script, c).db)
  {
    RevokeIsPlausible(db, slug, keyId, script, c);
    AloneReaches(db, RevokeKey(slug, keyId), script, c);
  }
}

// Referential integrity of users and API keys in every run, and the permanence of revocations.

module AccountsReferences {
  import opened Faults
  import opened Options
  import opened Accounts

  // ----- References. Nothing is assumed about errors, crashes or generated ids.

  /** The tenant a call has created or found and still means to refer to; None for the rest. */
  function TenantOf(pc: Pc): Option<Uuid> {
    match pc
    case HashPassword(t) => Some(t)
    case InsertUser(t) => Some(t)
    case InitialKey(t) => Some(t)
    case StoreKey(t) => Some(t)
    case _ => None
  }

  /** The tenant a registration has created and not yet given a user. */
  function Userless(pc: Pc): Option<Uuid> {
    match pc
    case HashPassword(t) => Some(t)
    case InsertUser(t) => Some(t)
    case _ => None
  }

  ghost predicate RowsRefer(db: Db) {
    && (forall u :: u in db.users ==> db.users[u].tenant in db.tenants)
    && (forall h :: h in db.keys ==> db.keys[h].tenant.Some? && db.keys[h].tenant.value in db.tenants)
    && (forall u, v :: u in db.users && v in db.users && db.users[u].tenant == db.users[v].tenant ==> u == v)
  }

  ghost predicate ProcRefers(db: Db, pc: Pc) {
    && (TenantOf(pc).Some? ==> TenantOf(pc).value in db.tenants)
    && (Userless(pc).Some? ==> forall u :: u in db.users ==> db.users[u].tenant != Userless(pc).value)
    && (pc.MarkRevoked? ==> pc.hash in db.keys)
  }

  ghost predicate Refers(s: State) {
    && RowsRefer(s.db)
    && (forall p :: p in s.procs ==> ProcRefers(s.db, s.procs[p].pc))
    && (forall p, q :: p in s.procs && q in s.procs && p != q && Userless(s.procs[p].pc) == Userless(s.procs[q].pc)
          ==> Userless(s.procs[p].pc).None?)
  }

  /** What a step of one call does to the rows others may refer to. */
  lemma RowsAfter(db: Db, r: Request, pc: Pc, o: Outcome, picks: Picks)
    requires RowsRefer(db) && ProcRefers(db, pc)
    ensures var (db', pc') := StepProc(db, r, pc, o, picks);
            && db.tenants.Keys <= db'.tenants.Keys && db.keys.Keys <= db'.keys.Keys
            && (db'.users == db.users
                || (pc.InsertUser? && picks.id !in db.users
                    && db'.users == db.users[picks.id := User(EmailOf(r), pc.tenant)]))
            && (Userless(pc') in {Userless(pc), None}
                || (pc.InsertTenant? && pc.tenant !in db.tenants && Userless(pc') == Some(pc.tenant)))
            && (db'.users != db.users ==> Userless(pc').None?)
  {
  }

  lemma RowsReferAfter(db: Db, r: Request, pc: Pc, o: Outcome, picks: Picks)
    requires RowsRefer(db) && ProcRefers(db, pc)
    ensures RowsRefer(StepProc(db, r, pc, o, picks).0)
  {
  }

  lemma ProcRefersAfter(db: Db, r: Request, pc: Pc, o: Outcome, picks: Picks)
    requires RowsRefer(db) && ProcRefers(db, pc)
    ensures var (db', pc') := StepProc(db, r, pc, o, picks); ProcRefers(db', pc')
  {
  }

  lemma NextRefers(s: State, a: Action)
    requires Refers(s) && a.Next? && a.p in s.procs && s.procs[a.p].alive && Fits(s.db, s.procs[a.p], a.picks)
    ensures Refers(Step(s, a))
  {
    var proc := s.procs[a.p];
    RowsAfter(s.db, proc.request, proc.pc, a.o, a.picks);
    RowsReferAfter(s.db, proc.request, proc.pc, a.o, a.picks);
    ProcRefersAfter(s.db, proc.request, proc.pc, a.o, a.picks);
    var s' := Step(s, a);
    forall q | q in s.procs && q != a.p
      ensures ProcRefers(s'.db, s'.procs[q].pc)
      ensures Userless(s'.procs[q].pc) == Userless(s'.procs[a.p].pc) ==> Userless(s'.procs[q].pc).None?
    {
      assert ProcRefers(s.db, s.procs[q].pc);
      assert Userless(s.procs[q].pc) == Userless(proc.pc) ==> Userless(proc.pc).None?;
    }
  }

  lemma StepRefers(s: State, a: Action)
    requires Refers(s)
    ensures Refers(Step(s, a))
  {
    if a.Next? && a.p in s.procs && s.procs[a.p].alive && Fits(s.db, s.procs[a.p], a.picks) {
      NextRefers(s, a);
    }
  }

  /** In every run every user row and every API key row refers to an existing tenant row, and no tenant
      has two users; a revocation never creates a row. */
  lemma {:induction false} EverythingRefers(run: seq<Action>)
    ensures Refers(Exec(EMPTY, run))
  {
    if run != [] {
      EverythingRefers(run[..|run| - 1]);
      StepRefers(Exec(EMPTY, run[..|run| - 1]), run[|run| - 1]);
    }
  }

  // ----- Revoked keys.

  /** All a step does to the keys is at most one statement of the key store. */
  lemma StepKeys(s: State, a: Action) returns (more: seq<ApiKeys.Statement>)
    ensures Step(s, a).db.keys == ApiKeys.Run(s.db.keys, more)
  {
    more := [];
    if a.Next? && a.p in s.procs && s.procs[a.p].alive && Fits(s.db, s.procs[a.p], a.picks) {
      var st := match s.procs[a.p].pc
        case InitialKey(t) => Some(ApiKeys.Insert(a.picks.hash,
            ApiKeys.Key(Some(a.picks.keyId), Some(t), ApiKeys.ACTIVE), a.o))
        case StoreKey(t) => Some(ApiKeys.Insert(a.picks.hash,
            ApiKeys.Key(Some(a.picks.keyId), Some(t), ApiKeys.ACTIVE), a.o))
        case MarkRevoked(hash) => Some(ApiKeys.Mark(hash, a.o))
        case _ => None;
      if st.Some? {
        more := [st.value];
        assert more[..0] == [];
      }
    }
  }

  /** A key revoked at any moment of any run stays revoked, with its row unchanged. */
  lemma {:induction false} RevokedKeysStayRevoked(run: seq<Action>, more: seq<Action>, hash: string)
    requires var keys := Exec(EMPTY, run).db.keys; hash in keys && keys[hash].status == ApiKeys.REVOKED
    ensures var keys' := Exec(EMPTY, run + more).db.keys; hash in keys' && keys'[hash] == Exec(EMPTY, run).db.keys[hash]
  {
    if more == [] {
      assert run + more == run;
    } else {
      var n := |more| - 1;
      RevokedKeysStayRevoked(run, more[..n], hash);
      assert (run + more)[..|run + more| - 1] == run + more[..n];
      var s := Exec(EMPTY, run + more[..n]);
      var statements := StepKeys(s, more[n]);
      ApiKeys.RevokedForever(s.db.keys, statements, hash);
    }
  }
}

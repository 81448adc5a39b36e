// Register, IssueKey and RevokeKey calls as concurrent processes over the account tables
// (services/accounts/service/service.go, internal/accounts/tenant.go, user.go, apikey.go). Every
// statement is one atomic step; runs are arbitrary interleavings with errors and crashes between
// any two steps. No id, hash or key is assumed to be fresh.

module Accounts {
  import opened Faults
  import opened Options
  import ApiKeys

  type Uuid = ApiKeys.Uuid

  datatype TenantStatus = PROVISIONING | ACTIVE | SUSPENDED | DELETED
  datatype Tenant = Tenant(slug: string, status: TenantStatus)
  datatype User = User(email: string, tenant: Uuid)

  datatype Db = Db(
    slugs: set<string>,              // cf.tenant_slugs
    tenants: map<Uuid, Tenant>,      // cf.tenants
    users: map<Uuid, User>,          // cf.users
    keys: ApiKeys.Table)             // cf.api_keys, by hash

  datatype Request =
    | Register(email: string, slug: string)
    | IssueKey(slug: string)
    | RevokeKey(slug: string, keyId: Uuid)

  /** The e-mail of a registration; the other requests carry none. */
  function EmailOf(r: Request): string {
    if r.Register? then r.email else ""
  }

  function KeyIdOf(r: Request): Option<Uuid> {
    if r.RevokeKey? then Some(r.keyId) else None
  }

  datatype Error = EmailTaken | SlugTaken | NotFound | NotActive | Internal

  datatype Pc =
    | CheckEmail
    | ReserveSlug
    | InsertTenant(tenant: Uuid)                  // slug reserved under a generated tenant id
    | CleanUp(tenant: Uuid, error: Error)         // about to give the reservation back
    | HashPassword(tenant: Uuid)
    | InsertUser(tenant: Uuid)
    | InitialKey(tenant: Uuid)
    | FindActive                                  // IssueKey: look the tenant up and check its status
    | StoreKey(tenant: Uuid)
    | FindTenant                                  // RevokeKey: look the tenant up
    | FindHash
    | MarkRevoked(hash: string)
    | Done
    | Failed(error: Error)

  datatype Proc = Proc(request: Request, pc: Pc, alive: bool)

  datatype State = State(db: Db, procs: map<nat, Proc>)

  /** What a statement generates or finds: an id, a second id, a hash. */
  datatype Picks = Picks(id: Uuid, keyId: Uuid, hash: string)

  datatype Action =
    | Call(p: nat, request: Request)
    | Next(p: nat, o: Outcome, picks: Picks)
    | Crash(p: nat)
    | SetStatus(tenant: Uuid, status: TenantStatus)   // the provisioning side changes a tenant's status

  function Start(r: Request): Pc {
    match r
    case Register(_, _) => CheckEmail
    case IssueKey(_) => FindActive
    case RevokeKey(_, _) => FindTenant
  }

  ghost predicate EmailTakenBy(db: Db, email: string) {
    exists u :: u in db.users && db.users[u].email == email
  }

  ghost predicate HasSlug(db: Db, tenant: Uuid, slug: string) {
    tenant in db.tenants && db.tenants[tenant].slug == slug
  }

  ghost predicate SlugKnown(db: Db, slug: string) {
    exists t :: HasSlug(db, t, slug)
  }

  /** Whether the row an action names is one a read can return. */
  ghost predicate Fits(db: Db, proc: Proc, picks: Picks) {
    match proc.pc
    case FindActive => SlugKnown(db, proc.request.slug) ==> HasSlug(db, picks.id, proc.request.slug)
    case FindHash => (exists h :: h in db.keys && db.keys[h].id == KeyIdOf(proc.request))
                     ==> picks.hash in db.keys && db.keys[picks.hash].id == KeyIdOf(proc.request)
    case _ => true
  }

  /** APIKeyStore.Store of a key just generated for a tenant. */
  function StoreKeyRow(db: Db, tenant: Uuid, picks: Picks, o: Outcome): Db {
    db.(keys := ApiKeys.Apply(db.keys,
        ApiKeys.Insert(picks.hash, ApiKeys.Key(Some(picks.keyId), Some(tenant), ApiKeys.ACTIVE), o)))
  }

  function Revoke(db: Db, hash: string, o: Outcome): Db {
    db.(keys := ApiKeys.Apply(db.keys, ApiKeys.Mark(hash, o)))
  }

  ghost function StepProc(db: Db, r: Request, pc: Pc, o: Outcome, picks: Picks): (Db, Pc)
  {
    match pc
    case CheckEmail =>
      (db, if o.Reported() then Failed(Internal) else if EmailTakenBy(db, EmailOf(r)) then Failed(EmailTaken)
          else ReserveSlug)
    case ReserveSlug =>
      (if o.Executed() then db.(slugs := db.slugs + {r.slug}) else db,
       if o.Reported() then Failed(Internal) else if r.slug in db.slugs then Failed(SlugTaken)
           else InsertTenant(picks.id))
    case InsertTenant(id) =>
      var (tenants', applied) := InsertIfAbsent(db.tenants, id, Tenant(r.slug, PROVISIONING), o);
      (db.(tenants := tenants'),
       if o.Reported() then CleanUp(id, Internal) else if applied then HashPassword(id) else CleanUp(id, SlugTaken))
    case CleanUp(_, error) =>
      (if o.Executed() then db.(slugs := db.slugs - {r.slug}) else db, Failed(error))
    case HashPassword(id) =>
      (db, if o.Reported() then Failed(Internal) else InsertUser(id))
    case InsertUser(id) =>
      var (users', applied) := InsertIfAbsent(db.users, picks.id, User(EmailOf(r), id), o);
      (db.(users := users'),
       if o.Reported() then Failed(Internal) else if applied then InitialKey(id) else Failed(EmailTaken))
    case InitialKey(id) =>
      (StoreKeyRow(db, id, picks, o), if o.Reported() then Failed(Internal) else Done)
    case FindActive =>
      (db, if o.Reported() then Failed(Internal)
           else if !HasSlug(db, picks.id, r.slug) then Failed(NotFound)
           else if !db.tenants[picks.id].status.ACTIVE? then Failed(NotActive)
           else StoreKey(picks.id))
    case StoreKey(id) =>
      (StoreKeyRow(db, id, picks, o), if o.Reported() then Failed(Internal) else Done)
    case FindTenant =>
      (db, if o.Reported() then Failed(Internal) else if !SlugKnown(db, r.slug) then Failed(NotFound) else FindHash)
    case FindHash =>
      (db, if o.Reported() then Failed(Internal)
           else if picks.hash in db.keys && db.keys[picks.hash].id == KeyIdOf(r) then MarkRevoked(picks.hash)
           else Done)
    case MarkRevoked(hash) =>
      (Revoke(db, hash, o),
       if o.Reported() then Failed(Internal) else Done)
    case Done => (db, Done)
    case Failed(e) => (db, Failed(e))
  }

  /** One step of the system. An action that is not possible leaves the state alone. */
  ghost function Step(s: State, a: Action): State {
    match a
    case Call(p, r) =>
      if p in s.procs then s else s.(procs := s.procs[p := Proc(r, Start(r), true)])
    case Next(p, o, picks) =>
      if p in s.procs && s.procs[p].alive && Fits(s.db, s.procs[p], picks) then
        var (db', pc') := StepProc(s.db, s.procs[p].request, s.procs[p].pc, o, picks);
        State(db', s.procs[p := s.procs[p].(pc := pc')])
      else s
    case Crash(p) =>
      if p in s.procs then s.(procs := s.procs[p := s.procs[p].(alive := false)]) else s
    case SetStatus(t, status) =>
      if t in s.db.tenants then s.(db := s.db.(tenants := s.db.tenants[t := s.db.tenants[t].(status := status)])) else s
  }

  ghost function Exec(s: State, run: seq<Action>): State {
    if run == [] then s else Step(Exec(s, run[..|run| - 1]), run[|run| - 1])
  }

  const EMPTY: State := State(Db({}, map[], map[], map[]), map[])

  lemma {:induction false} ExecConcat(s: State, run1: seq<Action>, run2: seq<Action>)
    ensures Exec(s, run1 + run2) == Exec(Exec(s, run1), run2)
  {
    if run2 == [] {
      assert run1 + run2 == run1;
    } else {
      var n := |run2| - 1;
      assert (run1 + run2)[..|run1 + run2| - 1] == run1 + run2[..n];
      ExecConcat(s, run1, run2[..n]);
    }
  }
}

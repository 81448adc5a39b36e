// When the e-mails of users are unique: a registration checks, and only later acts.

module AccountsEmails {
  import opened Faults
  import opened Accounts

  // ----- E-mails: check, then act.

  /** The call has found its e-mail free and has not yet inserted its user. */
  predicate Pending(pc: Pc) {
    pc.ReserveSlug? || pc.InsertTenant? || pc.HashPassword? || pc.InsertUser?
  }

  ghost predicate EmailsUnique(db: Db) {
    forall u, v :: u in db.users && v in db.users && db.users[u].email == db.users[v].email ==> u == v
  }

  ghost predicate EmailsOk(s: State) {
    && EmailsUnique(s.db)
    && (forall p :: p in s.procs && s.procs[p].alive && Pending(s.procs[p].pc) ==>
        !EmailTakenBy(s.db, EmailOf(s.procs[p].request)))
    && (forall p, q :: p in s.procs && q in s.procs && p != q && s.procs[p].alive && s.procs[q].alive
                       && Pending(s.procs[p].pc) && Pending(s.procs[q].pc)
                       ==> EmailOf(s.procs[p].request) != EmailOf(s.procs[q].request))
  }

  /** Nobody checks an e-mail while another live registration is between its check and its insert. */
  ghost predicate NoOverlap(s: State, a: Action) {
    a.Next? && a.p in s.procs && s.procs[a.p].pc.CheckEmail? ==>
      forall q :: q in s.procs && s.procs[q].alive && Pending(s.procs[q].pc) ==>
          EmailOf(s.procs[q].request) != EmailOf(s.procs[a.p].request)
  }

  ghost predicate NeverOverlaps(run: seq<Action>) {
    run != [] ==> NeverOverlaps(run[..|run| - 1]) && NoOverlap(Exec(EMPTY, run[..|run| - 1]), run[|run| - 1])
  }

  /** What a step of one call does to the e-mails. */
  lemma EmailsAfter(db: Db, r: Request, pc: Pc, o: Outcome, picks: Picks)
    ensures var (db', pc') := StepProc(db, r, pc, o, picks);
            && (db'.users == db.users
                || (pc.InsertUser? && picks.id !in db.users
                    && db'.users == db.users[picks.id := User(EmailOf(r), pc.tenant)] && !Pending(pc')))
            && (Pending(pc') && !Pending(pc) ==> (pc.CheckEmail? && !EmailTakenBy(db, EmailOf(r))))
  {
  }

  lemma StepKeepsEmails(s: State, a: Action)
    requires EmailsOk(s) && NoOverlap(s, a)
    ensures EmailsOk(Step(s, a))
  {
    var s' := Step(s, a);
    if a.Next? && a.p in s.procs && s.procs[a.p].alive && Fits(s.db, s.procs[a.p], a.picks) {
      var proc := s.procs[a.p];
      EmailsAfter(s.db, proc.request, proc.pc, a.o, a.picks);
      forall email | EmailTakenBy(s'.db, email)
        ensures EmailTakenBy(s.db, email) || (proc.pc.InsertUser? && email == EmailOf(proc.request))
      {
        var u :| u in s'.db.users && s'.db.users[u].email == email;
        assert u in s.db.users ==> EmailTakenBy(s.db, email);
      }
      assert forall u :: u in s.db.users ==> EmailTakenBy(s.db, s.db.users[u].email);
    } else {
      assert forall email :: EmailTakenBy(s'.db, email) <==> EmailTakenBy(s.db, email);
    }
  }

  /** E-mails are unique in every run in which registrations for one e-mail do not overlap between the
      check and the insert, whatever fails; in particular in every sequential history. */
  lemma {:induction false} EmailsUniqueWithoutOverlap(run: seq<Action>)
    requires NeverOverlaps(run)
    ensures EmailsOk(Exec(EMPTY, run))
  {
    if run != [] {
      EmailsUniqueWithoutOverlap(run[..|run| - 1]);
      StepKeepsEmails(Exec(EMPTY, run[..|run| - 1]), run[|run| - 1]);
    }
  }

  // ----- The guard that the insert of a user row lacks.

  /** If a statement inserts a user row, its e-mail is free at that moment. */
  ghost predicate InsertIsFree(s: State, a: Action) {
    a.Next? && a.p in s.procs && s.procs[a.p].alive && s.procs[a.p].pc.InsertUser? && a.o.Executed()
        && a.picks.id !in s.db.users
    ==> !EmailTakenBy(s.db, EmailOf(s.procs[a.p].request))
  }

  ghost predicate InsertsAreFree(run: seq<Action>) {
    run != [] ==> InsertsAreFree(run[..|run| - 1]) && InsertIsFree(Exec(EMPTY, run[..|run| - 1]), run[|run| - 1])
  }

  lemma InsertKeepsUniqueIff(db: Db, id: Uuid, user: User)
    requires id !in db.users
    ensures EmailsUnique(db.(users := db.users[id := user])) <==> EmailsUnique(db) && !EmailTakenBy(db, user.email)
  {
    var db' := db.(users := db.users[id := user]);
    assert forall u :: u in db.users ==> u in db'.users && db'.users[u] == db.users[u];
    if u :| u in db.users && db.users[u].email == user.email {
      assert id in db'.users && db'.users[u].email == db'.users[id].email && u != id;
    }
  }

  lemma StepKeepsUniqueIff(s: State, a: Action)
    ensures EmailsUnique(Step(s, a).db) <==> EmailsUnique(s.db) && InsertIsFree(s, a)
  {
    if a.Next? && a.p in s.procs && s.procs[a.p].alive && Fits(s.db, s.procs[a.p], a.picks) {
      var proc := s.procs[a.p];
      EmailsAfter(s.db, proc.request, proc.pc, a.o, a.picks);
      var s' := Step(s, a);
      if proc.pc.InsertUser? && a.o.Executed() && a.picks.id !in s.db.users {
        InsertKeepsUniqueIff(s.db, a.picks.id, User(EmailOf(proc.request), proc.pc.tenant));
      } else {
        assert s'.db.users == s.db.users;
      }
    }
  }

  /** In every run, the e-mails are unique exactly if every user row was inserted while its e-mail was
      free: the program checks this earlier, at CheckEmail, and not again. */
  lemma {:induction false} EmailsUniqueIffInsertsAreFree(run: seq<Action>)
    ensures EmailsUnique(Exec(EMPTY, run).db) <==> InsertsAreFree(run)
  {
    if run != [] {
      EmailsUniqueIffInsertsAreFree(run[..|run| - 1]);
      StepKeepsUniqueIff(Exec(EMPTY, run[..|run| - 1]), run[|run| - 1]);
    }
  }

  // ----- Exactly when e-mails stay unique: which registrations must not overlap.

  /** The tables and calls before step k of a run. */
  ghost function Before(run: seq<Action>, k: nat): State
    requires k <= |run|
  {
    Exec(EMPTY, run[..k])
  }

  lemma BeforeNext(run: seq<Action>, k: nat)
    requires k < |run|
    ensures Before(run, k + 1) == Step(Before(run, k), run[k])
  {
    assert run[..k + 1][..k] == run[..k];
  }

  /** At step k call p executes its next statement. */
  ghost predicate Moves(run: seq<Action>, k: nat, p: nat) {
    && k < |run| && run[k].Next? && run[k].p == p
    && var s := Before(run, k);
       p in s.procs && s.procs[p].alive && Fits(s.db, s.procs[p], run[k].picks)
  }

  /** At step c call p checks whether its e-mail is taken. */
  ghost predicate ChecksAt(run: seq<Action>, c: nat, p: nat, email: string) {
    Moves(run, c, p) && var proc := Before(run, c).procs[p]; proc.pc.CheckEmail? && EmailOf(proc.request) == email
  }

  /** At step m call q inserts a user with the e-mail. */
  ghost predicate InsertsAt(run: seq<Action>, m: nat, q: nat, email: string) {
    && Moves(run, m, q) && run[m].o.Executed()
    && var s := Before(run, m);
       s.procs[q].pc.InsertUser? && EmailOf(s.procs[q].request) == email && run[m].picks.id !in s.db.users
  }

  /** Call p checks the e-mail, then another call inserts a user with it, and then p does. */
  ghost predicate Overlaps(run: seq<Action>, c: nat, m: nat, n: nat, p: nat, q: nat, email: string) {
    c < m < n && p != q && ChecksAt(run, c, p, email) && InsertsAt(run, m, q, email) && InsertsAt(run, n, p, email)
  }

  // ----- An overlap duplicates.

  lemma StepKeepsTaken(s: State, a: Action, email: string)
    requires EmailTakenBy(s.db, email)
    ensures EmailTakenBy(Step(s, a).db, email)
  {
    var u :| u in s.db.users && s.db.users[u].email == email;
    var s' := Step(s, a);
    if a.Next? && a.p in s.procs && s.procs[a.p].alive && Fits(s.db, s.procs[a.p], a.picks) {
      EmailsAfter(s.db, s.procs[a.p].request, s.procs[a.p].pc, a.o, a.picks);
    }
    assert u in s'.db.users && s'.db.users[u] == s.db.users[u];
  }

  lemma {:induction false} TakenStays(run: seq<Action>, k: nat, l: nat, email: string)
    requires k <= l <= |run| && EmailTakenBy(Before(run, k).db, email)
    ensures EmailTakenBy(Before(run, l).db, email)
  {
    if k < l {
      TakenStays(run, k, l - 1, email);
      BeforeNext(run, l - 1);
      StepKeepsTaken(Before(run, l - 1), run[l - 1], email);
    }
  }

  lemma InsertTakes(run: seq<Action>, m: nat, q: nat, email: string)
    requires InsertsAt(run, m, q, email)
    ensures EmailTakenBy(Before(run, m + 1).db, email)
  {
    BeforeNext(run, m);
    assert run[m].picks.id in Before(run, m + 1).db.users;
  }

  lemma {:induction false} NotFreeAt(run: seq<Action>, n: nat)
    requires n < |run| && !InsertIsFree(Before(run, n), run[n])
    ensures !InsertsAreFree(run)
  {
    var last := |run| - 1;
    if n < last {
      assert run[..last][..n] == run[..n];
      NotFreeAt(run[..last], n);
    }
  }

  lemma OverlapDuplicates(run: seq<Action>, c: nat, m: nat, n: nat, p: nat, q: nat, email: string)
    requires Overlaps(run, c, m, n, p, q, email)
    ensures !EmailsUnique(Exec(EMPTY, run).db)
  {
    InsertTakes(run, m, q, email);
    TakenStays(run, m + 1, n, email);
    NotFreeAt(run, n);
    EmailsUniqueIffInsertsAreFree(run);
  }

  // ----- A duplicate comes from an overlap.

  lemma {:induction false} FindNotFree(run: seq<Action>) returns (n: nat)
    requires !InsertsAreFree(run)
    ensures n < |run| && !InsertIsFree(Before(run, n), run[n])
  {
    var last := |run| - 1;
    if InsertsAreFree(run[..last]) {
      n := last;
    } else {
      n := FindNotFree(run[..last]);
      assert run[..last][..n] == run[..n];
    }
  }

  /** What one step does to the standing of one call. */
  lemma PendingStep(s: State, a: Action, p: nat)
    requires p in Step(s, a).procs && Pending(Step(s, a).procs[p].pc)
    ensures p in s.procs && Step(s, a).procs[p].request == s.procs[p].request
    ensures Pending(s.procs[p].pc) ||
            (&& a.Next? && a.p == p && s.procs[p].alive && Fits(s.db, s.procs[p], a.picks)
             && s.procs[p].pc.CheckEmail? && !EmailTakenBy(s.db, EmailOf(s.procs[p].request)))
  {
    if a.Next? && a.p in s.procs && s.procs[a.p].alive && Fits(s.db, s.procs[a.p], a.picks) {
      EmailsAfter(s.db, s.procs[a.p].request, s.procs[a.p].pc, a.o, a.picks);
    }
  }

  /** A pending call has checked its e-mail, found it free, and been pending ever since. */
  ghost predicate PendingSince(run: seq<Action>, c: nat, n: nat, p: nat, email: string)
    requires n <= |run|
  {
    && c < n && ChecksAt(run, c, p, email) && !EmailTakenBy(Before(run, c).db, email)
    && forall k :: c < k <= n ==> p in Before(run, k).procs && Pending(Before(run, k).procs[p].pc)
  }

  lemma {:induction false} PendingChecked(run: seq<Action>, n: nat, p: nat) returns (c: nat)
    requires n <= |run| && p in Before(run, n).procs && Pending(Before(run, n).procs[p].pc)
    ensures PendingSince(run, c, n, p, EmailOf(Before(run, n).procs[p].request))
  {
    if n == 0 {
      assert false;
    }
    BeforeNext(run, n - 1);
    PendingStep(Before(run, n - 1), run[n - 1], p);
    if Pending(Before(run, n - 1).procs[p].pc) {
      c := PendingChecked(run, n - 1, p);
    } else {
      c := n - 1;
    }
  }

  /** Only an insert of a user takes an e-mail. */
  lemma {:induction false} TakenBetween(run: seq<Action>, c: nat, n: nat, email: string) returns (m: nat, q: nat)
    requires c <= n <= |run| && !EmailTakenBy(Before(run, c).db, email) && EmailTakenBy(Before(run, n).db, email)
    ensures c <= m < n && InsertsAt(run, m, q, email)
  {
    var last := n - 1;
    if EmailTakenBy(Before(run, last).db, email) {
      m, q := TakenBetween(run, c, last, email);
    } else {
      BeforeNext(run, last);
      m, q := last, run[last].p;
      TakenByStep(Before(run, last), run[last], email);
    }
  }

  lemma TakenByStep(s: State, a: Action, email: string)
    requires !EmailTakenBy(s.db, email) && EmailTakenBy(Step(s, a).db, email)
    ensures a.Next? && a.p in s.procs && s.procs[a.p].alive && Fits(s.db, s.procs[a.p], a.picks) && a.o.Executed()
    ensures s.procs[a.p].pc.InsertUser? && EmailOf(s.procs[a.p].request) == email && a.picks.id !in s.db.users
  {
    var u :| u in Step(s, a).db.users && Step(s, a).db.users[u].email == email;
    assert u in s.db.users ==> s.db.users[u].email != email;
    if a.Next? && a.p in s.procs && s.procs[a.p].alive && Fits(s.db, s.procs[a.p], a.picks) {
      EmailsAfter(s.db, s.procs[a.p].request, s.procs[a.p].pc, a.o, a.picks);
    }
  }

  /** A call that has inserted its user is no longer pending. */
  lemma InsertEndsPending(run: seq<Action>, m: nat, q: nat, email: string)
    requires InsertsAt(run, m, q, email)
    ensures q in Before(run, m + 1).procs && !Pending(Before(run, m + 1).procs[q].pc)
  {
    BeforeNext(run, m);
  }

  lemma DuplicateOverlaps(run: seq<Action>)
      returns (c: nat, m: nat, n: nat, p: nat, q: nat, email: string)
    requires !EmailsUnique(Exec(EMPTY, run).db)
    ensures Overlaps(run, c, m, n, p, q, email)
  {
    EmailsUniqueIffInsertsAreFree(run);
    n := FindNotFree(run);
    p := run[n].p;
    email := EmailOf(Before(run, n).procs[p].request);
    c := PendingChecked(run, n, p);
    m, q := TakenBetween(run, c, n, email);
    InsertEndsPending(run, m, q, email);
  }

  /** After any run, whatever fails, the e-mails are unique if and only if no registration checked an e-mail
      and inserted its user after another had inserted one with it in between. */
  lemma EmailsUniqueIffNoOverlap(run: seq<Action>)
    ensures EmailsUnique(Exec(EMPTY, run).db) <==> !exists c, m, n, p, q, email :: Overlaps(run, c, m, n, p, q, email)
  {
    if c, m, n, p, q, email :| Overlaps(run, c, m, n, p, q, email) {
      OverlapDuplicates(run, c, m, n, p, q, email);
    } else if !EmailsUnique(Exec(EMPTY, run).db) {
      var c, m, n, p, q, email := DuplicateOverlaps(run);
      assert false;
    }
  }

  // ----- Overlapping registrations.

  ghost predicate Reachable(s: State) {
    exists run :: Exec(EMPTY, run) == s
  }

  lemma Go(s: State, a: Action)
    requires Reachable(s)
    ensures Reachable(Step(s, a))
  {
    var run :| Exec(EMPTY, run) == s;
    assert (run + [a])[..|run + [a]| - 1] == run;
    assert Exec(EMPTY, run + [a]) == Step(s, a);
  }

  /** A registration that has passed its check reserves its slug and inserts its tenant row. */
  lemma GoTenant(s: State, p: nat, id: Uuid) returns (s': State)
    requires Reachable(s) && p in s.procs && s.procs[p].alive && s.procs[p].pc == ReserveSlug
    requires s.procs[p].request.slug !in s.db.slugs && id !in s.db.tenants
    ensures Reachable(s')
    ensures s'.procs == s.procs[p := s.procs[p].(pc := HashPassword(id))]
    ensures s'.db.users == s.db.users
    ensures s'.db.slugs == s.db.slugs + {s.procs[p].request.slug} && s'.db.tenants.Keys == s.db.tenants.Keys + {id}
  {
    var a := Next(p, Success, Picks(id, 0, ""));
    var s1 := Step(s, a);
    Go(s, a);
    s' := Step(s1, a);
    Go(s1, a);
  }

  /** It then hashes the password and inserts its user. */
  lemma GoUser(s: State, p: nat, id: Uuid) returns (s': State)
    requires Reachable(s) && p in s.procs && s.procs[p].alive && s.procs[p].pc == HashPassword(id) && id !in s.db.users
    ensures Reachable(s')
    ensures s'.procs == s.procs[p := s.procs[p].(pc := InitialKey(id))]
    ensures s'.db.users == s.db.users[id := User(EmailOf(s.procs[p].request), id)]
    ensures s'.db.slugs == s.db.slugs && s'.db.tenants == s.db.tenants
  {
    var a := Next(p, Success, Picks(id, 0, ""));
    var s1 := Step(s, a);
    Go(s, a);
    s' := Step(s1, a);
    Go(s1, a);
  }

  /** Two registrations with one e-mail and different slugs have both passed their check. */
  lemma GoChecks(email: string, slug1: string, slug2: string) returns (s': State)
    ensures Reachable(s') && s'.db == EMPTY.db
    ensures s'.procs == map[1 := Proc(Register(email, slug1), ReserveSlug, true),
            2 := Proc(Register(email, slug2), ReserveSlug, true)]
  {
    var check := Picks(0, 0, "");
    assert Exec(EMPTY, []) == EMPTY;
    Go(EMPTY, Call(1, Register(email, slug1)));
    var s1 := Step(EMPTY, Call(1, Register(email, slug1)));
    Go(s1, Call(2, Register(email, slug2)));
    var s2 := Step(s1, Call(2, Register(email, slug2)));
    Go(s2, Next(1, Success, check));
    var s3 := Step(s2, Next(1, Success, check));
    Go(s3, Next(2, Success, check));
    s' := Step(s3, Next(2, Success, check));
  }

  /** The LWT on the user row is keyed by a generated id and does not guard the e-mail: any two
      registrations with one e-mail and different slugs can overlap so that both succeed. */
  lemma OverlapDuplicatesEmail(email: string, slug1: string, slug2: string)
    requires slug1 != slug2
    ensures exists run, u, v :: u in Exec(EMPTY, run).db.users && v in Exec(EMPTY, run).db.users && u != v
              && Exec(EMPTY, run).db.users[u].email == email == Exec(EMPTY, run).db.users[v].email
  {
    var s4 := GoChecks(email, slug1, slug2);
    var s5 := GoTenant(s4, 1, 10);
    var s6 := GoUser(s5, 1, 10);
    var s7 := GoTenant(s6, 2, 20);
    var s8 := GoUser(s7, 2, 20);
    assert 10 in s8.db.users && 20 in s8.db.users && s8.db.users[10].email == s8.db.users[20].email;
    var run :| Exec(EMPTY, run) == s8;
    assert 10 in Exec(EMPTY, run).db.users;
  }
}

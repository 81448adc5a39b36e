// AllocateCIDRs and ReleaseTenantCIDRs as concurrent processes over cf.cidr_allocations
// (internal/provisioner/cidr.go). Every database statement is one atomic step; runs are
// arbitrary interleavings, with database errors and crashes between any two statements.

module CidrMachine {
  import opened Faults
  import opened CidrBlocks

  /** Where a call stands: the next statement it will execute, or how it ended. */
  datatype Pc =
    | Scan(i: nat)                            // about to claim pod block i
    | HasPod(i: nat)                          // pod block i claimed, about to claim service block i
    | Rollback(i: nat, fatal: bool)           // about to give pod block i back, then fail or scan on
    | Holding(i: nat)                         // returned the pair at index i
    | Failed(at: Block)                       // returned the error of the statement on this block
    | Exhausted                               // returned ErrCIDRExhausted
    | DropPod(i: nat)                         // releasing the pair: about to delete the pod row
    | DropSvc(i: nat, podErr: bool)           // releasing the pair: about to delete the service row
    | Released(i: nat, podErr: bool, svcErr: bool)

  datatype Proc = Proc(tenant: nat, pc: Pc, alive: bool)

  datatype State = State(rows: Table, procs: map<nat, Proc>)

  datatype Action =
    | Start(p: nat, tenant: nat)              // a new call of AllocateCIDRs
    | Statement(p: nat, o: Outcome)           // p executes its next database statement
    | Release(p: nat)                         // the holder of a pair calls ReleaseTenantCIDRs with it
    | Crash(p: nat)

  /** The scan loop's increment and test. */
  function Advance(i: nat): Pc {
    if i < MAX_TENANTS then Scan(i + 1) else Exhausted
  }

  /** One database statement of one call: the new table and the call's next position. */
  function Db(rows: Table, tenant: nat, pc: Pc, o: Outcome): (Table, Pc) {
    match pc
    case Scan(i) =>
      var (rows', applied) := InsertIfAbsent(rows, Pod(i), Row(tenant, POD), o);
      (rows', if o.Reported() then Failed(Pod(i)) else if applied then HasPod(i) else Advance(i))
    case HasPod(i) =>
      var (rows', applied) := InsertIfAbsent(rows, Svc(i), Row(tenant, SERVICE), o);
      (rows', if o.Reported() then Rollback(i, true) else if applied then Holding(i) else Rollback(i, false))
    case Rollback(i, fatal) =>
      // The error of this delete is discarded.
      (Delete(rows, Pod(i), o), if fatal then Failed(Svc(i)) else Advance(i))
    case DropPod(i) =>
      (Delete(rows, Pod(i), o), DropSvc(i, o.Reported()))
    case DropSvc(i, podErr) =>
      (Delete(rows, Svc(i), o), Released(i, podErr, o.Reported()))
    case _ =>
      (rows, pc)
  }

  /** One step of the system. An action that is not possible leaves the state alone. */
  function Step(s: State, a: Action): State {
    match a
    case Start(p, tenant) =>
      if p in s.procs then s else s.(procs := s.procs[p := Proc(tenant, Scan(1), true)])
    case Statement(p, o) =>
      if p in s.procs && s.procs[p].alive then
        var (rows', pc') := Db(s.rows, s.procs[p].tenant, s.procs[p].pc, o);
        State(rows', s.procs[p := s.procs[p].(pc := pc')])
      else s
    case Release(p) =>
      if p in s.procs && s.procs[p].alive && s.procs[p].pc.Holding? then
        s.(procs := s.procs[p := s.procs[p].(pc := DropPod(s.procs[p].pc.i))])
      else s
    case Crash(p) =>
      if p in s.procs then s.(procs := s.procs[p := s.procs[p].(alive := false)]) else s
  }

  /** The state after a run. */
  function Exec(s: State, run: seq<Action>): State {
    if run == [] then s else Step(Exec(s, run[..|run| - 1]), run[|run| - 1])
  }

  /** A table on which no call is in progress. */
  function Fresh(rows: Table): State {
    State(rows, map[])
  }

  lemma {:induction false} ExecConcat(s: State, run1: seq<Action>, run2: seq<Action>)
    ensures Exec(s, run1 + run2) == Exec(Exec(s, run1), run2)
  {
    if run2 == [] {
      assert run1 + run2 == run1;
    } else {
      var n := |run2| - 1;
      assert (run1 + run2)[..|run1 + run2| - 1] == run1 + run2[..n];
      ExecConcat(s, run1, run2[..n]);
    }
  }

  lemma ExecOne(s: State, run: seq<Action>, a: Action)
    ensures Exec(s, run + [a]) == Step(Exec(s, run), a)
  {
    assert (run + [a])[..|run + [a]| - 1] == run;
  }
}

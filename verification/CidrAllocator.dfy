// The allocator as the program it is: AllocateCIDRs and ReleaseTenantCIDRs over one table
// (internal/provisioner/cidr.go), each equal to one call of the machine run to its end.

module CidrAllocator {
  import opened Faults
  import opened CidrBlocks
  import opened CidrMachine
  import opened CidrAlone

  datatype Allocation = Allocated(pod: Block, svc: Block) | DbError(at: Block) | ErrCIDRExhausted

  /** What AllocateCIDRs returns at each end of a call. */
  function Returns(pc: Pc): Allocation
    requires pc.Holding? || pc.Failed? || pc.Exhausted?
  {
    match pc
    case Holding(i) => Allocated(Pod(i), Svc(i))
    case Failed(b) => DbError(b)
    case Exhausted => ErrCIDRExhausted
  }

  class CidrDb {
    var rows: Table
    var script: Script

    constructor (rows: Table, script: Script)
      ensures this.rows == rows && this.script == script
    {
      this.rows := rows;
      this.script := script;
    }

    method TryAllocate(b: Block, row: Row) returns (applied: bool, err: bool)
      modifies this
      ensures var (rows', written) := InsertIfAbsent(old(rows), b, row, Next(old(script)));
              rows == rows' && err == Next(old(script)).Reported() && applied == (written && !err)
      ensures script == Rest(old(script))
      ensures applied <==> b !in old(rows) && Next(old(script)).Success?
      ensures b in rows <==> b in old(rows) || Next(old(script)).Executed()
      ensures b in rows && b !in old(rows) ==> rows[b] == row
      ensures forall c :: c != b || b in old(rows) ==>
              (c in rows <==> c in old(rows)) && (c in rows ==> rows[c] == old(rows)[c])
    {
      var (rows', written) := InsertIfAbsent(rows, b, row, Next(script));
      rows := rows';
      err := Next(script).Reported();
      applied := written && !err;
      script := Rest(script);
    }

    method Release(b: Block) returns (err: bool)
      modifies this
      ensures rows == Delete(old(rows), b, Next(old(script)))
      ensures err == Next(old(script)).Reported() && script == Rest(old(script))
      ensures b in rows <==> b in old(rows) && Next(old(script)).CleanError?
      ensures forall c :: c in rows <==> c in old(rows) && (c == b ==> Next(old(script)).CleanError?)
      ensures forall c :: c in rows ==> rows[c] == old(rows)[c]
    {
      rows := Delete(rows, b, Next(script));
      err := Next(script).Reported();
      script := Rest(script);
    }
  }

  /** What is returned at index i, where the scan stops: the error seen there, or the pair. */
  predicate EndsWith(rows: Table, script: Script, i: nat, r: Allocation) {
    var n := Offset(rows, i);
    match r
    case DbError(b) =>
      if At(script, n).Reported() then b == Pod(i) else b == Svc(i) && At(script, n + 1).Reported()
    case Allocated(pod, svc) =>
      && Free(rows, i) && pod == Pod(i) && svc == Svc(i)
      && !At(script, n).Reported() && !At(script, n + 1).Reported()
    case ErrCIDRExhausted => false
  }

  lemma {:induction false} FirstStop(rows: Table, script: Script, i: nat) returns (j: nat)
    requires 1 <= i <= MAX_TENANTS + 1 && !Arrives(rows, script, i)
    ensures StopsAt(rows, script, j)
  {
    if Arrives(rows, script, i - 1) {
      j := i - 1;
    } else {
      j := FirstStop(rows, script, i - 1);
    }
  }

  /** What the scan comes to, for every table and every script of faults: it stops at the first index it does
      not pass, or reports exhaustion if there is none. Besides what it takes there it leaves only the pod
      blocks that it could not give back. */
  ghost predicate Scanned(rows: Table, tenant: nat, script: Script, rows': Table, r: Allocation) {
    if Arrives(rows, script, MAX_TENANTS + 1) then
      r == ErrCIDRExhausted && Gains(rows, rows', tenant, LeftBelow(rows, script, MAX_TENANTS + 1))
    else exists i :: ScannedTo(rows, tenant, script, i, rows', r)
  }

  ghost predicate ScannedTo(rows: Table, tenant: nat, script: Script, i: nat, rows': Table, r: Allocation) {
    && StopsAt(rows, script, i) && EndsWith(rows, script, i, r)
    && Gains(rows, rows', tenant, LeftBelow(rows, script, i) + TakenAt(rows, script, i))
  }

  lemma AloneScans(rows: Table, tenant: nat, script: Script)
    ensures var (rows', _, pc') := Alone(rows, tenant, Scan(1), script);
            (pc'.Holding? || pc'.Failed? || pc'.Exhausted?) && Scanned(rows, tenant, script, rows', Returns(pc'))
  {
    if Arrives(rows, script, MAX_TENANTS + 1) {
      AllocateExhausts(rows, tenant, script);
    } else {
      var i := FirstStop(rows, script, MAX_TENANTS + 1);
      AllocateEnds(rows, tenant, script, i);
      var (rows', _, pc') := Alone(rows, tenant, Scan(1), script);
      assert EndsWith(rows, script, i, Returns(pc'));
      assert ScannedTo(rows, tenant, script, i, rows', Returns(pc'));
    }
  }

  /** The scan: claim the pod block, then the service block at the same index, or roll back. It does
      to the table, and returns, exactly what a call of the machine does when it runs alone. */
  method ScanIndices(db: CidrDb, tenant: nat) returns (r: Allocation)
    modifies db
    ensures var (rows', script', pc') := Alone(old(db.rows), tenant, Scan(1), old(db.script));
            && db.rows == rows' && db.script == script'
            && (pc'.Holding? || pc'.Failed? || pc'.Exhausted?) && r == Returns(pc')
  {
    ghost var all := Alone(db.rows, tenant, Scan(1), db.script);
    for i := 1 to MAX_TENANTS + 1
      invariant Alone(db.rows, tenant, if i <= MAX_TENANTS then Scan(i) else Exhausted, db.script) == all
    {
      AloneStep(db.rows, tenant, Scan(i), db.script);
      var podApplied, podErr := db.TryAllocate(Pod(i), Row(tenant, POD));
      if podErr {
        return DbError(Pod(i));
      }
      if !podApplied {
        continue;
      }
      AloneStep(db.rows, tenant, HasPod(i), db.script);
      var svcApplied, svcErr := db.TryAllocate(Svc(i), Row(tenant, SERVICE));
      if svcErr {
        AloneStep(db.rows, tenant, Rollback(i, true), db.script);
        var _ := db.Release(Pod(i));
        return DbError(Svc(i));
      }
      if !svcApplied {
        AloneStep(db.rows, tenant, Rollback(i, false), db.script);
        var _ := db.Release(Pod(i));
        continue;
      }
      return Allocated(Pod(i), Svc(i));
    }
    return ErrCIDRExhausted;
  }

  /** AllocateCIDRs is that loop; so for every table and every script of faults it stops, and takes, what
      Scanned says. */
  method AllocateCIDRs(db: CidrDb, tenant: nat) returns (r: Allocation)
    modifies db
    ensures var (rows', script', pc') := Alone(old(db.rows), tenant, Scan(1), old(db.script));
            && db.rows == rows' && db.script == script'
            && (pc'.Holding? || pc'.Failed? || pc'.Exhausted?) && r == Returns(pc')
    ensures Scanned(old(db.rows), tenant, old(db.script), db.rows, r)
  {
    AloneScans(db.rows, tenant, db.script);
    r := ScanIndices(db, tenant);
  }

  /** Both deletes are attempted whatever the first one returns. Given the two blocks of one pair,
      this is the release of the machine. */
  method ReleaseTenantCIDRs(db: CidrDb, pod: Block, svc: Block) returns (podErr: bool, svcErr: bool)
    modifies db
    ensures old(db.script) == [] ==> db.rows == old(db.rows) - {pod, svc} && !podErr && !svcErr
    ensures forall b :: b in db.rows <==>
              && b in old(db.rows) && (b == pod ==> At(old(db.script), 0).CleanError?)
              && (b == svc ==> At(old(db.script), 1).CleanError?)
    ensures forall b :: b in db.rows ==> db.rows[b] == old(db.rows)[b]
    ensures db.rows == Delete(Delete(old(db.rows), pod, Next(old(db.script))), svc, Next(Rest(old(db.script))))
    ensures podErr == Next(old(db.script)).Reported() && svcErr == Next(Rest(old(db.script))).Reported()
    ensures forall i, tenant {:trigger Alone(old(db.rows), tenant, DropPod(i), old(db.script))} ::
            pod == Pod(i) && svc == Svc(i) ==>
              (db.rows, db.script, Released(i, podErr, svcErr)) ==
                  Alone(old(db.rows), tenant, DropPod(i), old(db.script))
  {
    ghost var rows, script := db.rows, db.script;
    podErr := db.Release(pod);
    svcErr := db.Release(svc);
    forall i: nat, tenant: nat | pod == Pod(i) && svc == Svc(i)
      ensures Alone(rows, tenant, DropPod(i), script) == (db.rows, db.script, Released(i, podErr, svcErr))
    {
      AloneStep(rows, tenant, DropPod(i), script);
      AloneStep(Delete(rows, pod, Next(script)), tenant, DropSvc(i, podErr), Rest(script));
    }
  }
}

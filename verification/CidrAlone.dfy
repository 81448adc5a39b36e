// A call of the allocator that nobody interrupts: what it does to the table as one function, what that comes
// to for every table and every script of faults, and that it is a run of the machine.

module CidrAlone {
  import opened Faults
  import opened CidrBlocks
  import opened CidrMachine

  // ----- One process of the machine, run to its end.

  predicate Ended(pc: Pc) {
    pc.Holding? || pc.Failed? || pc.Exhausted? || pc.Released?
  }

  /** How many statements the indices after i can still take. */
  function Beyond(i: nat): nat {
    if i <= MAX_TENANTS then 3 * (MAX_TENANTS - i) else 0
  }

  /** How many statements are left at most. */
  function Remaining(pc: Pc): nat {
    match pc
    case Scan(i) => Beyond(i) + 3
    case HasPod(i) => Beyond(i) + 2
    case Rollback(i, _) => Beyond(i) + 1
    case DropPod(_) => 2
    case DropSvc(_, _) => 1
    case _ => 0
  }

  /** The table, the rest of the script, and the end of a call that nobody interrupts. */
  function Alone(rows: Table, tenant: nat, pc: Pc, script: Script): (Table, Script, Pc)
    decreases Remaining(pc)
  {
    if Ended(pc) then (rows, script, pc)
    else
      var (rows', pc') := Db(rows, tenant, pc, Next(script));
      Alone(rows', tenant, pc', Rest(script))
  }

  /** One statement of a call that has not ended. */
  lemma AloneStep(rows: Table, tenant: nat, pc: Pc, script: Script)
    requires !Ended(pc)
    ensures var (rows', pc') := Db(rows, tenant, pc, Next(script));
            Alone(rows, tenant, pc, script) == Alone(rows', tenant, pc', Rest(script))
  {
  }

  // ----- What a call does alone.

  predicate Free(rows: Table, i: nat) {
    InRange(i) && Pod(i) !in rows && Svc(i) !in rows
  }

  /** From index i on, without faults: the least free index, and its two rows, or exhaustion. */
  lemma {:induction false} AloneFrom(rows: Table, tenant: nat, i: nat)
    requires InRange(i)
    ensures var (rows', script', pc') := Alone(rows, tenant, Scan(i), []);
            if pc'.Holding? then
              && i <= pc'.i && Free(rows, pc'.i) && (forall k :: i <= k < pc'.i ==> !Free(rows, k))
              && rows' == rows[Pod(pc'.i) := Row(tenant, POD)][Svc(pc'.i) := Row(tenant, SERVICE)]
            else
              pc'.Exhausted? && rows' == rows && forall k :: k >= i ==> !Free(rows, k)
    decreases MAX_TENANTS - i
  {
    var claimed := rows[Pod(i) := Row(tenant, POD)];
    AloneStep(rows, tenant, Scan(i), []);
    if Pod(i) !in rows {
      AloneStep(claimed, tenant, HasPod(i), []);
      if Svc(i) in rows {
        assert claimed - {Pod(i)} == rows;
        AloneStep(claimed, tenant, Rollback(i, false), []);
      }
    }
    if !Free(rows, i) && i < MAX_TENANTS {
      AloneFrom(rows, tenant, i + 1);
    }
  }

  /** Alone and without faults, AllocateCIDRs takes the least index with both blocks free, adds
      exactly those two rows, and reports exhaustion exactly when there is no such index. */
  lemma TakesTheLeastFreePair(rows: Table, tenant: nat)
    ensures var (rows', _, pc') := Alone(rows, tenant, Scan(1), []);
            && (forall k: nat :: pc' == Holding(k) <==> Free(rows, k) && forall l: nat :: 1 <= l < k ==> !Free(rows, l))
            && (pc' == Exhausted <==> forall k: nat :: !Free(rows, k))
            && (pc'.Holding? ==> rows' == rows[Pod(pc'.i) := Row(tenant, POD)][Svc(pc'.i) := Row(tenant, SERVICE)])
            && (!pc'.Holding? ==> rows' == rows)
  {
    AloneFrom(rows, tenant, 1);
    var pc' := Alone(rows, tenant, Scan(1), []).2;
    forall k: nat
      ensures pc' == Holding(k) <==> Free(rows, k) && forall l: nat :: 1 <= l < k ==> !Free(rows, l)
    {
      if Free(rows, k) && (forall l: nat :: 1 <= l < k ==> !Free(rows, l)) && pc'.Holding? {
        assert !(pc'.i < k) && !(k < pc'.i);
      }
    }
  }

  // ----- The same with faults: which statement is which, and where the scan stops.

  /** How many statements the scan spends on index i before it goes on or returns. */
  function Cost(rows: Table, i: nat): nat {
    if Pod(i) in rows then 1 else if Svc(i) in rows then 3 else 2
  }

  /** The number of the statement that claims pod block i. */
  function Offset(rows: Table, i: nat): nat {
    if i <= 1 then 0 else Offset(rows, i - 1) + Cost(rows, i - 1)
  }

  /** At index i no error is seen and the pair is not free: the scan goes on. */
  predicate Passes(rows: Table, script: Script, i: nat) {
    && !Free(rows, i) && At(script, Offset(rows, i)).Success?
    && (Pod(i) !in rows ==> At(script, Offset(rows, i) + 1).Success?)
  }

  predicate Arrives(rows: Table, script: Script, i: nat) {
    forall j :: 1 <= j < i ==> Passes(rows, script, j)
  }

  /** The scan claims pod block i, and its roll-back is not executed. */
  predicate IsLeft(rows: Table, script: Script, i: nat) {
    Pod(i) !in rows && !At(script, Offset(rows, i) + 2).Executed()
  }

  /** The blocks below i that the scan leaves behind. */
  function LeftBelow(rows: Table, script: Script, i: nat): set<Block> {
    set j: nat | 1 <= j < i && IsLeft(rows, script, j) :: Pod(j)
  }

  /** Exactly these blocks have been taken for the tenant, if they were not there; no other row differs. */
  predicate Gains(rows: Table, rows': Table, tenant: nat, blocks: set<Block>) {
    && rows'.Keys == rows.Keys + blocks
    && forall b :: b in rows' ==>
         rows'[b] == if b in rows then rows[b] else Row(tenant, if b.Pod? then POD else SERVICE)
  }

  lemma GainedElsewhere(rows: Table, rows1: Table, tenant: nat, blocks: set<Block>, b: Block)
    requires Gains(rows, rows1, tenant, blocks) && b !in blocks
    ensures b in rows1 <==> b in rows
  {
  }

  lemma NotLeftYet(rows: Table, script: Script, i: nat, b: Block)
    requires b.Svc? || b.i >= i
    ensures b !in LeftBelow(rows, script, i)
  {
  }

  lemma LeftAtOnce(rows: Table, script: Script, i: nat)
    requires i >= 1
    ensures LeftBelow(rows, script, i + 1) ==
            LeftBelow(rows, script, i) + if IsLeft(rows, script, i) then {Pod(i)} else {}
  {
  }

  /** The pod block is taken: one statement. */
  lemma PassTaken(rows: Table, tenant: nat, script: Script, i: nat, n: nat)
    requires Pod(i) in rows && At(script, n).Success?
    ensures Alone(rows, tenant, Scan(i), Drop(script, n)) == Alone(rows, tenant, Advance(i), Drop(script, n + 1))
  {
    Dropped(script, n);
    AloneStep(rows, tenant, Scan(i), Drop(script, n));
  }

  /** The table after a pod block was claimed and given back. */
  function GivenBack(rows: Table, tenant: nat, i: nat, o: Outcome): Table {
    Delete(rows[Pod(i) := Row(tenant, POD)], Pod(i), o)
  }

  /** The pod block is free and the service block taken: three statements. */
  lemma PassBack(rows: Table, tenant: nat, script: Script, i: nat, n: nat)
    requires Pod(i) !in rows && Svc(i) in rows && At(script, n).Success? && At(script, n + 1).Success?
    ensures Alone(rows, tenant, Scan(i), Drop(script, n)) ==
            Alone(GivenBack(rows, tenant, i, At(script, n + 2)), tenant, Advance(i), Drop(script, n + 3))
  {
    var claimed := rows[Pod(i) := Row(tenant, POD)];
    Dropped(script, n);
    AloneStep(rows, tenant, Scan(i), Drop(script, n));
    Dropped(script, n + 1);
    AloneStep(claimed, tenant, HasPod(i), Drop(script, n + 1));
    Dropped(script, n + 2);
    AloneStep(claimed, tenant, Rollback(i, false), Drop(script, n + 2));
  }

  lemma GainsGivenBack(rows: Table, rows1: Table, tenant: nat, blocks: set<Block>, i: nat, o: Outcome)
    requires Gains(rows, rows1, tenant, blocks) && Pod(i) !in rows1
    ensures Gains(rows, GivenBack(rows1, tenant, i, o), tenant, blocks + if o.Executed() then {} else {Pod(i)})
  {
  }

  function ScanOrEnd(i: nat): Pc {
    if i <= MAX_TENANTS then Scan(i) else Exhausted
  }

  /** One index that the scan passes. */
  lemma PassOne(rows: Table, rows1: Table, tenant: nat, script: Script, i: nat) returns (rows2: Table)
    requires InRange(i) && Passes(rows, script, i) && Gains(rows, rows1, tenant, LeftBelow(rows, script, i))
    ensures Gains(rows, rows2, tenant, LeftBelow(rows, script, i + 1))
    ensures Alone(rows1, tenant, ScanOrEnd(i), Drop(script, Offset(rows, i))) ==
            Alone(rows2, tenant, ScanOrEnd(i + 1), Drop(script, Offset(rows, i + 1)))
  {
    var left, n := LeftBelow(rows, script, i), Offset(rows, i);
    LeftAtOnce(rows, script, i);
    NotLeftYet(rows, script, i, Pod(i));
    NotLeftYet(rows, script, i, Svc(i));
    GainedElsewhere(rows, rows1, tenant, left, Pod(i));
    GainedElsewhere(rows, rows1, tenant, left, Svc(i));
    if Pod(i) in rows {
      PassTaken(rows1, tenant, script, i, n);
      rows2 := rows1;
    } else {
      PassBack(rows1, tenant, script, i, n);
      rows2 := GivenBack(rows1, tenant, i, At(script, n + 2));
      GainsGivenBack(rows, rows1, tenant, left, i, At(script, n + 2));
    }
  }

  /** From one index to another, all of them passed, the statements between are spent, and only the blocks are
      left behind that the scan failed to give back. */
  lemma {:induction false} Scans(rows: Table, rows0: Table, tenant: nat, script: Script, first: nat, i: nat)
      returns (rows1: Table)
    requires 1 <= first <= i <= MAX_TENANTS + 1 && Arrives(rows, script, i)
    requires Gains(rows, rows0, tenant, LeftBelow(rows, script, first))
    ensures Gains(rows, rows1, tenant, LeftBelow(rows, script, i))
    ensures Alone(rows0, tenant, ScanOrEnd(first), Drop(script, Offset(rows, first))) ==
            Alone(rows1, tenant, ScanOrEnd(i), Drop(script, Offset(rows, i)))
    decreases i
  {
    if i == first {
      rows1 := rows0;
    } else {
      var k := i - 1;
      ArrivesOneLess(rows, script, k);
      rows1 := Scans(rows, rows0, tenant, script, first, k);
      rows1 := PassOne(rows, rows1, tenant, script, k);
    }
  }

  lemma ArrivesOneLess(rows: Table, script: Script, i: nat)
    requires i >= 1 && Arrives(rows, script, i + 1)
    ensures Arrives(rows, script, i) && Passes(rows, script, i)
  {
  }

  lemma NothingLeft(rows: Table, tenant: nat, script: Script)
    ensures Gains(rows, rows, tenant, LeftBelow(rows, script, 1)) && Drop(script, Offset(rows, 1)) == script
  {
    assert LeftBelow(rows, script, 1) == {};
  }

  /** What the scan returns at the first index it does not pass: statement n is the insert of the pod row,
      n + 1 that of the service row. */
  function EndAt(rows: Table, script: Script, i: nat): Pc {
    var n := Offset(rows, i);
    if At(script, n).Reported() then Failed(Pod(i))
    else if At(script, n + 1).Reported() then Failed(Svc(i))
    else Holding(i)
  }

  /** The blocks of index i it then leaves taken: both, or those whose claim or roll-back ended with an
      error that does not say what happened. */
  function TakenAt(rows: Table, script: Script, i: nat): set<Block> {
    var n := Offset(rows, i);
    match EndAt(rows, script, i)
    case Failed(Pod(_)) => if At(script, n).DirtyError? then {Pod(i)} else {}
    case Failed(Svc(_)) =>
      (if At(script, n + 1).DirtyError? then {Svc(i)} else {}) + if At(script, n + 2).CleanError? then {Pod(i)} else {}
    case _ => {Pod(i), Svc(i)}
  }

  /** The error of the first insert. */
  lemma StopsAtPod(rows: Table, tenant: nat, script: Script, i: nat, n: nat)
    requires At(script, n).Reported()
    ensures var (rows', _, pc') := Alone(rows, tenant, Scan(i), Drop(script, n));
            pc' == Failed(Pod(i)) && Gains(rows, rows', tenant, if At(script, n).DirtyError? then {Pod(i)} else {})
  {
    Dropped(script, n);
    AloneStep(rows, tenant, Scan(i), Drop(script, n));
  }

  /** The error of the second, and the roll-back. */
  lemma StopsAtSvc(rows: Table, tenant: nat, script: Script, i: nat, n: nat)
    requires At(script, n).Success? && At(script, n + 1).Reported() && Pod(i) !in rows
    ensures var (rows', _, pc') := Alone(rows, tenant, Scan(i), Drop(script, n));
            && pc' == Failed(Svc(i))
            && Gains(rows, rows', tenant, (if At(script, n + 1).DirtyError? then {Svc(i)} else {})
                     + if At(script, n + 2).CleanError? then {Pod(i)} else {})
  {
    var claimed := rows[Pod(i) := Row(tenant, POD)];
    Dropped(script, n);
    AloneStep(rows, tenant, Scan(i), Drop(script, n));
    Dropped(script, n + 1);
    AloneStep(claimed, tenant, HasPod(i), Drop(script, n + 1));
    Dropped(script, n + 2);
    var (both, _) := InsertIfAbsent(claimed, Svc(i), Row(tenant, SERVICE), At(script, n + 1));
    AloneStep(both, tenant, Rollback(i, true), Drop(script, n + 2));
  }

  lemma StopsWithPair(rows: Table, tenant: nat, script: Script, i: nat, n: nat)
    requires At(script, n).Success? && At(script, n + 1).Success? && Pod(i) !in rows && Svc(i) !in rows
    ensures var (rows', _, pc') := Alone(rows, tenant, Scan(i), Drop(script, n));
            pc' == Holding(i) && Gains(rows, rows', tenant, {Pod(i), Svc(i)})
  {
    var claimed := rows[Pod(i) := Row(tenant, POD)];
    Dropped(script, n);
    AloneStep(rows, tenant, Scan(i), Drop(script, n));
    Dropped(script, n + 1);
    AloneStep(claimed, tenant, HasPod(i), Drop(script, n + 1));
  }

  lemma GainsMore(rows: Table, rows1: Table, rows2: Table, tenant: nat, first: set<Block>, second: set<Block>)
    requires Gains(rows, rows1, tenant, first) && Gains(rows1, rows2, tenant, second)
    ensures Gains(rows, rows2, tenant, first + second)
  {
  }

  lemma StopsThere(rows: Table, rows1: Table, tenant: nat, script: Script, i: nat)
    requires InRange(i) && !Passes(rows, script, i) && Gains(rows, rows1, tenant, LeftBelow(rows, script, i))
    ensures var (rows', _, pc') := Alone(rows1, tenant, Scan(i), Drop(script, Offset(rows, i)));
            && pc' == EndAt(rows, script, i)
            && Gains(rows, rows', tenant, LeftBelow(rows, script, i) + TakenAt(rows, script, i))
  {
    var left, n := LeftBelow(rows, script, i), Offset(rows, i);
    NotLeftYet(rows, script, i, Pod(i));
    NotLeftYet(rows, script, i, Svc(i));
    GainedElsewhere(rows, rows1, tenant, left, Pod(i));
    GainedElsewhere(rows, rows1, tenant, left, Svc(i));
    if At(script, n).Reported() {
      StopsAtPod(rows1, tenant, script, i, n);
    } else if At(script, n + 1).Reported() {
      StopsAtSvc(rows1, tenant, script, i, n);
    } else {
      StopsWithPair(rows1, tenant, script, i, n);
    }
    var rows' := Alone(rows1, tenant, Scan(i), Drop(script, n)).0;
    GainsMore(rows, rows1, rows', tenant, left, TakenAt(rows, script, i));
  }

  /** For every table and every script of faults: the scan stops at the first index it does not pass, with
      the pair if no error is seen there and else with the error of that statement, and takes no rows but
      those of the pair and those that an error kept it from giving back. */
  lemma AllocateEnds(rows: Table, tenant: nat, script: Script, i: nat)
    requires StopsAt(rows, script, i)
    ensures var (rows', _, pc') := Alone(rows, tenant, Scan(1), script);
            && pc' == EndAt(rows, script, i) && (pc'.Holding? ==> Free(rows, i))
            && Gains(rows, rows', tenant, LeftBelow(rows, script, i) + TakenAt(rows, script, i))
  {
    NothingLeft(rows, tenant, script);
    var rows1 := Scans(rows, rows, tenant, script, 1, i);
    StopsThere(rows, rows1, tenant, script, i);
  }

  /** And if it passes every index it reports exhaustion. */
  lemma AllocateExhausts(rows: Table, tenant: nat, script: Script)
    requires Arrives(rows, script, MAX_TENANTS + 1)
    ensures var (rows', _, pc') := Alone(rows, tenant, Scan(1), script);
            pc' == Exhausted && Gains(rows, rows', tenant, LeftBelow(rows, script, MAX_TENANTS + 1))
  {
    NothingLeft(rows, tenant, script);
    var _ := Scans(rows, rows, tenant, script, 1, MAX_TENANTS + 1);
  }

  /** The first index the scan does not pass. */
  predicate StopsAt(rows: Table, script: Script, i: nat) {
    InRange(i) && Arrives(rows, script, i) && !Passes(rows, script, i)
  }

  /** Releasing the pair a call was given restores the table. */
  lemma ReleaseUndoesAllocate(rows: Table, tenant: nat)
    requires Alone(rows, tenant, Scan(1), []).2.Holding?
    ensures var (rows', _, pc') := Alone(rows, tenant, Scan(1), []);
            Alone(rows', tenant, DropPod(pc'.i), []) == (rows, [], Released(pc'.i, false, false))
  {
    TakesTheLeastFreePair(rows, tenant);
    var (rows', _, pc') := Alone(rows, tenant, Scan(1), []);
    var i := pc'.i;
    var half := rows' - {Pod(i)};
    assert half == rows[Svc(i) := Row(tenant, SERVICE)] && half - {Svc(i)} == rows;
    assert Db(rows', tenant, DropPod(i), Success) == (half, DropSvc(i, false));
    assert Db(half, tenant, DropSvc(i, false), Success) == (rows, Released(i, false, false));
    assert Alone(rows, tenant, Released(i, false, false), []) == (rows, [], Released(i, false, false));
    assert Alone(half, tenant, DropSvc(i, false), []) == (rows, [], Released(i, false, false));
  }

  /** What a call does alone is a run of the machine in which only that call moves, so everything
      that holds of every run holds of the program. */
  lemma {:induction false} AloneIsARun(s: State, p: nat, script: Script)
    requires p in s.procs && s.procs[p].alive
    ensures exists run :: ByItself(s, p, script, run)
    decreases Remaining(s.procs[p].pc)
  {
    var proc := s.procs[p];
    if Ended(proc.pc) {
      assert s.procs[p := proc] == s.procs;
      assert ByItself(s, p, script, []);
    } else {
      var first := Statement(p, Next(script));
      var s1 := Step(s, first);
      AloneStep(s.rows, proc.tenant, proc.pc, script);
      AloneIsARun(s1, p, Rest(script));
      var rest :| ByItself(s1, p, Rest(script), rest);
      FirstOfARun(s, p, script, rest);
    }
  }

  /** The run moves only p, and takes s where p alone takes it. */
  ghost predicate ByItself(s: State, p: nat, script: Script, run: seq<Action>)
    requires p in s.procs
  {
    && (forall a :: a in run ==> a.Statement? && a.p == p)
    && var (rows', _, pc') := Alone(s.rows, s.procs[p].tenant, s.procs[p].pc, script);
       Exec(s, run) == State(rows', s.procs[p := s.procs[p].(pc := pc')])
  }

  lemma FirstOfARun(s: State, p: nat, script: Script, rest: seq<Action>)
    requires p in s.procs && s.procs[p].alive && !Ended(s.procs[p].pc)
    requires p in Step(s, Statement(p, Next(script))).procs
    requires ByItself(Step(s, Statement(p, Next(script))), p, Rest(script), rest)
    ensures ByItself(s, p, script, [Statement(p, Next(script))] + rest)
  {
    var first := Statement(p, Next(script));
    var s1 := Step(s, first);
    AloneStep(s.rows, s.procs[p].tenant, s.procs[p].pc, script);
    ExecConcat(s, [first], rest);
    ExecOne(s, [], first);
    assert [] + [first] == [first];
    var proc := s1.procs[p].(pc := Alone(s.rows, s.procs[p].tenant, s.procs[p].pc, script).2);
    assert s1.procs[p := proc] == s.procs[p := proc];
  }
}

// What every interleaving of allocations and releases keeps.

module CidrSafety {
  import opened Faults
  import opened CidrBlocks
  import opened CidrMachine

  /** The index of the pod row a call at this position owns; 0 (never handed out) for none. */
  function PodOf(pc: Pc): nat {
    match pc
    case HasPod(i) => i
    case Rollback(i, _) => i
    case Holding(i) => i
    case DropPod(i) => i
    case _ => 0
  }

  /** The index of the service row a call at this position owns; 0 for none. */
  function SvcOf(pc: Pc): nat {
    match pc
    case Holding(i) => i
    case DropPod(i) => i
    case DropSvc(i, _) => i
    case _ => 0
  }

  ghost predicate InBounds(pc: Pc) {
    match pc
    case Exhausted => true
    case Failed(b) => InRange(b.i)
    case _ => InRange(pc.i)
  }

  /** What a call owns is in the table, under its own tenant. */
  ghost predicate Backed(rows: Table, proc: Proc) {
    && InBounds(proc.pc)
    && (PodOf(proc.pc) != 0 ==>
          Pod(PodOf(proc.pc)) in rows && rows[Pod(PodOf(proc.pc))] == Row(proc.tenant, POD))
    && (SvcOf(proc.pc) != 0 ==>
          Svc(SvcOf(proc.pc)) in rows && rows[Svc(SvcOf(proc.pc))] == Row(proc.tenant, SERVICE))
  }

  /** Two calls own nothing in common. */
  ghost predicate Apart(a: Pc, b: Pc) {
    && (PodOf(a) == PodOf(b) ==> PodOf(a) == 0)
    && (SvcOf(a) == SvcOf(b) ==> SvcOf(a) == 0)
  }

  ghost predicate Inv(s: State) {
    && (forall p :: p in s.procs ==> Backed(s.rows, s.procs[p]))
    && (forall p, q :: p in s.procs && q in s.procs && p != q ==> Apart(s.procs[p].pc, s.procs[q].pc))
  }

  /** One statement of one call p leaves every other call's rows alone and keeps p's own books. */
  lemma DbKeepsInv(s: State, p: nat, o: Outcome)
    requires Inv(s) && p in s.procs && s.procs[p].alive
    ensures Inv(Step(s, Statement(p, o)))
  {
    var s' := Step(s, Statement(p, o));
    forall q | q in s'.procs
      ensures Backed(s'.rows, s'.procs[q])
      ensures q != p ==> Apart(s'.procs[p].pc, s'.procs[q].pc)
    {
      assert Backed(s.rows, s.procs[q]) && Backed(s.rows, s.procs[p]);
      if q != p {
        assert Apart(s.procs[p].pc, s.procs[q].pc);
      }
    }
  }

  lemma StepKeepsInv(s: State, a: Action)
    requires Inv(s)
    ensures Inv(Step(s, a))
  {
    if a.Statement? && a.p in s.procs && s.procs[a.p].alive {
      DbKeepsInv(s, a.p, a.o);
    } else {
      var s' := Step(s, a);
      forall q | q in s'.procs
        ensures Backed(s'.rows, s'.procs[q])
      {
        assert q in s.procs ==> Backed(s.rows, s.procs[q]);
      }
    }
  }

  lemma {:induction false} RunKeepsInv(s: State, run: seq<Action>)
    requires Inv(s)
    ensures Inv(Exec(s, run))
  {
    if run != [] {
      RunKeepsInv(s, run[..|run| - 1]);
      StepKeepsInv(Exec(s, run[..|run| - 1]), run[|run| - 1]);
    }
  }

  /** Whatever the database and the scheduler do, two calls that hold pairs hold different
      indices, each finds its own two rows in the table, and no address lies in a block of both. */
  lemma NoSharedAddress(rows: Table, run: seq<Action>, p: nat, q: nat, address: nat)
    requires var s := Exec(Fresh(rows), run);
             p in s.procs && q in s.procs && p != q && s.procs[p].pc.Holding? && s.procs[q].pc.Holding?
    ensures var s := Exec(Fresh(rows), run);
            var (i, j) := (s.procs[p].pc.i, s.procs[q].pc.i);
            && i != j && InRange(i) && InRange(j)
            && Pod(i) in s.rows && s.rows[Pod(i)] == Row(s.procs[p].tenant, POD)
            && Svc(i) in s.rows && s.rows[Svc(i)] == Row(s.procs[p].tenant, SERVICE)
            && !((Contains(Pod(i), address) || Contains(Svc(i), address))
                 && (Contains(Pod(j), address) || Contains(Svc(j), address)))
  {
    RunKeepsInv(Fresh(rows), run);
    var s := Exec(Fresh(rows), run);
    assert Backed(s.rows, s.procs[p]) && Backed(s.rows, s.procs[q]) && Apart(s.procs[p].pc, s.procs[q].pc);
    var i, j := s.procs[p].pc.i, s.procs[q].pc.i;
    RangesDisjoint(Pod(i), Pod(j), address);
    RangesDisjoint(Pod(i), Svc(j), address);
    RangesDisjoint(Svc(i), Pod(j), address);
    RangesDisjoint(Svc(i), Svc(j), address);
  }

  // ----- No delete touches a row that is not the caller's own, and nothing is overwritten.

  ghost predicate Owns(pc: Pc, b: Block) {
    b.i != 0 && if b.Pod? then PodOf(pc) == b.i else SvcOf(pc) == b.i
  }

  /** Release deletes by CIDR with no owner check, yet in every run a row leaves the table only by
      a statement of the call that owns it, and a row that stays keeps its holder and type. */
  lemma RowsLeaveByTheirOwner(rows: Table, run: seq<Action>, a: Action, b: Block)
    requires b in Exec(Fresh(rows), run).rows
    ensures var (s, s') := (Exec(Fresh(rows), run), Step(Exec(Fresh(rows), run), a));
            && (b in s'.rows ==> s'.rows[b] == s.rows[b])
            && (b !in s'.rows ==>
                  a.Statement? && a.p in s.procs && Owns(s.procs[a.p].pc, b) && s.rows[b].tenant == s.procs[a.p].tenant)
  {
    RunKeepsInv(Fresh(rows), run);
    var s := Exec(Fresh(rows), run);
    if a.Statement? && a.p in s.procs {
      assert Backed(s.rows, s.procs[a.p]);
    }
  }

  // ----- Conservation when no statement reports an error.

  ghost predicate Owned(s: State, b: Block) {
    exists p :: p in s.procs && Owns(s.procs[p].pc, b)
  }

  ghost predicate ErrorFree(a: Action) {
    a.Statement? ==> a.o.Success?
  }

  /** A block is in the table if it was there before the run or a call owns it now, not both. */
  ghost predicate Accounted(initial: Table, s: State, b: Block) {
    && (b in s.rows <==> b in initial || Owned(s, b))
    && (b in initial ==> !Owned(s, b) && s.rows[b] == initial[b])
  }

  /** One step, seen from one block and the moving call alone. */
  lemma StepAtBlock(s: State, a: Action, b: Block)
    requires Inv(s) && ErrorFree(a)
    ensures var s' := Step(s, a);
            && (b in s.rows && b in s'.rows ==> s'.rows[b] == s.rows[b])
            && (a.p !in s'.procs ==> s' == s)
            && (a.p in s'.procs ==>
                  var before := a.p in s.procs && Owns(s.procs[a.p].pc, b);
                  var after := Owns(s'.procs[a.p].pc, b);
                  if before then b in s.rows && (b in s'.rows <==> after)
                  else (b in s'.rows <==> b in s.rows || after) && (b in s.rows ==> !after))
  {
    if a.p in s.procs {
      assert Backed(s.rows, s.procs[a.p]);
    }
  }

  lemma StepKeepsAccounts(initial: Table, s: State, a: Action, b: Block)
    requires Inv(s) && ErrorFree(a) && Accounted(initial, s, b)
    ensures Accounted(initial, Step(s, a), b)
  {
    var s' := Step(s, a);
    StepAtBlock(s, a, b);
    if a.p in s'.procs {
      if a.p in s.procs && Owns(s.procs[a.p].pc, b) {
        assert Owned(s, b);
        OnlyOwner(s, a, b);
      } else {
        OthersKeep(s, a, b);
      }
    }
  }

  /** When the owner p of a block moves, the block stays owned exactly if p still owns it. */
  lemma OnlyOwner(s: State, a: Action, b: Block)
    requires Inv(s) && a.p in s.procs && Owns(s.procs[a.p].pc, b)
    ensures var s' := Step(s, a); a.p in s'.procs && (Owned(s', b) <==> Owns(s'.procs[a.p].pc, b))
  {
    var s' := Step(s, a);
    forall q | q in s'.procs && q != a.p
      ensures !Owns(s'.procs[q].pc, b)
    {
      assert Apart(s.procs[q].pc, s.procs[a.p].pc);
    }
  }

  lemma OthersKeep(s: State, a: Action, b: Block)
    requires a.p in Step(s, a).procs && !(a.p in s.procs && Owns(s.procs[a.p].pc, b))
    ensures var s' := Step(s, a); Owned(s', b) <==> Owned(s, b) || Owns(s'.procs[a.p].pc, b)
  {
    var s' := Step(s, a);
    if Owned(s, b) {
      var q :| q in s.procs && Owns(s.procs[q].pc, b);
      assert q in s'.procs && Owns(s'.procs[q].pc, b);
    }
  }

  /** Conservation: in an error-free run, crashes and releases included, the rows of the table are
      the initial rows, unchanged, and one row for each block a call owns; nothing leaks. */
  lemma {:induction false} NothingLeaks(initial: Table, run: seq<Action>, b: Block)
    requires forall a :: a in run ==> ErrorFree(a)
    ensures Accounted(initial, Exec(Fresh(initial), run), b)
  {
    if run != [] {
      var n := |run| - 1;
      NothingLeaks(initial, run[..n], b);
      RunKeepsInv(Fresh(initial), run[..n]);
      StepKeepsAccounts(initial, Exec(Fresh(initial), run[..n]), run[n], b);
    }
  }
}

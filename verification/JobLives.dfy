// The life of every job row, as the two job tables alone determine it: which statements a caller
// may issue so that three unconditional writes out of four still give one clean life per job.

module JobLives {
  import opened Faults
  import opened Options
  import opened Jobs

  predicate UnderNil(key: IdemKey) {
    key.ProvisionVpc?
  }

  /** Slots and the jobs made for them match one to one, and only such jobs have rows. */
  ghost predicate IdsOk(q: Queue) {
    && NIL !in q.minted
    && (forall k :: k in q.slots ==>
        q.slots[k] in q.origin && q.origin[q.slots[k]] == k && (k.owner == NIL <==> UnderNil(k.key)))
    && (forall j :: j in q.origin ==> j in q.minted && q.origin[j] in q.slots && q.slots[q.origin[j]] == j)
    && (forall id :: Wrote(q, id) != [] ==> id.job in q.origin)
  }

  /** A row exists once it has been written, and its status is the last one written. */
  ghost predicate RowOk(q: Queue, id: JobId) {
    if Wrote(q, id) == [] then id !in q.jobs
    else id in q.jobs && q.jobs[id].status == Wrote(q, id)[|Wrote(q, id)| - 1]
  }

  ghost predicate QueuedLife(w: seq<JobStatus>) {
    w == [] || w == [QUEUED] || w == [QUEUED, PROVISIONING]
  }

  /** The lives a job's rows can live, given the slot it was made for. A deprovisioning job has one
      row. A provisioning job has one under NIL, which never gets READY, and, once the NIL row has
      stopped at PROVISIONING, at most terminal ones elsewhere. */
  ghost predicate JobLife(q: Queue, k: Slot, job: Uuid) {
    var home := Wrote(q, JobId(k.owner, job));
    if UnderNil(k.key) then
      && (QueuedLife(home) || home == [QUEUED, PROVISIONING, FAILED])
      && forall t :: t != k.owner ==>
           var w := Wrote(q, JobId(t, job));
           w == [] || ((w == [READY] || w == [FAILED]) && home == [QUEUED, PROVISIONING])
    else
      && (QueuedLife(home) || home == [QUEUED, PROVISIONING, READY] || home == [QUEUED, PROVISIONING, FAILED])
      && forall t :: t != k.owner ==> Wrote(q, JobId(t, job)) == []
  }

  ghost predicate QueueOk(q: Queue) {
    && IdsOk(q)
    && (forall id :: RowOk(q, id))
    && (forall k :: k in q.slots ==> JobLife(q, k, q.slots[k]))
  }

  // ----- What a caller must know before each statement.

  ghost predicate Holds(q: Queue, k: Slot, job: Uuid) {
    k in q.slots && q.slots[k] == job
  }

  /** The slot is won and no row of the job written. */
  ghost predicate Unwritten(q: Queue, k: Slot, job: Uuid) {
    Holds(q, k, job) && forall t :: Wrote(q, JobId(t, job)) == []
  }

  /** The job is claimed and its end not recorded: nothing but the claim is written to any row. */
  ghost predicate Running(q: Queue, k: Slot, job: Uuid) {
    && Holds(q, k, job)
    && Wrote(q, JobId(k.owner, job)) == [QUEUED, PROVISIONING]
    && forall t :: t != k.owner ==> Wrote(q, JobId(t, job)) == []
  }

  /** Nothing is forgotten, and of all jobs only the given one is written to. */
  ghost predicate Touches(q: Queue, q': Queue, job: Uuid) {
    && (forall k :: k in q.slots ==> k in q'.slots && q'.slots[k] == q.slots[k])
    && (forall id: JobId :: id.job != job ==> Wrote(q', id) == Wrote(q, id))
  }

  lemma PutIsLocal(q: Queue, id: JobId, row: Job)
    ensures Touches(q, Put(q, id, row), id.job)
    ensures forall i :: Wrote(Put(q, id, row), i) == if i == id then Wrote(q, id) + [row.status] else Wrote(q, i)
  {
  }

  /** A write keeps the tables in order if its job still lives one of its lives. */
  lemma PutKeeps(q: Queue, k: Slot, id: JobId, row: Job)
    requires QueueOk(q) && Holds(q, k, id.job) && JobLife(Put(q, id, row), k, id.job)
    ensures QueueOk(Put(q, id, row)) && Touches(q, Put(q, id, row), id.job)
  {
    var q' := Put(q, id, row);
    PutIsLocal(q, id, row);
    forall i
      ensures RowOk(q', i)
    {
      assert RowOk(q, i);
    }
    forall l | l in q'.slots
      ensures JobLife(q', l, q'.slots[l])
    {
      assert JobLife(q, l, q.slots[l]);
      assert q.origin[q.slots[l]] == l && q.origin[id.job] == k;
    }
  }

  lemma NeverWritten(q: Queue, job: Uuid)
    requires IdsOk(q) && job !in q.origin
    ensures forall t :: Wrote(q, JobId(t, job)) == []
  {
    forall t
      ensures Wrote(q, JobId(t, job)) == []
    {
      assert JobId(t, job).job !in q.origin;
    }
  }

  /** The rows do not see a change of the slot table. */
  lemma SameRows(q: Queue, q': Queue)
    requires q'.jobs == q.jobs && q'.written == q.written
    ensures forall id :: Wrote(q', id) == Wrote(q, id) && (RowOk(q', id) <==> RowOk(q, id))
    ensures forall k, job :: JobLife(q', k, job) <==> JobLife(q, k, job)
  {
  }

  lemma MintKeeps(q: Queue, newId: Uuid)
    requires QueueOk(q) && newId != NIL
    ensures QueueOk(q.(minted := q.minted + {newId}))
  {
    SameRows(q, q.(minted := q.minted + {newId}));
  }

  /** A slot nobody holds, taken with a new id. */
  function Taken(q: Queue, k: Slot, newId: Uuid): Queue {
    q.(slots := q.slots[k := newId], minted := q.minted + {newId}, origin := q.origin[newId := k])
  }

  lemma TakenIdsOk(q: Queue, k: Slot, newId: Uuid)
    requires IdsOk(q) && newId != NIL && newId !in q.minted && k !in q.slots && (k.owner == NIL <==> UnderNil(k.key))
    ensures IdsOk(Taken(q, k, newId)) && newId !in q.origin
  {
    var q' := Taken(q, k, newId);
    forall l | l in q'.slots
      ensures q'.slots[l] in q'.origin && q'.origin[q'.slots[l]] == l
    {
      assert l != k ==> q.slots[l] in q.minted;
    }
    assert forall id :: Wrote(q', id) == Wrote(q, id);
  }

  lemma TakenKeeps(q: Queue, k: Slot, newId: Uuid)
    requires QueueOk(q) && newId != NIL && newId !in q.minted && k !in q.slots && (k.owner == NIL <==> UnderNil(k.key))
    ensures QueueOk(Taken(q, k, newId)) && Unwritten(Taken(q, k, newId), k, newId)
  {
    var q' := Taken(q, k, newId);
    TakenIdsOk(q, k, newId);
    SameRows(q, q');
    NeverWritten(q, newId);
    assert JobLife(q, k, newId);
    forall l | l in q'.slots
      ensures JobLife(q', l, q'.slots[l])
    {
      assert l != k ==> JobLife(q, l, q.slots[l]);
    }
  }

  lemma TakeSlotKeeps(q: Queue, k: Slot, newId: Uuid, o: Outcome)
    requires QueueOk(q) && newId != NIL && newId !in q.minted && (k.owner == NIL <==> UnderNil(k.key))
    ensures var q' := TakeSlot(q, k, newId, o);
            && QueueOk(q') && Touches(q, q', newId)
            && (o.Executed() && k !in q.slots ==> Unwritten(q', k, newId))
  {
    if o.Executed() && k !in q.slots {
      TakenKeeps(q, k, newId);
      assert TakeSlot(q, k, newId, o) == Taken(q, k, newId);
    } else {
      MintKeeps(q, newId);
      assert TakeSlot(q, k, newId, o) == q.(minted := q.minted + {newId});
    }
  }

  lemma InsertKeeps(q: Queue, k: Slot, job: Uuid, o: Outcome)
    requires QueueOk(q) && Unwritten(q, k, job)
    ensures QueueOk(InsertQueued(q, JobId(k.owner, job), k.key, o))
            && Touches(q, InsertQueued(q, JobId(k.owner, job), k.key, o), job)
  {
    var id := JobId(k.owner, job);
    var row := Job(Some(k.key), QUEUED, "", "");
    PutIsLocal(q, id, row);
    assert Wrote(q, id) == [];
    PutKeeps(q, k, id, row);
  }

  /** A claim is won only on a job whose one row says QUEUED. */
  lemma ClaimKeeps(q: Queue, k: Slot, job: Uuid, o: Outcome)
    requires QueueOk(q) && Holds(q, k, job)
    ensures var q' := SetClaimed(q, JobId(k.owner, job), o);
            && QueueOk(q') && Touches(q, q', job)
            && (o.Executed() && Claimable(q, JobId(k.owner, job)) ==>
                Running(q', k, job) && Wrote(q, JobId(k.owner, job)) == [QUEUED])
            && (!(o.Executed() && Claimable(q, JobId(k.owner, job))) ==> q' == q)
  {
    var id := JobId(k.owner, job);
    if o.Executed() && Claimable(q, id) {
      assert RowOk(q, id) && JobLife(q, k, job);
      PutIsLocal(q, id, q.jobs[id].(status := PROVISIONING));
      PutKeeps(q, k, id, q.jobs[id].(status := PROVISIONING));
    }
  }

  /** The end of a running job may be recorded once: in its own row, or, for a provisioning job, in
      any other; READY not under NIL. */
  lemma EndKeeps(q: Queue, k: Slot, id: JobId, row: Job)
    requires QueueOk(q) && Running(q, k, id.job) && (row.status.READY? || row.status.FAILED?)
    requires if UnderNil(k.key) then id.tenant == NIL ==> row.status.FAILED? else id.tenant == k.owner
    ensures QueueOk(Put(q, id, row)) && Touches(q, Put(q, id, row), id.job)
  {
    PutIsLocal(q, id, row);
    PutKeeps(q, k, id, row);
  }
}

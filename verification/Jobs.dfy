// The job tables and their statements (internal/accounts/job.go).

module Jobs {
  import opened Faults
  import opened Options

  /** UUIDs; NIL is uuid.Nil, which is never generated. */
  type Uuid = nat
  const NIL: Uuid := 0

  datatype JobStatus = QUEUED | PROVISIONING | READY | FAILED

  /** The idempotency keys the service enqueues under. */
  datatype IdemKey = ProvisionVpc(slug: string) | DeprovisionVpc(slug: string, day: string)

  /** The key column of cf.provisioning_jobs_by_idem. A day is written YYYY-MM-DD. */
  function KeyText(k: IdemKey): string {
    match k
    case ProvisionVpc(slug) => "provision-vpc:" + slug
    case DeprovisionVpc(slug, day) => "deprovision-vpc:" + slug + ":" + day
  }

  /** The two kinds of key start differently. */
  lemma KindShows(a: IdemKey)
    ensures |KeyText(a)| > 0 && KeyText(a)[0] == if a.ProvisionVpc? then 'p' else 'd'
  {
  }

  lemma ProvisionKeyShows(slug: string)
    ensures KeyText(ProvisionVpc(slug))[14..] == slug
  {
  }

  lemma DeprovisionKeyShows(slug: string, day: string)
    requires |day| == 10
    ensures var t := KeyText(DeprovisionVpc(slug, day));
            |t| == |slug| + 27 && t[16..|t| - 11] == slug && t[|t| - 10..] == day
  {
    var t := KeyText(DeprovisionVpc(slug, day));
    assert t == "deprovision-vpc:" + (slug + (":" + day));
  }

  /** Two requests share an idempotency key only if they are the same request. */
  lemma KeyTextInjective(a: IdemKey, b: IdemKey)
    requires a.DeprovisionVpc? ==> |a.day| == 10
    requires b.DeprovisionVpc? ==> |b.day| == 10
    ensures KeyText(a) == KeyText(b) <==> a == b
  {
    KindShows(a);
    KindShows(b);
    if a.ProvisionVpc? && b.ProvisionVpc? {
      ProvisionKeyShows(a.slug);
      ProvisionKeyShows(b.slug);
    } else if a.DeprovisionVpc? && b.DeprovisionVpc? {
      DeprovisionKeyShows(a.slug, a.day);
      DeprovisionKeyShows(b.slug, b.day);
    }
  }

  /** A row of cf.provisioning_jobs is keyed by partition and job. */
  datatype JobId = JobId(tenant: Uuid, job: Uuid)

  /** The columns an upsert of a missing row leaves null are None. */
  datatype Job = Job(key: Option<IdemKey>, status: JobStatus, result: string, error: string)

  /** The two job tables, with three columns of bookkeeping that no statement reads: the ids generated
      so far, the slot each job was made for, and every status ever written to each row, in order. */
  datatype Queue = Queue(
    slots: map<Slot, Uuid>,                    // cf.provisioning_jobs_by_idem
    jobs: map<JobId, Job>,                     // cf.provisioning_jobs
    minted: set<Uuid>,
    origin: map<Uuid, Slot>,
    written: map<JobId, seq<JobStatus>>)

  datatype Slot = Slot(owner: Uuid, key: IdemKey)

  const NO_JOBS: Queue := Queue(map[], map[], {}, map[], map[])

  function Wrote(q: Queue, id: JobId): seq<JobStatus> {
    if id in q.written then q.written[id] else []
  }

  function Put(q: Queue, id: JobId, row: Job): Queue {
    q.(jobs := q.jobs[id := row], written := q.written[id := Wrote(q, id) + [row.status]])
  }

  /** The first statement of Enqueue, INSERT ... IF NOT EXISTS into the slot table, with an id made
      for it: the job that holds the slot afterwards, and whether it is the new one. */
  function TakeSlot(q: Queue, slot: Slot, newId: Uuid, o: Outcome): Queue {
    var minted := q.minted + {newId};
    if o.Executed() && slot !in q.slots
    then q.(slots := q.slots[slot := newId], minted := minted, origin := q.origin[newId := slot])
    else q.(minted := minted)
  }

  /** The second, an INSERT without IF NOT EXISTS: it overwrites. */
  function InsertQueued(q: Queue, id: JobId, key: IdemKey, o: Outcome): Queue {
    if o.Executed() then Put(q, id, Job(Some(key), QUEUED, "", "")) else q
  }

  predicate Claimable(q: Queue, id: JobId) {
    id in q.jobs && q.jobs[id].status.QUEUED?
  }

  /** UPDATE ... SET status = 'PROVISIONING' ... IF status = 'QUEUED'. */
  function SetClaimed(q: Queue, id: JobId, o: Outcome): Queue {
    if o.Executed() && Claimable(q, id) then Put(q, id, q.jobs[id].(status := PROVISIONING)) else q
  }

  function RowOrEmpty(q: Queue, id: JobId): Job {
    if id in q.jobs then q.jobs[id] else Job(None, QUEUED, "", "")
  }

  /** The UPDATE of Complete has no condition: it creates a missing row and overwrites any status. */
  function SetReady(q: Queue, id: JobId, result: string, o: Outcome): Queue {
    if o.Executed() then Put(q, id, RowOrEmpty(q, id).(status := READY, result := result)) else q
  }

  /** So does the UPDATE of Fail. */
  function SetFailed(q: Queue, id: JobId, error: string, o: Outcome): Queue {
    if o.Executed() then Put(q, id, RowOrEmpty(q, id).(status := FAILED, error := error)) else q
  }
}

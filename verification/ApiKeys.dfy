// The API key table (internal/accounts/apikey.go): keys are inserted if their hash is absent and
// revoked by an upsert of one column. There is no other write.

module ApiKeys {
  import opened Faults
  import opened Options

  type Uuid = nat

  datatype KeyStatus = ACTIVE | ROTATING | REVOKED

  /** A row; the columns that the upsert of a missing row leaves null are None. */
  datatype Key = Key(id: Option<Uuid>, tenant: Option<Uuid>, status: KeyStatus)

  type Table = map<string, Key>

  /** `INSERT ... IF NOT EXISTS` and `UPDATE ... SET status = 'REVOKED' WHERE key_hash = ?`. */
  datatype Statement =
    | Insert(hash: string, key: Key, o: Outcome)
    | Mark(hash: string, o: Outcome)

  function Apply(t: Table, st: Statement): Table {
    match st
    case Insert(hash, key, o) => InsertIfAbsent(t, hash, key, o).0
    case Mark(hash, o) =>
      if !o.Executed() then t
      else if hash in t then t[hash := t[hash].(status := REVOKED)]
      else t[hash := Key(None, None, REVOKED)]
  }

  /** The table after a run of statements, from any callers in any order. */
  function Run(t: Table, run: seq<Statement>): Table {
    if run == [] then t else Apply(Run(t, run[..|run| - 1]), run[|run| - 1])
  }

  // ----- What the table is after any run.

  predicate Touches(st: Statement, hash: string) {
    st.hash == hash && st.o.Executed()
  }

  ghost predicate Marked(run: seq<Statement>, hash: string) {
    exists i :: 0 <= i < |run| && Touches(run[i], hash) && run[i].Mark?
  }

  ghost predicate IsFirst(run: seq<Statement>, hash: string, i: nat) {
    i < |run| && Touches(run[i], hash) && forall j :: 0 <= j < i ==> !Touches(run[j], hash)
  }

  /** The row a first statement writes. */
  function Created(st: Statement): Key {
    if st.Insert? then st.key else Key(None, None, REVOKED)
  }

  /** The row that a run leaves if its first statement on the hash is number i. */
  ghost function Decided(run: seq<Statement>, hash: string, i: nat): Key
    requires i < |run|
  {
    if Marked(run, hash) then Created(run[i]).(status := REVOKED) else Created(run[i])
  }

  /** What one more statement changes in that. */
  lemma OneMore(run: seq<Statement>, st: Statement, hash: string)
    ensures Marked(run + [st], hash) <==> Marked(run, hash) || (Touches(st, hash) && st.Mark?)
    ensures forall i: nat :: i < |run| ==> (IsFirst(run + [st], hash, i) <==> IsFirst(run, hash, i))
  {
    if i :| 0 <= i < |run| && Touches(run[i], hash) && run[i].Mark? {
      assert (run + [st])[i] == run[i];
    }
    assert (run + [st])[|run|] == st;
    forall i: nat | i < |run|
      ensures IsFirst(run + [st], hash, i) <==> IsFirst(run, hash, i)
    {
      assert forall j :: 0 <= j <= i ==> (run + [st])[j] == run[j];
    }
  }

  /** The table after any run is decided hash by hash: a hash has a row exactly if a statement on it was
      executed; the first such statement, alone, decides the columns; and the key is revoked exactly if
      it was created so or any revocation of it was executed, before or after it was stored. */
  lemma {:induction false} RowIsDecided(run: seq<Statement>, hash: string)
    ensures hash in Run(map[], run) <==> exists i: nat :: IsFirst(run, hash, i)
    ensures forall i: nat :: IsFirst(run, hash, i) ==>
              hash in Run(map[], run) && Run(map[], run)[hash] == Decided(run, hash, i)
  {
    if run != [] {
      var n := |run| - 1;
      var before := run[..n];
      assert before + [run[n]] == run;
      RowIsDecided(before, hash);
      OneMore(before, run[n], hash);
      if i: nat :| IsFirst(before, hash, i) {
        assert IsFirst(run, hash, i);
      } else {
        UntouchedOrFirst(before, hash);
        assert forall j :: 0 <= j < n ==> before[j] == run[j];
        assert IsFirst(run, hash, n) <==> Touches(run[n], hash);
      }
    }
  }

  lemma {:induction false} UntouchedOrFirst(run: seq<Statement>, hash: string)
    requires !exists i: nat :: IsFirst(run, hash, i)
    ensures forall i :: 0 <= i < |run| ==> !Touches(run[i], hash)
  {
    if run != [] {
      var n := |run| - 1;
      if i: nat :| IsFirst(run[..n], hash, i) {
        assert IsFirst(run, hash, i);
      }
      UntouchedOrFirst(run[..n], hash);
      assert forall j :: 0 <= j < n ==> run[..n][j] == run[j];
      assert !IsFirst(run, hash, n);
    }
  }

  ghost predicate Touched(run: seq<Statement>, hash: string) {
    exists i :: 0 <= i < |run| && Touches(run[i], hash)
  }

  lemma FoundAsDecided(run: seq<Statement>, hash: string)
    ensures hash in Run(map[], run) <==> Touched(run, hash)
    ensures Marked(run, hash) ==> hash in Run(map[], run) && Run(map[], run)[hash].status == REVOKED
  {
    RowIsDecided(run, hash);
    if i: nat :| IsFirst(run, hash, i) {
      assert Touches(run[i], hash);
    } else {
      UntouchedOrFirst(run, hash);
    }
  }

  /** REVOKED is absorbing and freezes the whole row, whatever statements follow. */
  lemma {:induction false} RevokedForever(t: Table, run: seq<Statement>, hash: string)
    requires hash in t && t[hash].status == REVOKED
    ensures hash in Run(t, run) && Run(t, run)[hash] == t[hash]
  {
    if run != [] {
      RevokedForever(t, run[..|run| - 1], hash);
    }
  }

  /** The statements on one hash. */
  function Only(run: seq<Statement>, hash: string): seq<Statement> {
    if run == [] then []
    else
      var before := Only(run[..|run| - 1], hash);
      if run[|run| - 1].hash == hash then before + [run[|run| - 1]] else before
  }

  predicate SameRow(t: Table, u: Table, hash: string) {
    (hash in t <==> hash in u) && (hash in t ==> t[hash] == u[hash])
  }

  /** One statement on its own hash does to that row what the row alone decides. */
  lemma SameRowAfter(t: Table, u: Table, st: Statement, hash: string)
    requires SameRow(t, u, hash)
    ensures if st.hash == hash then SameRow(Apply(t, st), Apply(u, st), hash) else SameRow(Apply(t, st), u, hash)
  {
  }

  lemma RunLast(t: Table, before: seq<Statement>, st: Statement)
    ensures Run(t, before + [st]) == Apply(Run(t, before), st)
  {
    assert (before + [st])[..|before + [st]| - 1] == before;
  }

  /** Statements on other hashes neither change a row nor matter for it. */
  lemma {:induction false} OthersDoNotMatter(t: Table, run: seq<Statement>, hash: string)
    ensures SameRow(Run(t, run), Run(t, Only(run, hash)), hash)
  {
    if run != [] {
      var before, last := run[..|run| - 1], run[|run| - 1];
      OthersDoNotMatter(t, before, hash);
      SameRowAfter(Run(t, before), Run(t, Only(before, hash)), last, hash);
      RunLast(t, Only(before, hash), last);
    }
  }

  // ----- The store.

  predicate HasId(t: Table, hash: string, id: Uuid) {
    hash in t && t[hash].id == Some(id)
  }

  class APIKeyStore {
    var keys: Table
    var script: Script

    constructor (keys: Table, script: Script)
      ensures this.keys == keys && this.script == script
    {
      this.keys := keys;
      this.script := script;
    }

    method NextOutcome() returns (o: Outcome)
      modifies this`script
      ensures o == Faults.Next(old(script)) && script == Rest(old(script))
    {
      o := Faults.Next(script);
      script := Rest(script);
    }

    /** A hash that is already there counts as success, even if its key is revoked. */
    method Store(hash: string, key: Key) returns (err: bool)
      modifies this
      ensures keys == Apply(old(keys), Insert(hash, key, Faults.Next(old(script)))) && script == Rest(old(script))
      ensures err <==> Faults.Next(old(script)).Reported()
      ensures hash in old(keys) || !Faults.Next(old(script)).Executed() ==> keys == old(keys)
      ensures hash !in old(keys) && Faults.Next(old(script)).Executed() ==> keys == old(keys)[hash := key]
      ensures !err ==> hash in keys
      ensures hash in old(keys) && old(keys)[hash].status == REVOKED ==> keys[hash].status == REVOKED
    {
      var o := NextOutcome();
      var (keys', applied) := InsertIfAbsent(keys, hash, key, o);
      keys := keys';
      err := o.Reported();
    }

    /** Whatever statements led to the table: a key is found exactly if one was executed on its hash, and
        once a revocation of it was executed, before it was stored or after, it is found revoked. */
    method Lookup(hash: string) returns (found: Option<Key>)
      ensures found.Some? ==> hash in keys && found.value == keys[hash]
      ensures forall run :: keys == Run(map[], run) ==> (found.Some? <==> Touched(run, hash))
      ensures forall run :: keys == Run(map[], run) && Marked(run, hash) ==>
              found.Some? && found.value.status == REVOKED
    {
      forall run | keys == Run(map[], run)
        ensures hash in keys <==> Touched(run, hash)
        ensures Marked(run, hash) ==> hash in keys && keys[hash].status == REVOKED
      {
        FoundAsDecided(run, hash);
      }
      found := if hash in keys then Some(keys[hash]) else None;
    }

    method RevokeByHash(hash: string) returns (err: bool)
      modifies this
      ensures keys == Apply(old(keys), Mark(hash, Faults.Next(old(script)))) && script == Rest(old(script))
      ensures err <==> Faults.Next(old(script)).Reported()
      ensures !Faults.Next(old(script)).Executed() ==> keys == old(keys)
      ensures Faults.Next(old(script)).Executed() ==> hash in keys && keys[hash].status == REVOKED
      ensures hash in old(keys) ==>
              hash in keys && keys[hash].id == old(keys)[hash].id && keys[hash].tenant == old(keys)[hash].tenant
      ensures forall h :: h != hash ==> (h in keys <==> h in old(keys)) && (h in keys ==> keys[h] == old(keys)[h])
    {
      var o := NextOutcome();
      if o.Executed() {
        var row := if hash in keys then keys[hash] else Key(None, None, ACTIVE);
        keys := keys[hash := row.(status := REVOKED)];
      }
      err := o.Reported();
    }

    /** Find one row with the id, then mark it: without an error exactly one key with the id is revoked,
        if there is one, and so all of them provided no two rows share the id. */
    method RevokeByID(id: Uuid) returns (err: bool)
      modifies this
      ensures var known := exists h :: HasId(old(keys), h, id);
              err <==> At(old(script), 0).Reported() || (known && At(old(script), 1).Reported())
      ensures At(old(script), 0).Reported() || !At(old(script), 1).Executed() ==> keys == old(keys)
      ensures !(exists h :: HasId(old(keys), h, id)) ==> keys == old(keys)
      ensures !At(old(script), 0).Reported() && At(old(script), 1).Executed() && (exists h :: HasId(old(keys), h, id))
              ==> exists h :: HasId(old(keys), h, id) && keys == old(keys)[h := old(keys)[h].(status := REVOKED)]
      ensures !err && (exists h :: HasId(old(keys), h, id)) ==>
              exists h :: HasId(keys, h, id) && keys[h].status == REVOKED
      ensures !err && (forall h, g :: HasId(old(keys), h, id) && HasId(old(keys), g, id) ==> h == g)
              ==> forall h :: HasId(keys, h, id) ==> keys[h].status == REVOKED
    {
      var o := NextOutcome();
      if o.Reported() { return true; }
      if h :| h in keys && keys[h].id == Some(id) {
        assert HasId(keys, h, id);
        ghost var before := keys;
        err := RevokeByHash(h);
        assert HasId(keys, h, id);
        assert keys == before || keys == before[h := before[h].(status := REVOKED)];
        assert forall g :: HasId(keys, g, id) ==> HasId(before, g, id);
      } else {
        err := false;
      }
    }
  }
}

// What one statement against the database (or another external system) can do, and the
// three statement shapes the stores are written with.

/** The ways a single remote statement can end, as its caller and the table see them. */
module Faults {

  /** `Success`: executed and reported. `CleanError`: an error, and nothing was executed.
      `DirtyError`: an error (a timeout, say), although the statement was executed. */
  datatype Outcome = Success | CleanError | DirtyError {

    /** Whether the statement was executed. */
    predicate Executed() {
      !CleanError?
    }

    /** Whether the caller sees an error. */
    predicate Reported() {
      !Success?
    }
  }

  /** A script of outcomes; a script that has run out means no more faults. */
  type Script = seq<Outcome>

  function Next(script: Script): Outcome {
    if script == [] then Success else script[0]
  }

  function Rest(script: Script): Script {
    if script == [] then [] else script[1..]
  }

  /** How statement number k ends, counting from 0. */
  function At(script: Script, k: nat): Outcome {
    if k < |script| then script[k] else Success
  }

  /** The script after n statements. */
  function Drop(script: Script, n: nat): Script {
    if n < |script| then script[n..] else []
  }

  lemma Dropped(script: Script, n: nat)
    ensures Next(Drop(script, n)) == At(script, n) && Rest(Drop(script, n)) == Drop(script, n + 1)
  {
  }

  lemma AtDropped(script: Script, n: nat)
    ensures Drop(script, 0) == script && forall k: nat :: At(Drop(script, n), k) == At(script, n + k)
  {
  }

  /** `INSERT ... IF NOT EXISTS`: the new table and whether the row was written. */
  function InsertIfAbsent<K, V>(table: map<K, V>, key: K, row: V, o: Outcome): (map<K, V>, bool) {
    if o.Executed() && key !in table then (table[key := row], true) else (table, false)
  }

  /** `DELETE ... WHERE key = ?`: a no-op on a missing row. */
  function Delete<K, V>(table: map<K, V>, key: K, o: Outcome): map<K, V> {
    if o.Executed() then table - {key} else table
  }
}

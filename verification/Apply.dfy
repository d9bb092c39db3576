/**
 * Executing delta SQL against the user's database: one transaction per batch,
 * one dedicated connection per snapshot.
 */
module Apply {
  import opened Wrappers
  import opened Replica
  import opened ServerLog

  datatype Delta = Delta(id: int, sql: seq<Statement>)

  // The deltas of the window [from, to): one per fed entry, ids ascending.
  function Deltas(log: seq<Entry>, from: nat, to: nat): seq<Delta>
    requires from <= to <= |log|
  {
    if from == to then []
    else Deltas(log, from, to - 1) + if log[to - 1].silent then [] else [Delta(to, log[to - 1].sql)]
  }

  function Sql(deltas: seq<Delta>): seq<Statement> {
    if deltas == [] then [] else Sql(deltas[..|deltas| - 1]) + deltas[|deltas| - 1].sql
  }

  ghost predicate DistinctIds(deltas: seq<Delta>) {
    forall i, j :: 0 <= i < j < |deltas| ==> deltas[i].id != deltas[j].id
  }

  ghost predicate AscendingIds(deltas: seq<Delta>) {
    forall i, j :: 0 <= i < j < |deltas| ==> deltas[i].id < deltas[j].id
  }

  lemma SqlSnoc(ds: seq<Delta>, d: Delta)
    ensures Sql(ds + [d]) == Sql(ds) + d.sql
  {
    assert (ds + [d])[..|ds|] == ds;
  }

  lemma FedSnoc(log: seq<Entry>, from: nat, to: nat)
    requires from < to <= |log|
    ensures Fed(log[from..to]) == Fed(log[from..to - 1]) + if log[to - 1].silent then [] else log[to - 1].sql
  {
    assert log[from..to][..to - from - 1] == log[from..to - 1];
  }

  // A window's deltas carry exactly the fed statements, in log order.
  lemma {:induction false} DeltasAreFed(log: seq<Entry>, from: nat, to: nat)
    requires from <= to <= |log|
    ensures Sql(Deltas(log, from, to)) == Fed(log[from..to])
  {
    if from < to {
      DeltasAreFed(log, from, to - 1);
      FedSnoc(log, from, to);
      if !log[to - 1].silent {
        SqlSnoc(Deltas(log, from, to - 1), Delta(to, log[to - 1].sql));
      } else {
        assert Deltas(log, from, to) == Deltas(log, from, to - 1);
      }
    }
  }

  // Ids ascend, and a window that ends on a fed entry has its end as last id.
  lemma {:induction false} DeltaIds(log: seq<Entry>, from: nat, to: nat)
    requires from <= to <= |log|
    ensures AscendingIds(Deltas(log, from, to)) && DistinctIds(Deltas(log, from, to))
    ensures forall d :: d in Deltas(log, from, to) ==> from < d.id <= to
    ensures from < to && !log[to - 1].silent ==>
      Deltas(log, from, to) != [] && Deltas(log, from, to)[|Deltas(log, from, to)| - 1].id == to
  {
    if from < to {
      var ds := Deltas(log, from, to - 1);
      DeltaIds(log, from, to - 1);
      forall i | 0 <= i < |ds|
        ensures ds[i].id < to
      {
        assert ds[i] in ds;
      }
    }
  }

  lemma {:induction false} DeltaAt(log: seq<Entry>, from: nat, to: nat, p: nat) returns (i: nat)
    requires from <= p < to <= |log| && !log[p].silent
    ensures i < |Deltas(log, from, to)| && Deltas(log, from, to)[i] == Delta(p + 1, log[p].sql)
  {
    if p == to - 1 {
      i := |Deltas(log, from, to - 1)|;
    } else {
      i := DeltaAt(log, from, to - 1, p);
    }
  }

  lemma {:induction false} DeltasPrefix(log: seq<Entry>, longer: seq<Entry>, from: nat, to: nat)
    requires from <= to <= |log| && log <= longer
    ensures Deltas(longer, from, to) == Deltas(log, from, to)
  {
    if from < to {
      DeltasPrefix(log, longer, from, to - 1);
      assert longer[to - 1] == log[to - 1];
    }
  }

  // What the database answers: COMMIT may land although the client sees an error.
  datatype Commit = Acknowledged | Refused | LandedUnseen

  // `rejects` holds the indices of the deltas whose SQL the database refuses.
  datatype BatchFaults = BatchFaults(noBegin: bool, rejects: set<nat>, commit: Commit)

  datatype SnapshotFaults = NoConnection | ScriptFails | ScriptLandsUnseen | CloseFails | NoFault

  ghost predicate FirstRejected(i: nat, deltas: seq<Delta>, faults: BatchFaults) {
    && i < |deltas| && i in faults.rejects
    && forall j: nat :: j < i ==> j !in faults.rejects
  }

  predicate NoneRejected(deltas: seq<Delta>, faults: BatchFaults) {
    forall j: nat :: j < |deltas| ==> j !in faults.rejects
  }

  class Database {
    var tables: Tables

    constructor (t: Tables)
      ensures tables == t
    {
      tables := t;
    }

    // Whatever a statement that was under way has left.
    method Become(t: Tables)
      modifies this
      ensures tables == t
    {
      tables := t;
    }

    /** All deltas in array order, or none of them. */
    method Batch(deltas: seq<Delta>, faults: BatchFaults) returns (lastID: int, failedID: Option<int>, failed: bool)
      modifies this
      ensures !failed <==> !faults.noBegin && NoneRejected(deltas, faults) && faults.commit.Acknowledged?
      ensures !failed ==> lastID == (if deltas == [] then 0 else deltas[|deltas| - 1].id) && failedID.None?
      ensures failed ==> lastID == 0
      ensures tables ==
              if !faults.noBegin && NoneRejected(deltas, faults) && !faults.commit.Refused?
              then Run(old(tables), Sql(deltas)) else old(tables)
      ensures failedID.Some? <==> !faults.noBegin && !NoneRejected(deltas, faults)
      ensures failedID.Some? ==> exists i: nat :: FirstRejected(i, deltas, faults) && failedID.value == deltas[i].id
    {
      if faults.noBegin {
        return 0, None, true;
      }
      var tx := tables;
      lastID := 0;
      for i := 0 to |deltas|
        invariant tables == old(tables)
        invariant tx == Run(old(tables), Sql(deltas[..i]))
        invariant lastID == if i == 0 then 0 else deltas[i - 1].id
        invariant forall j: nat :: j < i ==> j !in faults.rejects
      {
        var d := deltas[i];
        if i in faults.rejects {
          assert FirstRejected(i, deltas, faults);
          return 0, Some(d.id), true;
        }
        RunConcat(old(tables), Sql(deltas[..i]), d.sql);
        assert deltas[..i + 1][..i] == deltas[..i];
        tx := Run(tx, d.sql);
        lastID := d.id;
      }
      assert deltas[..|deltas|] == deltas;
      failedID := None;
      match faults.commit
      case Acknowledged =>
        tables := tx;
        failed := false;
      case Refused =>
        lastID, failed := 0, true;
      case LandedUnseen =>
        tables := tx;
        lastID, failed := 0, true;
    }

    /** The script carries its own BEGIN and COMMIT, so it lands whole or not at all. */
    method Snapshot(script: seq<Statement>, faults: SnapshotFaults) returns (failed: bool)
      modifies this
      ensures failed <==> !faults.NoFault?
      ensures tables ==
              if faults.NoConnection? || faults.ScriptFails? then old(tables) else Run(old(tables), script)
    {
      if faults.NoConnection? {
        return true;
      }
      var execFailed := faults.ScriptFails? || faults.ScriptLandsUnseen?;
      if !faults.ScriptFails? {
        tables := Run(tables, script);
      }
      if !execFailed {
        return faults.CloseFails?;
      }
      return execFailed;
    }
  }

  /** Pump's search for the SQL behind a failed delta id. */
  method FindFailed(deltas: seq<Delta>, failedID: int) returns (found: Option<seq<Statement>>)
    ensures found.None? <==> forall i :: 0 <= i < |deltas| ==> deltas[i].id != failedID
    ensures forall i :: 0 <= i < |deltas| && deltas[i].id == failedID && DistinctIds(deltas) ==>
        found == Some(deltas[i].sql)
  {
    for i := 0 to |deltas|
      invariant forall j :: 0 <= j < i ==> deltas[j].id != failedID
    {
      if deltas[i].id == failedID {
        return Some(deltas[i].sql);
      }
    }
    return None;
  }
}

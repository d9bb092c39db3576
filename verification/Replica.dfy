/**
 * What a delta's SQL does to the user's database.
 *
 * Every mapped table carries a `_sync_revision` column. An upsert is ignored
 * when the stored revision is newer; a delete physically removes the row unless
 * the stored revision is newer; a migration only adds. There are no tombstones,
 * so replaying an old upsert can bring a deleted row back for a while.
 */
module Replica {
  import opened Wrappers

  datatype RowId = RowId(table: string, pk: string)

  datatype Version = Version(revision: nat, value: string)

  datatype Statement =
    | AddColumn(table: string, column: string)
    | Upsert(row: RowId, revision: nat, value: string)
    | Delete(row: RowId, revision: nat)
  {
    predicate Touches(k: RowId) {
      !AddColumn? && row == k
    }

    // What the statement leaves at its row when the guard lets it through.
    function Effect(): Cell
      requires !AddColumn?
    {
      if Upsert? then Some(Version(revision, value)) else None
    }
  }

  datatype Tables = Tables(schema: set<(string, string)>, rows: map<RowId, Version>)

  const EMPTY := Tables({}, map[])

  function Exec(t: Tables, st: Statement): Tables {
    match st
    case AddColumn(table, column) =>
      t.(schema := t.schema + {(table, column)})
    case Upsert(k, revision, value) =>
      if k in t.rows && t.rows[k].revision > revision then t
      else t.(rows := t.rows[k := Version(revision, value)])
    case Delete(k, revision) =>
      if k in t.rows && t.rows[k].revision > revision then t
      else t.(rows := t.rows - {k})
  }

  function Run(t: Tables, script: seq<Statement>): Tables {
    if script == [] then t
    else Exec(Run(t, script[..|script| - 1]), script[|script| - 1])
  }

  lemma {:induction false} RunConcat(t: Tables, a: seq<Statement>, b: seq<Statement>)
    ensures Run(t, a + b) == Run(Run(t, a), b)
  {
    if b == [] {
      assert a + b == a;
    } else {
      var m := |b| - 1;
      assert (a + b)[..|a + b| - 1] == a + b[..m];
      RunConcat(t, a, b[..m]);
    }
  }

  // === One row at a time =====================================================

  type Cell = Option<Version>

  function At(t: Tables, k: RowId): Cell {
    if k in t.rows then Some(t.rows[k]) else None
  }

  function Revision(c: Cell): int {
    if c.None? then -1 else c.value.revision
  }

  function CellRun(c: Cell, script: seq<Statement>, k: RowId): Cell {
    if script == [] then c
    else
      var before := CellRun(c, script[..|script| - 1], k);
      var st := script[|script| - 1];
      if st.Touches(k) && Revision(before) <= st.revision then st.Effect() else before
  }

  function Columns(script: seq<Statement>): set<(string, string)> {
    set st | st in script && st.AddColumn? :: (st.table, st.column)
  }

  // Running a script is running it on the schema and on each row separately.
  lemma {:induction false} RunPointwise(t: Tables, script: seq<Statement>, k: RowId)
    ensures At(Run(t, script), k) == CellRun(At(t, k), script, k)
    ensures Run(t, script).schema == t.schema + Columns(script)
  {
    if script != [] {
      var m := |script| - 1;
      RunPointwise(t, script[..m], k);
      assert script == script[..m] + [script[m]];
      assert Columns(script) == Columns(script[..m]) + Columns([script[m]]);
      assert script[m].AddColumn? ==> Columns([script[m]]) == {(script[m].table, script[m].column)};
    }
  }

  lemma SameTables(t: Tables, u: Tables)
    requires t.schema == u.schema
    requires forall k :: At(t, k) == At(u, k)
    ensures t == u
  {
    forall k
      ensures k in t.rows <==> k in u.rows
      ensures k in t.rows ==> t.rows[k] == u.rows[k]
    {
      assert At(t, k) == At(u, k);
    }
    assert t.rows == u.rows;
  }

  // === Revision order ========================================================

  // Revisions strictly increase per row.
  predicate Ascending(script: seq<Statement>) {
    forall i, j :: 0 <= i < j < |script| && !script[i].AddColumn? && script[j].Touches(script[i].row) ==>
      script[i].revision < script[j].revision
  }

  // The revision of the last statement on row k, -1 when there is none.
  function Top(script: seq<Statement>, k: RowId): (top: int)
    ensures top >= -1
  {
    if script == [] then -1
    else if script[|script| - 1].Touches(k) then script[|script| - 1].revision
    else Top(script[..|script| - 1], k)
  }

  // What the last statement on row k leaves there.
  function LastEffect(script: seq<Statement>, k: RowId): Cell
    requires Top(script, k) >= 0
  {
    if script[|script| - 1].Touches(k) then script[|script| - 1].Effect()
    else LastEffect(script[..|script| - 1], k)
  }

  lemma {:induction false} TopConcat(a: seq<Statement>, b: seq<Statement>, k: RowId)
    ensures Top(a + b, k) == if Top(b, k) >= 0 then Top(b, k) else Top(a, k)
    ensures Top(b, k) >= 0 ==> LastEffect(a + b, k) == LastEffect(b, k)
    ensures Top(b, k) < 0 && Top(a, k) >= 0 ==> LastEffect(a + b, k) == LastEffect(a, k)
  {
    if b == [] {
      assert a + b == a;
    } else {
      var m := |b| - 1;
      assert (a + b)[..|a + b| - 1] == a + b[..m];
      TopConcat(a, b[..m], k);
    }
  }

  lemma {:induction false} TopBounds(script: seq<Statement>, k: RowId)
    requires Ascending(script)
    ensures forall st :: st in script && st.Touches(k) ==> st.revision <= Top(script, k)
    ensures Top(script, k) >= 0 ==>
      exists st :: st in script && st.Touches(k) && st.revision == Top(script, k) &&
          st.Effect() == LastEffect(script, k)
  {
    if script != [] {
      var m := |script| - 1;
      assert script == script[..m] + [script[m]];
      TopBounds(script[..m], k);
      forall st | st in script && st.Touches(k)
        ensures st.revision <= Top(script, k)
      {
        var i :| 0 <= i < |script| && script[i] == st;
      }
      if Top(script, k) >= 0 {
        if script[m].Touches(k) {
          assert script[m] in script;
        } else {
          var st :| st in script[..m] && st.Touches(k) && st.revision == Top(script[..m], k)
                    && st.Effect() == LastEffect(script[..m], k);
          assert st in script;
        }
      }
    }
  }

  // A cell no newer than the script's last statement on the row ends as that
  // statement left it, whatever the cell held before.
  lemma {:induction false} Overwritten(c: Cell, script: seq<Statement>, k: RowId)
    requires Ascending(script)
    requires Revision(c) <= Top(script, k)
    requires Top(script, k) >= 0
    ensures CellRun(c, script, k) == LastEffect(script, k)
  {
    var m := |script| - 1;
    if script[m].Touches(k) {
      assert script == script[..m] + [script[m]];
      CellBound(c, script[..m], k);
      TopBounds(script[..m], k);
      assert Top(script[..m], k) <= script[m].revision by {
        if Top(script[..m], k) >= 0 {
          var st :| st in script[..m] && st.Touches(k) && st.revision == Top(script[..m], k);
          var i :| 0 <= i < m && script[i] == st;
        }
      }
    } else {
      Overwritten(c, script[..m], k);
    }
  }

  lemma {:induction false} CellBound(c: Cell, script: seq<Statement>, k: RowId)
    requires Ascending(script)
    ensures Revision(CellRun(c, script, k)) <= if Revision(c) > Top(script, k) then Revision(c) else Top(script, k)
  {
    if script != [] {
      var m := |script| - 1;
      assert script == script[..m] + [script[m]];
      CellBound(c, script[..m], k);
      TopBounds(script, k);
      TopBounds(script[..m], k);
    }
  }

  // A cell newer than every statement of the script on the row is left alone.
  lemma {:induction false} Guarded(c: Cell, script: seq<Statement>, k: RowId)
    requires Ascending(script)
    requires Top(script, k) < 0 || Top(script, k) < Revision(c)
    ensures CellRun(c, script, k) == c
  {
    if script != [] {
      var m := |script| - 1;
      assert script == script[..m] + [script[m]];
      TopBounds(script, k);
      if script[m].Touches(k) {
        assert script[m] in script;
      }
      TopBounds(script[..m], k);
      if Top(script[..m], k) >= 0 {
        var st :| st in script[..m] && st.Touches(k) && st.revision == Top(script[..m], k);
        assert st in script;
      }
      Guarded(c, script[..m], k);
    }
  }

  // A row present after a script was there before or written by one of its upserts.
  lemma {:induction false} CellOrigin(c: Cell, script: seq<Statement>, k: RowId)
    ensures var r := CellRun(c, script, k);
            r.None? || r == c || Upsert(k, r.value.revision, r.value.value) in script
  {
    if script != [] {
      var m := |script| - 1;
      assert script == script[..m] + [script[m]];
      CellOrigin(c, script[..m], k);
    }
  }
}

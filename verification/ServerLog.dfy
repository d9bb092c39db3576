/**
 * The server's change log for one schema database, and how far a replica is
 * behind it.
 *
 * An entry is fed to the client as a delta unless it is silent: rows written
 * while a schema was unlinked reach the client only through a snapshot. Delta
 * ids are ranks in the log, so the delta at index i has id i + 1 and a cursor c
 * stands for "every delta with id at most c".
 */
module ServerLog {
  import opened Wrappers
  import opened Replica

  datatype Entry = Entry(sql: seq<Statement>, silent: bool)

  // Everything ever written, and the part of it that is fed as deltas.
  function Script(log: seq<Entry>): seq<Statement> {
    if log == [] then [] else Script(log[..|log| - 1]) + log[|log| - 1].sql
  }

  function Fed(log: seq<Entry>): seq<Statement> {
    if log == [] then []
    else Fed(log[..|log| - 1]) + if log[|log| - 1].silent then [] else log[|log| - 1].sql
  }

  // The rows a replica is supposed to hold.
  function Truth(log: seq<Entry>): Tables {
    Run(EMPTY, Script(log))
  }

  // Revisions ascend per row, and a delete is never silent.
  predicate WellFormed(log: seq<Entry>) {
    && Ascending(Script(log))
    && forall i :: 0 <= i < |log| && log[i].silent ==> forall st :: st in log[i].sql ==> !st.Delete?
  }

  // Index of the last entry touching row k, -1 when there is none.
  function LastTouch(log: seq<Entry>, k: RowId): int
    ensures -1 <= LastTouch(log, k) < |log|
  {
    if log == [] then -1
    else if Top(log[|log| - 1].sql, k) >= 0 then |log| - 1
    else LastTouch(log[..|log| - 1], k)
  }

  // === Structure of the log ==================================================

  lemma {:induction false} ScriptConcat(a: seq<Entry>, b: seq<Entry>)
    ensures Script(a + b) == Script(a) + Script(b)
    ensures Fed(a + b) == Fed(a) + Fed(b)
  {
    if b == [] {
      assert a + b == a;
    } else {
      assert (a + b)[..|a + b| - 1] == a + b[..|b| - 1];
      ScriptConcat(a, b[..|b| - 1]);
    }
  }

  ghost predicate Before(a: seq<Statement>, b: seq<Statement>) {
    forall x, y :: x in a && y in b && !x.AddColumn? && y.Touches(x.row) ==> x.revision < y.revision
  }

  lemma AscendingParts(a: seq<Statement>, b: seq<Statement>)
    ensures Ascending(a + b) <==> Ascending(a) && Ascending(b) && Before(a, b)
  {
    var ab := a + b;
    if Ascending(ab) {
      forall i, j | 0 <= i < j < |a| && !a[i].AddColumn? && a[j].Touches(a[i].row)
        ensures a[i].revision < a[j].revision
      {
        assert ab[i] == a[i] && ab[j] == a[j];
      }
      forall i, j | 0 <= i < j < |b| && !b[i].AddColumn? && b[j].Touches(b[i].row)
        ensures b[i].revision < b[j].revision
      {
        assert ab[|a| + i] == b[i] && ab[|a| + j] == b[j];
      }
      forall x, y | x in a && y in b && !x.AddColumn? && y.Touches(x.row)
        ensures x.revision < y.revision
      {
        var i :| 0 <= i < |a| && a[i] == x;
        var j :| 0 <= j < |b| && b[j] == y;
        assert ab[i] == x && ab[|a| + j] == y;
      }
    }
  }

  lemma {:induction false} FedSubsequence(log: seq<Entry>)
    ensures forall st :: st in Fed(log) ==> st in Script(log)
    ensures Ascending(Script(log)) ==> Ascending(Fed(log))
  {
    if log != [] {
      var m := |log| - 1;
      FedSubsequence(log[..m]);
      AscendingParts(Script(log[..m]), log[m].sql);
      AscendingParts(Fed(log[..m]), log[m].sql);
      assert Fed(log[..m]) + [] == Fed(log[..m]);
    }
  }

  lemma ThreeScripts(log: seq<Entry>, a: seq<Entry>, b: seq<Entry>, c: seq<Entry>)
    requires log == a + b + c
    ensures Script(log) == Script(a) + Script(b) + Script(c)
  {
    ScriptConcat(a + b, c);
    ScriptConcat(a, b);
  }

  lemma Pieces<T>(s: seq<T>, from: nat, to: nat)
    requires from <= to <= |s|
    ensures s == s[..from] + s[from..to] + s[to..]
  {
  }

  lemma SliceScript(log: seq<Entry>, from: nat, to: nat)
    requires from <= to <= |log|
    ensures Script(log) == Script(log[..from]) + Script(log[from..to]) + Script(log[to..])
  {
    Pieces(log, from, to);
    ThreeScripts(log, log[..from], log[from..to], log[to..]);
  }

  lemma SliceAscending(log: seq<Entry>, from: nat, to: nat)
    requires Ascending(Script(log)) && from <= to <= |log|
    ensures Ascending(Script(log[from..to])) && Ascending(Fed(log[from..to]))
    ensures forall st :: st in Fed(log[from..to]) ==> st in Script(log)
  {
    SliceScript(log, from, to);
    AscendingParts(Script(log[..from]) + Script(log[from..to]), Script(log[to..]));
    AscendingParts(Script(log[..from]), Script(log[from..to]));
    FedSubsequence(log[from..to]);
  }

  lemma {:induction false} TouchFree(script: seq<Statement>, k: RowId)
    ensures Top(script, k) < 0 <==> forall st :: st in script ==> !st.Touches(k)
  {
    if script != [] {
      assert script == script[..|script| - 1] + [script[|script| - 1]];
      TouchFree(script[..|script| - 1], k);
    }
  }

  lemma {:induction false} NoTouchAfter(log: seq<Entry>, k: RowId, from: nat, to: nat)
    requires LastTouch(log, k) < from <= to <= |log|
    ensures Top(Script(log[from..to]), k) < 0 && Top(Fed(log[from..to]), k) < 0
  {
    if from < to {
      assert log[from..to][..to - from - 1] == log[from..to - 1];
      NoTouchAfter(log, k, from, to - 1);
      LastTouchIsLast(log, k, to - 1);
      TopConcat(Script(log[from..to - 1]), log[to - 1].sql, k);
      TopConcat(Fed(log[from..to - 1]), log[to - 1].sql, k);
      assert Fed(log[from..to - 1]) + [] == Fed(log[from..to - 1]);
    }
  }

  lemma {:induction false} LastTouchIsLast(log: seq<Entry>, k: RowId, i: nat)
    requires LastTouch(log, k) <= i < |log|
    ensures Top(log[i].sql, k) >= 0 <==> i == LastTouch(log, k)
  {
    if i < |log| - 1 {
      LastTouchIsLast(log[..|log| - 1], k, i);
    }
  }

  lemma LastTouchDecides(log: seq<Entry>, k: RowId, from: nat, to: nat)
    requires from <= LastTouch(log, k) < to <= |log|
    ensures Top(Script(log[from..to]), k) == Top(Script(log), k) >= 0
    ensures LastEffect(Script(log[from..to]), k) == LastEffect(Script(log), k)
    ensures !log[LastTouch(log, k)].silent ==>
      Top(Fed(log[from..to]), k) == Top(Script(log), k) &&
          LastEffect(Fed(log[from..to]), k) == LastEffect(Script(log), k)
  {
    var L := LastTouch(log, k);
    LastTouchIsLast(log, k, L);
    Decided(log, k, 0, |log|);
    Decided(log, k, from, to);
    assert log[0..|log|] == log;
  }

  lemma SplitAt(log: seq<Entry>, from: nat, i: nat, to: nat)
    requires from <= i < to <= |log|
    ensures Script(log[from..to]) == Script(log[from..i]) + log[i].sql + Script(log[i + 1..to])
    ensures Fed(log[from..to]) == Fed(log[from..i]) + (if log[i].silent then [] else log[i].sql) + Fed(log[i + 1..to])
  {
    assert log[from..i + 1][..i - from] == log[from..i];
    assert log[from..to] == log[from..i + 1] + log[i + 1..to];
    ScriptConcat(log[from..i + 1], log[i + 1..to]);
  }

  lemma Decided(log: seq<Entry>, k: RowId, from: nat, to: nat)
    requires from <= LastTouch(log, k) < to <= |log|
    requires Top(log[LastTouch(log, k)].sql, k) >= 0
    ensures var sql := log[LastTouch(log, k)].sql;
            && Top(Script(log[from..to]), k) == Top(sql, k)
            && LastEffect(Script(log[from..to]), k) == LastEffect(sql, k)
            && (!log[LastTouch(log, k)].silent ==>
                  Top(Fed(log[from..to]), k) == Top(sql, k) && LastEffect(Fed(log[from..to]), k) == LastEffect(sql, k))
  {
    var L := LastTouch(log, k);
    SplitAt(log, from, L, to);
    NoTouchAfter(log, k, L + 1, to);
    Middle(Script(log[from..L]), log[L].sql, Script(log[L + 1..to]), k);
    Middle(Fed(log[from..L]), log[L].sql, Fed(log[L + 1..to]), k);
  }

  lemma Middle(a: seq<Statement>, b: seq<Statement>, c: seq<Statement>, k: RowId)
    requires Top(b, k) >= 0 && Top(c, k) < 0
    ensures Top(a + b + c, k) == Top(b, k) && LastEffect(a + b + c, k) == LastEffect(b, k)
  {
    TopConcat(a, b, k);
    TopConcat(a + b, c, k);
  }

  lemma TruthCell(log: seq<Entry>, k: RowId)
    requires WellFormed(log)
    ensures At(Truth(log), k) == if Top(Script(log), k) >= 0 then LastEffect(Script(log), k) else None
    ensures Top(Script(log), k) >= 0 <==> LastTouch(log, k) >= 0
    ensures k in Truth(log).rows ==> LastTouch(log, k) >= 0 && Truth(log).rows[k].revision == Top(Script(log), k)
  {
    var s := Script(log);
    RunPointwise(EMPTY, s, k);
    assert log[0..|log|] == log;
    if Top(s, k) >= 0 {
      Overwritten(None, s, k);
      if LastTouch(log, k) < 0 {
        NoTouchAfter(log, k, 0, |log|);
      }
      TopBounds(s, k);
    } else {
      Guarded(None, s, k);
      if LastTouch(log, k) >= 0 {
        LastTouchDecides(log, k, 0, |log|);
      }
    }
  }

  // Entries after the last touch do not change the truth about the row.
  lemma TruthStable(log: seq<Entry>, k: RowId, m: nat)
    requires WellFormed(log) && LastTouch(log, k) < m <= |log|
    ensures WellFormed(log[..m])
    ensures At(Truth(log[..m]), k) == At(Truth(log), k)
    ensures LastTouch(log[..m], k) == LastTouch(log, k)
  {
    PrefixWellFormed(log, m);
    TruthCell(log, k);
    TruthCell(log[..m], k);
    LastTouchPrefix(log, k, m);
    assert log[0..m] == log[..m];
    if LastTouch(log, k) >= 0 {
      LastTouchDecides(log, k, 0, m);
    }
  }

  lemma PrefixWellFormed(log: seq<Entry>, m: nat)
    requires WellFormed(log) && m <= |log|
    ensures WellFormed(log[..m])
  {
    SliceAscending(log, 0, m);
    assert log[0..m] == log[..m];
  }

  lemma {:induction false} LastTouchPrefix(log: seq<Entry>, k: RowId, m: nat)
    requires m <= |log|
    ensures LastTouch(log, k) < m ==> LastTouch(log[..m], k) == LastTouch(log, k)
  {
    if m < |log| {
      assert log[..|log| - 1][..m] == log[..m];
      LastTouchPrefix(log[..|log| - 1], k, m);
    } else {
      assert log[..m] == log;
    }
  }

  lemma {:induction false} EntryInScript(log: seq<Entry>, i: nat)
    requires i < |log|
    ensures forall st :: st in log[i].sql ==> st in Script(log)
    ensures !log[i].silent ==> forall st :: st in log[i].sql ==> st in Fed(log)
  {
    if i < |log| - 1 {
      EntryInScript(log[..|log| - 1], i);
    }
  }

  lemma {:induction false} ScriptInEntry(log: seq<Entry>, st: Statement) returns (i: nat)
    requires st in Script(log)
    ensures i < |log| && st in log[i].sql
  {
    if st in log[|log| - 1].sql {
      i := |log| - 1;
    } else {
      i := ScriptInEntry(log[..|log| - 1], st);
    }
  }

  // === How far behind a replica is ===========================================

  // Every row was really written, and a row the truth no longer has is one
  // whose delete is still to be fed from cursor c.
  ghost predicate Clean(log: seq<Entry>, r: Tables, c: nat) {
    && r.schema <= Truth(log).schema
    && (forall k :: k in r.rows ==> Upsert(k, r.rows[k].revision, r.rows[k].value) in Script(log))
    && (forall k :: k in r.rows && k !in Truth(log).rows ==> LastTouch(log, k) >= c)
  }

  // Entry i should already show in the replica: fed entries below cursor c,
  // silent entries below the position s of the last committed snapshot.
  predicate Due(log: seq<Entry>, i: int, c: nat, s: nat) {
    0 <= i < |log| && if log[i].silent then i < s else i < c
  }

  ghost predicate SchemaComplete(log: seq<Entry>, schema: set<(string, string)>, c: nat, s: nat) {
    forall i :: Due(log, i, c, s) ==> Columns(log[i].sql) <= schema
  }

  ghost predicate Complete(log: seq<Entry>, r: Tables, c: nat, s: nat) {
    && SchemaComplete(log, r.schema, c, s)
    && (forall k :: Due(log, LastTouch(log, k), c, s) ==> At(r, k) == At(Truth(log), k))
  }

  // The same of one row.
  predicate RowComplete(log: seq<Entry>, r: Tables, c: nat, s: nat, k: RowId) {
    Due(log, LastTouch(log, k), c, s) ==> At(r, k) == At(Truth(log), k)
  }

  predicate Covered(log: seq<Entry>, s: nat) {
    forall i :: 0 <= i < |log| && log[i].silent ==> i < s
  }

  lemma Rewind(log: seq<Entry>, r: Tables, c: nat, s: nat, c': nat)
    requires c' <= c
    ensures Clean(log, r, c) ==> Clean(log, r, c')
    ensures Complete(log, r, c, s) ==> Complete(log, r, c', s)
  {
    if Complete(log, r, c, s) {
      forall i | Due(log, i, c', s)
        ensures Columns(log[i].sql) <= r.schema
      {
        assert Due(log, i, c, s);
      }
      forall k | Due(log, LastTouch(log, k), c', s)
        ensures At(r, k) == At(Truth(log), k)
      {
        assert Due(log, LastTouch(log, k), c, s);
      }
    }
  }

  lemma RowBound(log: seq<Entry>, r: Tables, c: nat, k: RowId)
    requires WellFormed(log) && Clean(log, r, c)
    ensures Revision(At(r, k)) <= Top(Script(log), k)
    ensures k in r.rows ==> Top(Script(log), k) >= 0
  {
    TouchFree(Script(log), k);
    if k in r.rows {
      TopBounds(Script(log), k);
      assert Upsert(k, r.rows[k].revision, r.rows[k].value).Touches(k);
    }
  }

  // === Publishing ============================================================

  lemma Publish(log: seq<Entry>, e: Entry, r: Tables, c: nat, s: nat)
    requires WellFormed(log + [e]) && c <= |log| && s <= |log|
    ensures WellFormed(log)
    ensures Clean(log, r, c) ==> Clean(log + [e], r, c)
    ensures Complete(log, r, c, s) ==> Complete(log + [e], r, c, s)
  {
    var log' := log + [e];
    assert log'[..|log|] == log;
    PrefixWellFormed(log', |log|);
    ScriptConcat(log, [e]);
    RunConcat(EMPTY, Script(log), Script([e]));
    RunPointwise(Truth(log), Script([e]), RowId("", ""));
    forall k
      ensures LastTouch(log', k) < |log| ==>
          LastTouch(log', k) == LastTouch(log, k) && At(Truth(log'), k) == At(Truth(log), k)
    {
      LastTouchPrefix(log', k, |log|);
      if LastTouch(log', k) < |log| {
        TruthStable(log', k, |log|);
      }
    }
    if Clean(log, r, c) {
      forall k | k in r.rows && k !in Truth(log').rows
        ensures LastTouch(log', k) >= c
      {
        if LastTouch(log', k) < |log| {
          assert At(Truth(log'), k) == At(Truth(log), k);
        }
      }
    }
    if Complete(log, r, c, s) {
      forall i | Due(log', i, c, s)
        ensures Columns(log'[i].sql) <= r.schema
      {
        assert Due(log, i, c, s);
      }
      forall k | Due(log', LastTouch(log', k), c, s)
        ensures At(r, k) == At(Truth(log'), k)
      {
        assert Due(log, LastTouch(log, k), c, s);
      }
    }
  }

  // === Applying a window of deltas ===========================================

  // The heart of replay safety: whatever the replica looked like at cursor
  // `from`, running the fed entries of [from, to) leaves it exactly as far as
  // `to`, even when it had been further before.
  lemma ApplyWindow(log: seq<Entry>, r: Tables, from: nat, to: nat, s: nat)
    requires WellFormed(log) && from <= to <= |log|
    requires Clean(log, r, from)
    ensures Clean(log, Run(r, Fed(log[from..to])), to)
    ensures Complete(log, r, from, s) ==> Complete(log, Run(r, Fed(log[from..to])), to, s)
  {
    var r' := Run(r, Fed(log[from..to]));
    WindowSchema(log, r, from, to, s);
    forall k
      ensures k in r'.rows ==> Upsert(k, r'.rows[k].revision, r'.rows[k].value) in Script(log)
      ensures k in r'.rows && k !in Truth(log).rows ==> LastTouch(log, k) >= to
      ensures Complete(log, r, from, s) && Due(log, LastTouch(log, k), to, s) ==> At(r', k) == At(Truth(log), k)
    {
      WindowRow(log, r, from, to, s, k);
    }
  }

  lemma WindowSchema(log: seq<Entry>, r: Tables, from: nat, to: nat, s: nat)
    requires Ascending(Script(log)) && from <= to <= |log|
    requires r.schema <= Truth(log).schema
    ensures Run(r, Fed(log[from..to])).schema <= Truth(log).schema
    ensures SchemaComplete(log, r.schema, from, s) ==> SchemaComplete(log, Run(r, Fed(log[from..to])).schema, to, s)
  {
    var w := Fed(log[from..to]);
    SliceAscending(log, from, to);
    RunPointwise(r, w, RowId("", ""));
    RunPointwise(EMPTY, Script(log), RowId("", ""));
    if SchemaComplete(log, r.schema, from, s) {
      forall i | Due(log, i, to, s)
        ensures Columns(log[i].sql) <= r.schema + Columns(w)
      {
        if !Due(log, i, from, s) {
          WindowColumns(log, from, to, i);
        }
      }
    }
  }

  lemma WindowColumns(log: seq<Entry>, from: nat, to: nat, i: nat)
    requires from <= i < to <= |log| && !log[i].silent
    ensures Columns(log[i].sql) <= Columns(Fed(log[from..to]))
  {
    EntryInScript(log[from..to], i - from);
  }

  lemma WindowRow(log: seq<Entry>, r: Tables, from: nat, to: nat, s: nat, k: RowId)
    requires WellFormed(log) && from <= to <= |log|
    requires Clean(log, r, from)
    ensures var r' := Run(r, Fed(log[from..to]));
            && (k in r'.rows ==> Upsert(k, r'.rows[k].revision, r'.rows[k].value) in Script(log))
            && (k in r'.rows && k !in Truth(log).rows ==> LastTouch(log, k) >= to)
            && (RowComplete(log, r, from, s, k) ==> RowComplete(log, r', to, s, k))
  {
    var w, L := Fed(log[from..to]), LastTouch(log, k);
    SliceAscending(log, from, to);
    RunPointwise(r, w, k);
    CellOrigin(At(r, k), w, k);
    RowBound(log, r, from, k);
    TruthCell(log, k);
    if L < from {
      NoTouchAfter(log, k, from, to);
      Guarded(At(r, k), w, k);
      assert L >= 0 && !log[L].silent ==> Due(log, L, from, s);
    } else if L < to && !log[L].silent {
      LastTouchDecides(log, k, from, to);
      Overwritten(At(r, k), w, k);
    } else {
      SilentIsUpsert(log, k);
      if RowComplete(log, r, from, s, k) && Due(log, L, to, s) {
        assert Due(log, L, from, s);
        assert At(r, k) == At(Truth(log), k);
        FedBelow(log, from, to, k);
        Guarded(At(r, k), w, k);
      }
    }
  }

  // A row whose last entry is silent is present in the truth.
  lemma SilentIsUpsert(log: seq<Entry>, k: RowId)
    requires WellFormed(log)
    ensures LastTouch(log, k) >= 0 && log[LastTouch(log, k)].silent ==> k in Truth(log).rows
  {
    var L := LastTouch(log, k);
    if L >= 0 && log[L].silent {
      TruthCell(log, k);
      LastTouchIsLast(log, k, L);
      Decided(log, k, 0, |log|);
      assert log[0..|log|] == log;
      SliceAscending(log, L, L + 1);
      assert log[L..L + 1] == [log[L]];
      assert log[L..L + 1][..0] == [];
      assert Script([log[L]]) == log[L].sql;
      TopBounds(log[L].sql, k);
    }
  }

  // When the last entry on a row is silent, everything fed is older.
  lemma FedBelow(log: seq<Entry>, from: nat, to: nat, k: RowId)
    requires WellFormed(log) && from <= to <= |log|
    requires LastTouch(log, k) >= 0 && log[LastTouch(log, k)].silent
    ensures Top(Fed(log[from..to]), k) < Top(Script(log), k)
  {
    var w, L := Fed(log[from..to]), LastTouch(log, k);
    SliceAscending(log, from, to);
    LastTouchDecides(log, k, 0, |log|);
    assert log[0..|log|] == log;
    if Top(w, k) >= 0 {
      TopBounds(w, k);
      var st :| st in w && st.Touches(k) && st.revision == Top(w, k);
      FedBefore(log, from, to, k, st);
    }
  }

  lemma FedBefore(log: seq<Entry>, from: nat, to: nat, k: RowId, st: Statement)
    requires WellFormed(log) && from <= to <= |log|
    requires LastTouch(log, k) >= 0 && log[LastTouch(log, k)].silent
    requires st in Fed(log[from..to]) && st.Touches(k)
    ensures st.revision < Top(Script(log), k)
  {
    var L := LastTouch(log, k);
    FedBeforeLast(log, from, to, k, st);
    LastTouchIsLast(log, k, L);
    Decided(log, k, 0, |log|);
    SplitAt(log, 0, L, |log|);
    assert log[0..|log|] == log && log[0..L] == log[..L];
    AscendingParts(Script(log[..L]) + log[L].sql, Script(log[L + 1..|log|]));
    AscendingParts(Script(log[..L]), log[L].sql);
    TopBounds(log[L].sql, k);
    var last :| last in log[L].sql && last.Touches(k) && last.revision == Top(log[L].sql, k);
    assert st in Script(log[..L]) && last in log[L].sql;
  }

  // Everything fed on such a row comes from entries before its last one.
  lemma FedBeforeLast(log: seq<Entry>, from: nat, to: nat, k: RowId, st: Statement)
    requires WellFormed(log) && from <= to <= |log|
    requires LastTouch(log, k) >= 0 && log[LastTouch(log, k)].silent
    requires st in Fed(log[from..to]) && st.Touches(k)
    ensures st in Script(log[..LastTouch(log, k)])
  {
    var L := LastTouch(log, k);
    if L < from {
      NoTouchAfter(log, k, from, to);
      TouchFree(Fed(log[from..to]), k);
    } else if L < to {
      FedUpToSilent(log, from, L, to, k, st);
      FedSlicePrefix(log, from, L, L, st);
    } else {
      FedSlicePrefix(log, from, to, L, st);
    }
  }

  lemma FedUpToSilent(log: seq<Entry>, from: nat, L: nat, to: nat, k: RowId, st: Statement)
    requires from <= L < to <= |log| && L == LastTouch(log, k) && log[L].silent
    requires st in Fed(log[from..to]) && st.Touches(k)
    ensures st in Fed(log[from..L])
  {
    NotFedAfter(log, L + 1, to, k, st);
    FedAroundSilent(log, from, L, to, st);
  }

  lemma NotFedAfter(log: seq<Entry>, from: nat, to: nat, k: RowId, st: Statement)
    requires LastTouch(log, k) < from <= to <= |log| && st.Touches(k)
    ensures st !in Fed(log[from..to])
  {
    NoTouchAfter(log, k, from, to);
    TouchFree(Fed(log[from..to]), k);
  }

  lemma FedAroundSilent(log: seq<Entry>, from: nat, L: nat, to: nat, st: Statement)
    requires from <= L < to <= |log| && log[L].silent && st in Fed(log[from..to])
    ensures st in Fed(log[from..L]) || st in Fed(log[L + 1..to])
  {
    SplitAt(log, from, L, to);
  }

  lemma FedSlicePrefix(log: seq<Entry>, from: nat, cut: nat, end: nat, st: Statement)
    requires from <= cut <= end <= |log|
    requires st in Fed(log[from..cut])
    ensures st in Script(log[..end])
  {
    FedSubsequence(log[from..cut]);
    SliceScript(log[..end], from, cut);
    assert log[..end][from..cut] == log[from..cut];
  }

  // === Applying a snapshot ===================================================

  // Guarded upserts of every row of the snapshot, on top of what is there.
  function Restore(t: Tables, snap: Tables): Tables {
    Tables(t.schema + snap.schema,
           map k | k in t.rows.Keys + snap.rows.Keys ::
             if k in snap.rows && (k !in t.rows || t.rows[k].revision <= snap.rows[k].revision)
             then snap.rows[k] else t.rows[k])
  }

  // A bootstrap script: the DDL and one guarded upsert per row, in any order.
  predicate IsDump(script: seq<Statement>, snap: Tables) {
    && Columns(script) == snap.schema
    && (forall st :: st in script ==> !st.Delete?)
    && (forall st :: st in script && st.Upsert? ==>
          st.row in snap.rows && snap.rows[st.row] == Version(st.revision, st.value))
    && (forall k :: k in snap.rows ==> Upsert(k, snap.rows[k].revision, snap.rows[k].value) in script)
  }

  // Running such a script means the same in every order.
  lemma DumpRestores(t: Tables, script: seq<Statement>, snap: Tables)
    requires IsDump(script, snap)
    ensures Run(t, script) == Restore(t, snap)
  {
    RunPointwise(t, script, RowId("", ""));
    forall k
      ensures At(Run(t, script), k) == At(Restore(t, snap), k)
    {
      RunPointwise(t, script, k);
      TouchFree(script, k);
      if k in snap.rows {
        assert Upsert(k, snap.rows[k].revision, snap.rows[k].value).Touches(k);
        OneVersion(At(t, k), script, k, snap.rows[k]);
      } else {
        Untouched(At(t, k), script, k);
      }
    }
    SameTables(Run(t, script), Restore(t, snap));
  }

  lemma {:induction false} OneVersion(c: Cell, script: seq<Statement>, k: RowId, v: Version)
    requires forall st :: st in script && st.Touches(k) ==> st == Upsert(k, v.revision, v.value)
    ensures CellRun(c, script, k) ==
            if Top(script, k) >= 0 && Revision(c) <= v.revision then Some(v) else c
  {
    if script != [] {
      assert script == script[..|script| - 1] + [script[|script| - 1]];
      OneVersion(c, script[..|script| - 1], k, v);
    }
  }

  lemma {:induction false} Untouched(c: Cell, script: seq<Statement>, k: RowId)
    requires forall st :: st in script ==> !st.Touches(k)
    ensures CellRun(c, script, k) == c
  {
    if script != [] {
      assert script == script[..|script| - 1] + [script[|script| - 1]];
      Untouched(c, script[..|script| - 1], k);
    }
  }

  // A snapshot of the first m entries makes even a clean but unseeded replica
  // complete up to any cursor at or below m.
  lemma ApplySnapshot(log: seq<Entry>, r: Tables, c: nat, m: nat)
    requires WellFormed(log) && c <= m <= |log|
    requires Clean(log, r, c)
    ensures Clean(log, Restore(r, Truth(log[..m])), c)
    ensures Complete(log, Restore(r, Truth(log[..m])), c, m)
  {
    var snap := Truth(log[..m]);
    var r' := Restore(r, snap);
    assert log == log[..m] + log[m..];
    ScriptConcat(log[..m], log[m..]);
    RunPointwise(EMPTY, Script(log), RowId("", ""));
    RunPointwise(EMPTY, Script(log[..m]), RowId("", ""));
    forall k
      ensures k in r'.rows ==> Upsert(k, r'.rows[k].revision, r'.rows[k].value) in Script(log)
      ensures k in r'.rows && k !in Truth(log).rows ==> LastTouch(log, k) >= c
      ensures Due(log, LastTouch(log, k), c, m) ==> At(r', k) == At(Truth(log), k)
    {
      SnapshotRow(log, r, c, m, k);
    }
    forall i | Due(log, i, c, m)
      ensures Columns(log[i].sql) <= r'.schema
    {
      EntryInScript(log[..m], i);
      assert log[..m][i] == log[i];
    }
  }

  lemma SnapshotRow(log: seq<Entry>, r: Tables, c: nat, m: nat, k: RowId)
    requires WellFormed(log) && c <= m <= |log|
    requires Clean(log, r, c)
    ensures var r' := Restore(r, Truth(log[..m]));
            && (k in r'.rows ==> Upsert(k, r'.rows[k].revision, r'.rows[k].value) in Script(log))
            && (k in r'.rows && k !in Truth(log).rows ==> LastTouch(log, k) >= c)
            && (Due(log, LastTouch(log, k), c, m) ==> At(r', k) == At(Truth(log), k))
  {
    var snap := Truth(log[..m]);
    RowBound(log, r, c, k);
    TruthCell(log, k);
    SnapshotRowOrigin(log, m, k);
    SilentIsUpsert(log, k);
    if LastTouch(log, k) < m {
      TruthStable(log, k, m);
      assert At(snap, k) == At(Truth(log), k);
    }
  }

  lemma SnapshotRowOrigin(log: seq<Entry>, m: nat, k: RowId)
    requires m <= |log|
    ensures var snap := Truth(log[..m]);
            k in snap.rows ==> Upsert(k, snap.rows[k].revision, snap.rows[k].value) in Script(log)
  {
    assert log == log[..m] + log[m..];
    ScriptConcat(log[..m], log[m..]);
    RunPointwise(EMPTY, Script(log[..m]), k);
    CellOrigin(None, Script(log[..m]), k);
  }

  // === Convergence ===========================================================

  // Feeding the rest of the log brings a clean and complete replica to the truth.
  lemma Drains(log: seq<Entry>, r: Tables, c: nat, s: nat)
    requires WellFormed(log) && c <= |log|
    requires Clean(log, r, c) && Complete(log, r, c, s) && Covered(log, s)
    ensures Run(r, Fed(log[c..])) == Truth(log)
  {
    var n := |log|;
    assert log[c..n] == log[c..];
    ApplyWindow(log, r, c, n, s);
    UpToDate(log, Run(r, Fed(log[c..])), s);
  }

  // Row by row, also while silent entries above s are outstanding: a row whose last
  // entry is fed, or silent below s, or that has none, comes to the truth if and only
  // if it is complete.
  lemma DrainsRow(log: seq<Entry>, r: Tables, c: nat, s: nat, k: RowId)
    requires WellFormed(log) && c <= |log|
    requires Clean(log, r, c)
    requires LastTouch(log, k) >= 0 ==> Due(log, LastTouch(log, k), |log|, s)
    ensures At(Run(r, Fed(log[c..])), k) == At(Truth(log), k) <==> RowComplete(log, r, c, s, k)
  {
    assert log[c..|log|] == log[c..];
    ApplyWindow(log, r, c, |log|, s);
    RowBound(log, Run(r, Fed(log[c..])), |log|, k);
    TruthCell(log, k);
    WindowRow(log, r, c, |log|, s, k);
    if At(Run(r, Fed(log[c..])), k) == At(Truth(log), k) {
      DrainsOnlyIf(log, r, c, k);
    }
  }

  lemma UpToDate(log: seq<Entry>, r: Tables, s: nat)
    requires WellFormed(log)
    requires Clean(log, r, |log|) && Complete(log, r, |log|, s) && Covered(log, s)
    ensures r == Truth(log)
  {
    forall k
      ensures At(r, k) == At(Truth(log), k)
    {
      TruthCell(log, k);
      RowBound(log, r, |log|, k);
      if LastTouch(log, k) >= 0 {
        assert Due(log, LastTouch(log, k), |log|, s);
      }
    }
    RunPointwise(EMPTY, Script(log), RowId("", ""));
    forall col | col in Truth(log).schema
      ensures col in r.schema
    {
      var st :| st in Script(log) && st.AddColumn? && col == (st.table, st.column);
      var i := ScriptInEntry(log, st);
      assert Due(log, i, |log|, s);
      assert col in Columns(log[i].sql);
    }
    SameTables(r, Truth(log));
  }

  // Conversely, a row of a replica holding only written rows drains to the truth only
  // if it is clean and complete.
  lemma DrainsOnlyIf(log: seq<Entry>, r: Tables, c: nat, k: RowId)
    requires WellFormed(log) && c <= |log|
    requires forall q :: q in r.rows ==> Upsert(q, r.rows[q].revision, r.rows[q].value) in Script(log)
    requires At(Run(r, Fed(log[c..])), k) == At(Truth(log), k)
    ensures k in r.rows && k !in Truth(log).rows ==> LastTouch(log, k) >= c
    ensures Due(log, LastTouch(log, k), c, |log|) ==> At(r, k) == At(Truth(log), k)
  {
    var w, L := Fed(log[c..]), LastTouch(log, k);
    assert log[c..|log|] == log[c..];
    SliceAscending(log, c, |log|);
    RunPointwise(r, w, k);
    TruthCell(log, k);
    if L < c {
      NoTouchAfter(log, k, c, |log|);
      Guarded(At(r, k), w, k);
    } else if log[L].silent {
      SilentIsUpsert(log, k);
      CellOrigin(At(r, k), w, k);
      FedBelow(log, c, |log|, k);
      TopBounds(w, k);
      var v := Truth(log).rows[k];
      if Upsert(k, v.revision, v.value) in w {
        assert Upsert(k, v.revision, v.value).Touches(k);
        assert false;
      }
    }
  }

  datatype Window = Window(from: nat, to: nat)

  // How far a sequence of windows delivered from cursor c has come.
  function Reached(c: nat, windows: seq<Window>): nat {
    if windows == [] then c else windows[|windows| - 1].to
  }

  // Redelivery: each window starts anywhere between c and the point reached so
  // far, so it may repeat old deltas but never skips any.
  predicate Redelivery(log: seq<Entry>, c: nat, windows: seq<Window>) {
    windows == [] ||
    var m := |windows| - 1;
    && Redelivery(log, c, windows[..m])
    && c <= windows[m].from <= Reached(c, windows[..m])
    && windows[m].from <= windows[m].to <= |log|
  }

  function Replay(log: seq<Entry>, r: Tables, c: nat, windows: seq<Window>): Tables
    requires Redelivery(log, c, windows)
  {
    if windows == [] then r
    else
      var m := |windows| - 1;
      Run(Replay(log, r, c, windows[..m]), Fed(log[windows[m].from..windows[m].to]))
  }

  lemma {:induction false} ReplayKeeps(log: seq<Entry>, r: Tables, c: nat, s: nat, windows: seq<Window>)
    requires WellFormed(log) && c <= |log| && Redelivery(log, c, windows)
    requires Clean(log, r, c) && Complete(log, r, c, s)
    ensures Clean(log, Replay(log, r, c, windows), Reached(c, windows))
    ensures Complete(log, Replay(log, r, c, windows), Reached(c, windows), s)
  {
    if windows != [] {
      var m := |windows| - 1;
      ReplayKeeps(log, r, c, s, windows[..m]);
      var r' := Replay(log, r, c, windows[..m]);
      Rewind(log, r', Reached(c, windows[..m]), s, windows[m].from);
      ApplyWindow(log, r', windows[m].from, windows[m].to, s);
    }
  }

  // However deltas are cut into windows, and however often windows are sent
  // again, a replay that reaches the end of the log ends in the true rows.
  lemma ReplayConverges(log: seq<Entry>, r: Tables, c: nat, s: nat, windows: seq<Window>)
    requires WellFormed(log) && c <= |log| && Redelivery(log, c, windows)
    requires Clean(log, r, c) && Complete(log, r, c, s) && Covered(log, s)
    requires Reached(c, windows) == |log|
    ensures Replay(log, r, c, windows) == Truth(log)
  {
    ReplayKeeps(log, r, c, s, windows);
    UpToDate(log, Replay(log, r, c, windows), s);
  }

  // A replica already at the truth may be replayed from any earlier cursor.
  lemma TruthIsDrained(log: seq<Entry>, c: nat)
    requires WellFormed(log) && c <= |log|
    ensures Clean(log, Truth(log), c) && Complete(log, Truth(log), c, |log|)
  {
    RunPointwise(EMPTY, Script(log), RowId("", ""));
    forall k | k in Truth(log).rows
      ensures Upsert(k, Truth(log).rows[k].revision, Truth(log).rows[k].value) in Script(log)
    {
      RunPointwise(EMPTY, Script(log), k);
      CellOrigin(None, Script(log), k);
    }
    forall i | Due(log, i, c, |log|)
      ensures Columns(log[i].sql) <= Truth(log).schema
    {
      EntryInScript(log, i);
    }
  }

  // In particular a replica that has followed the first n entries may be fed the
  // entries from any k on again, cut and repeated in any way.
  lemma ReplayAgain(log: seq<Entry>, n: nat, k: nat, windows: seq<Window>)
    requires WellFormed(log) && k <= n <= |log|
    requires Redelivery(log[..n], k, windows) && Reached(k, windows) == n
    ensures Replay(log[..n], Truth(log[..n]), k, windows) == Truth(log[..n])
  {
    PrefixWellFormed(log, n);
    TruthIsDrained(log[..n], k);
    ReplayConverges(log[..n], Truth(log[..n]), k, n, windows);
  }

  // A snapshot taken at m and applied late changes nothing about where the
  // replica ends; applied twice it is the same as once.
  lemma SnapshotOverlap(log: seq<Entry>, r: Tables, c: nat, s: nat, m: nat)
    requires WellFormed(log) && c <= m <= |log|
    requires Clean(log, r, c) && Complete(log, r, c, s) && Covered(log, s) && Covered(log, m)
    ensures Run(Restore(r, Truth(log[..m])), Fed(log[c..])) == Run(r, Fed(log[c..]))
    ensures Restore(Restore(r, Truth(log[..m])), Truth(log[..m])) == Restore(r, Truth(log[..m]))
  {
    ApplySnapshot(log, r, c, m);
    Drains(log, r, c, s);
    Drains(log, Restore(r, Truth(log[..m])), c, m);
    SameTables(Restore(Restore(r, Truth(log[..m])), Truth(log[..m])), Restore(r, Truth(log[..m])));
  }
}

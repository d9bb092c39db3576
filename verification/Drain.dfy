/**
 * Convergence of the data plane when the server leases windows only from the acked
 * cursor (the strict form of E1), leases no shorter window again (the steady form),
 * and keeps snapshot_required up until a snapshot has committed (E4). Leases may run
 * out at any moment.
 */
module Drain {
  import opened Replica
  import opened ServerLog
  import opened DataPlane
  import opened ClientOrder

  // === Windows from the acked cursor =========================================

  // Every window on its way starts at or below the acked cursor, and nothing acked
  // or about to be acked is beyond the last committed batch.
  ghost predicate LeaseInv(s: State) {
    && (Held(s.cl.pc).Some? ==> Held(s.cl.pc).value.from <= s.srv.acked)
    && (forall f :: f in s.net.wire && f.IsWindow() ==> f.from <= s.srv.acked)
    && s.srv.acked <= s.past.applied
    && (forall i :: 0 <= i < |s.net.acks| ==> s.net.acks[i] <= s.past.applied)
    && (s.cl.pc.Acking? ==> s.cl.pc.upTo <= s.past.applied)
  }

  lemma LeaseStep(mode: Mode, l: Label, s: State)
    requires OrderInv(s) && WireInv(s) && RisingInv(s) && LeaseInv(s) && Enabled(mode, l, s) && mode.strict
    ensures LeaseInv(Do(mode, l, s))
  {
    if l.ByServer() {
      LeaseServer(mode, l, s);
    } else if l.RunBatch? {
      assert Do(mode, l, s) == AfterBatch(s, l.batch);
      LeaseRan(s, l.batch);
    } else {
      LeaseElsewhere(mode, l, s);
    }
  }

  lemma LeaseServer(mode: Mode, l: Label, s: State)
    requires RisingInv(s) && LeaseInv(s) && l.ByServer() && ServerEnabled(mode, l, s) && mode.strict
    ensures LeaseInv(ServerDo(l, s))
  {
  }

  lemma LeaseRan(s: State, out: BatchOut)
    requires WireInv(s) && RisingInv(s) && LeaseInv(s) && s.cl.pc.Applying?
    ensures LeaseInv(AfterBatch(s, out))
  {
  }

  lemma LeaseElsewhere(mode: Mode, l: Label, s: State)
    requires OrderInv(s) && LeaseInv(s) && !l.ByServer() && !l.RunBatch? && ClientEnabled(mode, l, s)
    ensures LeaseInv(ClientDo(mode, l, s))
  {
    if l.AboutProcess() {
      LeaseProcess(mode, l, s);
    } else if l.AboutSnapshot() {
      LeaseSnapshot(mode, l, s);
    } else {
      LeaseFrame(mode, l, s);
    }
  }

  lemma LeaseProcess(mode: Mode, l: Label, s: State)
    requires OrderInv(s) && LeaseInv(s) && l.AboutProcess() && ClientEnabled(mode, l, s)
    ensures LeaseInv(ClientDo(mode, l, s))
  {
  }

  lemma LeaseSnapshot(mode: Mode, l: Label, s: State)
    requires OrderInv(s) && LeaseInv(s) && l.AboutSnapshot() && ClientEnabled(mode, l, s)
    ensures LeaseInv(ClientDo(mode, l, s))
  {
  }

  lemma LeaseFrame(mode: Mode, l: Label, s: State)
    requires OrderInv(s) && LeaseInv(s) && l.AboutFrame() && !l.RunBatch? && ClientEnabled(mode, l, s)
    ensures LeaseInv(ClientDo(mode, l, s))
  {
    var t := ClientDo(mode, l, s);
    assert t.srv.acked == s.srv.acked && t.past.applied == s.past.applied;
  }

  // === The replica ===========================================================

  ghost predicate DataInv(s: State) {
    && WellFormed(s.srv.log)
    && Clean(s.srv.log, s.db, s.past.applied)
    && (s.past.seeded ==> Complete(s.srv.log, s.db, s.past.applied, s.past.covered))
    && (!s.srv.flag ==> Covered(s.srv.log, s.past.covered))
  }

  lemma DataStep(mode: Mode, l: Label, s: State)
    requires OrderInv(s) && WireInv(s) && LeaseInv(s) && DataInv(s) && Enabled(mode, l, s) && !mode.hasty
    ensures DataInv(Do(mode, l, s))
  {
    if l.Publish? || l.SilentWrite? {
      assert Do(mode, l, s) == ServerDo(l, s);
      DataPublish(mode, l, s);
    } else if l.Restore? {
      assert Do(mode, l, s) == AfterRestore(s, l.restored);
      DataRestore(s, l.restored);
    } else if l.RunBatch? {
      assert Do(mode, l, s) == AfterBatch(s, l.batch);
      DataBatch(s, l.batch);
    } else {
      DataElsewhere(mode, l, s);
    }
  }

  lemma DataPublish(mode: Mode, l: Label, s: State)
    requires WireInv(s) && DataInv(s) && (l.Publish? || l.SilentWrite?) && ServerEnabled(mode, l, s)
    ensures DataInv(ServerDo(l, s))
  {
    ServerLog.Publish(s.srv.log, l.e, s.db, s.past.applied, s.past.covered);
  }

  lemma DataRestore(s: State, out: RestoreOut)
    requires WireInv(s) && DataInv(s) && s.cl.pc.Holding?
    ensures DataInv(AfterRestore(s, out))
  {
    if !out.NotApplied? {
      ApplySnapshot(s.srv.log, s.db, s.past.applied, s.cl.pc.m);
    }
  }

  lemma DataBatch(s: State, out: BatchOut)
    requires WireInv(s) && LeaseInv(s) && DataInv(s) && s.cl.pc.Applying?
    ensures DataInv(AfterBatch(s, out))
  {
    if !out.BatchFailed? {
      Rewind(s.srv.log, s.db, s.past.applied, s.past.covered, s.cl.pc.from);
      ApplyWindow(s.srv.log, s.db, s.cl.pc.from, s.cl.pc.to, s.past.covered);
    }
  }

  lemma DataElsewhere(mode: Mode, l: Label, s: State)
    requires DataInv(s) && Enabled(mode, l, s) && !mode.hasty
    requires !l.Publish? && !l.SilentWrite? && !l.Restore? && !l.RunBatch?
    ensures DataInv(Do(mode, l, s))
  {
    var t := Do(mode, l, s);
    assert t.srv.log == s.srv.log && t.db == s.db;
    assert t.past.applied == s.past.applied && t.past.seeded == s.past.seeded && t.past.covered == s.past.covered;
    assert t.srv.flag == s.srv.flag || (l.RaiseFlag? || l.ClearFlag?);
  }

  // === Whole runs ============================================================

  ghost predicate Sound(mode: Mode, s: State) {
    Safe(mode, s) && LeaseInv(s) && DataInv(s)
  }

  lemma {:induction false} StrictRun(mode: Mode, s0: State, run: seq<Label>)
    requires Init(mode, s0) && Legal(mode, s0, run) && mode.strict && mode.steady && !mode.hasty
    ensures Sound(mode, After(mode, s0, run))
  {
    InitSafe(mode, s0);
    StrictFrom(mode, s0, run);
  }

  lemma {:induction false} StrictFrom(mode: Mode, s: State, run: seq<Label>)
    requires Sound(mode, s) && Legal(mode, s, run) && mode.strict && mode.steady && !mode.hasty
    ensures Sound(mode, After(mode, s, run))
  {
    if run != [] {
      var m := |run| - 1;
      PrefixLegal(mode, s, run, m);
      StrictFrom(mode, s, run[..m]);
      StrictStep(mode, run[m], After(mode, s, run[..m]));
    }
  }

  lemma StrictStep(mode: Mode, l: Label, s: State)
    requires Sound(mode, s) && Enabled(mode, l, s) && mode.strict && mode.steady && !mode.hasty
    ensures Sound(mode, Do(mode, l, s))
  {
    SafeStep(mode, l, s);
    LeaseStep(mode, l, s);
    DataStep(mode, l, s);
  }

  // The row's last entry is fed, or silent and in a committed snapshot, or there is
  // none.
  predicate Deliverable(s: State, k: RowId) {
    LastTouch(s.srv.log, k) >= 0 ==> Due(s.srv.log, LastTouch(s.srv.log, k), |s.srv.log|, s.past.covered)
  }

  // The rest of the log from the acked cursor brings the replica to the truth.
  ghost predicate DrainsToTruth(s: State)
    requires s.srv.acked <= |s.srv.log|
  {
    Run(s.db, Fed(s.srv.log[s.srv.acked..])) == Truth(s.srv.log)
  }

  ghost predicate DrainsRowToTruth(s: State, k: RowId)
    requires s.srv.acked <= |s.srv.log|
  {
    At(Run(s.db, Fed(s.srv.log[s.srv.acked..])), k) == At(Truth(s.srv.log), k)
  }

  // Nothing is wrong for good: draining brings every row to the truth but those whose
  // last entry only an outstanding snapshot carries, and with none outstanding the
  // whole replica, which at the end of the log is the truth.
  ghost predicate Converging(s: State) {
    && s.srv.acked <= |s.srv.log|
    && (forall k :: Deliverable(s, k) ==> DrainsRowToTruth(s, k))
    && (!s.srv.flag ==> DrainsToTruth(s) && (s.srv.acked == |s.srv.log| ==> s.db == Truth(s.srv.log)))
  }

  lemma SoundConverges(mode: Mode, s: State)
    requires Sound(mode, s) && s.past.seeded
    ensures Converging(s)
  {
    Rewind(s.srv.log, s.db, s.past.applied, s.past.covered, s.srv.acked);
    forall k | Deliverable(s, k)
      ensures DrainsRowToTruth(s, k)
    {
      DrainsRow(s.srv.log, s.db, s.srv.acked, s.past.covered, k);
    }
    if !s.srv.flag {
      Drains(s.srv.log, s.db, s.srv.acked, s.past.covered);
      if s.srv.acked == |s.srv.log| {
        assert s.srv.log[s.srv.acked..] == [];
      }
    }
  }

  // Convergence: at every point of every run after a first committed snapshot,
  // with no snapshot outstanding, feeding the rest of the log from the acked
  // cursor gives exactly the truth. At the end of the log the replica is the truth.
  lemma Converges(mode: Mode, s0: State, run: seq<Label>)
    requires Init(mode, s0) && Legal(mode, s0, run) && mode.strict && mode.steady && !mode.hasty
    ensures var s := After(mode, s0, run);
            s.srv.acked <= |s.srv.log| &&
            (s.past.seeded && !s.srv.flag ==>
              && DrainsToTruth(s)
              && (s.srv.acked == |s.srv.log| ==> s.db == Truth(s.srv.log)))
  {
    StrictRun(mode, s0, run);
    if After(mode, s0, run).past.seeded {
      SoundConverges(mode, After(mode, s0, run));
    }
  }

  // Also while a snapshot is outstanding: draining brings every row to the truth but
  // those whose last entry only that snapshot carries; a row already due is true; and
  // no deleted row whose delete is acked is there.
  lemma NeverWrong(mode: Mode, s0: State, run: seq<Label>, k: RowId)
    requires Init(mode, s0) && Legal(mode, s0, run) && mode.strict && mode.steady && !mode.hasty
    ensures var s := After(mode, s0, run);
            && s.srv.acked <= |s.srv.log|
            && (s.past.seeded && Deliverable(s, k) ==> DrainsRowToTruth(s, k))
            && (s.past.seeded && Due(s.srv.log, LastTouch(s.srv.log, k), s.srv.acked, s.past.covered) ==>
                  At(s.db, k) == At(Truth(s.srv.log), k))
            && (k in s.db.rows && k !in Truth(s.srv.log).rows ==> LastTouch(s.srv.log, k) >= s.srv.acked)
  {
    StrictRun(mode, s0, run);
    var s := After(mode, s0, run);
    Rewind(s.srv.log, s.db, s.past.applied, s.past.covered, s.srv.acked);
    if s.past.seeded {
      SoundConverges(mode, s);
    }
  }

  // Without --skip-bootstrap both hold of every profile that is marked bootstrapped.
  lemma BootstrappedConverges(mode: Mode, s0: State, run: seq<Label>)
    requires Init(mode, s0) && Legal(mode, s0, run) && mode.strict && mode.steady && !mode.hasty
    requires forall l :: l in run ==> !Skips(l)
    ensures var s := After(mode, s0, run); s.cl.boot || s.cl.saved ==> Converging(s)
  {
    var s := After(mode, s0, run);
    StrictRun(mode, s0, run);
    SeededBy(mode, s0, run);
    if s.cl.boot || s.cl.saved {
      SoundConverges(mode, s);
    }
  }

  // === Replicas vouched for with --skip-bootstrap ============================

  // The replica holds what the acked deltas and the last snapshot, or the state at
  // pairing, have brought about: the tables' columns and the truth in every row due.
  ghost predicate Vouchable(s: State) {
    Complete(s.srv.log, s.db, s.srv.acked, s.past.covered)
  }

  // The same state with another account of its history.
  predicate Twin(s: State, t: State) {
    t.srv == s.srv && t.net == s.net && t.db == s.db && t.cl == s.cl && t.past.covered == s.past.covered
  }

  lemma TwinStep(mode: Mode, l: Label, s: State, t: State)
    requires Twin(s, t) && Enabled(mode, l, s)
    ensures Enabled(mode, l, t) && Twin(Do(mode, l, s), Do(mode, l, t))
  {
  }

  lemma {:induction false} TwinRun(mode: Mode, s: State, t: State, run: seq<Label>)
    requires Twin(s, t) && Legal(mode, s, run)
    ensures Legal(mode, t, run) && Twin(After(mode, s, run), After(mode, t, run))
    ensures t.past.seeded ==> After(mode, t, run).past.seeded
  {
    if run != [] {
      var m := |run| - 1;
      PrefixLegal(mode, s, run, m);
      TwinRun(mode, s, t, run[..m]);
      TwinStep(mode, run[m], After(mode, s, run[..m]), After(mode, t, run[..m]));
      SeededStep(mode, run[m], After(mode, t, run[..m]));
    }
  }

  // The account in which a snapshot committed just what the replica holds at cursor c.
  function Seeded(s: State, c: nat): State {
    s.(past := s.past.(applied := c, seeded := true))
  }

  lemma SeededSound(mode: Mode, s: State, c: nat)
    requires Sound(mode, s) && Complete(s.srv.log, s.db, c, s.past.covered)
    requires c == s.past.applied || (s.cl.pc.Down? && c == s.srv.acked)
    ensures Sound(mode, Seeded(s, c))
  {
    var t := Seeded(s, c);
    Rewind(s.srv.log, s.db, s.past.applied, s.past.covered, c);
    StaysDelivered(s.past, t.past);
  }

  // A replica that is complete at some point of a run, however it came to be, converges
  // from there on.
  lemma CompleteConverges(mode: Mode, s0: State, run: seq<Label>, c: nat, later: seq<Label>)
    requires Init(mode, s0) && Legal(mode, s0, run) && mode.strict && mode.steady && !mode.hasty
    requires var s := After(mode, s0, run);
             && Complete(s.srv.log, s.db, c, s.past.covered)
             && (c == s.past.applied || (s.cl.pc.Down? && c == s.srv.acked))
             && Legal(mode, s, later)
    ensures Converging(After(mode, After(mode, s0, run), later))
  {
    var s := After(mode, s0, run);
    StrictRun(mode, s0, run);
    SeededSound(mode, s, c);
    TwinRun(mode, s, Seeded(s, c), later);
    StrictFrom(mode, Seeded(s, c), later);
    SoundConverges(mode, After(mode, Seeded(s, c), later));
    SameConverging(After(mode, s, later), After(mode, Seeded(s, c), later));
  }

  lemma SameConverging(s: State, t: State)
    requires Twin(s, t) && Converging(t)
    ensures Converging(s)
  {
    forall k | Deliverable(s, k)
      ensures DrainsRowToTruth(s, k)
    {
      assert Deliverable(t, k) && DrainsRowToTruth(t, k);
    }
  }

  // At step n a process starts with --skip-bootstrap over a replica that is complete.
  ghost predicate VouchedAt(mode: Mode, s0: State, run: seq<Label>, n: nat)
    requires Legal(mode, s0, run) && n < |run|
  {
    PrefixLegal(mode, s0, run, n);
    Skips(run[n]) && Vouchable(After(mode, s0, run[..n]))
  }

  // A replica that the operator rightly vouches for converges like one seeded by a
  // snapshot.
  lemma SkipConverges(mode: Mode, s0: State, run: seq<Label>, n: nat)
    requires Init(mode, s0) && Legal(mode, s0, run) && mode.strict && mode.steady && !mode.hasty
    requires n < |run| && VouchedAt(mode, s0, run, n)
    ensures Converging(After(mode, s0, run))
  {
    PrefixLegal(mode, s0, run, n);
    assert run == run[..n] + run[n..];
    Continues(mode, s0, run[..n], After(mode, s0, run[..n]), run[n..]);
    CompleteConverges(mode, s0, run[..n], After(mode, s0, run[..n]).srv.acked, run[n..]);
  }

  // The condition on the rows is exact: already where the process starts, a row that
  // no outstanding snapshot carries drains to the truth if and only if it is complete.
  lemma SkipConvergesOnlyIf(mode: Mode, s0: State, run: seq<Label>, k: RowId)
    requires Init(mode, s0) && Legal(mode, s0, run) && mode.strict && mode.steady && !mode.hasty
    requires Deliverable(After(mode, s0, run), k)
    ensures var s := After(mode, s0, run);
            && s.srv.acked <= |s.srv.log|
            && (DrainsRowToTruth(s, k) <==> RowComplete(s.srv.log, s.db, s.srv.acked, s.past.covered, k))
  {
    StrictRun(mode, s0, run);
    var s := After(mode, s0, run);
    Rewind(s.srv.log, s.db, s.past.applied, s.past.covered, s.srv.acked);
    DrainsRow(s.srv.log, s.db, s.srv.acked, s.past.covered, k);
  }

  // === A delta that always fails =============================================

  // Entry p is a delta the database always refuses.
  ghost predicate Poisoned(mode: Mode, log: seq<Entry>, p: nat) {
    p in mode.poison && p < |log| && !log[p].silent
  }

  // Nothing committed, acked or on its way goes beyond entry p.
  ghost predicate StopsAt(s: State, p: nat) {
    && s.past.applied <= p && s.srv.acked <= p
    && (forall w :: w in s.past.landed ==> w.to <= p)
    && (forall i :: 0 <= i < |s.net.acks| ==> s.net.acks[i] <= p)
    && (s.cl.pc.Acking? ==> s.cl.pc.upTo <= p)
    && (Held(s.cl.pc).Some? ==> Held(s.cl.pc).value.from <= p)
    && (forall f :: f in s.net.wire && f.IsWindow() ==> f.from <= p)
  }

  ghost predicate PoisonInv(mode: Mode, s: State) {
    && (forall w :: w in s.past.landed ==> w.to <= |s.srv.log|)
    && (forall p: nat :: Poisoned(mode, s.srv.log, p) ==> StopsAt(s, p))
  }

  lemma StopsAtEnd(s: State)
    requires WireInv(s) && forall w :: w in s.past.landed ==> w.to <= |s.srv.log|
    ensures StopsAt(s, |s.srv.log|)
  {
  }

  lemma PoisonStep(mode: Mode, l: Label, s: State)
    requires WireInv(s) && PoisonInv(mode, s) && Enabled(mode, l, s) && mode.strict
    ensures PoisonInv(mode, Do(mode, l, s))
  {
    var t := Do(mode, l, s);
    LandedWithin(mode, l, s);
    forall p: nat | Poisoned(mode, t.srv.log, p)
      ensures StopsAt(t, p)
    {
      if p < |s.srv.log| {
        assert Poisoned(mode, s.srv.log, p);
      } else {
        StopsAtEnd(s);
      }
      StopsStep(mode, l, s, p);
    }
  }

  lemma LandedWithin(mode: Mode, l: Label, s: State)
    requires WireInv(s) && Enabled(mode, l, s) && forall w :: w in s.past.landed ==> w.to <= |s.srv.log|
    ensures forall w :: w in Do(mode, l, s).past.landed ==> w.to <= |Do(mode, l, s).srv.log|
    ensures s.srv.log <= Do(mode, l, s).srv.log
  {
    LandedStep(mode, l, s);
    LogGrows(mode, l, s);
  }

  lemma LogGrows(mode: Mode, l: Label, s: State)
    requires Enabled(mode, l, s)
    ensures s.srv.log <= Do(mode, l, s).srv.log
    ensures l.RunBatch? ==> Do(mode, l, s).srv == s.srv
  {
  }

  lemma StopsStep(mode: Mode, l: Label, s: State, p: nat)
    requires StopsAt(s, p) && Enabled(mode, l, s) && mode.strict
    requires Poisoned(mode, Do(mode, l, s).srv.log, p)
    ensures StopsAt(Do(mode, l, s), p)
  {
    if l.ByServer() {
      StopsServer(mode, l, s, p);
    } else if l.RunBatch? {
      assert Do(mode, l, s) == AfterBatch(s, l.batch);
    } else {
      StopsElsewhere(mode, l, s, p);
    }
  }

  lemma StopsServer(mode: Mode, l: Label, s: State, p: nat)
    requires StopsAt(s, p) && l.ByServer() && ServerEnabled(mode, l, s) && mode.strict
    ensures StopsAt(ServerDo(l, s), p)
  {
  }

  lemma StopsElsewhere(mode: Mode, l: Label, s: State, p: nat)
    requires StopsAt(s, p) && !l.ByServer() && !l.RunBatch? && ClientEnabled(mode, l, s)
    ensures StopsAt(ClientDo(mode, l, s), p)
  {
    var t := ClientDo(mode, l, s);
    assert t.srv.acked == s.srv.acked && t.past.applied == s.past.applied && t.past.landed == s.past.landed;
  }

  lemma {:induction false} PoisonRun(mode: Mode, s0: State, run: seq<Label>)
    requires Init(mode, s0) && Legal(mode, s0, run) && mode.strict
    ensures Safe(mode, After(mode, s0, run)) && PoisonInv(mode, After(mode, s0, run))
  {
    if run == [] {
      InitSafe(mode, s0);
    } else {
      var m := |run| - 1;
      PrefixLegal(mode, s0, run, m);
      PoisonRun(mode, s0, run[..m]);
      SafeStep(mode, run[m], After(mode, s0, run[..m]));
      PoisonStep(mode, run[m], After(mode, s0, run[..m]));
    }
  }

  // A delta the database always refuses is never acked, and no committed batch
  // contains it or anything after it, whatever the server does with its leases
  // otherwise.
  lemma PoisonNeverSkipped(mode: Mode, s0: State, run: seq<Label>, p: nat)
    requires Init(mode, s0) && Legal(mode, s0, run) && mode.strict
    requires Poisoned(mode, After(mode, s0, run).srv.log, p)
    ensures After(mode, s0, run).srv.acked <= p
    ensures forall w :: w in CommittedWindows(mode, s0, run) ==> w.to <= p
  {
    PoisonRun(mode, s0, run);
    AckAfterCommit(mode, s0, run);
  }
}

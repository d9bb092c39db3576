/**
 * The client program: Pump, Bootstrap, connectAndPump and runForever, run against
 * a world that interleaves server and network steps before every operation and
 * picks every outcome nondeterministically. Each operation of the world is one
 * label of the data plane, so whatever the program does is a legal run of it.
 */
module Client {
  import opened Wrappers
  import opened Replica
  import opened ServerLog
  import opened Apply
  import opened DataPlane
  import opened ClientOrder
  import Drain

  // How Pump, connectAndPump and runForever end.
  datatype Ending = Canceled | Permanent | Disconnected

  datatype Received = Frame(frame: DataPlane.Frame) | Failed(ending: Ending)

  // The apply_error frame: the refused delta and the SQL found for it.
  datatype Report = Report(failedID: Option<int>, sql: Option<seq<Statement>>)

  datatype Bootstrapped = Done | PublishRequired | Broken

  // The steps after which runForever must not try again.
  predicate Fatal(l: Label) {
    (l.RunBatch? && !l.batch.Committed?) || l == Exchange(Revoked)
  }

  // The database takes the whole batch, and the client hears of it.
  predicate Accepted(deltas: seq<Delta>, faults: BatchFaults) {
    !faults.noBegin && NoneRejected(deltas, faults) && faults.commit.Acknowledged?
  }

  // `id` names the delta at which the batch stopped, if it was a delta that stopped it.
  ghost predicate IsRefused(deltas: seq<Delta>, faults: BatchFaults, id: Option<int>) {
    if faults.noBegin || NoneRejected(deltas, faults) then id.None?
    else exists i: nat :: FirstRejected(i, deltas, faults) && id == Some(deltas[i].id)
  }

  // The frame names the refused delta and carries its own SQL.
  ghost predicate IsReported(deltas: seq<Delta>, faults: BatchFaults, r: Option<Report>) {
    && r.Some? && IsRefused(deltas, faults, r.value.failedID)
    && (r.value.failedID.None? ==> r.value.sql.None?)
    && forall i :: 0 <= i < |deltas| && r.value.failedID == Some(deltas[i].id) ==> r.value.sql == Some(deltas[i].sql)
  }

  // === What the program has to do ============================================

  // The client's own steps in a run.
  function Own(run: seq<Label>): seq<Label> {
    if run == [] then []
    else Own(run[..|run| - 1]) + if run[|run| - 1].ByServer() then [] else [run[|run| - 1]]
  }

  // The steps of the bootstrap closure, one for each way it returns.
  predicate Bootstraps(steps: seq<Label>, r: Bootstrapped) {
    match r
    case PublishRequired => steps == [Fetch(NotPublished)]
    case Broken =>
      || steps == [Fetch(FetchFailed)]
      || (|steps| == 2 && steps[0] == Fetch(Fetched) && steps[1].Restore? && !steps[1].restored.Restored?)
    case Done => |steps| == 3 && steps[..2] == [Fetch(Fetched), Restore(Restored)] && steps[2].SetFlag?
  }

  // The steps for a frame's deltas: one batch, and an ack once it has committed.
  predicate Applies(f: DataPlane.Frame, steps: seq<Label>, halted: Option<Ending>) {
    if !f.IsWindow() then steps == [] && halted.None?
    else match halted
         case None => |steps| == 2 && steps[0] == RunBatch(Committed) && steps[1].SendAck? && !steps[1].ack.SendFailed?
         case Some(Disconnected) => steps == [RunBatch(Committed), SendAck(SendFailed)]
         case Some(Permanent) => |steps| == 1 && steps[0].RunBatch? && !steps[0].batch.Committed?
         case Some(Canceled) => false
  }

  // The steps for a batch frame that has been received. `next` is Pump's
  // bootstrapPending afterwards.
  ghost predicate Handles(f: DataPlane.Frame, hasRebootstrap: bool, pending: bool, steps: seq<Label>,
      halted: Option<Ending>, next: bool)
    requires f.Batch?
  {
    if !f.required && !pending then
      steps != [] && steps[0] == Route && Applies(f, steps[1..], halted) && !next
    else if !hasRebootstrap then
      steps == [Ignore] && halted.None? && next == pending
    else
      exists boot, tail, r :: steps == [Route] + boot + tail && Rebootstraps(f, pending, boot, tail, r, halted, next)
  }

  // A snapshot was due: `boot` is the closure's part of the steps, `tail` what follows.
  predicate Rebootstraps(f: DataPlane.Frame, pending: bool, boot: seq<Label>, tail: seq<Label>, r: Bootstrapped,
      halted: Option<Ending>, next: bool)
    requires f.Batch?
  {
    && Bootstraps(boot, r)
    && match r
       case PublishRequired => tail == [] && halted.None? && next == pending
       case Broken => tail == [] && halted == Some(Disconnected) && next == pending
       case Done => !next && if f.required then tail == [] && halted.None? else Applies(f, tail, halted)
  }

  // Steps within one process that neither end it nor leave out a snapshot it can fetch.
  predicate GoesOn(steps: seq<Label>, hasRebootstrap: bool) {
    forall l :: l in steps ==>
      && !Fatal(l) && !l.Crash? && !l.Start? && !l.Exit?
      && if hasRebootstrap then !l.Ignore? else !l.Fetch?
  }

  // The steps go on until the one that the ending says.
  predicate EndsAs(steps: seq<Label>, hasRebootstrap: bool, ending: Ending) {
    if ending.Disconnected? then GoesOn(steps, hasRebootstrap)
    else
      && steps != [] && GoesOn(steps[..|steps| - 1], hasRebootstrap)
      && if ending.Canceled? then steps[|steps| - 1].Crash? else Fatal(steps[|steps| - 1])
  }

  // Where the program counter is after such an ending.
  function PcAfter(ending: Ending): Pc {
    match ending
    case Canceled => Down
    case Permanent => Halted
    case Disconnected => Top
  }

  function EndingOf(halted: Option<Ending>): Ending {
    if halted.Some? then halted.value else Disconnected
  }

  lemma HandlesGoesOn(f: DataPlane.Frame, hasRebootstrap: bool, pending: bool, steps: seq<Label>,
      halted: Option<Ending>, next: bool)
    requires f.Batch? && Handles(f, hasRebootstrap, pending, steps, halted, next)
    ensures EndsAs(steps, hasRebootstrap, EndingOf(halted))
  {
    if !f.required && !pending {
      assert steps == [Route] + steps[1..];
      AppliesGoesOn(f, steps[1..], hasRebootstrap, halted);
      EndsLater([Route], steps[1..], hasRebootstrap, EndingOf(halted));
    } else if hasRebootstrap {
      var boot, tail, r :| steps == [Route] + boot + tail && Rebootstraps(f, pending, boot, tail, r, halted, next);
      RebootstrapsGoesOn(f, pending, boot, tail, r, halted, next);
    }
  }

  lemma RebootstrapsHandles(f: DataPlane.Frame, pending: bool, boot: seq<Label>, tail: seq<Label>, r: Bootstrapped,
      halted: Option<Ending>, next: bool)
    requires f.Batch? && (f.required || pending) && Rebootstraps(f, pending, boot, tail, r, halted, next)
    ensures Handles(f, true, pending, [Route] + boot + tail, halted, next)
  {
  }

  lemma RebootstrapsGoesOn(f: DataPlane.Frame, pending: bool, boot: seq<Label>, tail: seq<Label>, r: Bootstrapped,
      halted: Option<Ending>, next: bool)
    requires f.Batch? && Rebootstraps(f, pending, boot, tail, r, halted, next)
    ensures EndsAs([Route] + boot + tail, true, EndingOf(halted))
  {
    BootstrapsGoesOn(boot, r);
    if tail != [] {
      AppliesGoesOn(f, tail, true, halted);
    }
    EndsLater([Route] + boot, tail, true, EndingOf(halted));
  }

  lemma BootstrapsGoesOn(boot: seq<Label>, r: Bootstrapped)
    requires Bootstraps(boot, r)
    ensures GoesOn(boot, true)
  {
    assert boot == if r.Done? then boot[..2] + [boot[2]] else boot;
  }

  lemma AppliesGoesOn(f: DataPlane.Frame, steps: seq<Label>, hasRebootstrap: bool, halted: Option<Ending>)
    requires Applies(f, steps, halted)
    ensures EndsAs(steps, hasRebootstrap, EndingOf(halted))
  {
  }

  lemma Joined(a: seq<Label>, b: seq<Label>, c: seq<Label>)
    ensures a + b + c == a + (b + c)
  {
  }

  lemma EndsLater(before: seq<Label>, steps: seq<Label>, hasRebootstrap: bool, ending: Ending)
    requires GoesOn(before, hasRebootstrap) && EndsAs(steps, hasRebootstrap, ending)
    ensures EndsAs(before + steps, hasRebootstrap, ending)
  {
    if !ending.Disconnected? {
      assert (before + steps)[..|before + steps| - 1] == before + steps[..|steps| - 1];
    }
  }

  class World {
    const mode: Mode
    const db: Database
    ghost const init: State
    var st: State
    ghost var run: seq<Label>
    // The client's own steps in the run.
    ghost var own: seq<Label>
    // Upper bound on how long the operator waits before interrupting.
    var patience: nat
    // The last apply_error frame sent.
    var report: Option<Report>
    // The process's context is canceled.
    var canceled: bool

    ghost predicate Valid()
      reads this, db
    {
      && Init(mode, init) && Trace(mode, init, run) == Some(st)
      && db.tables == st.db && own == Own(run)
    }

    constructor (mode: Mode, s: State, patience: nat)
      requires Init(mode, s)
      ensures Valid() && st == s && run == [] && fresh(db)
    {
      this.mode, init, st, run, own, this.patience, report, canceled := mode, s, s, [], [], patience, None, false;
      db := new Database(s.db);
    }

    // One step of the data plane.
    method Step(l: Label)
      requires Init(mode, init) && Trace(mode, init, run) == Some(st) && own == Own(run)
      requires Enabled(mode, l, st) && db.tables == Do(mode, l, st).db
      modifies this`st, this`run, this`own
      ensures Valid() && st == old(Do(mode, l, st)) && run == old(run) + [l]
      ensures own == old(own) + if l.ByServer() then [] else [l]
    {
      assert (run + [l])[..|run|] == run;
      st := Do(mode, l, st);
      run := run + [l];
      own := own + if l.ByServer() then [] else [l];
    }

    // Whatever the server and the network do before the client's next operation.
    method Environment()
      requires Valid()
      modifies this`st, this`run, this`own
      ensures Valid() && st.cl == old(st.cl) && st.db == old(st.db) && old(st.srv.log) <= st.srv.log
      ensures own == old(own)
    {
      var n: nat := *;
      while n > 0
        invariant Valid() && st.cl == old(st.cl) && st.db == old(st.db) && old(st.srv.log) <= st.srv.log
        invariant own == old(own)
      {
        var l: Label := *;
        if l.ByServer() && Enabled(mode, l, st) {
          Step(l);
        }
        n := n - 1;
      }
    }

    // The operator may interrupt, and does so at the latest when out of patience.
    method Interrupted() returns (yes: bool)
      requires Valid() && !st.cl.pc.Down? && !canceled
      modifies this`st, this`run, this`own, this`patience, this`canceled
      ensures Valid() && canceled == yes
      ensures yes ==> st.cl.pc.Down? && patience <= old(patience) && own == old(own) + [Crash]
      ensures !yes ==> st == old(st) && run == old(run) && own == old(own) && patience < old(patience)
    {
      yes := *;
      if yes || patience == 0 {
        yes := true;
        canceled := true;
        Step(Crash);
      } else {
        patience := patience - 1;
      }
    }

    // conn.Recv: blocks until a frame arrives, the connection drops or the
    // context is canceled.
    method Recv() returns (r: Received, ghost step: Label)
      requires Valid() && st.cl.pc.AtRecv? && !canceled
      modifies this`st, this`run, this`own, this`patience, this`canceled
      ensures Valid() && canceled == (r == Failed(Canceled)) && patience <= old(patience)
      ensures own == old(own) + [step]
      ensures r.Frame? ==>
        step == DataPlane.Recv && st.cl == old(st.cl).(pc := Got(r.frame)) && patience < old(patience)
      ensures r.Failed? ==>
        st.cl.pc == PcAfter(r.ending) && !r.ending.Permanent? && step == if r.ending.Canceled? then Crash else RecvFails
    {
      Environment();
      var yes := Interrupted();
      if yes {
        return Failed(Canceled), Crash;
      }
      if !st.net.up || |st.net.wire| == 0 {
        ConnectionDrops();
        return Failed(Disconnected), RecvFails;
      }
      r, step := Frame(st.net.wire[0]), DataPlane.Recv;
      Step(DataPlane.Recv);
    }

    method ConnectionDrops()
      requires Valid() && st.cl.pc.AtRecv?
      modifies this`st, this`run, this`own
      ensures Valid() && own == old(own) + [RecvFails] && st.cl.pc.Top?
    {
      if st.net.up {
        Step(Disconnect);
      }
      Step(RecvFails);
    }

    // client.FetchSnapshot: the truth at fetch time as a script, an answer that no
    // linked schema is published yet, or any other failure.
    method FetchSnapshot() returns (out: FetchOut, script: seq<Statement>, m: nat)
      requires Valid() && st.cl.pc.Fetching?
      modifies this`st, this`run, this`own
      ensures Valid() && old(st.srv.log) <= st.srv.log && st.db == old(st.db)
      ensures own == old(own) + [Fetch(out)]
      ensures out.Fetched? ==>
        && m <= |st.srv.log| && IsDump(script, Truth(st.srv.log[..m]))
        && st.cl == old(st.cl).(pc := Holding(m, old(st.cl.pc.purpose)))
      ensures out.NotPublished? ==>
        st.cl == if old(st.cl.pc.purpose).FirstRun? then old(st.cl).(pc := Dialing, pending := true)
                 else old(st.cl).(pc := AtRecv)
      ensures out.FetchFailed? ==> st.cl == old(st.cl).(pc := Top)
    {
      Environment();
      out := *;
      script := *;
      m := |st.srv.log|;
      if out.Fetched? && !IsDump(script, Truth(st.srv.log)) {
        out := FetchFailed;
      }
      assert st.srv.log[..m] == st.srv.log;
      Step(Fetch(out));
    }

    // apply.Snapshot on the fetched script.
    method ApplyScript(script: seq<Statement>) returns (failed: bool, out: RestoreOut)
      requires Valid() && st.cl.pc.Holding? && st.cl.pc.m <= |st.srv.log|
      requires IsDump(script, Truth(st.srv.log[..st.cl.pc.m]))
      modifies this`st, this`run, this`own, db
      ensures Valid() && old(st.srv.log) <= st.srv.log
      ensures st.cl == old(st.cl).(pc := if failed then Top else Flagging(old(st.cl.pc.purpose)))
      ensures out.Restored? == !failed && own == old(own) + [Restore(out)]
    {
      ghost var log := st.srv.log;
      Environment();
      assert st.srv.log[..st.cl.pc.m] == log[..st.cl.pc.m];
      var faults: SnapshotFaults := *;
      DumpRestores(st.db, script, Truth(st.srv.log[..st.cl.pc.m]));
      failed := db.Snapshot(script, faults);
      out := if !failed then Restored
             else if faults.NoConnection? || faults.ScriptFails? then NotApplied
             else RestoredUnseen;
      Step(Restore(out));
    }

    // sync.Bootstrap: fetch the snapshot, then run it on a dedicated connection.
    method Bootstrap() returns (r: Bootstrapped, ghost steps: seq<Label>)
      requires Valid() && st.cl.pc.Fetching?
      modifies this`st, this`run, this`own, db
      ensures Valid() && old(st.srv.log) <= st.srv.log
      ensures own == old(own) + steps
      ensures if r.Done? then steps == [Fetch(Fetched), Restore(Restored)] else Bootstraps(steps, r)
      ensures r.Done? ==> st.cl == old(st.cl).(pc := Flagging(old(st.cl.pc.purpose)))
      ensures r.PublishRequired? ==>
        st.cl == if old(st.cl.pc.purpose).FirstRun? then old(st.cl).(pc := Dialing, pending := true)
                 else old(st.cl).(pc := AtRecv)
      ensures r.Broken? ==> st.cl == old(st.cl).(pc := Top)
    {
      var out, script, m := FetchSnapshot();
      steps := [Fetch(out)];
      if out.NotPublished? {
        return PublishRequired, steps;
      }
      if out.FetchFailed? {
        return Broken, steps;
      }
      var failed;
      ghost var restored;
      failed, restored := ApplyScript(script);
      steps := steps + [Restore(restored)];
      if failed {
        return Broken, steps;
      }
      return Done, steps;
    }

    // The bootstrap closure of connectAndPump.
    method BootstrapAndFlag() returns (r: Bootstrapped, ghost steps: seq<Label>)
      requires Valid() && st.cl.pc.Fetching?
      modifies this`st, this`run, this`own, db
      ensures Valid() && old(st.srv.log) <= st.srv.log
      ensures own == old(own) + steps && Bootstraps(steps, r)
      ensures r.Done? ==>
        && st.cl.boot
        && (if old(st.cl.pc.purpose).FirstRun? then st.cl.pc.Dialing? && st.cl.pending == old(st.cl.pending)
            else var f := old(st.cl.pc.purpose).frame;
                 !st.cl.pending && st.cl.pc == if f.Batch? && f.required then AtRecv else Onward(f))
      ensures r.PublishRequired? ==>
        st.cl == if old(st.cl.pc.purpose).FirstRun? then old(st.cl).(pc := Dialing, pending := true)
                 else old(st.cl).(pc := AtRecv)
      ensures r.Broken? ==> st.cl == old(st.cl).(pc := Top)
    {
      r, steps := Bootstrap();
      if r.Done? {
        Environment();
        var wrote := *;
        Step(SetFlag(wrote));
        steps := steps + [SetFlag(wrote)];
      }
    }

    // The deltas a batch frame carries.
    function DeltasOf(f: DataPlane.Frame): seq<Delta>
      reads this
      requires f.Batch? && (f.IsWindow() ==> f.to <= |st.srv.log|)
    {
      if f.IsWindow() then Deltas(st.srv.log, f.from, f.to) else []
    }

    lemma InHandOk()
      requires Valid()
      ensures FrameInHandOk(st.srv.log, st.cl.pc)
    {
      InitSafe(mode, init);
      SafeRun(mode, init, run);
    }

    // The same of a frame about which nothing is known yet.
    ghost function DeltaList(f: DataPlane.Frame): seq<Delta>
      reads this
    {
      if f.IsWindow() && f.to <= |st.srv.log| then Deltas(st.srv.log, f.from, f.to) else []
    }

    // Frames in hand carry deltas exactly when they are windows.
    lemma FrameInHand(f: DataPlane.Frame)
      requires Valid() && f.Batch?
      requires st.cl.pc == Got(f) || (f.IsWindow() && st.cl.pc == Applying(f.from, f.to))
      ensures f.IsWindow() ==>
        && f.to <= |st.srv.log| && DeltasOf(f) != []
        && DeltasOf(f)[|DeltasOf(f)| - 1].id == f.to
    {
      InHandOk();
      if f.IsWindow() {
        DeltaIds(st.srv.log, f.from, f.to);
      }
    }

    // What goes wrong with a batch: a poisoned delta is always refused.
    function Refusing(deltas: seq<Delta>, faults: BatchFaults): BatchFaults {
      faults.(rejects := faults.rejects + set i | 0 <= i < |deltas| && deltas[i].id - 1 in mode.poison :: i)
    }

    // apply.Batch over the frame's deltas.
    method ApplyBatch(deltas: seq<Delta>, from: nat, to: nat, faults: BatchFaults)
        returns (lastID: int, failedID: Option<int>, failed: bool, out: BatchOut)
      requires Valid() && st.cl.pc == Applying(from, to)
      requires from < to <= |st.srv.log| && deltas == Deltas(st.srv.log, from, to)
      requires deltas != [] && deltas[|deltas| - 1].id == to
      modifies this`st, this`run, this`own, db
      ensures Valid() && st.srv.log == old(st.srv.log)
      ensures own == old(own) + [RunBatch(out)] && out.Committed? == !failed
      ensures failed <==> !Accepted(deltas, Refusing(deltas, faults))
      ensures failed ==> st.cl == old(st.cl).(pc := Halted) && IsRefused(deltas, Refusing(deltas, faults), failedID)
      ensures !failed ==> lastID == to && st.cl == old(st.cl).(pc := Acking(to))
    {
      var actual := Refusing(deltas, faults);
      out := OutcomeOf(deltas, actual);
      RunsBatch(deltas, from, to, faults);
      lastID, failedID, failed := db.Batch(deltas, actual);
      Step(RunBatch(out));
    }

    function OutcomeOf(deltas: seq<Delta>, faults: BatchFaults): BatchOut {
      if faults.noBegin || !NoneRejected(deltas, faults) || faults.commit.Refused? then BatchFailed
      else if faults.commit.Acknowledged? then Committed
      else CommittedUnseen
    }

    // What apply.Batch does to the tables is the data plane's step.
    lemma RunsBatch(deltas: seq<Delta>, from: nat, to: nat, faults: BatchFaults)
      requires Valid() && st.cl.pc == Applying(from, to)
      requires from < to <= |st.srv.log| && deltas == Deltas(st.srv.log, from, to)
      ensures var out := OutcomeOf(deltas, Refusing(deltas, faults));
              && Enabled(mode, RunBatch(out), st)
              && Do(mode, RunBatch(out), st).db == if out.BatchFailed? then st.db else Replica.Run(st.db, Sql(deltas))
    {
      DeltasAreFed(st.srv.log, from, to);
      var actual := Refusing(deltas, faults);
      if !OutcomeOf(deltas, actual).BatchFailed? {
        NoPoison(st.srv.log, from, to, actual);
      }
    }

    // A batch in which nothing is refused contains no poisoned delta.
    lemma NoPoison(log: seq<Entry>, from: nat, to: nat, faults: BatchFaults)
      requires from <= to <= |log|
      requires NoneRejected(Deltas(log, from, to), faults)
      requires forall i :: 0 <= i < |Deltas(log, from, to)| && Deltas(log, from, to)[i].id - 1 in mode.poison ==>
          i in faults.rejects
      ensures forall p :: from <= p < to && p in mode.poison ==> log[p].silent
    {
      forall p | from <= p < to && p in mode.poison
        ensures log[p].silent
      {
        if !log[p].silent {
          var i := DeltaAt(log, from, to, p);
        }
      }
    }

    // Pump's choice for the frame in hand: bootstrap first, apply it, or skip it.
    method TakeUp()
      requires Valid() && st.cl.pc.Got?
      modifies this`st, this`run, this`own
      ensures Valid() && own == old(own) + [Route] && st.srv == old(st.srv) && st.db == old(st.db)
      ensures var f := old(st.cl.pc.frame);
              st.cl == old(st.cl).(pc := if NeedsSnapshot(old(st.cl), f) then Fetching(ForFrame(f)) else Onward(f))
    {
      Step(Route);
    }

    // The branch for a nil rebootstrap function.
    method LeaveAlone()
      requires Valid() && st.cl.pc.Got? && NeedsSnapshot(st.cl, st.cl.pc.frame)
      modifies this`st, this`run, this`own
      ensures Valid() && own == old(own) + [Ignore] && st.cl == old(st.cl).(pc := AtRecv)
    {
      Step(Ignore);
    }

    // conn.Send of an ack; one sent on a dead connection may vanish silently.
    method Acknowledge(upToID: int) returns (failed: bool, out: SendOut)
      requires Valid() && st.cl.pc.Acking? && st.cl.pc.upTo == upToID
      modifies this`st, this`run, this`own
      ensures Valid() && own == old(own) + [SendAck(out)] && out.SendFailed? == failed
      ensures st.cl == old(st.cl).(pc := if failed then Top else AtRecv)
      ensures !failed && st.net.up ==> |st.net.acks| > 0 && st.net.acks[|st.net.acks| - 1] == upToID
    {
      Environment();
      var lost := *;
      if st.net.up {
        Step(SendAck(Sent));
        return false, Sent;
      }
      if lost {
        Step(SendAck(LostInFlight));
        return false, LostInFlight;
      }
      Step(SendAck(SendFailed));
      return true, SendFailed;
    }

    // The apply_error frame, with the refused delta's SQL looked up by its id.
    method SendApplyError(deltas: seq<Delta>, failedID: Option<int>, ghost faults: BatchFaults)
      requires DistinctIds(deltas) && IsRefused(deltas, faults, failedID)
      modifies this`report
      ensures IsReported(deltas, faults, report)
    {
      var sql: Option<seq<Statement>> := None;
      if failedID.Some? {
        sql := FindFailed(deltas, failedID.value);
      }
      report := Some(Report(failedID, sql));
    }

    // The tail of Pump's batch case: apply, then report the failure or ack the last id.
    method ApplyAndAck(f: DataPlane.Frame, deltas: seq<Delta>, faults: BatchFaults)
        returns (halted: Option<Ending>, ghost steps: seq<Label>)
      requires Valid() && f.IsWindow() && st.cl.pc == Applying(f.from, f.to)
      requires f.to <= |st.srv.log| && deltas == Deltas(st.srv.log, f.from, f.to)
      modifies this`st, this`run, this`own, this`report, db
      ensures Valid() && own == old(own) + steps && Applies(f, steps, halted)
      ensures halted == Some(Permanent) <==> !Accepted(deltas, Refusing(deltas, faults))
      ensures if halted == Some(Permanent) then IsReported(deltas, Refusing(deltas, faults), report)
              else report == old(report)
      ensures st.cl ==
              old(st.cl).(pc := if halted.None? then AtRecv else if halted.value.Permanent? then Halted else Top)
    {
      FrameInHand(f);
      DeltaIds(st.srv.log, f.from, f.to);
      var lastID, failedID, failed;
      ghost var out, sent;
      lastID, failedID, failed, out := ApplyBatch(deltas, f.from, f.to, faults);
      steps := [RunBatch(out)];
      if failed {
        SendApplyError(deltas, failedID, Refusing(deltas, faults));
        return Some(Permanent), steps;
      }
      var sendFailed;
      sendFailed, sent := Acknowledge(lastID);
      Joined(old(own), steps, [SendAck(sent)]);
      return if sendFailed then Some(Disconnected) else None, steps + [SendAck(sent)];
    }

    // The batch case of Pump: snapshot first when one is due, then the deltas.
    // `next` is Pump's bootstrapPending afterwards.
    method HandleBatch(f: DataPlane.Frame, hasRebootstrap: bool, pending: bool, faults: BatchFaults)
        returns (halted: Option<Ending>, next: bool, ghost steps: seq<Label>)
      requires Valid() && f.Batch? && st.cl.pc == Got(f) && st.cl.pending == pending
      modifies this`st, this`run, this`own, this`report, db
      ensures Valid() && own == old(own) + steps
      ensures Handles(f, hasRebootstrap, pending, steps, halted, next)
      ensures var deltas := old(DeltaList(f));
              if halted == Some(Permanent) then IsReported(deltas, Refusing(deltas, faults), report)
              else report == old(report)
      ensures halted.None? ==> st.cl.pc.AtRecv? && st.cl.pending == next
      ensures halted.Some? ==> st.cl.pc == PcAfter(halted.value) && !halted.value.Canceled?
    {
      halted, next := None, pending;
      if f.required || pending {
        if !hasRebootstrap {
          LeaveAlone();
          return halted, next, [Ignore];
        }
        halted, next, steps := RebootstrapFirst(f, pending, faults);
        return;
      }
      FrameInHand(f);
      var deltas := DeltasOf(f);
      ghost var tail := [];
      TakeUp();
      if |deltas| > 0 {
        halted, tail := ApplyAndAck(f, deltas, faults);
      }
      steps := [Route] + tail;
    }

    // The branch in which the snapshot goes first.
    method RebootstrapFirst(f: DataPlane.Frame, pending: bool, faults: BatchFaults)
        returns (halted: Option<Ending>, next: bool, ghost steps: seq<Label>)
      requires Valid() && f.Batch? && st.cl.pc == Got(f) && st.cl.pending == pending && (f.required || pending)
      modifies this`st, this`run, this`own, this`report, db
      ensures Valid() && own == old(own) + steps
      ensures Handles(f, true, pending, steps, halted, next)
      ensures var deltas := old(DeltaList(f));
              if halted == Some(Permanent) then IsReported(deltas, Refusing(deltas, faults), report)
              else report == old(report)
      ensures halted.None? ==> st.cl.pc.AtRecv? && st.cl.pending == next
      ensures halted.Some? ==> st.cl.pc == PcAfter(halted.value) && !halted.value.Canceled?
    {
      halted, next := None, pending;
      FrameInHand(f);
      var deltas := DeltasOf(f);
      ghost var log := st.srv.log;
      TakeUp();
      var r;
      ghost var boot, tail := [], [];
      r, boot := BootstrapAndFlag();
      if r.Broken? {
        halted := Some(Disconnected);
      } else if r.Done? {
        next := false;
        if !f.required && |deltas| > 0 {
          DeltasPrefix(log, st.srv.log, f.from, f.to);
          halted, tail := ApplyAndAck(f, deltas, faults);
        }
      }
      steps := [Route] + boot + tail;
      RebootstrapsHandles(f, pending, boot, tail, r, halted, next);
      Joined(old(own), [Route], boot);
      Joined(old(own), [Route] + boot, tail);
    }

    // sync.Pump. `hasRebootstrap` is false for a nil rebootstrap function.
    method Pump(hasRebootstrap: bool, pending: bool) returns (ending: Ending, ghost steps: seq<Label>)
      requires Valid() && st.cl.pc.AtRecv? && st.cl.pending == pending && !canceled
      modifies this`st, this`run, this`own, this`patience, this`report, this`canceled, db
      ensures Valid() && patience <= old(patience)
      ensures own == old(own) + steps && EndsAs(steps, hasRebootstrap, ending)
      ensures st.cl.pc == PcAfter(ending) && canceled == ending.Canceled?
    {
      var bootstrapPending := pending;
      steps := [];
      while true
        invariant Valid() && own == old(own) + steps && GoesOn(steps, hasRebootstrap)
        invariant st.cl.pc.AtRecv? && st.cl.pending == bootstrapPending && !canceled
        invariant patience <= old(patience)
        decreases patience
      {
        var halted;
        ghost var more;
        halted, bootstrapPending, more := TakeFrame(hasRebootstrap, bootstrapPending);
        EndsLater(steps, more, hasRebootstrap, EndingOf(halted));
        Joined(old(own), steps, more);
        steps := steps + more;
        if halted.Some? {
          return halted.value, steps;
        }
      }
    }

    // One round of Pump's loop: receive a frame and deal with it.
    method TakeFrame(hasRebootstrap: bool, pending: bool)
        returns (halted: Option<Ending>, next: bool, ghost steps: seq<Label>)
      requires Valid() && st.cl.pc.AtRecv? && st.cl.pending == pending && !canceled
      modifies this`st, this`run, this`own, this`patience, this`report, this`canceled, db
      ensures Valid() && patience <= old(patience)
      ensures own == old(own) + steps && EndsAs(steps, hasRebootstrap, EndingOf(halted))
      ensures canceled == (halted == Some(Canceled))
      ensures halted.None? ==> st.cl.pc.AtRecv? && st.cl.pending == next && patience < old(patience)
      ensures halted.Some? ==> st.cl.pc == PcAfter(halted.value)
    {
      next := pending;
      var received;
      ghost var step;
      received, step := Recv();
      if received.Failed? {
        return Some(received.ending), next, [step];
      }
      if received.frame.Pong? {
        TakeUp();
        return None, next, [step, Route];
      }
      halted, next, steps := TakeBatch(received.frame, hasRebootstrap, pending);
      EndsLater([step], steps, hasRebootstrap, EndingOf(halted));
      Joined(old(own), [step], steps);
      steps := [step] + steps;
    }

    method TakeBatch(f: DataPlane.Frame, hasRebootstrap: bool, pending: bool)
        returns (halted: Option<Ending>, next: bool, ghost steps: seq<Label>)
      requires Valid() && f.Batch? && st.cl.pc == Got(f) && st.cl.pending == pending
      modifies this`st, this`run, this`own, this`report, db
      ensures Valid() && own == old(own) + steps && EndsAs(steps, hasRebootstrap, EndingOf(halted))
      ensures halted.None? ==> st.cl.pc.AtRecv? && st.cl.pending == next
      ensures halted.Some? ==> st.cl.pc == PcAfter(halted.value) && !halted.value.Canceled?
    {
      var faults: BatchFaults := *;
      halted, next, steps := HandleBatch(f, hasRebootstrap, pending, faults);
      HandlesGoesOn(f, hasRebootstrap, pending, steps, halted, next);
    }

    // authClient.Exchange followed by healProfile.
    method ExchangeToken() returns (out: ExchangeOut)
      requires Valid() && st.cl.pc.Top?
      modifies this`st, this`run, this`own
      ensures Valid() && own == old(own) + [Exchange(out)]
      ensures out.Granted? ==>
        && st.cl.boot == old(st.cl.boot) && !st.cl.pending
        && st.cl.pc == if st.cl.boot then Dialing else Fetching(FirstRun)
      ensures out.Revoked? ==> st.cl.pc.Halted?
      ensures out.Unreachable? ==> st.cl.pc.Top?
    {
      Environment();
      out := *;
      Step(Exchange(out));
    }

    method DialServer() returns (ok: bool)
      requires Valid() && st.cl.pc.Dialing?
      modifies this`st, this`run, this`own
      ensures Valid() && own == old(own) + [Dial(ok)]
      ensures st.cl == old(st.cl).(pc := if ok then AtRecv else Top)
    {
      Environment();
      ok := *;
      Step(Dial(ok));
    }

    // The body of one connection attempt. The closure it passes is never nil.
    method ConnectAndPump() returns (ending: Ending, ghost steps: seq<Label>)
      requires Valid() && st.cl.pc.Top? && !canceled
      modifies this`st, this`run, this`own, this`patience, this`report, this`canceled, db
      ensures Valid() && patience <= old(patience)
      ensures own == old(own) + steps && EndsAs(steps, true, ending)
      ensures st.cl.pc == PcAfter(ending) && canceled == ending.Canceled?
    {
      var out := ExchangeToken();
      steps := [Exchange(out)];
      if out.Revoked? {
        return Permanent, steps;
      }
      if out.Unreachable? {
        return Disconnected, steps;
      }
      var broken, bootstrapPending := false, false;
      ghost var more := [];
      if !st.cl.boot {
        broken, bootstrapPending, more := FirstBootstrap();
      }
      Joined(old(own), steps, more);
      steps := steps + more;
      if broken {
        return Disconnected, steps;
      }
      ending, more := DialAndPump(bootstrapPending);
      EndsLater(steps, more, true, ending);
      Joined(old(own), steps, more);
      steps := steps + more;
    }

    method DialAndPump(pending: bool) returns (ending: Ending, ghost steps: seq<Label>)
      requires Valid() && st.cl.pc.Dialing? && st.cl.pending == pending && !canceled
      modifies this`st, this`run, this`own, this`patience, this`report, this`canceled, db
      ensures Valid() && patience <= old(patience)
      ensures own == old(own) + steps && EndsAs(steps, true, ending)
      ensures st.cl.pc == PcAfter(ending) && canceled == ending.Canceled?
    {
      var ok := DialServer();
      if !ok {
        return Disconnected, [Dial(false)];
      }
      ending, steps := Pump(true, pending);
      EndsLater([Dial(true)], steps, true, ending);
      Joined(old(own), [Dial(true)], steps);
      steps := [Dial(true)] + steps;
    }

    // The first run's bootstrap, which may have to wait for the first publish.
    method FirstBootstrap() returns (broken: bool, pending: bool, ghost steps: seq<Label>)
      requires Valid() && st.cl.pc == Fetching(FirstRun) && !st.cl.pending
      modifies this`st, this`run, this`own, db
      ensures Valid() && own == old(own) + steps && GoesOn(steps, true)
      ensures exists r :: Bootstraps(steps, r) && broken == r.Broken? && pending == r.PublishRequired?
      ensures st.cl.pc == (if broken then Top else Dialing) && st.cl.pending == pending
    {
      var r;
      r, steps := BootstrapAndFlag();
      BootstrapsGoesOn(steps, r);
      return r.Broken?, r.PublishRequired?, steps;
    }

    // cli.runForever: retries every disconnect, and nothing else.
    method RunForever() returns (ending: Ending, ghost steps: seq<Label>)
      requires Valid() && st.cl.pc.Top? && !canceled
      modifies this`st, this`run, this`own, this`patience, this`report, this`canceled, db
      ensures Valid() && !ending.Disconnected?
      ensures own == old(own) + steps && EndsAs(steps, true, ending)
      ensures st.cl.pc == PcAfter(ending) && canceled == ending.Canceled?
    {
      steps := [];
      while true
        invariant Valid() && st.cl.pc.Top? && !canceled
        invariant own == old(own) + steps && GoesOn(steps, true)
        decreases patience
      {
        var yes := Interrupted();
        if yes {
          EndsLater(steps, [Crash], true, Canceled);
          return Canceled, steps + [Crash];
        }
        ghost var more;
        ending, more := ConnectAndPump();
        EndsLater(steps, more, true, ending);
        Joined(old(own), steps, more);
        steps := steps + more;
        if !ending.Disconnected? {
          return;
        }
      }
    }

    // One process: start-up with or without --skip-bootstrap, then the loop. `ok` is
    // false exactly when one step was fatal; otherwise the operator interrupted.
    method Run(skip: bool) returns (ok: bool, ghost wrote: bool, ghost steps: seq<Label>)
      requires Valid() && st.cl.pc.Down?
      modifies this`st, this`run, this`own, this`patience, this`report, this`canceled, db
      ensures Valid() && st.cl.pc.Down? && canceled == ok
      ensures own == old(own) + [Start(skip, wrote)] + steps + if ok then [] else [Exit]
      ensures EndsAs(steps, true, if ok then Canceled else Permanent)
    {
      var written := *;
      wrote, canceled := written, false;
      Step(Start(skip, written));
      var ending;
      ending, steps := RunForever();
      ok := ending.Canceled?;
      if !ok {
        Step(Exit);
      }
    }

    // Some step of the process, the server or the network, if it can be taken.
    method AnyStep()
      requires Valid()
      modifies this`st, this`run, this`own, db
      ensures Valid()
      ensures run == old(run) || exists l :: run == old(run) + [l] && !l.Start? && !l.Ignore?
    {
      var l: Label := *;
      if !l.Start? && !l.Ignore? && Enabled(mode, l, st) {
        db.Become(Do(mode, l, st).db);
        Step(l);
      }
    }

    // A process that is killed: it goes as far as it gets, in the middle of any
    // operation, between a commit and its flag or its ack too.
    method RunKilled(skip: bool)
      requires Valid() && st.cl.pc.Down?
      modifies this`st, this`run, this`own, db
      ensures Valid() && st.cl.pc.Down? && old(run) < run
      ensures run[|old(run)|].Start? && run[|old(run)|].skip == skip
      ensures forall l :: l in run[|old(run)| + 1..] ==> !l.Start? && !l.Ignore?
    {
      var wrote := *;
      Step(Start(skip, wrote));
      var n: nat := *;
      while n > 0
        invariant Valid() && old(run) + [Start(skip, wrote)] <= run
        invariant forall l :: l in run[|old(run)| + 1..] ==> !l.Start? && !l.Ignore?
      {
        AnyStep();
        n := n - 1;
      }
      if !st.cl.pc.Down? {
        Step(Crash);
      }
    }
  }

  // Any number of processes one after the other, each ending on its own or killed at
  // any point, with or without --skip-bootstrap: once a snapshot has committed, or
  // --skip-bootstrap was used over a replica that was complete, the rest of the log
  // brings every row to the truth but those that only an outstanding snapshot
  // carries, and with none outstanding the whole replica. A profile marked
  // bootstrapped has come that far, unless --skip-bootstrap was used.
  method Operate(w: World, starts: nat)
    requires w.Valid() && w.st.cl.pc.Down? && w.mode.strict && w.mode.steady && !w.mode.hasty
    modifies w`st, w`run, w`own, w`patience, w`report, w`canceled, w.db
    ensures w.Valid() && w.st.cl.pc.Down? && w.st.db == w.db.tables
    ensures Legal(w.mode, w.init, w.run) && After(w.mode, w.init, w.run) == w.st
    ensures w.st.past.seeded || (w.st.cl.saved && !w.st.past.skipped) || RightlyVouched(w.mode, w.init, w.run) ==>
              Drain.Converging(w.st)
  {
    for i := 0 to starts
      invariant w.Valid() && w.st.cl.pc.Down?
    {
      w.patience := *;
      var skip, killed := *, *;
      if killed {
        w.RunKilled(skip);
      } else {
        var ok, wrote, steps := w.Run(skip);
      }
    }
    Drain.StrictRun(w.mode, w.init, w.run);
    if w.st.past.seeded {
      Drain.SoundConverges(w.mode, w.st);
    } else if RightlyVouched(w.mode, w.init, w.run) {
      var n: nat :| n < |w.run| && Drain.VouchedAt(w.mode, w.init, w.run, n);
      Drain.SkipConverges(w.mode, w.init, w.run, n);
    }
  }

  // Some process of the run started with --skip-bootstrap over a complete replica.
  ghost predicate RightlyVouched(mode: Mode, s0: State, run: seq<Label>)
    requires Legal(mode, s0, run)
  {
    exists n: nat :: n < |run| && Drain.VouchedAt(mode, s0, run, n)
  }
}

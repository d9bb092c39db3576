/**
 * Reconciliation: the running children follow the assigned set, and nothing but an
 * assignment change or the end of the process cancels one.
 */
module HostTrueUp {
  import opened Wrappers
  import opened HostRunner
  import opened HostSafety
  import opened HostExclusion

  predicate Quitting(at: At) {
    at.AllWant? || at.AllHold? || ShutDown(at)
  }

  predicate EnsuringKey(at: At) {
    at.EnsWant? || at.EnsHold? || Inserting(at)
  }

  // Control is on its way to taking k out of the map.
  predicate DueStop(ctl: Control, k: Key) {
    k in ctl.stops || ((ctl.at.StopWant? || ctl.at.StopHold?) && ctl.at.k == k)
  }

  predicate WithinWanted(s: System) {
    s.ctl.at.ListWant? || s.ctl.at.ListHold? ||
    forall k :: k in s.host.children ==> k in s.ctl.wanted || DueStop(s.ctl, k)
  }

  predicate EnsuresWanted(s: System) {
    && (forall k :: k in s.ctl.regs ==> k in s.ctl.wanted)
    && (EnsuringKey(s.ctl.at) ==> s.ctl.at.k in s.ctl.wanted)
  }

  predicate StopsUnwanted(s: System) {
    && (forall k :: DueStop(s.ctl, k) ==> k !in s.ctl.wanted)
    && (s.ctl.at.Cancel? || s.ctl.at.Wait? ==>
          s.ctl.at.c < |s.host.procs| && s.host.procs[s.ctl.at.c].key !in s.ctl.wanted)
    && (s.ctl.at.Recv? || s.ctl.at.ListWant? || s.ctl.at.ListHold? || Quitting(s.ctl.at) ==> |s.ctl.stops| == 0)
    && (s.ctl.at.Recv? ==> |s.ctl.regs| == 0)
  }

  predicate TrueUpInv(s: System) {
    WithinWanted(s) && EnsuresWanted(s) && StopsUnwanted(s)
  }

  lemma TrueUpStep(l: Label, s: System)
    requires Inv(s) && TrueUpInv(s) && Enabled(l, s)
    ensures TrueUpInv(Do(l, s))
  {
    if l.ChildStep? {
      assert Do(l, s) == ChildDo(s, l.i);
      TrueUpChild(s, l.i);
    } else if !l.Ctl? {
      TrueUpFrames(l, s);
    } else {
      assert Do(l, s) == CtlDo(s, l.ok);
      if InReconcile(s.ctl.at) {
        TrueUpReconcile(s, l.ok);
      } else if InStop(s.ctl.at) {
        TrueUpStop(s, l.ok);
      } else if InEnsure(s.ctl.at) {
        TrueUpEnsure(s, l.ok);
      } else if InStart(s.ctl.at) {
        TrueUpStart(s, l.ok);
      } else {
        TrueUpStopAll(s, l.ok);
      }
    }
  }

  lemma TrueUpFrames(l: Label, s: System)
    requires Inv(s) && TrueUpInv(s) && Enabled(l, s) && !l.ChildStep? && !l.Ctl?
    ensures TrueUpInv(Do(l, s))
  {
  }

  lemma TrueUpChild(s: System, i: nat)
    requires Inv(s) && TrueUpInv(s) && Enabled(ChildStep(i), s)
    ensures TrueUpInv(ChildDo(s, i))
  {
    var t := ChildDo(s, i);
    assert t.ctl == s.ctl && |t.host.procs| == |s.host.procs|;
    assert forall j :: 0 <= j < |s.host.procs| ==> t.host.procs[j].key == s.host.procs[j].key;
    assert forall k :: k in t.host.children ==> k in s.host.children;
  }

  lemma TrueUpReconcile(s: System, ok: bool)
    requires Inv(s) && TrueUpInv(s) && InReconcile(s.ctl.at) && CtlEnabled(s)
    ensures TrueUpInv(CtlDo(s, ok))
  {
    match s.ctl.at
    case ListWant =>
    case Next =>
      assert |s.ctl.stops| > 0 ==> forall k :: k in s.ctl.stops <==> k == s.ctl.stops[0] || k in s.ctl.stops[1..];
    case Wait(_) =>
  }

  lemma TrueUpStop(s: System, ok: bool)
    requires Inv(s) && TrueUpInv(s) && InStop(s.ctl.at) && CtlEnabled(s)
    ensures TrueUpInv(CtlDo(s, ok))
  {
    match s.ctl.at
    case StopWant(_) =>
    case StopHold(_) =>
    case Cancel(_) =>
  }

  lemma TrueUpEnsure(s: System, ok: bool)
    requires Inv(s) && TrueUpInv(s) && InEnsure(s.ctl.at) && CtlEnabled(s)
    ensures TrueUpInv(CtlDo(s, ok))
  {
    EnsureMoves(s, ok);
  }

  lemma EnsureMoves(s: System, ok: bool)
    requires InEnsure(s.ctl.at) && CtlEnabled(s)
    ensures var t := CtlDo(s, ok);
            && t.ctl == s.ctl.(at := t.ctl.at, failed := t.ctl.failed)
            && t.host.children == s.host.children && t.host.procs == s.host.procs
            && (t.ctl.at.Next? || (EnsuringKey(t.ctl.at) && t.ctl.at.k == s.ctl.at.k))
  {
    match s.ctl.at
    case EnsWant(_) =>
    case EnsHold(_) =>
    case Prepare(_) =>
    case Flock(_, _) =>
    case Provision(_, _) =>
  }

  lemma TrueUpStart(s: System, ok: bool)
    requires Inv(s) && TrueUpInv(s) && InStart(s.ctl.at) && CtlEnabled(s)
    ensures TrueUpInv(CtlDo(s, ok))
  {
    match s.ctl.at
    case InsWant(_, _) =>
    case InsHold(_, _) =>
    case Spawn(_) =>
  }

  lemma TrueUpStopAll(s: System, ok: bool)
    requires Inv(s) && TrueUpInv(s) && InStopAll(s.ctl.at) && CtlEnabled(s)
    ensures TrueUpInv(CtlDo(s, ok))
  {
    match s.ctl.at
    case AllWant =>
    case AllNext =>
    case AllWait(_) =>
    case Joining =>
  }

  lemma {:induction false} TrueUpRun(s: System, run: seq<Label>)
    requires Init(s) && Legal(s, run)
    ensures Inv(After(s, run)) && TrueUpInv(After(s, run))
  {
    InvRun(s, run);
    if run != [] {
      LastStep(s, run);
      var m := |run| - 1;
      TrueUpRun(s, run[..m]);
      TrueUpStep(run[m], After(s, run[..m]));
    }
  }

  // === Main results ==========================================================

  // Whenever control waits for the next frame, every child that still runs its
  // loop is the one the map holds for its key, and its key is assigned.
  lemma RunningAreAssigned(s: System, run: seq<Label>, i: nat)
    requires Init(s) && Legal(s, run) && After(s, run).ctl.at.Recv?
    requires i < |After(s, run).host.procs| && Listed(After(s, run).host.procs[i])
    ensures var t := After(s, run);
            var k := t.host.procs[i].key;
            k in t.ctl.wanted && k in t.host.children && t.host.children[k] == i && !t.host.procs[i].cancelled
  {
    TrueUpRun(s, run);
    CancelledRun(s, run);
  }

  // A cancelled child that still runs is one that control is waiting for.
  ghost predicate CancelledInv(s: System) {
    forall i :: 0 <= i < |s.host.procs| && s.host.procs[i].cancelled && Listed(s.host.procs[i]) ==>
      (s.ctl.at.Wait? || s.ctl.at.AllWait?) && s.ctl.at.c == i
  }

  lemma CancelledCtl(s: System, ok: bool)
    requires Inv(s) && CancelledInv(s) && CtlEnabled(s)
    ensures CancelledInv(CtlDo(s, ok))
  {
    if !s.ctl.at.Cancel? && !s.ctl.at.AllNext? && !s.ctl.at.Spawn? && !s.ctl.at.InsHold? {
      assert CtlDo(s, ok).host.procs == s.host.procs;
    }
  }

  lemma CancelledStep(l: Label, s: System)
    requires Inv(s) && CancelledInv(s) && Enabled(l, s)
    ensures CancelledInv(Do(l, s))
  {
    if l.ChildStep? {
      assert Do(l, s) == ChildDo(s, l.i);
    } else if l.Ctl? {
      assert Do(l, s) == CtlDo(s, l.ok);
      CancelledCtl(s, l.ok);
    } else {
      assert Do(l, s).host.procs == s.host.procs;
    }
  }

  lemma {:induction false} CancelledRun(s: System, run: seq<Label>)
    requires Init(s) && Legal(s, run)
    ensures CancelledInv(After(s, run))
  {
    if run != [] {
      LastStep(s, run);
      var m := |run| - 1;
      CancelledRun(s, run[..m]);
      InvRun(s, run[..m]);
      CancelledStep(run[m], After(s, run[..m]));
    }
  }

  // A child is cancelled only while its key is unassigned, or by the end of the
  // command.
  lemma CancelOnlyWhenDue(l: Label, s: System, i: nat)
    requires Inv(s) && TrueUpInv(s) && Enabled(l, s)
    requires i < |s.host.procs| && !s.host.procs[i].cancelled && Do(l, s).host.procs[i].cancelled
    ensures s.ctl.at.AllNext? || s.host.procs[i].key !in s.ctl.wanted
  {
    if l.Ctl? {
      assert Do(l, s) == CtlDo(s, l.ok);
    }
  }

  lemma StaysOpen(l: Label, s: System)
    requires Enabled(l, s) && !l.Quit? && !Quitting(s.ctl.at)
    ensures !Quitting(Do(l, s).ctl.at)
  {
    if l.ChildStep? {
      assert Do(l, s).ctl == s.ctl;
    } else if l.Ctl? {
      assert Do(l, s) == CtlDo(s, l.ok);
    }
  }

  // The command ends only because the operator interrupted it or the server refused
  // the host's credential, whatever else happens to the control connection.
  lemma {:induction false} QuitsWhenTold(s: System, run: seq<Label>)
    requires Init(s) && Legal(s, run) && Quitting(After(s, run).ctl.at)
    ensures After(s, run).interrupted || After(s, run).ctl.denied
    ensures Interrupt in run || Denied in run
  {
    LastStep(s, run);
    var m := |run| - 1;
    var t := After(s, run[..m]);
    if Quitting(t.ctl.at) {
      QuitsWhenTold(s, run[..m]);
    } else {
      QuitStep(run[m], t);
      ToldBefore(s, run[..m]);
    }
    StaysTold(run[m], t);
    assert forall l :: l in run[..m] ==> l in run;
  }

  lemma QuitStep(l: Label, s: System)
    requires Enabled(l, s) && !Quitting(s.ctl.at) && Quitting(Do(l, s).ctl.at)
    ensures s.interrupted || s.ctl.denied
  {
    if !l.Quit? {
      StaysOpen(l, s);
    }
  }

  lemma {:induction false} ToldBefore(s: System, run: seq<Label>)
    requires Init(s) && Legal(s, run)
    ensures After(s, run).interrupted ==> Interrupt in run
    ensures After(s, run).ctl.denied ==> Denied in run
  {
    if run != [] {
      LastStep(s, run);
      var m := |run| - 1;
      ToldBefore(s, run[..m]);
      assert forall l :: l in run[..m] ==> l in run;
      assert run[m] in run;
      StaysTold(run[m], After(s, run[..m]));
    }
  }

  lemma StaysTold(l: Label, s: System)
    requires Enabled(l, s)
    ensures Do(l, s).interrupted == (s.interrupted || l.Interrupt?)
    ensures Do(l, s).ctl.denied == (s.ctl.denied || l.Denied?)
  {
    if l.ChildStep? {
      assert Do(l, s) == ChildDo(s, l.i);
    } else if l.Ctl? {
      assert Do(l, s) == CtlDo(s, l.ok);
    }
  }

  lemma ProcsGrow(l: Label, s: System, i: nat)
    requires Enabled(l, s) && i < |s.host.procs|
    ensures i < |Do(l, s).host.procs| && Do(l, s).host.procs[i].key == s.host.procs[i].key
  {
    if l.ChildStep? {
      assert Do(l, s) == ChildDo(s, l.i);
    } else if l.Ctl? {
      assert Do(l, s) == CtlDo(s, l.ok);
    }
  }

  // From step n of the run on, key k stays assigned and the command does not end.
  ghost predicate StaysAssigned(s: System, run: seq<Label>, n: nat, k: Key)
    requires Legal(s, run)
  {
    k in After(s, run).ctl.wanted &&
    (|run| <= n ||
     (LastStep(s, run);
      var m := |run| - 1;
      !run[m].Quit? && StaysAssigned(s, run[..m], n, k)))
  }

  // A child that was running at step n is never cancelled while its key stays
  // assigned: not by a lost and redialled control connection, not by a new list,
  // not by the other children's comings and goings. As long as its own loop runs,
  // the map holds it.
  lemma {:induction false} KeepsRunning(s: System, run: seq<Label>, n: nat, i: nat)
    requires Init(s) && Legal(s, run) && n <= |run| && Legal(s, run[..n])
    requires i < |After(s, run[..n]).host.procs| && !After(s, run[..n]).host.procs[i].cancelled
    requires !Quitting(After(s, run[..n]).ctl.at)
    requires StaysAssigned(s, run, n, After(s, run[..n]).host.procs[i].key)
    ensures i < |After(s, run).host.procs|
    ensures var t := After(s, run);
            var k := After(s, run[..n]).host.procs[i].key;
            && !Quitting(t.ctl.at) && t.host.procs[i].key == k && !t.host.procs[i].cancelled
            && (Listed(t.host.procs[i]) ==> k in t.host.children && t.host.children[k] == i)
  {
    if n == |run| {
      assert run[..n] == run;
    } else {
      LastStep(s, run);
      var m := |run| - 1;
      assert run[..m][..n] == run[..n];
      KeepsRunning(s, run[..m], n, i);
      TrueUpRun(s, run[..m]);
      KeepStep(run[m], After(s, run[..m]), i);
    }
    TrueUpRun(s, run);
    if Listed(After(s, run).host.procs[i]) {
      WantedIsMapped(After(s, run), i);
    }
  }

  lemma KeepStep(l: Label, s: System, i: nat)
    requires Inv(s) && TrueUpInv(s) && Enabled(l, s) && !l.Quit? && !Quitting(s.ctl.at)
    requires i < |s.host.procs| && !s.host.procs[i].cancelled && s.host.procs[i].key in s.ctl.wanted
    ensures i < |Do(l, s).host.procs| && Do(l, s).host.procs[i].key == s.host.procs[i].key
    ensures !Quitting(Do(l, s).ctl.at) && !Do(l, s).host.procs[i].cancelled
  {
    ProcsGrow(l, s, i);
    StaysOpen(l, s);
    if Do(l, s).host.procs[i].cancelled {
      CancelOnlyWhenDue(l, s, i);
      assert false;
    }
  }

  // A child whose key is assigned is still in the map.
  lemma WantedIsMapped(s: System, i: nat)
    requires Inv(s) && TrueUpInv(s) && !Quitting(s.ctl.at)
    requires i < |s.host.procs| && s.host.procs[i].key in s.ctl.wanted && Listed(s.host.procs[i])
    ensures s.host.procs[i].key in s.host.children && s.host.children[s.host.procs[i].key] == i
  {
  }

  // Control is inside ensure(k), which found no child for k and n children ever
  // started; where it leaves off, child n has been started for k.
  predicate Starts(s: System, k: Key, n: nat) {
    match s.ctl.at
    case Spawn(c) => c == n && |s.host.procs| == n + 1 && s.host.procs[n].key == k
    case Next => |s.host.procs| == n + 1 && s.host.procs[n].key == k && !s.host.procs[n].phase.Born?
    case _ =>
      && (s.ctl.at.EnsWant? || s.ctl.at.EnsHold? || Inserting(s.ctl.at)) && s.ctl.at.k == k
      && |s.host.procs| == n && k !in s.host.children
  }

  // Control's operation succeeds, and at the lock nobody else holds the profile.
  predicate Smooth(l: Label, s: System) {
    l.Ctl? ==> l.ok && (s.ctl.at.Flock? ==> s.ctl.at.file !in s.disk.locks)
  }

  // Up to the last step of the run control is inside ensure, and all goes well.
  ghost predicate SmoothRun(s: System, run: seq<Label>)
    requires Legal(s, run)
  {
    run == [] ||
    (LastStep(s, run);
     var m := |run| - 1;
     SmoothRun(s, run[..m]) && Smooth(run[m], After(s, run[..m])) && !After(s, run[..m]).ctl.at.Next?)
  }

  lemma StartsStep(l: Label, s: System, k: Key, n: nat)
    requires Inv(s) && Starts(s, k, n) && !s.ctl.at.Next? && Enabled(l, s) && Smooth(l, s)
    ensures Starts(Do(l, s), k, n) && Do(l, s).ctl == s.ctl.(at := Do(l, s).ctl.at)
  {
    if l.ChildStep? {
      assert Do(l, s) == ChildDo(s, l.i);
      StartsChild(s, l.i, k, n);
    } else if l.Ctl? {
      assert Do(l, s) == CtlDo(s, l.ok);
      if InEnsure(s.ctl.at) {
        StartsEnsure(s, k, n);
      } else {
        StartsInsert(s, k, n);
      }
    } else {
      assert Do(l, s).host == s.host && Do(l, s).ctl == s.ctl;
    }
  }

  lemma StartsChild(s: System, i: nat, k: Key, n: nat)
    requires Inv(s) && Starts(s, k, n) && Enabled(ChildStep(i), s)
    ensures Starts(ChildDo(s, i), k, n) && ChildDo(s, i).ctl == s.ctl
  {
    var t := ChildDo(s, i);
    assert t.ctl == s.ctl && |t.host.procs| == |s.host.procs|;
    assert forall j :: 0 <= j < |s.host.procs| ==> t.host.procs[j].key == s.host.procs[j].key;
    assert forall j :: 0 <= j < |s.host.procs| && t.host.procs[j].phase.Born? ==> s.host.procs[j].phase.Born?;
    assert forall q :: q in t.host.children ==> q in s.host.children;
  }

  lemma StartsEnsure(s: System, k: Key, n: nat)
    requires Starts(s, k, n) && InEnsure(s.ctl.at) && CtlEnabled(s) && Smooth(Ctl(true), s)
    ensures Starts(CtlDo(s, true), k, n) && CtlDo(s, true).ctl == s.ctl.(at := CtlDo(s, true).ctl.at)
  {
  }

  lemma StartsInsert(s: System, k: Key, n: nat)
    requires Starts(s, k, n) && InStart(s.ctl.at) && CtlEnabled(s)
    ensures Starts(CtlDo(s, true), k, n) && CtlDo(s, true).ctl == s.ctl.(at := CtlDo(s, true).ctl.at)
  {
  }

  // When every fallible operation succeeds and nobody else holds the profile, an
  // ensure for a key without a child leaves off, under every interleaving, with a
  // child started for that key and the rest of control's work unchanged.
  lemma {:induction false} EnsureStarts(s: System, run: seq<Label>, k: Key)
    requires Inv(s) && s.ctl.at == EnsWant(k) && k !in s.host.children
    requires Legal(s, run) && SmoothRun(s, run)
    ensures var t := After(s, run);
            && Inv(t) && Starts(t, k, |s.host.procs|) && t.ctl == s.ctl.(at := t.ctl.at)
  {
    if run != [] {
      var m := |run| - 1;
      LastStep(s, run);
      EnsureStarts(s, run[..m], k);
      StartsStep(run[m], After(s, run[..m]), k, |s.host.procs|);
      InvStep(run[m], After(s, run[..m]));
    }
  }

  // And there is such an interleaving: control alone gets there in eight steps, and
  // the child runs its loop.
  lemma EnsureCanStart(s: System, k: Key)
    requires s.ctl.at == EnsWant(k) && s.host.mu.Free? && k !in s.host.children
    requires FileAt(s.disk, k) !in s.disk.locks
    ensures var run := seq(8, _ => Ctl(true));
            && Legal(s, run) && After(s, run).ctl == s.ctl.(at := Next)
            && var h := After(s, run).host;
               && k in h.children && h.children[k] < |h.procs|
               && h.procs[h.children[k]] == Child(k, FileAt(s.disk, k), false, Looping)
  {
    var run := seq(8, _ => Ctl(true));
    assert run[..0] == [] && run[..8] == run;
    assert Trace(s, run[..0]) == Some(s);
    Extend(s, run, 0, s);
    EnsureFinds(s, k);
    Extend(s, run, 1, CtlDo(s, true));
    FlockTail(s, Move(s, Prepare(k)), run, k);
  }

  lemma EnsureFinds(s: System, k: Key)
    requires s.ctl.at == EnsWant(k) && s.host.mu.Free? && k !in s.host.children
    ensures CtlEnabled(CtlDo(s, true)) && CtlDo(CtlDo(s, true), true) == Move(s, Prepare(k))
  {
  }

  predicate EightSteps(run: seq<Label>) {
    |run| == 8 && forall j :: 0 <= j < 8 ==> run[j] == Ctl(true)
  }

  lemma FlockTail(s: System, t: System, run: seq<Label>, k: Key)
    requires t.ctl.at == Prepare(k) && t.host.mu.Free? && FileAt(t.disk, k) !in t.disk.locks
    requires EightSteps(run) && Trace(s, run[..2]) == Some(t)
    ensures Legal(s, run[..8])
    ensures Ended(t, After(s, run[..8]), k, FileAt(t.disk, k))
  {
    var file := FileAt(t.disk, k);
    var t1 := CtlDo(t, true);
    assert t1.ctl == t.ctl.(at := Flock(k, file)) && t1.disk.locks == t.disk.locks && t1.host == t.host;
    Extend(s, run, 2, t);
    ProvisionTail(s, t1, run, k, file);
  }

  // Where control leaves off, with a child that has the file open.
  predicate Ended(t: System, u: System, k: Key, file: nat) {
    && u.ctl == t.ctl.(at := Next)
    && k in u.host.children && u.host.children[k] < |u.host.procs|
    && u.host.procs[u.host.children[k]] == Child(k, file, false, Looping)
  }

  lemma ProvisionTail(s: System, t: System, run: seq<Label>, k: Key, file: nat)
    requires t.ctl.at == Flock(k, file) && t.host.mu.Free? && file !in t.disk.locks
    requires EightSteps(run) && Trace(s, run[..3]) == Some(t)
    ensures Legal(s, run[..8])
    ensures Ended(t, After(s, run[..8]), k, file)
  {
    Extend(s, run, 3, t);
    Extend(s, run, 4, CtlDo(t, true));
    var u := CtlDo(CtlDo(t, true), true);
    assert u.ctl == t.ctl.(at := InsWant(k, file)) && u.host == t.host;
    InsertSpawns(s, u, run, k, file);
  }

  lemma InsertSpawns(s: System, t: System, run: seq<Label>, k: Key, file: nat)
    requires t.ctl.at == InsWant(k, file) && t.host.mu.Free?
    requires EightSteps(run) && Trace(s, run[..5]) == Some(t)
    ensures Legal(s, run[..8])
    ensures Ended(t, After(s, run[..8]), k, file)
  {
    Extend(s, run, 5, t);
    SpawnTail(s, CtlDo(t, true), run, k, file);
  }

  lemma SpawnTail(s: System, t: System, run: seq<Label>, k: Key, file: nat)
    requires t.ctl.at == InsHold(k, file)
    requires EightSteps(run) && Trace(s, run[..6]) == Some(t)
    ensures Legal(s, run[..8])
    ensures Ended(t, After(s, run[..8]), k, file)
  {
    Spawned(t, k, file);
    Extend(s, run, 6, t);
    Extend(s, run, 7, CtlDo(t, true));
  }

  lemma Spawned(t: System, k: Key, file: nat)
    requires t.ctl.at == InsHold(k, file)
    ensures CtlEnabled(CtlDo(t, true)) && Ended(t, CtlDo(CtlDo(t, true), true), k, file)
  {
    var c := |t.host.procs|;
    var h := CtlDo(t, true).host;
    assert h.procs == t.host.procs + [Child(k, file, false, Born)] && h.children == t.host.children[k := c];
  }

  lemma Extend(s: System, run: seq<Label>, n: nat, t: System)
    requires n < |run| && Trace(s, run[..n]) == Some(t) && run[n] == Ctl(true) && CtlEnabled(t)
    ensures Trace(s, run[..n + 1]) == Some(CtlDo(t, true))
  {
    assert run[..n + 1][..n] == run[..n];
    assert Do(run[n], t) == CtlDo(t, true);
  }
}

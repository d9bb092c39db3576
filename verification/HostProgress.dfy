/**
 * Progress of the managed host runner: control is never stuck, every control
 * frame and the final shutdown take a bounded number of steps, and the shutdown
 * leaves no lock behind.
 */
module HostProgress {
  import opened HostRunner
  import opened HostSafety
  import opened HostLocks
  import opened HostExclusion
  import opened HostTrueUp

  // === No deadlock ===========================================================

  // A step that the process takes without anyone else's help: a child's own loop
  // has to return only once its context is cancelled.
  ghost predicate MustMove(l: Label, s: System) {
    && l.ByHost() && Enabled(l, s)
    && (l.ChildStep? && s.host.procs[l.i].phase.Looping? ==> s.host.procs[l.i].cancelled || s.interrupted)
  }

  // Control waits for a child's done channel only without the mutex, so that the
  // child's own deferred map delete can take it.
  lemma NeverWaitsHolding(s: System, run: seq<Label>)
    requires Init(s) && Legal(s, run)
    requires After(s, run).ctl.at.Wait? || After(s, run).ctl.at.AllWait? || After(s, run).ctl.at.Joining?
    ensures !After(s, run).host.mu.ByControl?
  {
    InvRun(s, run);
  }

  // Control is never stuck: whenever it is not waiting for a frame and has not
  // exited, control itself can move, or a child it waits for can.
  lemma NoDeadlock(s: System, run: seq<Label>)
    requires Init(s) && Legal(s, run)
    requires !After(s, run).ctl.at.Recv? && !After(s, run).ctl.at.Exited?
    ensures exists l :: MustMove(l, After(s, run))
  {
    InvRun(s, run);
    var t := After(s, run);
    if t.ctl.at.ListHold? {
      var ks := Enumerate(set k | k in t.host.children && k !in t.ctl.wanted);
      assert MustMove(Stale(ks), t);
    } else if t.ctl.at.AllHold? {
      var cs := Values(t);
      assert MustMove(StopList(cs), t);
    } else if t.ctl.at.Wait? || t.ctl.at.AllWait? {
      WaitedMoves(t);
    } else if t.ctl.at.Joining? {
      JoinMoves(t);
    } else if CtlEnabled(t) {
      assert MustMove(Ctl(true), t);
    } else {
      BlockedOnMutex(t);
      HolderMoves(t);
    }
  }

  lemma BlockedOnMutex(t: System)
    requires Inv(t) && !CtlEnabled(t)
    requires !t.ctl.at.Recv? && !t.ctl.at.ListHold? && !t.ctl.at.AllHold? && !t.ctl.at.Exited?
    requires !t.ctl.at.Wait? && !t.ctl.at.AllWait? && !t.ctl.at.Joining?
    ensures !t.host.mu.Free? && !Holding(t.ctl.at)
  {
    if t.ctl.at.AllNext? && |t.ctl.list| > 0 {
      assert t.ctl.list[0] in t.ctl.list;
    }
  }

  lemma HolderMoves(t: System)
    requires Inv(t) && !t.host.mu.Free? && !Holding(t.ctl.at)
    ensures exists l :: MustMove(l, t)
  {
    assert t.host.mu.ByChild?;
    assert MustMove(ChildStep(t.host.mu.i), t);
  }

  lemma WaitedMoves(t: System)
    requires Inv(t) && (t.ctl.at.Wait? || t.ctl.at.AllWait?)
    ensures exists l :: MustMove(l, t)
  {
    var c := t.ctl.at.c;
    if Done(t.host.procs[c]) {
      assert MustMove(Ctl(true), t);
    } else if t.host.procs[c].phase.WantMap? && !t.host.mu.Free? {
      HolderMoves(t);
    } else {
      assert MustMove(ChildStep(c), t);
    }
  }

  lemma JoinMoves(t: System)
    requires Inv(t) && t.ctl.at.Joining?
    ensures exists l :: MustMove(l, t)
  {
    if AllGone(t.host.procs) {
      assert MustMove(Ctl(true), t);
    } else {
      var i: nat :| i < |t.host.procs| && !t.host.procs[i].phase.Gone?;
      assert !Listed(t.host.procs[i]);
      assert MustMove(ChildStep(i), t);
    }
  }

  lemma {:induction false} Enumerate(keys: set<Key>) returns (ks: seq<Key>)
    ensures |ks| == |keys| && (forall k :: k in ks <==> k in keys)
    ensures forall i, j :: 0 <= i < j < |ks| ==> ks[i] != ks[j]
  {
    if keys == {} {
      ks := [];
    } else {
      var k :| k in keys;
      var rest := Enumerate(keys - {k});
      ks := [k] + rest;
    }
  }

  lemma Values(t: System) returns (cs: seq<nat>)
    requires Inv(t)
    ensures |cs| == |t.host.children|
    ensures forall k :: k in t.host.children ==> t.host.children[k] in cs
    ensures forall c :: c in cs ==>
              c < |t.host.procs| && t.host.procs[c].key in t.host.children && t.host.children[t.host.procs[c].key] == c
  {
    var h := t.host;
    var ks := Enumerate(h.children.Keys);
    cs := seq(|ks|, i requires 0 <= i < |ks| => h.children[ks[i]]);
    forall k | k in h.children
      ensures h.children[k] in cs
    {
      var i :| 0 <= i < |ks| && ks[i] == k;
      assert cs[i] == h.children[k];
    }
  }

  // === Bounded steps =========================================================

  // Steps a child has left.
  function Rank(phase: Phase): nat {
    match phase
    case Born => 8
    case Looping => 7
    case WantMap => 6
    case InMap => 5
    case ClosingDb => 4
    case Unlocking => 3
    case Signalling => 2
    case Counting => 1
    case Gone => 0
  }

  function Total(procs: seq<Child>): nat {
    if procs == [] then 0 else Total(procs[..|procs| - 1]) + Rank(procs[|procs| - 1].phase)
  }

  lemma {:induction false} TotalAt(procs: seq<Child>, i: nat, c: Child)
    requires i < |procs|
    ensures Total(procs[i := c]) == Total(procs) - Rank(procs[i].phase) + Rank(c.phase)
  {
    var m := |procs| - 1;
    if i == m {
      assert procs[i := c][..m] == procs[..m];
    } else {
      TotalAt(procs[..m], i, c);
      assert procs[i := c][..m] == procs[..m][i := c];
    }
  }

  lemma TotalSnoc(procs: seq<Child>, c: Child)
    ensures Total(procs + [c]) == Total(procs) + Rank(c.phase)
  {
    assert (procs + [c])[..|procs|] == procs;
  }

  // An upper bound on the steps that control has left before the next frame.
  // `n` is the size of the children map.
  function Cost(ctl: Control, n: nat): nat {
    var pending := 6 * |ctl.stops| + 20 * |ctl.regs|;
    match ctl.at
    case Recv => 0
    case ListWant => 6 * n + 20 * |ctl.regs| + 3
    case ListHold => 6 * n + 20 * |ctl.regs| + 2
    case Next => pending + 1
    case StopWant(_) => pending + 6
    case StopHold(_) => pending + 5
    case Cancel(_) => pending + 4
    case Wait(_) => pending + 3
    case EnsWant(_) => pending + 20
    case EnsHold(_) => pending + 19
    case Prepare(_) => pending + 18
    case Flock(_, _) => pending + 17
    case Provision(_, _) => pending + 16
    case InsWant(_, _) => pending + 15
    case InsHold(_, _) => pending + 14
    case Spawn(_) => pending + 3
    case AllWant => 2 * n + 4
    case AllHold => 2 * n + 3
    case AllNext => 2 * |ctl.list| + 2
    case AllWait(_) => 2 * |ctl.list| + 3
    case Joining => 1
    case Exited => 0
  }

  function Measure(s: System): nat {
    Cost(s.ctl, |s.host.children|) + Total(s.host.procs)
  }

  // The control frames, and the end of the command.
  predicate Command(l: Label) {
    l.Assigned? || l.Added? || l.Revoked? || l.Quit?
  }

  lemma MeasureStep(l: Label, s: System)
    requires Inv(s) && Enabled(l, s) && !Command(l)
    ensures l.ByHost() ==> Measure(Do(l, s)) < Measure(s)
    ensures !l.ByHost() ==> Measure(Do(l, s)) == Measure(s)
  {
    if l.ChildStep? {
      assert Do(l, s) == ChildDo(s, l.i);
      MeasureChild(s, l.i);
    } else if l.Stale? || l.StopList? {
      MeasureLists(l, s);
    } else if !l.Ctl? {
      assert Do(l, s).ctl == s.ctl.(denied := Do(l, s).ctl.denied) && Do(l, s).host == s.host;
    } else {
      assert Do(l, s) == CtlDo(s, l.ok);
      MeasureCtl(s, l.ok);
    }
  }

  lemma MeasureCtl(s: System, ok: bool)
    requires Inv(s) && CtlEnabled(s)
    ensures Measure(CtlDo(s, ok)) < Measure(s)
  {
    if s.ctl.at.Cancel? {
      MeasureCancel(s, ok, s.ctl.at.c);
    } else if s.ctl.at.AllNext? && |s.ctl.list| > 0 {
      MeasureCancel(s, ok, s.ctl.list[0]);
    } else if s.ctl.at.InsHold? {
      MeasureInsert(s, ok);
    } else if s.ctl.at.Spawn? {
      MeasureSpawn(s, ok);
    } else if s.ctl.at.StopHold? {
      MeasureStopHold(s, ok);
    } else {
      MeasureMove(s, ok);
    }
  }

  lemma MeasureLists(l: Label, s: System)
    requires Inv(s) && Enabled(l, s) && (l.Stale? || l.StopList?)
    ensures Measure(Do(l, s)) < Measure(s)
  {
    if l.Stale? {
      Distinct(l.stale, s.host.children.Keys);
    }
  }

  lemma {:induction false} Distinct(ks: seq<Key>, keys: set<Key>)
    requires forall k :: k in ks ==> k in keys
    requires forall i, j :: 0 <= i < j < |ks| ==> ks[i] != ks[j]
    ensures |ks| <= |keys|
  {
    if ks != [] {
      var m := |ks| - 1;
      assert forall k :: k in ks[..m] ==> k in keys - {ks[m]};
      Distinct(ks[..m], keys - {ks[m]});
    }
  }

  lemma MeasureChild(s: System, i: nat)
    requires Inv(s) && Enabled(ChildStep(i), s)
    ensures Measure(ChildDo(s, i)) < Measure(s)
  {
    var t := ChildDo(s, i);
    ChildRank(s, i);
    TotalAt(s.host.procs, i, t.host.procs[i]);
    CostShrinks(s.ctl, |t.host.children|, |s.host.children|);
  }

  lemma ChildRank(s: System, i: nat)
    requires Enabled(ChildStep(i), s)
    ensures var t := ChildDo(s, i);
            && t.ctl == s.ctl && |t.host.procs| == |s.host.procs|
            && t.host.procs == s.host.procs[i := t.host.procs[i]]
            && Rank(t.host.procs[i].phase) < Rank(s.host.procs[i].phase)
            && |t.host.children| <= |s.host.children|
  {
    Shrinks(s.host.children, s.host.procs[i].key);
    match s.host.procs[i].phase
    case WantMap =>
    case InMap =>
    case _ =>
  }

  lemma CostShrinks(ctl: Control, m: nat, n: nat)
    requires m <= n
    ensures Cost(ctl, m) <= Cost(ctl, n)
  {
  }

  lemma Shrinks(m: map<Key, nat>, k: Key)
    ensures |m - {k}| <= |m|
  {
    var n := m - {k};
    assert n.Keys == m.Keys - {k};
  }

  predicate Moves(s: System) {
    && !s.ctl.at.Cancel? && !s.ctl.at.InsHold? && !s.ctl.at.Spawn? && !s.ctl.at.StopHold?
    && (s.ctl.at.AllNext? ==> |s.ctl.list| == 0)
  }

  lemma MeasureMove(s: System, ok: bool)
    requires CtlEnabled(s) && Moves(s)
    ensures Measure(CtlDo(s, ok)) < Measure(s)
  {
    MoveKeepsHost(s, ok);
    MoveCost(s, ok, |s.host.children|);
  }

  lemma MoveKeepsHost(s: System, ok: bool)
    requires CtlEnabled(s) && Moves(s)
    ensures CtlDo(s, ok).host.procs == s.host.procs && CtlDo(s, ok).host.children == s.host.children
  {
  }

  lemma MoveCost(s: System, ok: bool, n: nat)
    requires CtlEnabled(s) && Moves(s)
    ensures Cost(CtlDo(s, ok).ctl, n) < Cost(s.ctl, n)
  {
    if InEnsure(s.ctl.at) {
      EnsureCost(s, ok, n);
    } else if InReconcile(s.ctl.at) {
      ReconcileCost(s, ok, n);
    } else {
      OtherCost(s, ok, n);
    }
  }

  lemma EnsureCost(s: System, ok: bool, n: nat)
    requires CtlEnabled(s) && InEnsure(s.ctl.at)
    ensures Cost(CtlDo(s, ok).ctl, n) < Cost(s.ctl, n)
  {
  }

  lemma ReconcileCost(s: System, ok: bool, n: nat)
    requires CtlEnabled(s) && InReconcile(s.ctl.at)
    ensures Cost(CtlDo(s, ok).ctl, n) < Cost(s.ctl, n)
  {
  }

  lemma OtherCost(s: System, ok: bool, n: nat)
    requires CtlEnabled(s) && Moves(s) && !InEnsure(s.ctl.at) && !InReconcile(s.ctl.at)
    ensures Cost(CtlDo(s, ok).ctl, n) < Cost(s.ctl, n)
  {
  }

  lemma MeasureStopHold(s: System, ok: bool)
    requires s.ctl.at.StopHold?
    ensures Measure(CtlDo(s, ok)) < Measure(s)
  {
    StopHoldMoves(s, ok);
  }

  lemma StopHoldMoves(s: System, ok: bool)
    requires s.ctl.at.StopHold?
    ensures var t := CtlDo(s, ok);
            && t.host.procs == s.host.procs && t.ctl == s.ctl.(at := t.ctl.at)
            && (t.ctl.at.Next? || t.ctl.at.Cancel?)
  {
  }

  lemma MeasureCancel(s: System, ok: bool, c: nat)
    requires CtlEnabled(s) && c < |s.host.procs|
    requires (s.ctl.at.Cancel? && s.ctl.at.c == c) || (s.ctl.at.AllNext? && |s.ctl.list| > 0 && s.ctl.list[0] == c)
    ensures Measure(CtlDo(s, ok)) < Measure(s)
  {
    TotalAt(s.host.procs, c, s.host.procs[c].(cancelled := true));
    assert CtlDo(s, ok).host == CancelChild(s.host, c);
  }

  lemma MeasureInsert(s: System, ok: bool)
    requires s.ctl.at.InsHold?
    ensures Measure(CtlDo(s, ok)) < Measure(s)
  {
    var c := Child(s.ctl.at.k, s.ctl.at.file, false, Born);
    TotalSnoc(s.host.procs, c);
    assert CtlDo(s, ok).host.procs == s.host.procs + [c];
    assert CtlDo(s, ok).ctl == s.ctl.(at := Spawn(|s.host.procs|));
  }

  lemma MeasureSpawn(s: System, ok: bool)
    requires Inv(s) && s.ctl.at.Spawn?
    ensures Measure(CtlDo(s, ok)) < Measure(s)
  {
    var c := s.ctl.at.c;
    TotalAt(s.host.procs, c, s.host.procs[c].(phase := Looping));
    assert CtlDo(s, ok).host == Advance(s.host, c, Looping);
  }

  function HostSteps(run: seq<Label>): nat {
    if run == [] then 0 else HostSteps(run[..|run| - 1]) + if run[|run| - 1].ByHost() then 1 else 0
  }

  predicate NoCommand(run: seq<Label>) {
    forall l :: l in run ==> !Command(l)
  }

  // Between two control frames the process takes at most Measure(s) steps, however
  // the goroutines interleave and whatever other processes do.
  lemma {:induction false} BoundedWork(s: System, run: seq<Label>)
    requires Inv(s) && Legal(s, run) && NoCommand(run)
    ensures Inv(After(s, run))
    ensures HostSteps(run) + Measure(After(s, run)) <= Measure(s)
  {
    if run != [] {
      LastStep(s, run);
      var m := |run| - 1;
      assert forall l :: l in run[..m] ==> l in run;
      assert run[m] in run;
      BoundedWork(s, run[..m]);
      MeasureStep(run[m], After(s, run[..m]));
      InvStep(run[m], After(s, run[..m]));
    }
  }

  // After the command starts to end no frame is accepted, so its remaining steps
  // are bounded; and it cannot get stuck before it has exited.
  lemma {:induction false} ShutdownEnds(s: System, before: seq<Label>, run: seq<Label>)
    requires Init(s) && Legal(s, before) && Quitting(After(s, before).ctl.at)
    requires Legal(After(s, before), run)
    ensures var t := After(s, before);
            && Quitting(After(t, run).ctl.at)
            && HostSteps(run) <= Measure(t)
            && (After(t, run).ctl.at.Exited? || exists l :: MustMove(l, After(t, run)))
  {
    var t := After(s, before);
    InvRun(s, before);
    StaysQuitting(t, run);
    BoundedWork(t, run);
    Join(s, before, run);
    if !After(t, run).ctl.at.Exited? {
      NoDeadlock(s, before + run);
    }
  }

  lemma {:induction false} Join(s: System, r1: seq<Label>, r2: seq<Label>)
    requires Legal(s, r1) && Legal(After(s, r1), r2)
    ensures Legal(s, r1 + r2) && After(s, r1 + r2) == After(After(s, r1), r2)
  {
    if r2 == [] {
      assert r1 + r2 == r1;
    } else {
      var m := |r2| - 1;
      LastStep(After(s, r1), r2);
      Join(s, r1, r2[..m]);
      var r := r1 + r2;
      assert r[..|r| - 1] == r1 + r2[..m] && r[|r| - 1] == r2[m];
    }
  }

  lemma {:induction false} StaysQuitting(t: System, run: seq<Label>)
    requires Inv(t) && Quitting(t.ctl.at) && Legal(t, run)
    ensures Quitting(After(t, run).ctl.at) && NoCommand(run)
  {
    if run != [] {
      LastStep(t, run);
      var m := |run| - 1;
      StaysQuitting(t, run[..m]);
      QuittingStep(run[m], After(t, run[..m]));
      assert forall l :: l in run ==> l in run[..m] || l == run[m];
    }
  }

  lemma QuittingStep(l: Label, s: System)
    requires Enabled(l, s) && Quitting(s.ctl.at)
    ensures Quitting(Do(l, s).ctl.at) && !Command(l)
  {
    if l.ChildStep? {
      assert Do(l, s).ctl == s.ctl;
    } else if l.Ctl? {
      assert Do(l, s) == CtlDo(s, l.ok);
    }
  }

  // === What the shutdown leaves ==============================================

  // The host lock is given up last, after every child has finished.
  lemma HostLockLast(s: System, run: seq<Label>)
    requires Init(s) && Legal(s, run) && !After(s, run).hostLocked
    ensures After(s, run).ctl.at.Exited? && AllGone(After(s, run).host.procs)
  {
    InvRun(s, run);
  }

  // Once the command has exited, only live classic runners hold profile locks, each
  // on the file it has open.
  lemma CleanExit(s: System, run: seq<Label>)
    requires Init(s) && Legal(s, run) && After(s, run).ctl.at.Exited?
    ensures var t := After(s, run);
            && !t.hostLocked && AllGone(t.host.procs)
            && forall n :: n in t.disk.locks ==>
                 && t.disk.locks[n].OfClassic? && t.disk.locks[n].r in t.disk.classics
                 && t.disk.classics[t.disk.locks[n].r].live && t.disk.classics[t.disk.locks[n].r].file == n
  {
    LockRun(s, run);
    var t := After(s, run);
    forall n | n in t.disk.locks
      ensures t.disk.locks[n].OfClassic?
    {
      assert Holds(t, t.disk.locks[n]);
    }
  }
}

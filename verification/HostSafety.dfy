/**
 * What every interleaving of the managed host runner keeps.
 */
module HostSafety {
  import opened HostRunner

  // === The mutex and the map =================================================

  // Control is stopping child c: it took c out of the map.
  predicate Stopping(ctl: Control, c: nat) {
    ((ctl.at.Cancel? || ctl.at.Wait? || ctl.at.AllWait?) && ctl.at.c == c) || c in ctl.list
  }

  predicate ShutDown(at: At) {
    at.AllNext? || at.AllWait? || at.Joining? || at.Exited?
  }

  predicate Inserting(at: At) {
    at.Prepare? || at.Flock? || at.Provision? || at.InsWant? || at.InsHold?
  }

  ghost predicate MutexInv(s: System) {
    && (s.host.mu.ByControl? <==> Holding(s.ctl.at))
    && (s.host.mu.ByChild? ==> s.host.mu.i < |s.host.procs| && s.host.procs[s.host.mu.i].phase.InMap?)
    && (forall i :: 0 <= i < |s.host.procs| && s.host.procs[i].phase.InMap? ==> s.host.mu.ByChild? && s.host.mu.i == i)
  }

  ghost predicate MapInv(s: System) {
    && (forall k :: k in s.host.children ==>
          s.host.children[k] < |s.host.procs| && s.host.procs[s.host.children[k]].key == k &&
              Listed(s.host.procs[s.host.children[k]]))
    && (forall i :: 0 <= i < |s.host.procs| && Listed(s.host.procs[i]) ==>
          (s.host.procs[i].key in s.host.children && s.host.children[s.host.procs[i].key] == i) || Stopping(s.ctl, i))
    && (forall i :: 0 <= i < |s.host.procs| && s.host.procs[i].phase.Born? ==> s.ctl.at.Spawn? && s.ctl.at.c == i)
  }

  ghost predicate ControlInv(s: System) {
    && (forall c :: c in s.ctl.list ==> c < |s.host.procs|)
    && (s.ctl.at.Cancel? || s.ctl.at.Wait? || s.ctl.at.AllWait? || s.ctl.at.Spawn? ==> s.ctl.at.c < |s.host.procs|)
    && (s.ctl.at.Wait? || s.ctl.at.AllWait? ==> s.host.procs[s.ctl.at.c].cancelled)
    && (s.ctl.at.Spawn? ==> s.host.procs[s.ctl.at.c].phase.Born?)
    && (Inserting(s.ctl.at) ==> s.ctl.at.k !in s.host.children)
    && (ShutDown(s.ctl.at) ==> forall k :: k !in s.host.children)
    && (!ShutDown(s.ctl.at) ==> |s.ctl.list| == 0)
    && (s.ctl.at.Joining? || s.ctl.at.Exited? ==> |s.ctl.list| == 0)
    && (s.ctl.at.Exited? ==> AllGone(s.host.procs))
    && (s.hostLocked <==> !s.ctl.at.Exited?)
  }

  ghost predicate Inv(s: System) {
    MutexInv(s) && MapInv(s) && ControlInv(s)
  }

  // The parts of the control goroutine's program.
  predicate InReconcile(at: At) {
    at.ListWant? || at.Next? || at.Wait?
  }

  predicate InStop(at: At) {
    at.StopWant? || at.StopHold? || at.Cancel?
  }

  predicate InEnsure(at: At) {
    at.EnsWant? || at.EnsHold? || at.Prepare? || at.Flock? || at.Provision?
  }

  predicate InStart(at: At) {
    at.InsWant? || at.InsHold? || at.Spawn?
  }

  predicate InStopAll(at: At) {
    at.AllWant? || at.AllNext? || at.AllWait? || at.Joining?
  }

  lemma MutexStep(l: Label, s: System)
    requires Inv(s) && Enabled(l, s)
    ensures MutexInv(Do(l, s))
  {
    if l.ChildStep? {
      MutexChild(s, l.i);
      assert Do(l, s) == ChildDo(s, l.i);
    } else if l.Stale? || l.StopList? {
      MutexLists(l, s);
    } else if !l.Ctl? {
      MutexOther(l, s);
    } else {
      assert Do(l, s) == CtlDo(s, l.ok);
      if InReconcile(s.ctl.at) {
        MutexReconcile(s, l.ok);
      } else if InStop(s.ctl.at) {
        MutexStop(s, l.ok);
      } else if InEnsure(s.ctl.at) {
        MutexEnsure(s, l.ok);
      } else if InStart(s.ctl.at) {
        MutexStart(s, l.ok);
      } else {
        MutexStopAll(s, l.ok);
      }
    }
  }

  lemma MutexReconcile(s: System, ok: bool)
    requires Inv(s) && InReconcile(s.ctl.at) && CtlEnabled(s)
    ensures MutexInv(CtlDo(s, ok))
  {
    match s.ctl.at
    case ListWant =>
    case Next =>
    case Wait(_) =>
  }

  lemma MutexStop(s: System, ok: bool)
    requires Inv(s) && InStop(s.ctl.at) && CtlEnabled(s)
    ensures MutexInv(CtlDo(s, ok))
  {
    match s.ctl.at
    case StopWant(_) =>
    case StopHold(_) =>
    case Cancel(_) =>
  }

  lemma MutexEnsure(s: System, ok: bool)
    requires Inv(s) && InEnsure(s.ctl.at) && CtlEnabled(s)
    ensures MutexInv(CtlDo(s, ok))
  {
    match s.ctl.at
    case EnsWant(_) =>
    case EnsHold(_) =>
    case Prepare(_) =>
    case Flock(_, _) =>
    case Provision(_, _) =>
  }

  lemma MutexStart(s: System, ok: bool)
    requires Inv(s) && InStart(s.ctl.at) && CtlEnabled(s)
    ensures MutexInv(CtlDo(s, ok))
  {
    match s.ctl.at
    case InsWant(_, _) =>
    case InsHold(_, _) =>
    case Spawn(_) =>
  }

  lemma MutexStopAll(s: System, ok: bool)
    requires Inv(s) && InStopAll(s.ctl.at) && CtlEnabled(s)
    ensures MutexInv(CtlDo(s, ok))
  {
    match s.ctl.at
    case AllWant =>
    case AllNext =>
    case AllWait(_) =>
    case Joining =>
  }

  lemma MutexChild(s: System, i: nat)
    requires Inv(s) && Enabled(ChildStep(i), s)
    ensures MutexInv(ChildDo(s, i))
  {
    match s.host.procs[i].phase
    case WantMap =>
    case InMap =>
    case _ =>
  }

  lemma MutexLists(l: Label, s: System)
    requires Inv(s) && (l.Stale? || l.StopList?) && Enabled(l, s)
    ensures MutexInv(Do(l, s))
  {
  }

  lemma MutexOther(l: Label, s: System)
    requires Inv(s) && Enabled(l, s) && !l.ByHost()
    ensures MutexInv(Do(l, s))
  {
  }

  // Steps that touch neither the map nor the children.
  lemma MapFrame(s: System, t: System)
    requires MapInv(s) && t.host.children == s.host.children && t.host.procs == s.host.procs
    requires forall i :: 0 <= i < |s.host.procs| && Listed(s.host.procs[i]) && Stopping(s.ctl, i) ==> Stopping(t.ctl, i)
    requires s.ctl.at.Spawn? ==> t.ctl.at == s.ctl.at
    ensures MapInv(t)
  {
  }

  predicate TouchesMap(at: At) {
    at.StopHold? || at.Cancel? || at.AllNext? || at.InsHold? || at.Spawn?
  }

  lemma MapStep(l: Label, s: System)
    requires Inv(s) && Enabled(l, s)
    ensures MapInv(Do(l, s))
  {
    if l.ChildStep? {
      assert Do(l, s) == ChildDo(s, l.i);
      if s.host.procs[l.i].phase.InMap? {
        MapLeave(s, l.i);
      } else {
        MapChild(s, l.i);
      }
    } else if l.StopList? {
      MapStopList(s, l.cs);
    } else if !l.Ctl? {
      MapFrame(s, Do(l, s));
    } else {
      assert Do(l, s) == CtlDo(s, l.ok);
      if !TouchesMap(s.ctl.at) {
        MapPlain(s, l.ok);
      } else if s.ctl.at.InsHold? || s.ctl.at.Spawn? {
        MapStart(s, l.ok);
      } else {
        MapStop(s, l.ok);
      }
    }
  }

  lemma MapPlain(s: System, ok: bool)
    requires Inv(s) && CtlEnabled(s) && !TouchesMap(s.ctl.at)
    ensures MapInv(CtlDo(s, ok))
  {
    MapFrame(s, CtlDo(s, ok));
  }

  lemma MapStart(s: System, ok: bool)
    requires Inv(s) && CtlEnabled(s) && (s.ctl.at.InsHold? || s.ctl.at.Spawn?)
    ensures MapInv(CtlDo(s, ok))
  {
  }

  lemma MapStop(s: System, ok: bool)
    requires Inv(s) && CtlEnabled(s) && (s.ctl.at.StopHold? || s.ctl.at.Cancel? || s.ctl.at.AllNext?)
    ensures MapInv(CtlDo(s, ok))
  {
    match s.ctl.at
    case StopHold(_) =>
    case Cancel(_) =>
    case AllNext =>
      assert |s.ctl.list| > 0 ==> forall c :: c in s.ctl.list <==> c == s.ctl.list[0] || c in s.ctl.list[1..];
  }

  lemma MapStopList(s: System, cs: seq<nat>)
    requires Inv(s) && Enabled(StopList(cs), s)
    ensures MapInv(Do(StopList(cs), s))
  {
  }

  lemma MapLeave(s: System, i: nat)
    requires Inv(s) && Enabled(ChildStep(i), s) && s.host.procs[i].phase.InMap?
    ensures MapInv(ChildDo(s, i))
  {
  }

  lemma MapChild(s: System, i: nat)
    requires Inv(s) && Enabled(ChildStep(i), s) && !s.host.procs[i].phase.InMap?
    ensures MapInv(ChildDo(s, i))
  {
    var t := ChildDo(s, i);
    assert t.host.children == s.host.children && t.ctl == s.ctl && |t.host.procs| == |s.host.procs|;
    assert forall j :: 0 <= j < |s.host.procs| ==>
      t.host.procs[j].key == s.host.procs[j].key && Listed(t.host.procs[j]) == Listed(s.host.procs[j]) &&
          !(t.host.procs[j].phase.Born? && j == i);
  }

  lemma ControlStep(l: Label, s: System)
    requires Inv(s) && Enabled(l, s)
    ensures ControlInv(Do(l, s))
  {
    if l.ChildStep? {
      ControlChild(s, l.i);
      assert Do(l, s) == ChildDo(s, l.i);
    } else if l.Stale? || l.StopList? {
      ControlLists(l, s);
    } else if !l.Ctl? {
      ControlOther(l, s);
    } else {
      assert Do(l, s) == CtlDo(s, l.ok);
      if InReconcile(s.ctl.at) {
        ControlReconcile(s, l.ok);
      } else if InStop(s.ctl.at) {
        ControlStop(s, l.ok);
      } else if InEnsure(s.ctl.at) {
        ControlEnsure(s, l.ok);
      } else if InStart(s.ctl.at) {
        ControlStart(s, l.ok);
      } else {
        ControlStopAll(s, l.ok);
      }
    }
  }

  lemma ControlReconcile(s: System, ok: bool)
    requires Inv(s) && InReconcile(s.ctl.at) && CtlEnabled(s)
    ensures ControlInv(CtlDo(s, ok))
  {
    match s.ctl.at
    case ListWant =>
    case Next =>
    case Wait(_) =>
  }

  lemma ControlStop(s: System, ok: bool)
    requires Inv(s) && InStop(s.ctl.at) && CtlEnabled(s)
    ensures ControlInv(CtlDo(s, ok))
  {
    match s.ctl.at
    case StopWant(_) =>
    case StopHold(_) =>
    case Cancel(_) =>
  }

  lemma ControlEnsure(s: System, ok: bool)
    requires Inv(s) && InEnsure(s.ctl.at) && CtlEnabled(s)
    ensures ControlInv(CtlDo(s, ok))
  {
    match s.ctl.at
    case EnsWant(_) =>
    case EnsHold(_) =>
    case Prepare(_) =>
    case Flock(_, _) =>
    case Provision(_, _) =>
  }

  lemma ControlStart(s: System, ok: bool)
    requires Inv(s) && InStart(s.ctl.at) && CtlEnabled(s)
    ensures ControlInv(CtlDo(s, ok))
  {
    match s.ctl.at
    case InsWant(_, _) =>
    case InsHold(_, _) =>
    case Spawn(_) =>
  }

  lemma ControlStopAll(s: System, ok: bool)
    requires Inv(s) && InStopAll(s.ctl.at) && CtlEnabled(s)
    ensures ControlInv(CtlDo(s, ok))
  {
    assert |s.ctl.list| > 0 ==> forall c :: c in s.ctl.list <==> c == s.ctl.list[0] || c in s.ctl.list[1..];
    match s.ctl.at
    case AllWant =>
    case AllNext =>
    case AllWait(_) =>
    case Joining =>
  }

  lemma ControlChild(s: System, i: nat)
    requires Inv(s) && Enabled(ChildStep(i), s)
    ensures ControlInv(ChildDo(s, i))
  {
    match s.host.procs[i].phase
    case WantMap =>
    case InMap =>
    case _ =>
  }

  lemma ControlLists(l: Label, s: System)
    requires Inv(s) && (l.Stale? || l.StopList?) && Enabled(l, s)
    ensures ControlInv(Do(l, s))
  {
  }

  lemma ControlOther(l: Label, s: System)
    requires Inv(s) && Enabled(l, s) && !l.ByHost()
    ensures ControlInv(Do(l, s))
  {
  }
}

/**
 * Who holds which lock file, over the managed runner and any number of classic
 * runners, including the gap in which a child that ended on its own has left the
 * map but still owns its lock.
 */
module HostLocks {
  import opened HostRunner
  import opened HostSafety

  predicate Provisioning(at: At) {
    at.Provision? || at.InsWant? || at.InsHold?
  }

  predicate OpensFile(at: At) {
    at.Flock? || Provisioning(at)
  }

  // a holds the lock on its file: everything between locking and unlocking.
  predicate Holds(s: System, a: Owner) {
    match a
    case Ensuring => Provisioning(s.ctl.at)
    case OfChild(i) => i < |s.host.procs| && Locked(s.host.procs[i])
    case OfClassic(r) => r in s.disk.classics && s.disk.classics[r].live
  }

  // a has its lock file open, locked or not yet.
  predicate Uses(s: System, a: Owner) {
    match a
    case Ensuring => OpensFile(s.ctl.at)
    case OfChild(i) => i < |s.host.procs| && Locked(s.host.procs[i])
    case OfClassic(r) => r in s.disk.classics
  }

  function KeyOf(s: System, a: Owner): Key
    requires Uses(s, a)
  {
    match a
    case Ensuring => s.ctl.at.k
    case OfChild(i) => s.host.procs[i].key
    case OfClassic(r) => s.disk.classics[r].key
  }

  function FileOf(s: System, a: Owner): nat
    requires Uses(s, a)
  {
    match a
    case Ensuring => s.ctl.at.file
    case OfChild(i) => s.host.procs[i].file
    case OfClassic(r) => s.disk.classics[r].file
  }

  // b stands as it stood.
  predicate SameUse(s: System, t: System, b: Owner) {
    && (Holds(t, b) <==> Holds(s, b)) && (Uses(t, b) <==> Uses(s, b))
    && (Uses(t, b) ==> FileOf(t, b) == FileOf(s, b) && KeyOf(t, b) == KeyOf(s, b))
  }

  // Locks and their holders are in one-to-one correspondence.
  ghost predicate LockInv(s: System) {
    && (forall a :: Holds(s, a) ==> FileOf(s, a) in s.disk.locks && s.disk.locks[FileOf(s, a)] == a)
    && (forall n :: n in s.disk.locks ==> Holds(s, s.disk.locks[n]) && FileOf(s, s.disk.locks[n]) == n)
    && (forall a :: Uses(s, a) ==> FileOf(s, a) < s.disk.next)
    && Numbered(s.disk)
  }

  predicate ByClassic(l: Label) {
    l.ClassicOpen? || l.ClassicFlock? || l.ClassicGiveUp? || l.ClassicExit? || l.ClassicMove? || l.ClassicDrop?
  }

  lemma LockStep(l: Label, s: System)
    requires Inv(s) && LockInv(s) && Enabled(l, s)
    ensures LockInv(Do(l, s))
  {
    if l.ChildStep? {
      assert Do(l, s) == ChildDo(s, l.i);
      LockChild(s, l.i);
    } else if l.Ctl? {
      assert Do(l, s) == CtlDo(s, l.ok);
      LockControl(s, l.ok);
    } else if ByClassic(l) {
      LockClassic(l, s);
    } else {
      LockElsewhere(l, s);
    }
  }

  // Steps that neither take nor give up a lock; a may open or close its file.
  lemma LockFrame(s: System, t: System, a: Owner)
    requires LockInv(s) && t.disk.locks == s.disk.locks && Numbered(t.disk) && s.disk.next <= t.disk.next
    requires forall b :: b != a ==> SameUse(s, t, b)
    requires Holds(t, a) <==> Holds(s, a)
    requires Uses(t, a) ==> FileOf(t, a) < t.disk.next
    requires Holds(t, a) ==> FileOf(t, a) == FileOf(s, a)
    ensures LockInv(t)
  {
    forall b
      ensures Holds(t, b) ==> FileOf(t, b) in t.disk.locks && t.disk.locks[FileOf(t, b)] == b
      ensures Uses(t, b) ==> FileOf(t, b) < t.disk.next
    {
      assert b != a ==> SameUse(s, t, b);
      assert Holds(t, b) ==> Holds(s, b);
      assert Uses(t, b) && b != a ==> Uses(s, b);
    }
    forall n | n in t.disk.locks
      ensures Holds(t, t.disk.locks[n]) && FileOf(t, t.disk.locks[n]) == n
    {
      var b := s.disk.locks[n];
      assert Holds(s, b);
      assert b != a ==> SameUse(s, t, b);
    }
  }

  lemma SameFile(s: System, t: System, a: Owner)
    requires LockInv(s) && SameUse(s, t, a)
    ensures Uses(t, a) ==> FileOf(t, a) < s.disk.next
  {
    assert Uses(s, a) ==> FileOf(s, a) < s.disk.next;
  }

  lemma DirNumbered(d: Disk, k: Key)
    requires Numbered(d)
    ensures Numbered(WithDir(d, k)) && d.next <= WithDir(d, k).next && FileAt(d, k) < WithDir(d, k).next
    ensures k in WithDir(d, k).dirs && WithDir(d, k).dirs[k] == FileAt(d, k)
  {
  }

  lemma LockElsewhere(l: Label, s: System)
    requires LockInv(s) && Enabled(l, s) && !l.ChildStep? && !l.Ctl? && !ByClassic(l)
    ensures LockInv(Do(l, s))
  {
    var t := Do(l, s);
    if l.MakeDir? {
      DirNumbered(s.disk, l.dir);
    }
    KeepsOpen(l, s);
    SameFile(s, t, Ensuring);
    LockFrame(s, t, Ensuring);
  }

  lemma KeepsOpen(l: Label, s: System)
    requires Enabled(l, s) && !l.ChildStep? && !l.Ctl? && !ByClassic(l)
    ensures var t := Do(l, s);
            && t.disk.locks == s.disk.locks && t.disk.classics == s.disk.classics
            && forall b :: SameUse(s, t, b)
  {
    KeepsControl(l, s);
  }

  lemma KeepsControl(l: Label, s: System)
    requires Enabled(l, s) && !l.ChildStep? && !l.Ctl? && !ByClassic(l)
    ensures var t := Do(l, s);
            && t.host.procs == s.host.procs && t.disk.locks == s.disk.locks && t.disk.classics == s.disk.classics
            && (t.ctl.at == s.ctl.at || (!OpensFile(s.ctl.at) && !OpensFile(t.ctl.at)))
  {
    if l.MakeDir? || l.ClearDir? {
      assert Do(l, s) == s.(disk := Do(l, s).disk);
    } else {
      assert Do(l, s).disk == s.disk;
    }
  }

  // === Classic runners =======================================================

  lemma LockClassic(l: Label, s: System)
    requires LockInv(s) && Enabled(l, s) && ByClassic(l)
    ensures LockInv(Do(l, s))
  {
    var t := Do(l, s);
    ClassicKeeps(l, s);
    if l.ClassicFlock? {
      LockTaken(s, t, OfClassic(l.r));
    } else if l.ClassicExit? {
      LockGiven(s, t, OfClassic(l.r));
    } else {
      assert Uses(s, OfClassic(l.r)) ==> FileOf(s, OfClassic(l.r)) < s.disk.next;
      if l.ClassicOpen? {
        DirNumbered(s.disk, l.key);
      }
      LockFrame(s, t, OfClassic(l.r));
    }
  }

  lemma ClassicKeeps(l: Label, s: System)
    requires Numbered(s.disk) && Enabled(l, s) && ByClassic(l)
    ensures var t := Do(l, s);
            && t.ctl == s.ctl && t.host == s.host && t.disk == ClassicDo(l, s.disk)
            && Numbered(t.disk) && s.disk.next <= t.disk.next
            && forall b :: b != OfClassic(l.r) ==> SameUse(s, t, b)
  {
    var t := Do(l, s);
    assert t.ctl == s.ctl && t.host == s.host && t.disk == ClassicDo(l, s.disk);
    ClassicFiles(l, s.disk);
    ClassicOthers(l, s.disk);
  }

  lemma ClassicFiles(l: Label, d: Disk)
    requires ByClassic(l) && (l.ClassicOpen? || l.r in d.classics) && Numbered(d)
    requires l.ClassicMove? ==> d.classics[l.r].key in d.dirs && l.to !in d.dirs
    ensures Numbered(ClassicDo(l, d)) && d.next <= ClassicDo(l, d).next
  {
    if l.ClassicOpen? {
      DirNumbered(d, l.key);
    }
  }

  lemma ClassicOthers(l: Label, d: Disk)
    requires ByClassic(l) && (l.ClassicOpen? || l.r in d.classics)
    requires l.ClassicMove? ==> d.classics[l.r].key in d.dirs
    ensures var e := ClassicDo(l, d);
            forall q :: q != l.r ==>
              (q in e.classics <==> q in d.classics) && (q in d.classics ==> e.classics[q] == d.classics[q])
  {
  }

  // a locks the file that it has open.
  lemma LockTaken(s: System, t: System, a: Owner)
    requires LockInv(s) && t.disk.next == s.disk.next && Numbered(t.disk)
    requires Uses(s, a) && !Holds(s, a) && Holds(t, a)
    requires FileOf(t, a) == FileOf(s, a) && FileOf(s, a) !in s.disk.locks
    requires t.disk.locks == s.disk.locks[FileOf(s, a) := a]
    requires forall b :: b != a ==> SameUse(s, t, b)
    ensures LockInv(t)
  {
    forall b
      ensures Holds(t, b) ==> FileOf(t, b) in t.disk.locks && t.disk.locks[FileOf(t, b)] == b
      ensures Uses(t, b) ==> FileOf(t, b) < t.disk.next
    {
      assert b != a ==> SameUse(s, t, b);
      assert Holds(t, b) && b != a ==> Holds(s, b);
      assert Uses(t, b) ==> Uses(s, b);
    }
    forall n | n in t.disk.locks
      ensures Holds(t, t.disk.locks[n]) && FileOf(t, t.disk.locks[n]) == n
    {
      if n != FileOf(t, a) {
        assert Holds(s, s.disk.locks[n]);
        assert SameUse(s, t, s.disk.locks[n]);
      }
    }
  }

  // a unlocks its file.
  lemma LockGiven(s: System, t: System, a: Owner)
    requires LockInv(s) && t.disk.next == s.disk.next && Numbered(t.disk)
    requires Holds(s, a) && !Uses(t, a) && t.disk.locks == Release(s.disk.locks, FileOf(s, a), a)
    requires forall b :: b != a ==> SameUse(s, t, b)
    ensures LockInv(t)
  {
    assert FileOf(s, a) in s.disk.locks && s.disk.locks[FileOf(s, a)] == a;
    forall b
      ensures Holds(t, b) ==> FileOf(t, b) in t.disk.locks && t.disk.locks[FileOf(t, b)] == b
      ensures Uses(t, b) ==> FileOf(t, b) < t.disk.next
    {
      assert b != a ==> SameUse(s, t, b);
      assert Holds(t, b) ==> Holds(s, b);
      assert Uses(t, b) ==> Uses(s, b);
    }
    forall n | n in t.disk.locks
      ensures Holds(t, t.disk.locks[n]) && FileOf(t, t.disk.locks[n]) == n
    {
      assert Holds(s, s.disk.locks[n]);
      assert SameUse(s, t, s.disk.locks[n]);
    }
  }

  // === Children ==============================================================

  lemma LockChild(s: System, i: nat)
    requires LockInv(s) && Enabled(ChildStep(i), s)
    ensures LockInv(ChildDo(s, i))
  {
    var t := ChildDo(s, i);
    ChildKeeps(s, i);
    if s.host.procs[i].phase.Unlocking? {
      assert Holds(s, OfChild(i));
      LockGiven(s, t, OfChild(i));
    } else {
      SameFile(s, t, Ensuring);
      LockFrame(s, t, Ensuring);
    }
  }

  lemma ChildKeeps(s: System, i: nat)
    requires Enabled(ChildStep(i), s)
    ensures var t := ChildDo(s, i);
            && t.disk.(locks := s.disk.locks) == s.disk
            && t.disk.locks == (if s.host.procs[i].phase.Unlocking?
                                then Release(s.disk.locks, s.host.procs[i].file, OfChild(i)) else s.disk.locks)
            && forall b :: (b == OfChild(i) ==> !s.host.procs[i].phase.Unlocking?) ==> SameUse(s, t, b)
  {
    ChildPhase(s, i);
  }

  lemma ChildPhase(s: System, i: nat)
    requires Enabled(ChildStep(i), s)
    ensures var t := ChildDo(s, i);
            && t.ctl == s.ctl && t.disk.(locks := s.disk.locks) == s.disk && |t.host.procs| == |s.host.procs|
            && (forall j :: 0 <= j < |s.host.procs| ==>
                  t.host.procs[j].key == s.host.procs[j].key && t.host.procs[j].file == s.host.procs[j].file)
            && (forall j :: 0 <= j < |s.host.procs| && (j == i ==> !s.host.procs[i].phase.Unlocking?) ==>
                  Locked(t.host.procs[j]) == Locked(s.host.procs[j]))
  {
  }

  // === Control ===============================================================

  lemma LockControl(s: System, ok: bool)
    requires Inv(s) && LockInv(s) && CtlEnabled(s)
    ensures LockInv(CtlDo(s, ok))
  {
    if s.ctl.at.Prepare? {
      LockOpened(s, ok);
    } else if s.ctl.at.Flock? {
      LockFlock(s, ok);
    } else if s.ctl.at.Provision? {
      LockProvision(s, ok);
    } else if s.ctl.at.InsHold? {
      LockPassed(s, ok);
    } else {
      ControlKeeps(s, ok);
      SameFile(s, CtlDo(s, ok), Ensuring);
      LockFrame(s, CtlDo(s, ok), Ensuring);
    }
  }

  predicate MovesFile(at: At) {
    at.Prepare? || at.Flock? || at.Provision? || at.InsHold?
  }

  lemma ControlKeeps(s: System, ok: bool)
    requires CtlEnabled(s) && !MovesFile(s.ctl.at)
    requires s.ctl.at.Spawn? ==> s.ctl.at.c < |s.host.procs| && s.host.procs[s.ctl.at.c].phase.Born?
    ensures CtlDo(s, ok).disk == s.disk && forall b :: SameUse(s, CtlDo(s, ok), b)
  {
    ControlPhase(s, ok);
    ControlFile(s, ok);
  }

  lemma ControlPhase(s: System, ok: bool)
    requires CtlEnabled(s) && !s.ctl.at.InsHold?
    requires s.ctl.at.Spawn? ==> s.ctl.at.c < |s.host.procs| && s.host.procs[s.ctl.at.c].phase.Born?
    ensures var t := CtlDo(s, ok);
            && |t.host.procs| == |s.host.procs|
            && forall j :: 0 <= j < |s.host.procs| ==>
                 && t.host.procs[j].key == s.host.procs[j].key && t.host.procs[j].file == s.host.procs[j].file
                 && Locked(t.host.procs[j]) == Locked(s.host.procs[j])
  {
    if !s.ctl.at.Cancel? && !s.ctl.at.AllNext? && !s.ctl.at.Spawn? {
      assert CtlDo(s, ok).host.procs == s.host.procs;
    }
  }

  lemma ControlFile(s: System, ok: bool)
    requires CtlEnabled(s) && !MovesFile(s.ctl.at)
    ensures var t := CtlDo(s, ok);
            && t.disk == s.disk && OpensFile(t.ctl.at) == OpensFile(s.ctl.at)
            && Provisioning(t.ctl.at) == Provisioning(s.ctl.at)
            && (OpensFile(t.ctl.at) ==> t.ctl.at.k == s.ctl.at.k && t.ctl.at.file == s.ctl.at.file)
  {
  }

  // Only control's own file is opened, locked or closed.
  lemma FileMoves(s: System, ok: bool)
    requires s.ctl.at.Prepare? || s.ctl.at.Flock? || s.ctl.at.Provision?
    ensures var t := CtlDo(s, ok);
            t.host == s.host && t.disk.classics == s.disk.classics && forall b :: b != Ensuring ==> SameUse(s, t, b)
  {
  }

  lemma LockOpened(s: System, ok: bool)
    requires LockInv(s) && s.ctl.at.Prepare?
    ensures LockInv(CtlDo(s, ok))
  {
    DirNumbered(s.disk, s.ctl.at.k);
    FileMoves(s, ok);
    LockFrame(s, CtlDo(s, ok), Ensuring);
  }

  lemma LockFlock(s: System, ok: bool)
    requires LockInv(s) && s.ctl.at.Flock?
    ensures LockInv(CtlDo(s, ok))
  {
    FileMoves(s, ok);
    if ok && s.ctl.at.file !in s.disk.locks {
      LockTaken(s, CtlDo(s, ok), Ensuring);
    } else {
      LockFrame(s, CtlDo(s, ok), Ensuring);
    }
  }

  lemma LockProvision(s: System, ok: bool)
    requires LockInv(s) && s.ctl.at.Provision?
    ensures LockInv(CtlDo(s, ok))
  {
    FileMoves(s, ok);
    assert Uses(s, Ensuring) && FileOf(s, Ensuring) < s.disk.next;
    if ok {
      LockFrame(s, CtlDo(s, ok), Ensuring);
    } else {
      LockGiven(s, CtlDo(s, ok), Ensuring);
    }
  }

  // The lock goes from control to the new child.
  lemma LockPassed(s: System, ok: bool)
    requires LockInv(s) && s.ctl.at.InsHold?
    ensures LockInv(CtlDo(s, ok))
  {
    var t := CtlDo(s, ok);
    var c := OfChild(|s.host.procs|);
    PassedKeeps(s, ok);
    assert Holds(s, Ensuring) && s.disk.locks[FileOf(s, Ensuring)] == Ensuring;
    forall b
      ensures Holds(t, b) ==> FileOf(t, b) in t.disk.locks && t.disk.locks[FileOf(t, b)] == b
      ensures Uses(t, b) ==> FileOf(t, b) < t.disk.next
    {
      if b != c && b != Ensuring {
        assert SameUse(s, t, b);
        assert Holds(t, b) ==> Holds(s, b);
        assert Uses(t, b) ==> Uses(s, b);
      }
    }
    forall n | n in t.disk.locks
      ensures Holds(t, t.disk.locks[n]) && FileOf(t, t.disk.locks[n]) == n
    {
      if n != s.ctl.at.file {
        assert Holds(s, s.disk.locks[n]);
        assert SameUse(s, t, s.disk.locks[n]);
      }
    }
  }

  lemma PassedKeeps(s: System, ok: bool)
    requires s.ctl.at.InsHold?
    ensures var t := CtlDo(s, ok);
            var c := OfChild(|s.host.procs|);
            && t.disk == s.disk.(locks := s.disk.locks[s.ctl.at.file := c])
            && !Uses(s, c) && Holds(t, c) && FileOf(t, c) == s.ctl.at.file && KeyOf(t, c) == s.ctl.at.k
            && !Uses(t, Ensuring) && forall b :: b != c && b != Ensuring ==> SameUse(s, t, b)
  {
    var t := CtlDo(s, ok);
    assert t.host.procs == s.host.procs + [Child(s.ctl.at.k, s.ctl.at.file, false, Born)];
  }
}

/**
 * One live loop per profile, over every run: across the managed runner and any
 * number of classic runners, and exactly up to the steps that take a lock file that
 * somebody has open away from its profile.
 */
module HostExclusion {
  import opened Wrappers
  import opened HostRunner
  import opened HostSafety
  import opened HostLocks

  ghost predicate Exclusive(s: System) {
    forall a, b :: Holds(s, a) && Holds(s, b) && KeyOf(s, a) == KeyOf(s, b) ==> a == b
  }

  // No step takes a lock file away from its profile while somebody has it open: no
  // profile in use is cleared or dropped, and a running profile is moved only while
  // nobody else is between opening and locking its file.
  ghost predicate Benign(l: Label, s: System)
    requires Enabled(l, s)
  {
    && (l.ClearDir? ==> forall a :: Uses(s, a) ==> KeyOf(s, a) != l.dir)
    && (l.ClassicMove? ==> forall a :: Uses(s, a) && a != OfClassic(l.r) ==> KeyOf(s, a) != s.disk.classics[l.r].key)
    && !l.ClassicDrop?
  }

  // Every step of the run satisfies Benign.
  ghost predicate BenignRun(s: System, run: seq<Label>)
    requires Legal(s, run)
  {
    run == [] ||
    (LastStep(s, run);
     var m := |run| - 1;
     BenignRun(s, run[..m]) && Benign(run[m], After(s, run[..m])))
  }

  // Whoever has a lock file open has the one that belongs to the profile.
  ghost predicate LinkInv(s: System) {
    forall a :: Uses(s, a) ==> Linked(s, a)
  }

  predicate Linked(s: System, a: Owner)
    requires Uses(s, a)
  {
    KeyOf(s, a) in s.disk.dirs && s.disk.dirs[KeyOf(s, a)] == FileOf(s, a)
  }

  lemma LinkStep(l: Label, s: System)
    requires Inv(s) && LockInv(s) && LinkInv(s) && Enabled(l, s) && Benign(l, s)
    ensures LinkInv(Do(l, s))
  {
    if l.ChildStep? {
      assert Do(l, s) == ChildDo(s, l.i);
      LinkChild(s, l.i);
    } else if l.Ctl? {
      assert Do(l, s) == CtlDo(s, l.ok);
      LinkControl(s, l.ok);
    } else if l.ClassicOpen? {
      LinkOpened(l, s);
    } else if l.ClassicMove? {
      LinkMoved(l, s);
    } else if ByClassic(l) {
      LinkLocked(l, s);
    } else {
      KeepsOpen(l, s);
      LinkElsewhere(l, s);
    }
  }

  // A directory in use stays, and only a may have changed.
  lemma LinkFrame(s: System, t: System, a: Owner)
    requires LinkInv(s) && forall b :: b != a ==> SameUse(s, t, b)
    requires forall b :: Uses(s, b) && b != a ==> KeyOf(s, b) in t.disk.dirs && t.disk.dirs[KeyOf(s, b)] == FileOf(s, b)
    requires Uses(t, a) ==> Linked(t, a)
    ensures LinkInv(t)
  {
    forall b | Uses(t, b)
      ensures Linked(t, b)
    {
      if b != a {
        assert SameUse(s, t, b);
        assert Uses(s, b);
      }
    }
  }

  lemma LinkChild(s: System, i: nat)
    requires LinkInv(s) && Enabled(ChildStep(i), s)
    ensures LinkInv(ChildDo(s, i))
  {
    var t := ChildDo(s, i);
    ChildKeeps(s, i);
    if !s.host.procs[i].phase.Unlocking? {
      assert SameUse(s, t, OfChild(i));
      assert Uses(t, OfChild(i)) ==> Uses(s, OfChild(i));
    }
    LinkUsed(s);
    LinkFrame(s, t, OfChild(i));
  }

  lemma LinkUsed(s: System)
    requires LinkInv(s)
    ensures forall b :: Uses(s, b) ==> KeyOf(s, b) in s.disk.dirs && s.disk.dirs[KeyOf(s, b)] == FileOf(s, b)
  {
    forall b | Uses(s, b)
      ensures KeyOf(s, b) in s.disk.dirs && s.disk.dirs[KeyOf(s, b)] == FileOf(s, b)
    {
      assert Linked(s, b);
    }
  }

  lemma LinkControl(s: System, ok: bool)
    requires Inv(s) && LinkInv(s) && CtlEnabled(s)
    ensures LinkInv(CtlDo(s, ok))
  {
    var t := CtlDo(s, ok);
    LinkUsed(s);
    if s.ctl.at.InsHold? {
      LinkPassed(s, ok);
    } else if MovesFile(s.ctl.at) {
      FileMoves(s, ok);
      assert Uses(s, Ensuring) ==> Linked(s, Ensuring);
      LinkFrame(s, t, Ensuring);
    } else {
      ControlKeeps(s, ok);
      assert SameUse(s, t, Ensuring);
      assert Uses(s, Ensuring) ==> Linked(s, Ensuring);
      LinkFrame(s, t, Ensuring);
    }
  }

  lemma LinkPassed(s: System, ok: bool)
    requires LinkInv(s) && s.ctl.at.InsHold?
    ensures LinkInv(CtlDo(s, ok))
  {
    var t := CtlDo(s, ok);
    PassedKeeps(s, ok);
    assert Linked(s, Ensuring);
    forall b | Uses(t, b)
      ensures Linked(t, b)
    {
      if b != OfChild(|s.host.procs|) && b != Ensuring {
        assert SameUse(s, t, b);
        assert Linked(s, b);
      }
    }
  }

  lemma LinkOpened(l: Label, s: System)
    requires LockInv(s) && LinkInv(s) && l.ClassicOpen? && Enabled(l, s)
    ensures LinkInv(Do(l, s))
  {
    var t := Do(l, s);
    ClassicKeeps(l, s);
    DirNumbered(s.disk, l.key);
    LinkUsed(s);
    assert t.disk.dirs == WithDir(s.disk, l.key).dirs;
    LinkFrame(s, t, OfClassic(l.r));
  }

  lemma LinkMoved(l: Label, s: System)
    requires LockInv(s) && LinkInv(s) && l.ClassicMove? && Enabled(l, s) && Benign(l, s)
    ensures LinkInv(Do(l, s))
  {
    var t := Do(l, s);
    ClassicKeeps(l, s);
    assert Linked(s, OfClassic(l.r));
    LinkUsed(s);
    LinkFrame(s, t, OfClassic(l.r));
  }

  lemma LinkLocked(l: Label, s: System)
    requires LockInv(s) && LinkInv(s) && (l.ClassicFlock? || l.ClassicGiveUp? || l.ClassicExit?) && Enabled(l, s)
    ensures LinkInv(Do(l, s))
  {
    ClassicKeeps(l, s);
    assert Uses(s, OfClassic(l.r)) && Linked(s, OfClassic(l.r));
    LinkUsed(s);
    LinkFrame(s, Do(l, s), OfClassic(l.r));
  }

  lemma LinkElsewhere(l: Label, s: System)
    requires LinkInv(s) && Enabled(l, s) && Benign(l, s) && !l.ChildStep? && !l.Ctl? && !ByClassic(l)
    requires forall b :: SameUse(s, Do(l, s), b)
    ensures LinkInv(Do(l, s))
  {
    var t := Do(l, s);
    LinkUsed(s);
    forall b | Uses(t, b)
      ensures Linked(t, b)
    {
      assert SameUse(s, t, b);
      assert Uses(s, b);
    }
  }

  // === Whole runs ============================================================

  lemma {:induction false} InvRun(s: System, run: seq<Label>)
    requires Init(s) && Legal(s, run)
    ensures Inv(After(s, run))
  {
    if run != [] {
      LastStep(s, run);
      var m := |run| - 1;
      InvRun(s, run[..m]);
      InvStep(run[m], After(s, run[..m]));
    }
  }

  lemma InvStep(l: Label, s: System)
    requires Inv(s) && Enabled(l, s)
    ensures Inv(Do(l, s))
  {
    MutexStep(l, s);
    MapStep(l, s);
    ControlStep(l, s);
  }

  lemma InitLocks(s: System)
    requires Init(s)
    ensures LockInv(s) && LinkInv(s)
  {
  }

  lemma {:induction false} LockRun(s: System, run: seq<Label>)
    requires Init(s) && Legal(s, run)
    ensures Inv(After(s, run)) && LockInv(After(s, run))
  {
    InvRun(s, run);
    if run == [] {
      InitLocks(s);
    } else {
      LastStep(s, run);
      var m := |run| - 1;
      LockRun(s, run[..m]);
      LockStep(run[m], After(s, run[..m]));
    }
  }

  lemma {:induction false} LinkRun(s: System, run: seq<Label>)
    requires Init(s) && Legal(s, run) && BenignRun(s, run)
    ensures LinkInv(After(s, run))
  {
    if run == [] {
      InitLocks(s);
    } else {
      LastStep(s, run);
      var m := |run| - 1;
      LockRun(s, run[..m]);
      LinkRun(s, run[..m]);
      LinkStep(run[m], After(s, run[..m]));
    }
  }

  // Two holders of one profile have the same file, and a file names its holder.
  lemma LinkExcludes(s: System)
    requires LockInv(s) && LinkInv(s)
    ensures Exclusive(s)
  {
    forall a, b | Holds(s, a) && Holds(s, b) && KeyOf(s, a) == KeyOf(s, b)
      ensures a == b
    {
      assert Linked(s, a) && Linked(s, b);
    }
  }

  // At no point of a run that takes no lock file away from its users do two holders
  // share a profile.
  lemma Exclusion(s: System, run: seq<Label>)
    requires Init(s) && Legal(s, run) && BenignRun(s, run)
    ensures Exclusive(After(s, run))
  {
    LockRun(s, run);
    LinkRun(s, run);
    LinkExcludes(After(s, run));
  }

  // In every run a lock has a live holder, with that very file, and a file has one
  // holder at most.
  lemma LocksHaveHolders(s: System, run: seq<Label>, n: nat)
    requires Init(s) && Legal(s, run)
    ensures var t := After(s, run);
            n in t.disk.locks <==> exists a :: Holds(t, a) && FileOf(t, a) == n
    ensures var t := After(s, run);
            forall a, b :: Holds(t, a) && Holds(t, b) && FileOf(t, a) == FileOf(t, b) ==> a == b
  {
    LockRun(s, run);
    var t := After(s, run);
    if n in t.disk.locks {
      assert Holds(t, t.disk.locks[n]) && FileOf(t, t.disk.locks[n]) == n;
    }
  }

  // === The condition is exact ================================================

  lemma {:induction false} FreshRunner(rs: set<nat>) returns (r: nat)
    ensures forall x :: x in rs ==> x < r
  {
    if rs == {} {
      r := 0;
    } else {
      var y :| y in rs;
      var q := FreshRunner(rs - {y});
      r := if q > y then q else y + 1;
      assert forall x :: x in rs ==> x == y || x in rs - {y};
    }
  }

  // A step that takes no file away from anybody.
  predicate Ordinary(l: Label) {
    l.ClassicOpen? || l.ClassicFlock? || l.ClassicExit? || l == Ctl(true)
  }

  // A few ordinary steps later two holders share a profile.
  ghost predicate Breaks(s: System) {
    exists more :: BreaksBy(s, more)
  }

  ghost predicate BreaksBy(s: System, more: seq<Label>) {
    (forall l :: l in more ==> Ordinary(l)) && Legal(s, more) && !Exclusive(After(s, more))
  }

  // From s, ordinary steps lead to t.
  ghost predicate Leads(s: System, run: seq<Label>, t: System) {
    (forall l :: l in run ==> Ordinary(l)) && Trace(s, run) == Some(t) && Inv(t) && LockInv(t)
  }

  lemma Then(s: System, run: seq<Label>, t: System, l: Label) returns (longer: seq<Label>)
    requires Leads(s, run, t) && Enabled(l, t) && Ordinary(l)
    ensures Leads(s, longer, Do(l, t))
  {
    longer := run + [l];
    assert longer[..|run|] == run;
    InvStep(l, t);
    LockStep(l, t);
  }

  // No lock is on a file that does not exist yet.
  lemma NextIsFree(s: System)
    requires LockInv(s)
    ensures s.disk.next !in s.disk.locks
  {
    if s.disk.next in s.disk.locks {
      assert Holds(s, s.disk.locks[s.disk.next]);
      assert Uses(s, s.disk.locks[s.disk.next]);
    }
  }

  // A holder whose profile has a lock file that nobody has locked: a second runner
  // opens and locks it.
  lemma SecondRunner(s: System, run: seq<Label>, t: System, a: Owner)
    requires Leads(s, run, t) && Holds(t, a) && FileAt(t.disk, KeyOf(t, a)) !in t.disk.locks
    ensures Breaks(s)
  {
    var k := KeyOf(t, a);
    var r := FreshRunner(t.disk.classics.Keys);
    var run1 := Then(s, run, t, ClassicOpen(r, k));
    var t1 := Do(ClassicOpen(r, k), t);
    assert a != OfClassic(r);
    Opened(t, r, k, a);
    var run2 := Then(s, run1, t1, ClassicFlock(r));
    SecondLocks(t1, r, k, a);
    assert BreaksBy(s, run2);
  }

  lemma Opened(t: System, r: nat, k: Key, a: Owner)
    requires Numbered(t.disk) && Enabled(ClassicOpen(r, k), t) && a != OfClassic(r)
    ensures var u := Do(ClassicOpen(r, k), t);
            && SameUse(t, u, a) && u.disk.locks == t.disk.locks && Numbered(u.disk)
            && r in u.disk.classics && u.disk.classics[r] == Runner(k, FileAt(t.disk, k), false)
  {
    ClassicKeeps(ClassicOpen(r, k), t);
  }

  lemma SecondLocks(t: System, r: nat, k: Key, a: Owner)
    requires Numbered(t.disk) && Enabled(ClassicFlock(r), t) && a != OfClassic(r)
    requires t.disk.classics[r].key == k && Holds(t, a) && KeyOf(t, a) == k
    ensures !Exclusive(Do(ClassicFlock(r), t))
  {
    var u := Do(ClassicFlock(r), t);
    ClassicKeeps(ClassicFlock(r), t);
    assert SameUse(t, u, a);
    assert Holds(u, a) && Holds(u, OfClassic(r)) && KeyOf(u, a) == KeyOf(u, OfClassic(r));
  }

  // One that has an unlocked file open locks it.
  lemma OpenerLocks(s: System, run: seq<Label>, t: System, e: Owner) returns (longer: seq<Label>, u: System)
    requires Leads(s, run, t) && Uses(t, e) && !Holds(t, e) && FileOf(t, e) !in t.disk.locks
    ensures Leads(s, longer, u) && Holds(u, e) && KeyOf(u, e) == KeyOf(t, e) && u.disk.dirs == t.disk.dirs
  {
    var l := if e.Ensuring? then Ctl(true) else ClassicFlock(e.r);
    longer := Then(s, run, t, l);
    u := Do(l, t);
    if e.Ensuring? {
      assert u == CtlDo(t, true);
    }
  }

  // The holder or opener left behind by an unlinked file of key k.
  lemma LeftBehind(s: System, run: seq<Label>, t: System, e: Owner)
    requires Leads(s, run, t) && Uses(t, e) && KeyOf(t, e) !in t.disk.dirs
    requires Holds(t, e) || FileOf(t, e) !in t.disk.locks
    ensures Breaks(s)
  {
    var run1, u := run, t;
    if !Holds(t, e) {
      run1, u := OpenerLocks(s, run, t, e);
    }
    NextIsFree(u);
    SecondRunner(s, run1, u, e);
  }

  // Taking a lock file away from its profile while somebody else, or for good while
  // anybody, has it open: a few ordinary steps later two runners are live on one
  // profile.
  lemma UnlinkBreaksExclusion(l: Label, s: System)
    requires Inv(s) && LockInv(s) && LinkInv(s) && Enabled(l, s) && !Benign(l, s)
    ensures Breaks(Do(l, s))
  {
    if l.ClearDir? {
      var e :| Uses(s, e) && KeyOf(s, e) == l.dir;
      ClearedInUse(s, l.dir, e);
    } else if l.ClassicMove? {
      var e :| Uses(s, e) && e != OfClassic(l.r) && KeyOf(s, e) == s.disk.classics[l.r].key;
      MovedInUse(s, l.r, l.to, e);
    } else {
      Dropped(s, l.r, l.to);
    }
  }

  lemma Started(l: Label, s: System) returns (t: System)
    requires Inv(s) && LockInv(s) && Enabled(l, s)
    ensures t == Do(l, s) && Leads(t, [], t)
  {
    t := Do(l, s);
    InvStep(l, s);
    LockStep(l, s);
  }

  lemma ClearedInUse(s: System, k: Key, e: Owner)
    requires Inv(s) && LockInv(s) && LinkInv(s) && Uses(s, e) && KeyOf(s, e) == k
    ensures Breaks(Do(ClearDir(k), s))
  {
    var t := Started(ClearDir(k), s);
    KeepsOpen(ClearDir(k), s);
    var a := e;
    if FileOf(s, e) in s.disk.locks {
      a := s.disk.locks[FileOf(s, e)];
      assert Holds(s, a) && Uses(s, a) && Linked(s, a) && Linked(s, e);
    }
    assert SameUse(s, t, a);
    LeftBehind(t, [], t, a);
  }

  lemma MovedInUse(s: System, r: nat, to: Key, e: Owner)
    requires Inv(s) && LockInv(s) && LinkInv(s) && Enabled(ClassicMove(r, to), s)
    requires Uses(s, e) && e != OfClassic(r) && KeyOf(s, e) == s.disk.classics[r].key
    ensures Breaks(Do(ClassicMove(r, to), s))
  {
    var t := Started(ClassicMove(r, to), s);
    ClassicKeeps(ClassicMove(r, to), s);
    assert Linked(s, e) && Linked(s, OfClassic(r));
    assert Holds(s, OfClassic(r)) && s.disk.locks[FileOf(s, e)] == OfClassic(r);
    assert !Holds(s, e) && SameUse(s, t, e);
    var run1 := Then(t, [], t, ClassicExit(r));
    var t1 := Do(ClassicExit(r), t);
    ClassicKeeps(ClassicExit(r), t);
    assert SameUse(t, t1, e);
    LeftBehind(t, run1, t1, e);
  }

  lemma Dropped(s: System, r: nat, to: Key)
    requires Inv(s) && LockInv(s) && LinkInv(s) && Enabled(ClassicDrop(r, to), s)
    ensures Breaks(Do(ClassicDrop(r, to), s))
  {
    var a := OfClassic(r);
    var t := Started(ClassicDrop(r, to), s);
    ClassicKeeps(ClassicDrop(r, to), s);
    assert Holds(t, a) && KeyOf(t, a) == to && Linked(s, a);
    if FileAt(t.disk, to) !in t.disk.locks {
      SecondRunner(t, [], t, a);
    } else {
      NextIsFree(t);
      var b := s.disk.locks[t.disk.dirs[to]];
      assert Holds(s, b) && Uses(s, b) && Linked(s, b);
      assert KeyOf(s, b) == to && b != a && SameUse(s, t, b);
      assert BreaksBy(t, []);
    }
  }
}

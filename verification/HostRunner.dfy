/**
 * The managed host runner: one control goroutine, one goroutine per child sync,
 * the mutex around the children map, the lock files of the profiles, and classic
 * runners competing for the same locks. Each actor has a program counter; a
 * label is one atomic step of one actor. A lock is on an open file, not on a name:
 * taking one opens the lock file of a profile and locks it in a second step, and
 * in between the file may be unlinked or moved.
 */
module HostRunner {
  import opened Wrappers

  type Key = string

  // A child's goroutine: the data-plane loop, then its deferred calls in reverse
  // order of their defer statements.
  datatype Phase =
    | Born          // in the map, goroutine not started
    | Looping       // inside runForever
    | WantMap       // deferred map delete: waiting for the mutex
    | InMap         // holding the mutex
    | ClosingDb     // mutex released, db.Close next
    | Unlocking     // profile unlock next
    | Signalling    // close(done) next
    | Counting      // wg.Done next
    | Gone

  // `file` is the lock file it holds open.
  datatype Child = Child(key: Key, file: nat, cancelled: bool, phase: Phase)

  datatype Mutex = Free | ByControl | ByChild(i: nat)

  // Who has a profile's lock file open, or holds the lock on it.
  datatype Owner = Ensuring | OfChild(i: nat) | OfClassic(r: nat)

  datatype At =
    | Recv                   // RecvHost, or between two control connections
    | ListWant | ListHold    // reconcile collects stale children
    | Next                   // reconcile's two loops
    | StopWant(k: Key) | StopHold(k: Key) | Cancel(c: nat) | Wait(c: nat)
    | EnsWant(k: Key) | EnsHold(k: Key) | Prepare(k: Key)
    | Flock(k: Key, file: nat) | Provision(k: Key, file: nat)
    | InsWant(k: Key, file: nat) | InsHold(k: Key, file: nat) | Spawn(c: nat)
    | AllWant | AllHold | AllNext | AllWait(c: nat)
    | Joining                // wg.Wait
    | Exited

  // `stops` and `regs` are what reconcile still has to stop and to ensure, `list`
  // the children stopAll still has to stop. `wanted` is history: the last full
  // list, plus later assignments, minus revocations. `denied`: the server has refused
  // the host's credential. `failed` counts the ensures that an operation's failure ended.
  datatype Control = Control(at: At, stops: seq<Key>, regs: seq<Key>, list: seq<nat>, wanted: set<Key>,
                             denied: bool, failed: nat)

  // The hostRunner struct; `procs` lists every child ever started.
  datatype Host = Host(mu: Mutex, children: map<Key, nat>, procs: seq<Child>)

  // A `run` process: it has opened the lock file, and is live once it has locked it.
  datatype Runner = Runner(key: Key, file: nat, live: bool)

  // The profile directories with the lock file that belongs to each, the locks, the
  // `run` processes, and the next unused file.
  datatype Disk = Disk(dirs: map<Key, nat>, locks: map<nat, Owner>, classics: map<nat, Runner>, next: nat)

  datatype System = System(ctl: Control, host: Host, disk: Disk, interrupted: bool, hostLocked: bool)

  datatype Label =
    // control plane
    | Assigned(regs: seq<Key>)
    | Added(k: Key)
    | Revoked(k: Key)
    | Redial
    | Denied
    | Interrupt
    | Quit
    // control goroutine; `ok` is the outcome of a fallible operation
    | Ctl(ok: bool)
    | Stale(stale: seq<Key>)
    | StopList(cs: seq<nat>)
    // goroutine of child i
    | ChildStep(i: nat)
    // classic runners and other processes touching the profile directories
    | ClassicOpen(r: nat, key: Key)
    | ClassicFlock(r: nat)
    | ClassicGiveUp(r: nat)
    | ClassicExit(r: nat)
    | ClassicMove(r: nat, to: Key)
    | ClassicDrop(r: nat, to: Key)
    | MakeDir(dir: Key)
    | ClearDir(dir: Key)
  {
    // A step of the managed process itself.
    predicate ByHost() {
      Ctl? || Stale? || StopList? || ChildStep?
    }
  }

  predicate Done(c: Child) {
    c.phase.Counting? || c.phase.Gone?
  }

  // The child still owns its profile lock.
  predicate Locked(c: Child) {
    !c.phase.Signalling? && !Done(c)
  }

  // The child may still be in the map.
  predicate Listed(c: Child) {
    c.phase.Born? || c.phase.Looping? || c.phase.WantMap? || c.phase.InMap?
  }

  predicate Holding(at: At) {
    at.ListHold? || at.StopHold? || at.EnsHold? || at.InsHold? || at.AllHold?
  }

  predicate AllGone(procs: seq<Child>) {
    forall i :: 0 <= i < |procs| ==> procs[i].phase.Gone?
  }

  function Release(locks: map<nat, Owner>, file: nat, o: Owner): map<nat, Owner> {
    if file in locks && locks[file] == o then locks - {file} else locks
  }

  // The lock file of a profile, made with its directory when there is none.
  function FileAt(d: Disk, k: Key): nat {
    if k in d.dirs then d.dirs[k] else d.next
  }

  function WithDir(d: Disk, k: Key): Disk {
    if k in d.dirs then d else d.(dirs := d.dirs[k := d.next], next := d.next + 1)
  }

  // === Guards ================================================================

  predicate CtlEnabled(s: System) {
    match s.ctl.at
    case ListWant => s.host.mu.Free?
    case StopWant(_) => s.host.mu.Free?
    case EnsWant(_) => s.host.mu.Free?
    case InsWant(_, _) => s.host.mu.Free?
    case AllWant => s.host.mu.Free?
    case Wait(c) => c < |s.host.procs| && Done(s.host.procs[c])
    case AllWait(c) => c < |s.host.procs| && Done(s.host.procs[c])
    case Cancel(c) => c < |s.host.procs|
    case Spawn(c) => c < |s.host.procs|
    case AllNext => |s.ctl.list| > 0 ==> s.ctl.list[0] < |s.host.procs|
    case Joining => AllGone(s.host.procs)
    case Recv => false
    case ListHold => false
    case AllHold => false
    case Exited => false
    case _ => true
  }

  predicate Enabled(l: Label, s: System) {
    match l
    case Assigned(_) => s.ctl.at.Recv? && !s.ctl.denied
    case Added(_) => s.ctl.at.Recv? && !s.ctl.denied
    case Revoked(_) => s.ctl.at.Recv? && !s.ctl.denied
    case Redial => s.ctl.at.Recv? && !s.ctl.denied && !s.interrupted
    case Denied => s.ctl.at.Recv? && !s.ctl.denied
    case Interrupt => true
    case Quit => s.ctl.at.Recv? && (s.ctl.denied || s.interrupted)
    case Ctl(_) => CtlEnabled(s)
    case Stale(ks) =>
      && s.ctl.at.ListHold?
      && (forall k :: k in ks ==> k in s.host.children && k !in s.ctl.wanted)
      && (forall k :: k in s.host.children && k !in s.ctl.wanted ==> k in ks)
      && (forall i, j :: 0 <= i < j < |ks| ==> ks[i] != ks[j])
    case StopList(cs) =>
      && s.ctl.at.AllHold? && |cs| == |s.host.children|
      && (forall k :: k in s.host.children ==> s.host.children[k] in cs)
      && (forall c :: c in cs ==>
          c < |s.host.procs| && s.host.procs[c].key in s.host.children && s.host.children[s.host.procs[c].key] == c)
    case ChildStep(i) =>
      i < |s.host.procs| &&
      (match s.host.procs[i].phase
       case Born => false
       case WantMap => s.host.mu.Free?
       case Gone => false
       case _ => true)
    case ClassicOpen(r, _) => r !in s.disk.classics
    case ClassicFlock(r) =>
      r in s.disk.classics && !s.disk.classics[r].live && s.disk.classics[r].file !in s.disk.locks
    case ClassicGiveUp(r) => r in s.disk.classics && !s.disk.classics[r].live
    case ClassicExit(r) => r in s.disk.classics && s.disk.classics[r].live
    case ClassicMove(r, to) =>
      && r in s.disk.classics && s.disk.classics[r].live
      && s.disk.classics[r].key in s.disk.dirs && to !in s.disk.dirs
    case ClassicDrop(r, to) => r in s.disk.classics && s.disk.classics[r].live && s.disk.classics[r].key != to
    case MakeDir(_) => true
    case ClearDir(_) => true
  }

  // === Effects ===============================================================

  function Move(s: System, at: At): System {
    s.(ctl := s.ctl.(at := at))
  }

  // ensure returns without a child.
  function GiveUp(s: System): System {
    s.(ctl := s.ctl.(at := Next, failed := s.ctl.failed + 1))
  }

  function CancelChild(h: Host, c: nat): Host
    requires c < |h.procs|
  {
    h.(procs := h.procs[c := h.procs[c].(cancelled := true)])
  }

  function Advance(h: Host, i: nat, phase: Phase): Host
    requires i < |h.procs|
  {
    h.(procs := h.procs[i := h.procs[i].(phase := phase)])
  }

  function CtlDo(s: System, ok: bool): System
    requires CtlEnabled(s)
  {
    var ctl, h, d := s.ctl, s.host, s.disk;
    match ctl.at
    case ListWant => s.(ctl := ctl.(at := ListHold), host := h.(mu := ByControl))
    case Next =>
      if |ctl.stops| > 0 then s.(ctl := ctl.(at := StopWant(ctl.stops[0]), stops := ctl.stops[1..]))
      else if |ctl.regs| > 0 then s.(ctl := ctl.(at := EnsWant(ctl.regs[0]), regs := ctl.regs[1..]))
      else Move(s, Recv)
    // stop
    case StopWant(k) => s.(ctl := ctl.(at := StopHold(k)), host := h.(mu := ByControl))
    case StopHold(k) =>
      if k in h.children then
        s.(ctl := ctl.(at := Cancel(h.children[k])), host := h.(mu := Free, children := h.children - {k}))
      else s.(ctl := ctl.(at := Next), host := h.(mu := Free))
    case Cancel(c) => s.(ctl := ctl.(at := Wait(c)), host := CancelChild(h, c))
    case Wait(_) => Move(s, Next)
    // ensure
    case EnsWant(k) => s.(ctl := ctl.(at := EnsHold(k)), host := h.(mu := ByControl))
    case EnsHold(k) =>
      s.(ctl := ctl.(at := if k in h.children then Next else Prepare(k)), host := h.(mu := Free))
    case Prepare(k) =>
      if ok then s.(ctl := ctl.(at := Flock(k, FileAt(d, k))), disk := WithDir(d, k))
      else GiveUp(s)
    case Flock(k, file) =>
      if ok && file !in d.locks then
        s.(ctl := ctl.(at := Provision(k, file)), disk := d.(locks := d.locks[file := Ensuring]))
      else GiveUp(s)
    case Provision(k, file) =>
      if ok then Move(s, InsWant(k, file))
      else GiveUp(s).(disk := d.(locks := Release(d.locks, file, Ensuring)))
    case InsWant(k, file) => s.(ctl := ctl.(at := InsHold(k, file)), host := h.(mu := ByControl))
    case InsHold(k, file) =>
      var c := |h.procs|;
      s.(ctl := ctl.(at := Spawn(c)),
         host := Host(Free, h.children[k := c], h.procs + [Child(k, file, false, Born)]),
         disk := d.(locks := d.locks[file := OfChild(c)]))
    case Spawn(c) => s.(ctl := ctl.(at := Next), host := Advance(h, c, Looping))
    // stopAll and the end of the command
    case AllWant => s.(ctl := ctl.(at := AllHold), host := h.(mu := ByControl))
    case AllNext =>
      if |ctl.list| > 0 then
        s.(ctl := ctl.(at := AllWait(ctl.list[0]), list := ctl.list[1..]), host := CancelChild(h, ctl.list[0]))
      else Move(s, Joining)
    case AllWait(_) => Move(s, AllNext)
    case Joining => s.(ctl := ctl.(at := Exited), hostLocked := false)
  }

  function ChildDo(s: System, i: nat): System
    requires i < |s.host.procs|
  {
    var c, h := s.host.procs[i], s.host;
    match c.phase
    case Looping => s.(host := Advance(h, i, WantMap))
    case WantMap => s.(host := Advance(h, i, InMap).(mu := ByChild(i)))
    case InMap =>
      s.(host := Advance(h, i, ClosingDb).(mu := Free,
           children := if c.key in h.children && h.children[c.key] == i then h.children - {c.key} else h.children))
    case ClosingDb => s.(host := Advance(h, i, Unlocking))
    case Unlocking =>
      s.(host := Advance(h, i, Signalling), disk := s.disk.(locks := Release(s.disk.locks, c.file, OfChild(i))))
    case Signalling => s.(host := Advance(h, i, Counting))
    case Counting => s.(host := Advance(h, i, Gone))
    case _ => s
  }

  // The steps of `run` processes. Healing moves the profile directory, lock file and
  // all, or removes it when there is one at the target; a removed file lives on as
  // long as somebody has it open.
  function ClassicDo(l: Label, d: Disk): Disk
    requires l.ClassicOpen? || l.ClassicFlock? || l.ClassicGiveUp? || l.ClassicExit? || l.ClassicMove? || l.ClassicDrop?
    requires l.ClassicOpen? || l.r in d.classics
    requires l.ClassicMove? ==> d.classics[l.r].key in d.dirs
  {
    match l
    case ClassicOpen(r, k) => WithDir(d, k).(classics := d.classics[r := Runner(k, FileAt(d, k), false)])
    case ClassicFlock(r) =>
      d.(classics := d.classics[r := d.classics[r].(live := true)],
        locks := d.locks[d.classics[r].file := OfClassic(r)])
    case ClassicGiveUp(r) => d.(classics := d.classics - {r})
    case ClassicExit(r) =>
      d.(classics := d.classics - {r}, locks := Release(d.locks, d.classics[r].file, OfClassic(r)))
    case ClassicMove(r, to) =>
      var from := d.classics[r].key;
      d.(dirs := (d.dirs - {from})[to := d.dirs[from]], classics := d.classics[r := d.classics[r].(key := to)])
    case ClassicDrop(r, to) =>
      d.(dirs := d.dirs - {d.classics[r].key}, classics := d.classics[r := d.classics[r].(key := to)])
  }

  function Do(l: Label, s: System): System
    requires Enabled(l, s)
  {
    var ctl, d := s.ctl, s.disk;
    match l
    case Assigned(regs) =>
      s.(ctl := Control(ListWant, [], regs, [], set k | k in regs, false, ctl.failed))
    case Added(k) =>
      s.(ctl := Control(EnsWant(k), [], [], [], ctl.wanted + {k}, false, ctl.failed))
    case Revoked(k) =>
      s.(ctl := Control(StopWant(k), [], [], [], ctl.wanted - {k}, false, ctl.failed))
    case Redial => s
    case Denied => s.(ctl := ctl.(denied := true))
    case Interrupt => s.(interrupted := true)
    case Quit => Move(s, AllWant)
    case Ctl(ok) => CtlDo(s, ok)
    case Stale(ks) => s.(ctl := ctl.(at := Next, stops := ks), host := s.host.(mu := Free))
    case StopList(cs) => s.(ctl := ctl.(at := AllNext, list := cs), host := s.host.(mu := Free, children := map[]))
    case ChildStep(i) => ChildDo(s, i)
    case MakeDir(k) => s.(disk := WithDir(d, k))
    case ClearDir(k) => s.(disk := d.(dirs := d.dirs - {k}))
    case _ => s.(disk := ClassicDo(l, d))
  }

  // === Runs ==================================================================

  // Files are numbered, and no two directories share one.
  predicate Numbered(d: Disk) {
    && (forall k :: k in d.dirs ==> d.dirs[k] < d.next)
    && (forall j, k :: j in d.dirs && k in d.dirs && d.dirs[j] == d.dirs[k] ==> j == k)
  }

  // `host run` holds the host lock and has no children; other processes may run.
  ghost predicate Init(s: System) {
    && s.ctl == Control(Recv, [], [], [], {}, false, 0)
    && s.host == Host(Free, map[], []) && !s.interrupted && s.hostLocked
    && Numbered(s.disk)
    && (forall r :: r in s.disk.classics ==>
          var c := s.disk.classics[r];
          && c.key in s.disk.dirs && s.disk.dirs[c.key] == c.file
          && (c.live ==> c.file in s.disk.locks && s.disk.locks[c.file] == OfClassic(r)))
    && (forall n :: n in s.disk.locks ==>
          && s.disk.locks[n].OfClassic? && s.disk.locks[n].r in s.disk.classics
          && s.disk.classics[s.disk.locks[n].r].live && s.disk.classics[s.disk.locks[n].r].file == n)
  }

  // Where a run leads, or None when some label is not enabled.
  ghost function Trace(s: System, run: seq<Label>): Option<System> {
    if run == [] then Some(s)
    else
      var m := |run| - 1;
      match Trace(s, run[..m])
      case None => None
      case Some(t) => if Enabled(run[m], t) then Some(Do(run[m], t)) else None
  }

  ghost predicate Legal(s: System, run: seq<Label>) {
    Trace(s, run).Some?
  }

  ghost function After(s: System, run: seq<Label>): System
    requires Legal(s, run)
  {
    Trace(s, run).value
  }

  lemma LastStep(s: System, run: seq<Label>)
    requires Legal(s, run) && run != []
    ensures Legal(s, run[..|run| - 1])
    ensures Enabled(run[|run| - 1], After(s, run[..|run| - 1]))
    ensures After(s, run) == Do(run[|run| - 1], After(s, run[..|run| - 1]))
  {
  }
}

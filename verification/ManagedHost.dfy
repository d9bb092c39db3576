/**
 * The managed host program: cmdHostRun, runForever, connectAndPump, reconcile,
 * ensure, stop and stopAll. Before every operation the other goroutines and other
 * processes take any number of steps; each operation is one label of HostRunner,
 * so whatever the program does is a run of that system.
 */
module ManagedHost {
  import opened Wrappers
  import opened HostRunner
  import opened HostSafety
  import opened HostExclusion
  import opened HostTrueUp
  import opened HostProgress

  datatype Ending = Canceled | Permanent | Disconnected

  datatype Access = Granted | Refused | Failed

  datatype ControlFrame =
    | HostAssigned(regs: seq<Key>)
    | RegistrationAssigned(reg: Key)
    | RegistrationRevoked(id: Key)
    | Pong

  datatype Received = Frame(frame: ControlFrame) | Closed

  // Steps of the children and of other processes.
  predicate ByOthers(l: Label) {
    !Command(l) && !l.Ctl? && !l.Stale? && !l.StopList? && !l.Redial? && !l.Denied? && !l.Interrupt?
  }

  // What such steps leave alone.
  predicate Undisturbed(a: System, b: System) {
    && b.ctl == a.ctl && |b.host.procs| == |a.host.procs|
    && (forall i :: 0 <= i < |a.host.procs| ==> b.host.procs[i].key == a.host.procs[i].key)
    && (forall k :: k in b.host.children ==> k in a.host.children)
    && Measure(b) <= Measure(a)
  }

  predicate Locking(at: At) {
    at.ListWant? || at.StopWant? || at.EnsWant? || at.InsWant? || at.AllWant?
  }

  // Where control is once it has the mutex.
  function WithMutex(at: At): At
    requires Locking(at)
  {
    match at
    case ListWant => ListHold
    case StopWant(k) => StopHold(k)
    case EnsWant(k) => EnsHold(k)
    case InsWant(k, file) => InsHold(k, file)
    case AllWant => AllHold
  }

  // The children so far are still there, each under its key.
  predicate KeepsKeys(a: seq<Child>, b: seq<Child>) {
    |a| <= |b| && forall i :: 0 <= i < |a| ==> b[i].key == a[i].key
  }

  // A child has been started for k.
  predicate Had(procs: seq<Child>, k: Key) {
    exists i :: 0 <= i < |procs| && procs[i].key == k
  }

  function GaveUp(ctl: Control): Control {
    ctl.(at := Next, failed := ctl.failed + 1)
  }

  lemma StillHad(a: seq<Child>, b: seq<Child>)
    requires KeepsKeys(a, b)
    ensures forall k :: Had(a, k) ==> Had(b, k)
  {
    forall k | Had(a, k)
      ensures Had(b, k)
    {
      var i :| 0 <= i < |a| && a[i].key == k;
      assert b[i].key == k;
    }
  }

  lemma TakesMutex(s: System)
    requires Locking(s.ctl.at) && s.host.mu.Free?
    ensures CtlEnabled(s) && CtlDo(s, true).ctl == s.ctl.(at := WithMutex(s.ctl.at))
    ensures Undisturbed(s, CtlDo(s, true).(ctl := s.ctl))
  {
  }

  lemma StopsWaiting(s: System)
    requires (s.ctl.at.Wait? || s.ctl.at.AllWait?) && CtlEnabled(s)
    ensures CtlDo(s, true) == s.(ctl := s.ctl.(at := if s.ctl.at.Wait? then Next else AllNext))
  {
  }

  lemma OthersLeave(l: Label, s: System)
    requires Inv(s) && Enabled(l, s) && ByOthers(l)
    ensures Undisturbed(s, Do(l, s))
  {
    MeasureStep(l, s);
    if l.ChildStep? {
      assert Do(l, s) == ChildDo(s, l.i);
    } else {
      assert Do(l, s).ctl == s.ctl && Do(l, s).host == s.host;
    }
  }

  class Runner {
    ghost const init: System
    var s: System
    ghost var run: seq<Label>
    // Upper bound on how many frames and connections the operator sits through.
    var patience: nat

    ghost predicate Valid()
      reads this
    {
      Init(init) && Legal(init, run) && s == After(init, run)
    }

    constructor (s: System, patience: nat)
      requires Init(s)
      ensures Valid() && this.s == s
    {
      init, this.s, run, this.patience := s, s, [], patience;
    }

    // Any step but the operator's.
    method Step(l: Label)
      requires Valid() && Enabled(l, s) && !l.Interrupt?
      modifies this`s, this`run
      ensures Valid() && s == Do(l, old(s)) && run == old(run) + [l]
    {
      assert (run + [l])[..|run|] == run;
      s := Do(l, s);
      run := run + [l];
    }

    // The operator may interrupt, and does so at the latest when out of patience.
    method Operator()
      requires Valid()
      modifies this`s, this`run
      ensures Valid() && Undisturbed(old(s), s) && (patience == 0 ==> s.interrupted)
      ensures run == old(run) || run == old(run) + [Interrupt]
    {
      var yes := *;
      if yes || patience == 0 {
        assert (run + [Interrupt])[..|run|] == run;
        s := Do(Interrupt, s);
        run := run + [Interrupt];
      }
    }

    // The control goroutine's next operation.
    method Go(ok: bool)
      requires Valid() && CtlEnabled(s)
      modifies this`s, this`run
      ensures Valid() && s == CtlDo(old(s), ok) && Measure(s) < old(Measure(s))
    {
      InvRun(init, run);
      MeasureStep(Ctl(ok), s);
      Step(Ctl(ok));
    }

    // A step of somebody else.
    method Other(l: Label)
      requires Valid() && Enabled(l, s) && ByOthers(l)
      modifies this`s, this`run
      ensures Valid() && Undisturbed(old(s), s) && (l.ByHost() ==> Measure(s) < old(Measure(s)))
    {
      InvRun(init, run);
      MeasureStep(l, s);
      OthersLeave(l, s);
      Step(l);
    }

    // Anything the other goroutines and processes do meanwhile.
    method Others()
      requires Valid()
      modifies this`s, this`run
      ensures Valid() && Undisturbed(old(s), s)
    {
      var n: nat := *;
      while n > 0
        invariant Valid() && Undisturbed(old(s), s)
      {
        var l: Label := *;
        if l.Interrupt? {
          Operator();
        } else if ByOthers(l) && Enabled(l, s) {
          Other(l);
        }
        n := n - 1;
      }
    }

    lemma MutexHolder()
      requires Valid() && Locking(s.ctl.at) && !s.host.mu.Free?
      ensures s.host.mu.ByChild? && Enabled(ChildStep(s.host.mu.i), s)
    {
      InvRun(init, run);
    }

    // r.mu.Lock(): a child that holds the mutex gives it up after one step.
    method Lock()
      requires Valid() && Locking(s.ctl.at)
      modifies this`s, this`run
      ensures Valid() && Undisturbed(old(s), s.(ctl := old(s.ctl)))
      ensures s.ctl == old(s.ctl).(at := WithMutex(old(s.ctl.at)))
    {
      Others();
      while !s.host.mu.Free?
        invariant Valid() && Undisturbed(old(s), s)
        decreases Measure(s)
      {
        MutexHolder();
        Other(ChildStep(s.host.mu.i));
        Others();
      }
      TakesMutex(s);
      Go(true);
    }

    // The child that control waits for can move unless the mutex is held by another.
    lemma WaitedFor()
      requires Valid() && (s.ctl.at.Wait? || s.ctl.at.AllWait?)
      ensures s.ctl.at.c < |s.host.procs|
      ensures var c := s.host.procs[s.ctl.at.c];
              !Done(c) ==>
                if c.phase.WantMap? && !s.host.mu.Free? then s.host.mu.ByChild? && Enabled(ChildStep(s.host.mu.i), s)
                else Enabled(ChildStep(s.ctl.at.c), s)
    {
      InvRun(init, run);
    }

    // <-child.done on a cancelled child.
    method Await()
      requires Valid() && (s.ctl.at.Wait? || s.ctl.at.AllWait?)
      modifies this`s, this`run
      ensures Valid() && Undisturbed(old(s), s.(ctl := old(s.ctl)))
      ensures s.ctl == old(s.ctl).(at := if old(s.ctl.at).Wait? then Next else AllNext)
    {
      Others();
      WaitedFor();
      while !Done(s.host.procs[s.ctl.at.c])
        invariant Valid() && Undisturbed(old(s), s) && s.ctl.at.c < |s.host.procs|
        decreases Measure(s)
      {
        WaitedFor();
        if s.host.procs[s.ctl.at.c].phase.WantMap? && !s.host.mu.Free? {
          Other(ChildStep(s.host.mu.i));
        } else {
          Other(ChildStep(s.ctl.at.c));
        }
        Others();
      }
      StopsWaiting(s);
      Go(true);
    }

    // A key outside the map has no running child, unless control is stopping one.
    lemma NotRunning(k: Key)
      requires Valid() && s.ctl.at.Next? && k !in s.host.children
      ensures forall i :: 0 <= i < |s.host.procs| && s.host.procs[i].key == k ==> !Listed(s.host.procs[i])
    {
      InvRun(init, run);
    }

    lemma Cancellable()
      requires Valid() && s.ctl.at.Cancel?
      ensures CtlEnabled(s)
    {
      InvRun(init, run);
    }

    // stop: takes the child out of the map, cancels it and waits for its end.
    method Stop(k: Key)
      requires Valid() && s.ctl.at == StopWant(k)
      modifies this`s, this`run
      ensures Valid() && s.ctl == old(s.ctl).(at := Next)
      ensures k !in s.host.children
      ensures forall i :: 0 <= i < |s.host.procs| && s.host.procs[i].key == k ==> !Listed(s.host.procs[i])
    {
      Lock();
      var found := k in s.host.children;
      Go(true);
      if found {
        CancelAndAwait();
      }
      NotRunning(k);
    }

    method CancelAndAwait()
      requires Valid() && s.ctl.at.Cancel?
      modifies this`s, this`run
      ensures Valid() && s.ctl == old(s.ctl).(at := Next)
      ensures forall k :: k in s.host.children ==> k in old(s.host.children)
    {
      Others();
      Cancellable();
      Go(true);
      Await();
    }

    // ensure: provisions and starts a child, unless one is in the map or an operation
    // fails.
    method Ensure(k: Key) returns (started: Option<nat>)
      requires Valid() && s.ctl.at == EnsWant(k)
      modifies this`s, this`run
      ensures Valid() && KeepsKeys(old(s.host.procs), s.host.procs)
      ensures s.ctl.failed == old(s.ctl.failed) ==> Had(s.host.procs, k)
      ensures started.Some? ==>
        && started.value == old(|s.host.procs|) < |s.host.procs| && s.host.procs[started.value].key == k
        && s.ctl == old(s.ctl).(at := Next)
      ensures started.None? ==>
        && |s.host.procs| == old(|s.host.procs|)
        && ((k in s.host.children && s.ctl == old(s.ctl).(at := Next)) || s.ctl == GaveUp(old(s.ctl)))
    {
      Lock();
      var running := k in s.host.children;
      Go(true);
      if running {
        InvRun(init, run);
        return None;
      }
      var ready := Provide(k);
      if !ready {
        return None;
      }
      started := Insert(k);
    }

    // From loading the profile to the reachable database: the lock file is opened,
    // then locked, and control goes on exactly when everything succeeded.
    method Provide(k: Key) returns (ready: bool)
      requires Valid() && s.ctl.at == Prepare(k)
      modifies this`s, this`run
      ensures Valid() && |s.host.procs| == old(|s.host.procs|) && KeepsKeys(old(s.host.procs), s.host.procs)
      ensures !ready ==> s.ctl == GaveUp(old(s.ctl))
      ensures ready ==> s.ctl.at.InsWant? && s.ctl.at.k == k && s.ctl == old(s.ctl).(at := s.ctl.at)
    {
      Others();
      ready := *;
      Go(ready);
      if ready {
        ready := LockProfile(k);
      }
      if ready {
        Others();
        ready := *;
        Go(ready);
      }
    }

    // The flock call of LockProfile: it never waits.
    method LockProfile(k: Key) returns (locked: bool)
      requires Valid() && s.ctl.at.Flock? && s.ctl.at.k == k
      modifies this`s, this`run
      ensures Valid() && |s.host.procs| == old(|s.host.procs|) && KeepsKeys(old(s.host.procs), s.host.procs)
      ensures s.ctl ==
              if locked then old(s.ctl).(at := Provision(k, old(s.ctl.at.file))) else GaveUp(old(s.ctl))
      ensures locked ==> old(s.ctl.at.file) in s.disk.locks && s.disk.locks[old(s.ctl.at.file)].Ensuring?
    {
      Others();
      locked := *;
      locked := locked && s.ctl.at.file !in s.disk.locks;
      Go(locked);
    }

    // The child enters the map before its goroutine starts.
    method Insert(k: Key) returns (started: Option<nat>)
      requires Valid() && s.ctl.at.InsWant? && s.ctl.at.k == k
      modifies this`s, this`run
      ensures Valid() && s.ctl == old(s.ctl).(at := Next) && KeepsKeys(old(s.host.procs), s.host.procs)
      ensures started == Some(old(|s.host.procs|)) && started.value < |s.host.procs| &&
          s.host.procs[started.value].key == k
    {
      Lock();
      started := Some(|s.host.procs|);
      Go(true);
      Others();
      Go(true);
    }

    // The range over the children map: every child that is no longer wanted.
    method StaleChildren() returns (stale: seq<Key>)
      requires Valid() && s.ctl.at.ListHold?
      ensures Enabled(Stale(stale), s)
    {
      stale := [];
      var todo := s.host.children.Keys;
      while todo != {}
        invariant todo <= s.host.children.Keys
        invariant forall k :: k in stale <==> k in s.host.children && k !in todo && k !in s.ctl.wanted
        invariant forall i, j :: 0 <= i < j < |stale| ==> stale[i] != stale[j]
        decreases |todo|
      {
        var k :| k in todo;
        todo := todo - {k};
        if k !in s.ctl.wanted {
          stale := stale + [k];
        }
      }
    }

    // reconcile: afterwards the running children are among the listed ones, and unless
    // an operation failed every listed one has had its child.
    method Reconcile(regs: seq<Key>)
      requires Valid() && s.ctl.at.Recv? && !s.ctl.denied
      modifies this`s, this`run
      ensures Valid() && s.ctl.at.Recv? && !s.ctl.denied && s.ctl.wanted == (set k | k in regs)
      ensures forall i :: 0 <= i < |s.host.procs| && Listed(s.host.procs[i]) ==> s.host.procs[i].key in regs
      ensures s.ctl.failed == old(s.ctl.failed) ==> forall k :: k in regs ==> Had(s.host.procs, k)
    {
      Step(Assigned(regs));
      Lock();
      var stale := StaleChildren();
      Step(Stale(stale));
      for i := 0 to |stale|
        invariant Valid() && s.ctl == Control(Next, stale[i..], regs, [], set k | k in regs, false, old(s.ctl.failed))
      {
        Go(true);
        Stop(stale[i]);
      }
      EnsureAll(regs);
      Go(true);
      RunningNow();
    }

    method EnsureAll(regs: seq<Key>)
      requires Valid() && s.ctl.at.Next? && s.ctl.stops == [] && s.ctl.regs == regs
      modifies this`s, this`run
      ensures Valid() && old(s.ctl.failed) <= s.ctl.failed
      ensures s.ctl == old(s.ctl).(regs := [], failed := s.ctl.failed)
      ensures s.ctl.failed == old(s.ctl.failed) ==> forall k :: k in regs ==> Had(s.host.procs, k)
    {
      for i := 0 to |regs|
        invariant Valid() && old(s.ctl.failed) <= s.ctl.failed
        invariant s.ctl == old(s.ctl).(regs := regs[i..], failed := s.ctl.failed)
        invariant s.ctl.failed == old(s.ctl.failed) ==> forall j :: 0 <= j < i ==> Had(s.host.procs, regs[j])
      {
        Go(true);
        ghost var was := s.host.procs;
        var started := Ensure(regs[i]);
        StillHad(was, s.host.procs);
      }
    }

    lemma RunningNow()
      requires Valid() && s.ctl.at.Recv?
      ensures forall i :: 0 <= i < |s.host.procs| && Listed(s.host.procs[i]) ==>
                var k := s.host.procs[i].key;
                k in s.ctl.wanted && k in s.host.children && s.host.children[k] == i && !s.host.procs[i].cancelled
    {
      forall i | 0 <= i < |s.host.procs| && Listed(s.host.procs[i])
        ensures var k := s.host.procs[i].key;
                k in s.ctl.wanted && k in s.host.children && s.host.children[k] == i && !s.host.procs[i].cancelled
      {
        RunningAreAssigned(init, run, i);
      }
    }

    // The frame cases of connectAndPump.
    method Handle(f: ControlFrame)
      requires Valid() && s.ctl.at.Recv? && !s.ctl.denied
      modifies this`s, this`run
      ensures Valid() && s.ctl.at.Recv? && !s.ctl.denied
      ensures s.ctl.wanted ==
              match f
              case HostAssigned(regs) => set k | k in regs
              case RegistrationAssigned(k) => old(s.ctl.wanted) + {k}
              case RegistrationRevoked(k) => old(s.ctl.wanted) - {k}
              case Pong => old(s.ctl.wanted)
    {
      match f
      case HostAssigned(regs) =>
        Reconcile(regs);
      case RegistrationAssigned(k) =>
        Step(Added(k));
        var started := Ensure(k);
        Go(true);
      case RegistrationRevoked(k) =>
        Step(Revoked(k));
        Stop(k);
        Go(true);
      case Pong =>
    }

    method RecvHost() returns (r: Received)
      requires Valid() && s.ctl.at.Recv?
      modifies this`s, this`run, this`patience
      ensures Valid() && s.ctl == old(s.ctl)
      ensures r.Frame? ==> patience < old(patience)
      ensures patience <= old(patience)
    {
      Others();
      var f: ControlFrame := *;
      var closed := *;
      if closed || s.interrupted || patience == 0 {
        return Closed;
      }
      patience := patience - 1;
      return Frame(f);
    }

    // auth.HostExchange: the server grants access, refuses the credential, or does not
    // answer.
    method HostExchange() returns (out: Access)
      requires Valid() && s.ctl.at.Recv? && !s.ctl.denied
      modifies this`s, this`run
      ensures Valid() && s.ctl == old(s.ctl).(denied := out.Refused?)
    {
      out := *;
      if out.Refused? {
        Step(Denied);
      }
    }

    // One control connection; a refused credential is permanent, anything else that
    // ends it is not.
    method ConnectAndPump() returns (connected: bool, ending: Ending)
      requires Valid() && s.ctl.at.Recv? && !s.ctl.denied
      modifies this`s, this`run, this`patience
      ensures Valid() && s.ctl.at.Recv? && patience <= old(patience)
      ensures ending.Permanent? <==> s.ctl.denied
      ensures ending.Canceled? ==> s.interrupted
    {
      var access := HostExchange();
      if access.Refused? {
        return false, Permanent;
      }
      var dialed := *;
      if access.Failed? || !dialed {
        return false, Disconnected;
      }
      while true
        invariant Valid() && s.ctl.at.Recv? && !s.ctl.denied && patience <= old(patience)
        decreases patience
      {
        var r := RecvHost();
        if r.Closed? {
          return true, if s.interrupted then Canceled else Disconnected;
        }
        Handle(r.frame);
      }
    }

    // runForever: a lost control connection is dialled again and no child notices.
    method RunForever() returns (ending: Ending)
      requires Valid() && s.ctl.at.Recv? && !s.ctl.denied
      modifies this`s, this`run, this`patience
      ensures Valid() && s.ctl.at.Recv? && !ending.Disconnected?
      ensures ending.Permanent? <==> s.ctl.denied
      ensures ending.Canceled? ==> s.interrupted
    {
      while true
        invariant Valid() && s.ctl.at.Recv? && !s.ctl.denied
        decreases patience
      {
        Operator();
        if s.interrupted {
          return Canceled;
        }
        patience := patience - 1;
        var connected;
        connected, ending := ConnectAndPump();
        if !ending.Disconnected? {
          return;
        }
        Others();
        if !s.interrupted {
          Step(Redial);
        }
      }
    }

    lemma NextInList()
      requires Valid() && s.ctl.at.AllNext?
      ensures CtlEnabled(s)
    {
      InvRun(init, run);
      if |s.ctl.list| > 0 {
        assert s.ctl.list[0] in s.ctl.list;
      }
    }

    // stopAll: empties the map, then cancels the children one by one.
    method StopAll()
      requires Valid() && s.ctl.at.AllWant?
      modifies this`s, this`run
      ensures Valid() && s.ctl.at.Joining? && s.ctl.denied == old(s.ctl.denied)
      ensures forall i :: 0 <= i < |s.host.procs| ==> !Listed(s.host.procs[i])
    {
      Lock();
      var list := ListAll();
      Step(StopList(list));
      for i := 0 to |list|
        invariant Valid() && s.ctl.at.AllNext? && s.ctl.list == list[i..] && s.ctl.denied == old(s.ctl.denied)
      {
        StopNext();
      }
      Go(true);
      NoneListed();
    }

    method StopNext()
      requires Valid() && s.ctl.at.AllNext? && |s.ctl.list| > 0
      modifies this`s, this`run
      ensures Valid() && s.ctl == old(s.ctl).(list := old(s.ctl.list)[1..])
    {
      NextInList();
      Go(true);
      Await();
    }

    lemma NoneListed()
      requires Valid() && s.ctl.at.Joining?
      ensures forall i :: 0 <= i < |s.host.procs| ==> !Listed(s.host.procs[i])
    {
      InvRun(init, run);
    }

    method ListAll() returns (list: seq<nat>)
      requires Valid() && s.ctl.at.AllHold?
      ensures Enabled(StopList(list), s)
    {
      InvRun(init, run);
      list := [];
      var todo := s.host.children.Keys;
      while todo != {}
        invariant todo <= s.host.children.Keys && |list| + |todo| == |s.host.children.Keys|
        invariant forall k :: k in s.host.children && k !in todo ==> s.host.children[k] in list
        invariant forall c :: c in list ==>
            c < |s.host.procs| && s.host.procs[c].key in s.host.children && s.host.children[s.host.procs[c].key] == c
        decreases |todo|
      {
        var k :| k in todo;
        todo := todo - {k};
        list := list + [s.host.children[k]];
      }
      assert |s.host.children| == |s.host.children.Keys|;
    }

    // wg.Wait().
    method Join()
      requires Valid() && s.ctl.at.Joining?
      modifies this`s, this`run
      ensures Valid() && s.ctl.at.Exited? && AllGone(s.host.procs) && !s.hostLocked
      ensures s.ctl.denied == old(s.ctl.denied)
    {
      Others();
      while !AllGone(s.host.procs)
        invariant Valid() && s.ctl.at.Joining? && s.ctl.denied == old(s.ctl.denied)
        decreases Measure(s)
      {
        var i: nat :| i < |s.host.procs| && !s.host.procs[i].phase.Gone?;
        NoneListed();
        Other(ChildStep(i));
        Others();
      }
      Go(true);
    }

    // cmdHostRun after the host lock is taken: whatever happens, it ends with every
    // child finished, and with the host lock given up after that. It fails exactly
    // when the server has refused the host's credential, and else was interrupted.
    method HostRun() returns (code: nat)
      requires Valid() && s.ctl.at.Recv? && !s.ctl.denied
      modifies this`s, this`run, this`patience
      ensures Valid() && s.ctl.at.Exited? && AllGone(s.host.procs) && !s.hostLocked
      ensures code == (if s.ctl.denied then 1 else 0) && (code == 0 ==> s.interrupted)
    {
      var ending := RunForever();
      Step(Quit);
      StopAll();
      Join();
      QuitsWhenTold(init, run);
      code := if ending.Permanent? then 1 else 0;
    }
  }
}

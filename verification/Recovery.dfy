/**
 * From every reachable state a profile can recover: the process restarts, the
 * server asks for a snapshot, and one window brings the rest. Only a delta that the
 * database always refuses stands in the way.
 */
module Recovery {
  import opened Wrappers
  import opened ServerLog
  import opened DataPlane
  import opened ClientOrder
  import opened Drain

  // Every delta is acked, no snapshot is outstanding, and the replica is the truth.
  ghost predicate Recovered(s: State) {
    && s.srv.acked <= |s.srv.log| && (forall i :: s.srv.acked <= i < |s.srv.log| ==> s.srv.log[i].silent)
    && !s.srv.flag && s.db == Truth(s.srv.log)
  }

  // Connected, bootstrapped, with nothing under way.
  predicate Idle(s: State) {
    s.net == Net(true, [], []) && s.cl == Client(AtRecv, true, false, true) && s.srv.sent == s.srv.leased == s.srv.acked
  }

  // The run leads from s0 to t, and the log and the acked cursor are as they were at s.
  ghost predicate Leads(mode: Mode, s0: State, run: seq<Label>, s: State, t: State) {
    Trace(mode, s0, run) == Some(t) && t.srv.log == s.srv.log && t.srv.acked == s.srv.acked
  }

  // === A fresh connection ====================================================

  lemma Ends(mode: Mode, s: State) returns (run: seq<Label>, t: State)
    requires OrderInv(s)
    ensures Leads(mode, s, run, s, t) && OrderInv(t) && t.cl.pc.Down? && t.cl.saved == s.cl.saved
  {
    run, t := [], s;
    if !s.cl.pc.Down? {
      OrderStep(mode, Crash, s);
      run := Extend(mode, s, run, s, Crash);
      t := Do(mode, Crash, s);
    }
  }

  lemma Restarts(mode: Mode, s: State) returns (run: seq<Label>, t: State)
    requires OrderInv(s)
    ensures Leads(mode, s, run, s, t) && t.net == CLOSED && t.cl == Client(Top, s.cl.saved, false, s.cl.saved)
  {
    var down: State;
    run, down := Ends(mode, s);
    run := Extend(mode, s, run, down, Start(false, true));
    t := Do(mode, Start(false, true), down);
  }

  lemma FirstBootstrap(mode: Mode, s: State, before: seq<Label>, t: State) returns (run: seq<Label>, u: State)
    requires Leads(mode, s, before, s, t) && t.net == CLOSED && t.cl == Client(Fetching(FirstRun), false, false, false)
    ensures Leads(mode, s, run, s, u) && u.net == CLOSED && u.cl == Client(Dialing, true, false, true)
  {
    run := Extend(mode, s, before, t, Fetch(Fetched));
    u := Do(mode, Fetch(Fetched), t);
    run := Extend(mode, s, run, u, Restore(Restored));
    u := Do(mode, Restore(Restored), u);
    run := Extend(mode, s, run, u, SetFlag(true));
    u := Do(mode, SetFlag(true), u);
  }

  lemma Connects(mode: Mode, s: State) returns (run: seq<Label>, t: State)
    requires OrderInv(s)
    ensures Leads(mode, s, run, s, t) && Idle(t)
  {
    run, t := Restarts(mode, s);
    run := Extend(mode, s, run, t, Exchange(Granted(false)));
    t := Do(mode, Exchange(Granted(false)), t);
    if !s.cl.saved {
      run, t := FirstBootstrap(mode, s, run, t);
    }
    run := Extend(mode, s, run, t, Dial(true));
    t := Do(mode, Dial(true), t);
  }

  // === A snapshot ============================================================

  const ASK := Batch(0, 0, true)

  lemma AskedFor(mode: Mode, s: State, before: seq<Label>, t: State) returns (run: seq<Label>, u: State)
    requires Leads(mode, s, before, s, t) && Idle(t)
    ensures Leads(mode, s, run, s, u) && u.net == Net(true, [], [])
    ensures u.srv == t.srv.(flag := true) && u.cl == Client(Fetching(ForFrame(ASK)), true, false, true)
  {
    run := Extend(mode, s, before, t, RaiseFlag);
    var t1 := t.(srv := t.srv.(flag := true));
    run := Extend(mode, s, run, t1, SendRequired);
    var t2 := t1.(net := Net(true, [ASK], []));
    assert [] + [ASK] == [ASK];
    run := Extend(mode, s, run, t2, Recv);
    assert [ASK][1..] == [];
    var t3 := t1.(cl := Client(Got(ASK), true, false, true));
    run := Extend(mode, s, run, t3, Route);
    u := Do(mode, Route, t3);
  }

  lemma Applied(mode: Mode, s: State, before: seq<Label>, t: State) returns (run: seq<Label>, u: State)
    requires Leads(mode, s, before, s, t) && t.net == Net(true, [], []) && t.srv.sent == t.srv.leased == t.srv.acked
    requires t.cl == Client(Fetching(ForFrame(ASK)), true, false, true)
    ensures Leads(mode, s, run, s, u) && Idle(u) && u.past.seeded && |u.srv.log| <= u.past.covered
  {
    run := Extend(mode, s, before, t, Fetch(Fetched));
    u := Do(mode, Fetch(Fetched), t);
    run := Extend(mode, s, run, u, Restore(Restored));
    u := Do(mode, Restore(Restored), u);
    run := Extend(mode, s, run, u, SetFlag(true));
    u := Do(mode, SetFlag(true), u);
  }

  lemma Snapshot(mode: Mode, s: State, before: seq<Label>, t: State) returns (run: seq<Label>, u: State)
    requires Leads(mode, s, before, s, t) && Idle(t)
    ensures Leads(mode, s, run, s, u) && Idle(u) && u.past.seeded && !u.srv.flag
  {
    run, u := AskedFor(mode, s, before, t);
    run, u := Applied(mode, s, run, u);
    run := Extend(mode, s, run, u, ClearFlag);
    u := Do(mode, ClearFlag, u);
  }

  // === The rest of the deltas ================================================

  // The end of the last delta in [from, end), or `from` when there is none.
  function LastDelta(log: seq<Entry>, from: nat, end: nat): (last: nat)
    requires from <= end <= |log|
    ensures from <= last <= end && (from < last ==> !log[last - 1].silent)
    ensures forall i :: last <= i < end ==> log[i].silent
  {
    if from == end || !log[end - 1].silent then end else LastDelta(log, from, end - 1)
  }

  lemma Window(mode: Mode, s: State, before: seq<Label>, t: State, to: nat) returns (run: seq<Label>, u: State)
    requires Leads(mode, s, before, s, t) && Idle(t) && !t.srv.flag
    requires t.srv.acked < to <= |t.srv.log| && !t.srv.log[to - 1].silent
    ensures Leads(mode, s, run, s, u) && u.srv == t.srv.(sent := to, leased := to) && u.net == Net(true, [], [])
    ensures u.cl == Client(Applying(t.srv.acked, to), true, false, true) && u.past.seeded == t.past.seeded
  {
    var f := Batch(t.srv.acked, to, false);
    run := Extend(mode, s, before, t, SendWindow(to));
    var t1 := t.(srv := t.srv.(sent := to, leased := to), net := Net(true, [f], []));
    assert [] + [f] == [f];
    run := Extend(mode, s, run, t1, Recv);
    assert [f][1..] == [];
    var t2 := t1.(net := Net(true, [], []), cl := Client(Got(f), true, false, true));
    run := Extend(mode, s, run, t2, Route);
    u := Do(mode, Route, t2);
  }

  lemma Acked(mode: Mode, s: State, before: seq<Label>, t: State, to: nat) returns (run: seq<Label>, u: State)
    requires Leads(mode, s, before, s, t) && t.net == Net(true, [], []) && t.srv.acked < to <= |t.srv.log|
    requires t.cl == Client(Applying(t.srv.acked, to), true, false, true)
    requires forall p :: t.srv.acked <= p < to && p in mode.poison ==> t.srv.log[p].silent
    ensures Trace(mode, s, run) == Some(u) && u.srv == t.srv.(acked := to) && u.past.seeded == t.past.seeded
  {
    run := Extend(mode, s, before, t, RunBatch(Committed));
    var t1 := Do(mode, RunBatch(Committed), t);
    run := Extend(mode, s, run, t1, SendAck(Sent));
    var t2 := Do(mode, SendAck(Sent), t1);
    assert t2.net.acks == [to];
    run := Extend(mode, s, run, t2, TakeAck);
    u := Do(mode, TakeAck, t2);
  }

  // === Main results ==========================================================

  // No delta in the log is one that the database always refuses.
  ghost predicate NoPoison(mode: Mode, s: State) {
    forall p: nat :: !Poisoned(mode, s.srv.log, p)
  }

  lemma Recovers(mode: Mode, s: State) returns (more: seq<Label>, t: State)
    requires OrderInv(s) && NoPoison(mode, s) && s.srv.acked <= |s.srv.log|
    ensures Trace(mode, s, more) == Some(t) && t.srv.log == s.srv.log && t.past.seeded && !t.srv.flag
    ensures t.srv.acked <= |t.srv.log| && forall i :: t.srv.acked <= i < |t.srv.log| ==> t.srv.log[i].silent
  {
    more, t := Connects(mode, s);
    more, t := Snapshot(mode, s, more, t);
    var to := LastDelta(t.srv.log, t.srv.acked, |t.srv.log|);
    if t.srv.acked < to {
      more, t := Window(mode, s, more, t, to);
      forall p | t.srv.acked <= p < to && p in mode.poison
        ensures t.srv.log[p].silent
      {
        assert !Poisoned(mode, s.srv.log, p);
      }
      more, t := Acked(mode, s, more, t, to);
    }
  }

  lemma {:induction false} NothingFed(log: seq<Entry>)
    requires forall i :: 0 <= i < |log| ==> log[i].silent
    ensures Fed(log) == []
  {
    if log != [] {
      NothingFed(log[..|log| - 1]);
    }
  }

  lemma PoisonStays(mode: Mode, s0: State, run: seq<Label>, more: seq<Label>, p: nat)
    requires Init(mode, s0) && Legal(mode, s0, run) && Legal(mode, s0, run + more) && mode.strict
    requires Poisoned(mode, After(mode, s0, run).srv.log, p)
    ensures !Recovered(After(mode, s0, run + more))
  {
    Continues(mode, s0, run, After(mode, s0, run), more);
    LogOnlyGrows(mode, After(mode, s0, run), more);
    PoisonNeverSkipped(mode, s0, run + more, p);
  }

  // A run goes on to a recovered state if and only if its log holds no delta that the
  // database always refuses.
  lemma CanRecoverExactly(mode: Mode, s0: State, run: seq<Label>)
    requires Init(mode, s0) && Legal(mode, s0, run) && mode.strict && mode.steady && !mode.hasty
    ensures (exists more :: Legal(mode, s0, run + more) && Recovered(After(mode, s0, run + more))) <==>
            NoPoison(mode, After(mode, s0, run))
  {
    var s := After(mode, s0, run);
    StrictRun(mode, s0, run);
    if NoPoison(mode, s) {
      var more, t := Recovers(mode, s);
      Continues(mode, s0, run, s, more);
      StrictRun(mode, s0, run + more);
      SoundConverges(mode, t);
      NothingFed(t.srv.log[t.srv.acked..]);
    } else {
      var p: nat :| Poisoned(mode, s.srv.log, p);
      forall more | Legal(mode, s0, run + more)
        ensures !Recovered(After(mode, s0, run + more))
      {
        PoisonStays(mode, s0, run, more, p);
      }
    }
  }

  lemma {:induction false} LogOnlyGrows(mode: Mode, s: State, run: seq<Label>)
    requires Legal(mode, s, run)
    ensures s.srv.log <= After(mode, s, run).srv.log
  {
    if run != [] {
      var m := |run| - 1;
      PrefixLegal(mode, s, run, m);
      LogOnlyGrows(mode, s, run[..m]);
      LogGrows(mode, run[m], After(mode, s, run[..m]));
    }
  }
}

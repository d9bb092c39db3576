/**
 * The strong server assumptions behind convergence cannot be dropped: concrete runs
 * in which a bootstrapped replica with no snapshot outstanding stays wrong.
 */
module Necessity {
  import opened Wrappers
  import opened Replica
  import opened ServerLog
  import opened DataPlane

  const STRAY := RowId("customers", "1")
  const OTHER := RowId("customers", "2")

  // What a log of one entry amounts to.
  lemma OneEntry(e: Entry)
    ensures Script([e]) == e.sql && Fed([e]) == if e.silent then [] else e.sql
  {
    assert [e][..0] == [];
    assert Script([]) == [] && Fed([]) == [];
    assert [] + e.sql == e.sql;
  }

  // A freshly paired profile over an empty log.
  function Fresh(): State {
    State(Server([], 0, 0, 0, false), CLOSED, EMPTY, Client(Down, false, false, false),
          History(0, 0, 0, [], 0, false, false))
  }

  // Bootstrapped and connected.
  function Connected(log: seq<Entry>): State {
    State(Server(log, 0, 0, 0, |log| > 0), Net(true, [], []), EMPTY, Client(AtRecv, true, false, true),
          History(0, 0, 0, [], 0, true, false))
  }

  lemma FreshIsInit(mode: Mode)
    ensures Init(mode, Fresh()) && Truth([]) == EMPTY && Fed([]) == []
  {
    assert Script([]) == [];
  }

  lemma FreshFetches(mode: Mode) returns (run: seq<Label>)
    ensures Trace(mode, Fresh(), run) == Some(Fresh().(cl := Client(Holding(0, FirstRun), false, false, false)))
  {
    var s0 := Fresh();
    run := Extend(mode, s0, [], s0, Start(false, true));
    var s1 := s0.(cl := Client(Top, false, false, false));
    run := Extend(mode, s0, run, s1, Exchange(Granted(false)));
    var s2 := s0.(cl := Client(Fetching(FirstRun), false, false, false));
    run := Extend(mode, s0, run, s2, Fetch(Fetched));
  }

  lemma FreshConnects(mode: Mode) returns (run: seq<Label>)
    ensures Trace(mode, Fresh(), run) == Some(Connected([]))
  {
    var s0 := Fresh();
    run := FreshFetches(mode);
    FreshIsInit(mode);
    var s3 := s0.(cl := Client(Holding(0, FirstRun), false, false, false));
    var s4 := s0.(cl := Client(Flagging(FirstRun), false, false, false), past := s0.past.(seeded := true));
    RestoresNothing(mode, s3, s4);
    run := Extend(mode, s0, run, s3, Restore(Restored));
    run := Extend(mode, s0, run, s4, SetFlag(true));
    var s5 := s4.(cl := Client(Dialing, true, false, true));
    run := Extend(mode, s0, run, s5, Dial(true));
  }

  lemma RestoresNothing(mode: Mode, s: State, t: State)
    requires s == Fresh().(cl := Client(Holding(0, FirstRun), false, false, false))
    requires t == Fresh().(cl := Client(Flagging(FirstRun), false, false, false), past := Fresh().past.(seeded := true))
    ensures Enabled(mode, Restore(Restored), s) && Do(mode, Restore(Restored), s) == t
  {
    FreshIsInit(mode);
    assert s.srv.log[..0] == [];
    assert ServerLog.Restore(EMPTY, EMPTY) == EMPTY;
  }

  // A silent write, and the frame that asks for a snapshot.
  lemma AskedForSnapshot(mode: Mode, e: Entry, before: seq<Label>) returns (run: seq<Label>)
    requires e.silent && WellFormed([e]) && Trace(mode, Fresh(), before) == Some(Connected([]))
    ensures Trace(mode, Fresh(), run) ==
            Some(Connected([e]).(cl := Client(Holding(1, ForFrame(Batch(0, 0, true))), true, false, true)))
  {
    var s0 := Fresh();
    var f := Batch(0, 0, true);
    assert [] + [e] == [e];
    run := Extend(mode, s0, before, Connected([]), SilentWrite(e));
    run := Extend(mode, s0, run, Connected([e]), SendRequired);
    var s1 := Connected([e]).(net := Net(true, [f], []));
    assert [] + [f] == [f];
    run := Extend(mode, s0, run, s1, Recv);
    assert [f][1..] == [];
    var s2 := Connected([e]).(cl := Client(Got(f), true, false, true));
    run := Extend(mode, s0, run, s2, Route);
    var s3 := Connected([e]).(cl := Client(Fetching(ForFrame(f)), true, false, true));
    run := Extend(mode, s0, run, s3, Fetch(Fetched));
  }

  lemma FlagDownThenFailure(mode: Mode, e: Entry, before: seq<Label>) returns (run: seq<Label>)
    requires mode.hasty
    requires Trace(mode, Fresh(), before) ==
             Some(Connected([e]).(cl := Client(Holding(1, ForFrame(Batch(0, 0, true))), true, false, true)))
    ensures Trace(mode, Fresh(), run) ==
            Some(Connected([e]).(srv := Server([e], 0, 0, 0, false), net := CLOSED, cl :=
                Client(Top, true, false, true)))
  {
    var s1 := Connected([e]).(cl := Client(Holding(1, ForFrame(Batch(0, 0, true))), true, false, true));
    run := Extend(mode, Fresh(), before, s1, ClearFlag);
    var s2 := s1.(srv := Server([e], 0, 0, 0, false));
    run := Extend(mode, Fresh(), run, s2, Restore(NotApplied));
  }

  // If the server took the flag down on the fetch, a snapshot that then fails to
  // apply would never be asked for again: the replica misses the row while the
  // server waits for nothing.
  lemma ClearedOnFetchLosesRow(mode: Mode)
    requires mode.hasty
    ensures exists s0, run :: Init(mode, s0) && Legal(mode, s0, run) && LeftBehind(After(mode, s0, run))
  {
    var e := Entry([Upsert(STRAY, 1, "new")], true);
    SilentUpsert(e);
    FreshIsInit(mode);
    var run := FreshConnects(mode);
    run := AskedForSnapshot(mode, e, run);
    run := FlagDownThenFailure(mode, e, run);
    var s := Connected([e]).(srv := Server([e], 0, 0, 0, false), net := CLOSED, cl := Client(Top, true, false, true));
    assert After(mode, Fresh(), run) == s;
    assert s.srv.log[0..] == [e];
  }

  // Bootstrapped, no snapshot outstanding, and yet the rest of the log does not
  // bring the replica to the truth.
  ghost predicate LeftBehind(s: State) {
    && s.cl.boot && s.cl.saved && s.past.seeded && !s.srv.flag && s.srv.acked <= |s.srv.log|
    && Run(s.db, Fed(s.srv.log[s.srv.acked..])) != Truth(s.srv.log)
  }

  lemma SilentUpsert(e: Entry)
    requires e == Entry([Upsert(STRAY, 1, "new")], true)
    ensures WellFormed([e]) && Fed([e]) == [] && Truth([e]) != EMPTY
  {
    OneEntry(e);
    var script := e.sql;
    assert script[..0] == [];
    assert Run(EMPTY, script) == Exec(Run(EMPTY, []), script[0]);
    assert STRAY in Truth([e]).rows;
  }

  // === Leasing ahead of the ack ==============================================

  const WROTE := Upsert(STRAY, 1, "old")
  const DROPPED := Delete(STRAY, 2)
  const ADDED := Upsert(OTHER, 1, "other")

  // The row was fed before the pairing; its delete and another row come after it.
  function ThreeEntries(): seq<Entry> {
    [Entry([WROTE], false), Entry([DROPPED], false), Entry([ADDED], false)]
  }

  lemma ThreeEntriesTruth()
    ensures Script(ThreeEntries()) == [WROTE, DROPPED, ADDED]
    ensures Truth(ThreeEntries()) == Tables({}, map[OTHER := Version(1, "other")])
    ensures WellFormed(ThreeEntries())
  {
    var log := ThreeEntries();
    assert log[..2] == [log[0], log[1]] && log[..2][..1] == [log[0]] && [log[0]][..0] == [];
    assert Script([log[0]]) == [WROTE];
    assert Script(log[..2]) == [WROTE, DROPPED];
    RevisionsAscend();
    RunThree();
  }

  lemma RunThree()
    ensures Run(EMPTY, [WROTE, DROPPED, ADDED]) == Tables({}, map[OTHER := Version(1, "other")])
  {
    var script := [WROTE, DROPPED, ADDED];
    assert script[..2] == [WROTE, DROPPED] && script[..2][..1] == [WROTE] && [WROTE][..0] == [];
    assert Run(EMPTY, [WROTE]) == Tables({}, map[STRAY := Version(1, "old")]);
    assert Run(EMPTY, script[..2]) == Tables({}, map[]);
  }

  // Half-way through a replay a deleted row can be back, so convergence is not a
  // matter of every intermediate state being right.
  lemma ReplayResurrects()
    ensures var log := ThreeEntries();
            var half := [Window(0, 1)];
            && WellFormed(log) && Redelivery(log, 0, half)
            && STRAY !in Truth(log).rows && STRAY in Replay(log, Truth(log), 0, half).rows
  {
    var log := ThreeEntries();
    ThreeEntriesTruth();
    FirstWindow(log, Truth(log));
  }

  lemma FirstWindow(log: seq<Entry>, r: Tables)
    requires log == ThreeEntries() && STRAY !in r.rows
    ensures Redelivery(log, 0, [Window(0, 1)])
    ensures STRAY in Replay(log, r, 0, [Window(0, 1)]).rows
  {
    var half := [Window(0, 1)];
    assert half[..0] == [] && half[0] == Window(0, 1) && |log| == 3;
    assert Redelivery(log, 0, []) && Reached(0, []) == 0;
    assert Redelivery(log, 0, half);
    assert log[0..1] == [Entry([WROTE], false)];
    OneEntry(Entry([WROTE], false));
    WritesStray(r);
    assert Replay(log, r, 0, half) == Run(r, [WROTE]);
  }

  lemma WritesStray(r: Tables)
    requires STRAY !in r.rows
    ensures STRAY in Run(r, [WROTE]).rows
  {
    assert [WROTE][..0] == [];
    assert Run(r, [WROTE]) == Exec(r, WROTE);
  }

  lemma StrayTouchedLater()
    ensures LastTouch(ThreeEntries(), STRAY) == 1
  {
    var log := ThreeEntries();
    assert Replica.Top(log[2].sql, STRAY) == -1 by {
      assert log[2].sql[..0] == [];
      TopOf(ADDED);
    }
    assert log[..2][1] == log[1];
    TopOf(DROPPED);
  }

  lemma TopOf(st: Statement)
    requires !st.AddColumn?
    ensures Replica.Top([st], STRAY) == if st.row == STRAY then st.revision else -1
  {
    assert [st][..0] == [];
  }

  function Stale(): Tables {
    Tables({}, map[STRAY := Version(1, "old")])
  }

  // Paired after the first entry, with the row already in the database.
  function Paired(): State {
    State(Server(ThreeEntries(), 1, 1, 1, false), CLOSED, Stale(), Client(Down, false, false, false),
          History(1, 1, 1, [], 3, false, false))
  }

  lemma PairedIsInit(mode: Mode)
    requires mode.poison == {}
    ensures Init(mode, Paired())
  {
    ThreeEntriesTruth();
    StrayTouchedLater();
    assert Script(ThreeEntries())[0] == Upsert(STRAY, 1, "old");
  }

  const FIRST := Batch(1, 2, false)
  const SECOND := Batch(2, 3, false)

  // Both windows are on the wire before anything is published.
  lemma LeasedAhead(mode: Mode) returns (run: seq<Label>)
    requires !mode.strict
    ensures Trace(mode, Paired(), run) ==
            Some(Paired().(srv := Paired().srv.(sent := 3, leased := 3), net := Net(true, [FIRST, SECOND], []),
                           cl := Client(AtRecv, false, true, false)))
  {
    var s0 := Paired();
    run := Extend(mode, s0, [], s0, Start(false, false));
    var s1 := s0.(cl := Client(Top, false, false, false));
    run := Extend(mode, s0, run, s1, Exchange(Granted(false)));
    var s2 := s0.(cl := Client(Fetching(FirstRun), false, false, false));
    run := Extend(mode, s0, run, s2, Fetch(NotPublished));
    var s3 := s0.(cl := Client(Dialing, false, true, false));
    run := Extend(mode, s0, run, s3, Dial(true));
    var s4 := s0.(net := Net(true, [], []), cl := Client(AtRecv, false, true, false));
    run := BothSent(mode, run, s4);
  }

  lemma BothSent(mode: Mode, before: seq<Label>, s: State) returns (run: seq<Label>)
    requires !mode.strict && Trace(mode, Paired(), before) == Some(s)
    requires s == Paired().(net := Net(true, [], []), cl := Client(AtRecv, false, true, false))
    ensures Trace(mode, Paired(), run) ==
        Some(s.(srv := s.srv.(sent := 3, leased := 3), net := Net(true, [FIRST, SECOND], [])))
  {
    run := Extend(mode, Paired(), before, s, SendWindow(2));
    assert [] + [FIRST] == [FIRST];
    var t := s.(srv := s.srv.(sent := 2, leased := 2), net := Net(true, [FIRST], []));
    run := Extend(mode, Paired(), run, t, SendWindow(3));
    assert [FIRST] + [SECOND] == [FIRST, SECOND];
  }

  // The first window is dropped; the second arrives once a schema is published.
  lemma FirstDropped(mode: Mode, before: seq<Label>, s: State) returns (run: seq<Label>)
    requires Trace(mode, Paired(), before) == Some(s)
    requires s == Paired().(srv := Paired().srv.(sent := 3, leased := 3), net := Net(true, [FIRST, SECOND], []),
                            cl := Client(AtRecv, false, true, false))
    ensures Trace(mode, Paired(), run) ==
            Some(s.(net := Net(true, [SECOND], []), past := s.past.(handled := 2)))
  {
    run := Extend(mode, Paired(), before, s, Recv);
    assert [FIRST, SECOND][1..] == [SECOND];
    var s1 := s.(net := Net(true, [SECOND], []), cl := Client(Got(FIRST), false, true, false));
    run := Extend(mode, Paired(), run, s1, Route);
    var s2 := s1.(cl := Client(Fetching(ForFrame(FIRST)), false, true, false));
    run := Extend(mode, Paired(), run, s2, Fetch(NotPublished));
  }

  lemma SecondFetches(mode: Mode, before: seq<Label>, s: State) returns (run: seq<Label>)
    requires Trace(mode, Paired(), before) == Some(s)
    requires s.srv.log == ThreeEntries() && s.net == Net(true, [SECOND], []) &&
        s.cl == Client(AtRecv, false, true, false)
    ensures Trace(mode, Paired(), run) ==
            Some(s.(net := Net(true, [], []), cl := Client(Holding(3, ForFrame(SECOND)), false, true, false)))
  {
    run := Extend(mode, Paired(), before, s, Recv);
    assert [SECOND][1..] == [];
    var s1 := s.(net := Net(true, [], []), cl := Client(Got(SECOND), false, true, false));
    run := Extend(mode, Paired(), run, s1, Route);
    var s2 := s1.(cl := Client(Fetching(ForFrame(SECOND)), false, true, false));
    run := Extend(mode, Paired(), run, s2, Fetch(Fetched));
  }

  // The snapshot commits, then the second window, then its ack.
  lemma SecondAcked(mode: Mode, before: seq<Label>, s: State) returns (run: seq<Label>, t: State)
    requires mode.poison == {} && Trace(mode, Paired(), before) == Some(s)
    requires s.srv.log == ThreeEntries() && s.net == Net(true, [], []) && STRAY in s.db.rows
    requires s.cl == Client(Holding(3, ForFrame(SECOND)), false, true, false) && !s.srv.flag
    ensures Trace(mode, Paired(), run) == Some(t)
    ensures t.srv.acked == 3 && t.srv.log == ThreeEntries() && !t.srv.flag && STRAY in t.db.rows
    ensures t.cl == Client(AtRecv, true, false, true) && t.past.seeded
  {
    run := Extend(mode, Paired(), before, s, Restore(Restored));
    var s1 := Do(mode, Restore(Restored), s);
    assert STRAY in s1.db.rows;
    run := Extend(mode, Paired(), run, s1, SetFlag(true));
    run, t := BatchAcked(mode, run, s1.(cl := Client(Applying(2, 3), true, false, true)));
  }

  lemma BatchRuns(mode: Mode, before: seq<Label>, s: State) returns (run: seq<Label>, t: State)
    requires mode.poison == {} && Trace(mode, Paired(), before) == Some(s)
    requires s.srv.log == ThreeEntries() && s.net == Net(true, [], []) && STRAY in s.db.rows
    requires s.cl == Client(Applying(2, 3), true, false, true)
    ensures Trace(mode, Paired(), run) == Some(t)
    ensures t.srv == s.srv && t.net == s.net && STRAY in t.db.rows
    ensures t.cl == Client(Acking(3), true, false, true) && t.past.seeded == s.past.seeded
  {
    run := Extend(mode, Paired(), before, s, RunBatch(Committed));
    t := Do(mode, RunBatch(Committed), s);
    KeepsStray(s.db);
  }

  lemma BatchAcked(mode: Mode, before: seq<Label>, s: State) returns (run: seq<Label>, t: State)
    requires mode.poison == {} && Trace(mode, Paired(), before) == Some(s)
    requires s.srv.log == ThreeEntries() && s.net == Net(true, [], []) && STRAY in s.db.rows
    requires s.cl == Client(Applying(2, 3), true, false, true)
    ensures Trace(mode, Paired(), run) == Some(t)
    ensures t.srv == s.srv.(acked := 3) && STRAY in t.db.rows
    ensures t.cl == Client(AtRecv, true, false, true) && t.past.seeded == s.past.seeded
  {
    var s1: State;
    run, s1 := BatchRuns(mode, before, s);
    run := Extend(mode, Paired(), run, s1, SendAck(Sent));
    var s2 := s1.(net := Net(true, [], [3]), cl := Client(AtRecv, true, false, true));
    assert [] + [3] == [3];
    run := Extend(mode, Paired(), run, s2, TakeAck);
    t := Do(mode, TakeAck, s2);
  }

  lemma KeepsStray(db: Tables)
    requires STRAY in db.rows
    ensures STRAY in Run(db, Fed(ThreeEntries()[2..3])).rows
  {
    assert ThreeEntries()[2..3] == [Entry([ADDED], false)];
    OneEntry(Entry([ADDED], false));
    assert [ADDED][..0] == [];
    assert Run(db, [ADDED]) == Exec(db, ADDED);
  }

  lemma JumpedOver(mode: Mode) returns (run: seq<Label>, t: State)
    requires !mode.strict && mode.poison == {}
    ensures Trace(mode, Paired(), run) == Some(t)
    ensures t.srv.acked == 3 && t.srv.log == ThreeEntries() && !t.srv.flag && STRAY in t.db.rows
    ensures t.cl == Client(AtRecv, true, false, true) && t.past.seeded
  {
    run := LeasedAhead(mode);
    var s1 := Paired().(srv := Paired().srv.(sent := 3, leased := 3), net := Net(true, [FIRST, SECOND], []),
                        cl := Client(AtRecv, false, true, false));
    run := FirstDropped(mode, run, s1);
    var s2 := s1.(net := Net(true, [SECOND], []), past := s1.past.(handled := 2));
    run := SecondFetches(mode, run, s2);
    var s3 := s2.(net := Net(true, [], []), cl := Client(Holding(3, ForFrame(SECOND)), false, true, false));
    run, t := SecondAcked(mode, run, s3);
  }

  lemma StaysWrong(t: State)
    requires t.srv.acked == 3 && t.srv.log == ThreeEntries() && !t.srv.flag && STRAY in t.db.rows
    requires t.cl == Client(AtRecv, true, false, true) && t.past.seeded
    ensures LeftBehind(t)
  {
    ThreeEntriesTruth();
    assert t.srv.log[3..] == [];
    assert STRAY !in Truth(t.srv.log).rows;
  }

  // If the server leased a window before the previous one was acked, a dropped
  // window could be jumped over: its delete never reaches the replica.
  lemma LeasingAheadKeepsDeletedRow(mode: Mode)
    requires !mode.strict && mode.poison == {}
    ensures exists s0, run :: Init(mode, s0) && Legal(mode, s0, run) && LeftBehind(After(mode, s0, run))
  {
    PairedIsInit(mode);
    var run, t := JumpedOver(mode);
    StaysWrong(t);
    assert After(mode, Paired(), run) == t;
  }

  // === Leasing a shorter window again ========================================

  function TwoEntries(): seq<Entry> {
    [Entry([WROTE], false), Entry([DROPPED], false)]
  }

  lemma TwoEntriesTruth()
    ensures Script(TwoEntries()) == [WROTE, DROPPED] && Truth(TwoEntries()) == EMPTY && WellFormed(TwoEntries())
    ensures WellFormed([TwoEntries()[0]])
  {
    TwoScripts();
    RunTwo();
    RevisionsAscend();
  }

  lemma TwoScripts()
    ensures Script([TwoEntries()[0]]) == [WROTE] && Script(TwoEntries()) == [WROTE, DROPPED]
  {
    var log := TwoEntries();
    assert log[..1] == [log[0]];
    OneEntry(log[0]);
  }

  lemma RevisionsAscend()
    ensures Ascending([WROTE]) && Ascending([WROTE, DROPPED]) && Ascending([WROTE, DROPPED, ADDED])
  {
  }

  lemma RunTwo()
    ensures Run(EMPTY, [WROTE, DROPPED]) == EMPTY
  {
    assert [WROTE, DROPPED][..1] == [WROTE] && [WROTE][..0] == [];
    assert Run(EMPTY, [WROTE]) == Tables({}, map[STRAY := Version(1, "old")]);
  }

  // Bootstrapped over an empty log, then two entries are published.
  function Written(): State {
    Connected([]).(srv := Server(TwoEntries(), 0, 0, 0, false))
  }

  lemma BothPublished(mode: Mode) returns (run: seq<Label>)
    ensures Trace(mode, Fresh(), run) == Some(Written())
  {
    var log := TwoEntries();
    TwoEntriesTruth();
    run := FreshConnects(mode);
    assert [] + [log[0]] == [log[0]] && [log[0]] + [log[1]] == log;
    run := Extend(mode, Fresh(), run, Connected([]), Publish(log[0]));
    var s := Connected([]).(srv := Server([log[0]], 0, 0, 0, false));
    run := Extend(mode, Fresh(), run, s, Publish(log[1]));
  }

  const LONG := Batch(0, 2, false)
  const SHORT := Batch(0, 1, false)

  // A window goes out, is committed, and comes back at the receive.
  lemma Delivers(mode: Mode, before: seq<Label>, s: State, f: Frame) returns (run: seq<Label>, t: State)
    requires mode.poison == {} && Trace(mode, Fresh(), before) == Some(s)
    requires s.net.up && s.net.wire == [f] && s.cl == Client(AtRecv, true, false, true) && f.IsWindow() &&
        f.to <= |s.srv.log|
    requires !f.required
    ensures before <= run && Trace(mode, Fresh(), run) == Some(t)
    ensures t == s.(net := s.net.(wire := []), cl := Client(Acking(f.to), true, false, true),
                    db := Run(s.db, Fed(s.srv.log[f.from..f.to])), past := Landing(s.past, f.from, f.to))
  {
    run := Extend(mode, Fresh(), before, s, Recv);
    assert [f][1..] == [];
    var s1 := s.(net := s.net.(wire := []), cl := Client(Got(f), true, false, true));
    run := Extend(mode, Fresh(), run, s1, Route);
    var s2 := s1.(cl := Client(Applying(f.from, f.to), true, false, true));
    run := Extend(mode, Fresh(), run, s2, RunBatch(Committed));
    t := Do(mode, RunBatch(Committed), s2);
  }

  lemma LongDelivered(mode: Mode) returns (run: seq<Label>, t: State)
    requires mode.poison == {}
    ensures Trace(mode, Fresh(), run) == Some(t)
    ensures t.srv == Server(TwoEntries(), 0, 2, 2, false) && t.net == Net(true, [], [])
    ensures t.cl == Client(Acking(2), true, false, true) && t.past.seeded
    ensures t.db == Run(EMPTY, Fed(TwoEntries()[0..2]))
  {
    run := BothPublished(mode);
    run := Extend(mode, Fresh(), run, Written(), SendWindow(2));
    assert [] + [LONG] == [LONG];
    var s := Written().(srv := Server(TwoEntries(), 0, 2, 2, false), net := Net(true, [LONG], []));
    run, t := Delivers(mode, run, s, LONG);
  }

  // The lease runs out while the ack is on the wire, and a shorter window follows.
  lemma ShortLeased(mode: Mode, before: seq<Label>, s: State) returns (run: seq<Label>, t: State)
    requires !mode.steady && Trace(mode, Fresh(), before) == Some(s)
    requires s.srv == Server(TwoEntries(), 0, 2, 2, false) && s.net == Net(true, [], [])
    requires s.cl == Client(Acking(2), true, false, true)
    ensures Trace(mode, Fresh(), run) == Some(t)
    ensures t == s.(srv := Server(TwoEntries(), 2, 1, 2, false), net := Net(true, [SHORT], []),
                    cl := Client(AtRecv, true, false, true))
  {
    run := Extend(mode, Fresh(), before, s, SendAck(Sent));
    assert [] + [2] == [2];
    var s1 := s.(net := Net(true, [], [2]), cl := Client(AtRecv, true, false, true));
    run := Extend(mode, Fresh(), run, s1, ExpireLease);
    var s2 := s1.(srv := Server(TwoEntries(), 0, 0, 2, false));
    run := Extend(mode, Fresh(), run, s2, SendWindow(1));
    assert [] + [SHORT] == [SHORT];
    var s3 := s2.(srv := Server(TwoEntries(), 0, 1, 2, false), net := Net(true, [SHORT], [2]));
    run := Extend(mode, Fresh(), run, s3, TakeAck);
    assert [2][1..] == [];
    t := Do(mode, TakeAck, s3);
  }

  lemma ShortRevives(db: Tables)
    requires STRAY !in db.rows
    ensures STRAY in Run(db, Fed(TwoEntries()[0..1])).rows
  {
    assert TwoEntries()[0..1] == [Entry([WROTE], false)];
    OneEntry(Entry([WROTE], false));
    WritesStray(db);
  }

  lemma BothDrained()
    ensures Run(EMPTY, Fed(TwoEntries()[0..2])) == EMPTY
  {
    var log := TwoEntries();
    assert log[0..2] == log && log[..1] == [log[0]];
    OneEntry(log[0]);
    assert Fed(log) == [WROTE, DROPPED];
    RunTwo();
  }

  // If a lease that ran out were renewed for a shorter window, the ack of the longer
  // one would end the redelivery half-way: a deleted row is back for good.
  lemma ShorterLeaseRevivesRow(mode: Mode)
    requires !mode.steady && mode.poison == {}
    ensures exists s0, run :: Init(mode, s0) && Legal(mode, s0, run) && LeftBehind(After(mode, s0, run))
  {
    FreshIsInit(mode);
    BothDrained();
    var run, s := LongDelivered(mode);
    var t;
    run, s := ShortLeased(mode, run, s);
    run, t := Delivers(mode, run, s, SHORT);
    ShortRevives(s.db);
    RevivedForGood(t);
    assert After(mode, Fresh(), run) == t;
  }

  lemma RevivedForGood(t: State)
    requires t.srv.log == TwoEntries() && t.srv.acked == 2 && !t.srv.flag && STRAY in t.db.rows
    requires t.cl.boot && t.cl.saved && t.past.seeded
    ensures LeftBehind(t)
  {
    TwoEntriesTruth();
    FreshIsInit(Mode(false, false, false, {}));
    assert t.srv.log[2..] == [];
  }

  // === An ack that arrives late ==============================================

  // The run begins with `first`, and the connection drops there.
  predicate DropsAfter(run: seq<Label>, first: seq<Label>) {
    first + [Disconnect] <= run
  }

  // Both entries are committed, and the connection drops with their ack on the wire.
  lemma AckLeft(mode: Mode) returns (first: seq<Label>, run: seq<Label>, s: State, t: State)
    requires mode.poison == {}
    ensures Trace(mode, Fresh(), first) == Some(s) && s.net.acks == [2]
    ensures run == first + [Disconnect] && Trace(mode, Fresh(), run) == Some(t)
    ensures t.srv == Server(TwoEntries(), 0, 2, 2, false) && t.net == CLOSED && t.past.seeded
    ensures t.cl == Client(AtRecv, true, false, true) && t.db == Run(EMPTY, Fed(TwoEntries()[0..2]))
  {
    first, s := LongDelivered(mode);
    first := Extend(mode, Fresh(), first, s, SendAck(Sent));
    s := Do(mode, SendAck(Sent), s);
    assert [] + [2] == [2];
    run := Extend(mode, Fresh(), first, s, Disconnect);
    t := Do(mode, Disconnect, s);
  }

  // The next connection leases a shorter window.
  lemma Redialed(mode: Mode, first: seq<Label>, before: seq<Label>, s: State) returns (run: seq<Label>, t: State)
    requires Trace(mode, Fresh(), before) == Some(s) && DropsAfter(before, first)
    requires s.srv == Server(TwoEntries(), 0, 2, 2, false) && s.net == CLOSED
    requires s.cl == Client(AtRecv, true, false, true)
    ensures Trace(mode, Fresh(), run) == Some(t) && DropsAfter(run, first)
    ensures t.srv == Server(TwoEntries(), 0, 1, 1, false) && t.net == Net(true, [SHORT], [])
    ensures t.cl == s.cl && t.db == s.db && t.past.seeded == s.past.seeded
  {
    run := Extend(mode, Fresh(), before, s, RecvFails);
    var s1 := s.(cl := Client(Top, true, false, true));
    run := Extend(mode, Fresh(), run, s1, Exchange(Granted(false)));
    var s2 := s.(cl := Client(Dialing, true, false, true));
    run := Extend(mode, Fresh(), run, s2, Dial(true));
    var s3 := Do(mode, Dial(true), s2);
    run := Extend(mode, Fresh(), run, s3, SendWindow(1));
    assert [] + [SHORT] == [SHORT];
    t := Do(mode, SendWindow(1), s3);
  }

  lemma LateRun(mode: Mode) returns (first: seq<Label>, run: seq<Label>, s: State, u: State)
    requires mode.poison == {}
    ensures Trace(mode, Fresh(), first) == Some(s) && s.net.acks == [2]
    ensures Trace(mode, Fresh(), run) == Some(u) && DropsAfter(run, first)
    ensures u.srv == Server(TwoEntries(), 0, 1, 1, false) && STRAY in u.db.rows
    ensures u.cl.boot && u.cl.saved && u.past.seeded
  {
    BothDrained();
    var before, t;
    first, before, s, t := AckLeft(mode);
    var last, v := Redialed(mode, first, before, t);
    ShortRevives(v.db);
    run, u := Delivers(mode, last, v, SHORT);
  }

  // If the ack that an old connection left behind still arrived, even strict and
  // steady leases would not help: it would end the next connection's redelivery
  // half-way, and a deleted row is back for good.
  lemma LateAckRevivesRow(mode: Mode)
    requires mode.poison == {}
    ensures exists s0, first, run :: Init(mode, s0) && Legal(mode, s0, first) && Legal(mode, s0, run) &&
              DropsAfter(run, first) && LateAckHarms(After(mode, s0, first), After(mode, s0, run))
  {
    FreshIsInit(mode);
    var first, run, s, u := LateRun(mode);
    RevivedForGood(u.(srv := u.srv.(acked := 2)));
    assert After(mode, Fresh(), first) == s && After(mode, Fresh(), run) == u;
    assert LateAckHarms(s, u);
  }

  // An ack on the wire at s, taken at t.
  ghost predicate LateAckHarms(s: State, t: State) {
    |s.net.acks| > 0 && LeftBehind(t.(srv := t.srv.(acked := s.net.acks[0])))
  }
}

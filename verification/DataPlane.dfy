/**
 * One profile's data plane as a transition system: the server's log and lease,
 * the WebSocket, the user's database, the persisted flag and the client process.
 *
 * A label names one atomic step together with every nondeterministic choice in
 * it, so a run is an initial state and a sequence of labels. Environment
 * assumptions (the server's code is not part of this repository):
 *   E1  a window starts at the lease cursor and moves it to the window's end; a new
 *       connection and the expiry of a lease, which may come at any moment, put it
 *       back to the acked cursor; an ack whose connection is gone is dropped.
 *       `strict` adds that a window is leased only while the lease cursor is the
 *       acked cursor, `steady` that a window ends no earlier than the windows its
 *       connection leased before;
 *   E3  a snapshot is the truth at fetch time; deletes are never silent;
 *   E4  the snapshot_required flag is raised by a silent write and stays up until
 *       a snapshot fetched later has committed; such a frame carries no deltas;
 *   E6  a transaction has landed or not before the client's next step.
 */
module DataPlane {
  import opened Wrappers
  import opened Replica
  import opened ServerLog

  // `required` is snapshot_required; a batch's deltas are the fed entries of [from, to).
  datatype Frame = Batch(from: nat, to: nat, required: bool) | Pong
  {
    predicate IsWindow() {
      Batch? && from < to
    }
  }

  // Why the snapshot is being applied: before dialling, or inside Pump for a frame.
  datatype Purpose = FirstRun | ForFrame(frame: Frame)

  datatype Pc =
    | Down
    | Top                                  // head of runForever's loop
    | Fetching(purpose: Purpose)
    | Holding(m: nat, purpose: Purpose)    // snapshot of log[..m] in hand
    | Flagging(purpose: Purpose)           // it committed; the flag is not set yet
    | Dialing
    | AtRecv
    | Got(frame: Frame)
    | Applying(from: nat, to: nat)
    | Acking(upTo: nat)
    | Halted

  // The server: its log, the acked cursor, the lease cursor, the furthest end of a
  // window leased on this connection, and the snapshot_required flag.
  datatype Server = Server(log: seq<Entry>, acked: nat, sent: nat, leased: nat, flag: bool)

  datatype Net = Net(up: bool, wire: seq<Frame>, acks: seq<nat>)

  // The client process and config.json: cfg.Bootstrapped in memory, Pump's
  // bootstrapPending, and the persisted flag.
  datatype Client = Client(pc: Pc, boot: bool, pending: bool, saved: bool)

  // What happened so far: the acked cursor at pairing; the end of the last
  // committed batch; the furthest end of a window committed or dropped on this
  // connection; the windows of all committed batches; the position of the last
  // committed snapshot and whether one committed; whether --skip-bootstrap was used.
  datatype History = History(start: nat, applied: nat, handled: nat, landed: seq<Window>,
                             covered: nat, seeded: bool, skipped: bool)

  datatype State = State(srv: Server, net: Net, db: Tables, cl: Client, past: History)

  // `strict`, `steady` and `hasty` choose variants of E1 and E4: a hasty server takes
  // the flag down once a snapshot has been fetched. `poison` lists the entries whose
  // SQL the database always refuses.
  datatype Mode = Mode(strict: bool, steady: bool, hasty: bool, poison: set<nat>)

  datatype ExchangeOut = Granted(healed: bool) | Revoked | Unreachable
  datatype FetchOut = Fetched | NotPublished | FetchFailed
  datatype RestoreOut = Restored | NotApplied | RestoredUnseen
  datatype BatchOut = Committed | BatchFailed | CommittedUnseen
  datatype SendOut = Sent | LostInFlight | SendFailed

  datatype Label =
    // server and network
    | Publish(e: Entry)
    | SilentWrite(e: Entry)
    | RaiseFlag
    | ClearFlag
    | SendWindow(to: nat)
    | SendRequired
    | SendOther(f: Frame)
    | TakeAck
    | ExpireLease
    | Disconnect
    // client
    | Crash
    | Start(skip: bool, wrote: bool)
    | Exchange(exchanged: ExchangeOut)
    | Fetch(fetched: FetchOut)
    | Restore(restored: RestoreOut)
    | SetFlag(wrote: bool)
    | Dial(ok: bool)
    | Recv
    | RecvFails
    | Route
    | Ignore
    | RunBatch(batch: BatchOut)
    | SendAck(ack: SendOut)
    | Exit
  {
    predicate ByServer() {
      || Publish? || SilentWrite? || RaiseFlag? || ClearFlag? || SendWindow? || SendRequired?
      || SendOther? || TakeAck? || ExpireLease? || Disconnect?
    }

    predicate AboutProcess() {
      Crash? || Start? || Exchange? || Dial? || Exit?
    }

    predicate AboutSnapshot() {
      Fetch? || Restore? || SetFlag?
    }

    predicate AboutFrame() {
      Recv? || RecvFails? || Route? || Ignore? || RunBatch? || SendAck?
    }
  }

  function Max(a: nat, b: nat): nat {
    if a < b then b else a
  }

  // The frame needs a snapshot before anything else may happen with it.
  predicate NeedsSnapshot(c: Client, f: Frame) {
    f.Batch? && (f.required || c.pending)
  }

  // === Guards ================================================================

  predicate ServerEnabled(mode: Mode, l: Label, s: State)
    requires l.ByServer()
  {
    match l
    case Publish(e) => !e.silent && WellFormed(s.srv.log + [e])
    case SilentWrite(e) => e.silent && WellFormed(s.srv.log + [e])
    case RaiseFlag => true
    case ClearFlag =>
      || Covered(s.srv.log, s.past.covered)
      || (mode.hasty && s.cl.pc.Holding? && Covered(s.srv.log, s.cl.pc.m))
    case SendWindow(to) =>
      && s.net.up && !s.srv.flag
      && s.srv.sent < to <= |s.srv.log| && !s.srv.log[to - 1].silent
      && (mode.strict ==> s.srv.sent == s.srv.acked)
      && (mode.steady ==> s.srv.leased <= to)
    case SendRequired => s.net.up && s.srv.flag
    case SendOther(f) => s.net.up && (f.Batch? ==> f.from == f.to && !f.required)
    case TakeAck => s.net.up && |s.net.acks| > 0
    case ExpireLease => true
    case Disconnect => s.net.up
  }

  predicate ClientEnabled(mode: Mode, l: Label, s: State)
    requires !l.ByServer()
  {
    var pc := s.cl.pc;
    match l
    case Crash => !pc.Down?
    case Start(_, _) => pc.Down?
    case Exchange(_) => pc.Top?
    case Fetch(_) => pc.Fetching?
    case Restore(_) => pc.Holding? && pc.m <= |s.srv.log|
    case SetFlag(_) => pc.Flagging?
    case Dial(_) => pc.Dialing?
    case Recv => pc.AtRecv? && s.net.up && |s.net.wire| > 0
    case RecvFails => pc.AtRecv? && !s.net.up
    case Route => pc.Got?
    case Ignore => pc.Got? && NeedsSnapshot(s.cl, pc.frame)
    case RunBatch(out) =>
      && pc.Applying? && pc.from <= pc.to <= |s.srv.log|
      && (out.BatchFailed? || forall p :: pc.from <= p < pc.to && p in mode.poison ==> s.srv.log[p].silent)
    case SendAck(out) => pc.Acking? && (if s.net.up then out.Sent? else !out.Sent?)
    case Exit => pc.Halted?
  }

  predicate Enabled(mode: Mode, l: Label, s: State) {
    if l.ByServer() then ServerEnabled(mode, l, s) else ClientEnabled(mode, l, s)
  }

  // === Effects ===============================================================

  const CLOSED := Net(false, [], [])

  function ServerDo(l: Label, s: State): State
    requires l.ByServer()
    requires l.TakeAck? ==> |s.net.acks| > 0
  {
    match l
    case Publish(e) => s.(srv := s.srv.(log := s.srv.log + [e]))
    case SilentWrite(e) => s.(srv := s.srv.(log := s.srv.log + [e], flag := true))
    case RaiseFlag => s.(srv := s.srv.(flag := true))
    case ClearFlag => s.(srv := s.srv.(flag := false))
    case SendWindow(to) =>
      s.(net := s.net.(wire := s.net.wire + [Batch(s.srv.sent, to, false)]),
         srv := s.srv.(sent := to, leased := Max(s.srv.leased, to)))
    case SendRequired => s.(net := s.net.(wire := s.net.wire + [Batch(0, 0, true)]))
    case SendOther(f) => s.(net := s.net.(wire := s.net.wire + [f]))
    case TakeAck =>
      s.(srv := s.srv.(acked := s.net.acks[0]), net := s.net.(acks := s.net.acks[1..]))
    case ExpireLease => s.(srv := s.srv.(sent := s.srv.acked))
    case Disconnect => s.(net := CLOSED)
  }

  // The frame's window, if it has one, is committed or dropped.
  function Deal(past: History, f: Frame): History {
    if f.IsWindow() then past.(handled := Max(past.handled, f.to)) else past
  }

  // Where a batch frame leads when no snapshot stands in its way.
  function Onward(f: Frame): Pc {
    if f.IsWindow() then Applying(f.from, f.to) else AtRecv
  }

  function MadeGood(past: History, m: nat): History {
    past.(seeded := true, covered := Max(past.covered, m))
  }

  function AfterFetch(s: State, out: FetchOut): State
    requires s.cl.pc.Fetching?
  {
    var purpose := s.cl.pc.purpose;
    match out
    case Fetched => s.(cl := s.cl.(pc := Holding(|s.srv.log|, purpose)))
    case NotPublished =>
      if purpose.FirstRun? then s.(cl := s.cl.(pc := Dialing, pending := true))
      else s.(cl := s.cl.(pc := AtRecv), past := Deal(s.past, purpose.frame))
    case FetchFailed => s.(cl := s.cl.(pc := Top), net := CLOSED)
  }

  function AfterRestore(s: State, out: RestoreOut): State
    requires s.cl.pc.Holding? && s.cl.pc.m <= |s.srv.log|
  {
    var m := s.cl.pc.m;
    match out
    case Restored =>
      s.(db := ServerLog.Restore(s.db, Truth(s.srv.log[..m])), past := MadeGood(s.past, m),
         cl := s.cl.(pc := Flagging(s.cl.pc.purpose)))
    case NotApplied => s.(cl := s.cl.(pc := Top), net := CLOSED)
    case RestoredUnseen =>
      s.(db := ServerLog.Restore(s.db, Truth(s.srv.log[..m])), past := MadeGood(s.past, m),
         cl := s.cl.(pc := Top), net := CLOSED)
  }

  function Landing(past: History, from: nat, to: nat): History {
    past.(applied := to, handled := Max(past.handled, to), landed := past.landed + [Window(from, to)])
  }

  function AfterBatch(s: State, out: BatchOut): State
    requires s.cl.pc.Applying? && s.cl.pc.from <= s.cl.pc.to <= |s.srv.log|
  {
    var from, to := s.cl.pc.from, s.cl.pc.to;
    match out
    case Committed =>
      s.(db := Run(s.db, Fed(s.srv.log[from..to])),
         past := Landing(s.past, from, to),
         cl := s.cl.(pc := Acking(to)))
    case BatchFailed => s.(cl := s.cl.(pc := Halted), net := CLOSED)
    case CommittedUnseen =>
      s.(db := Run(s.db, Fed(s.srv.log[from..to])),
         past := Landing(s.past, from, to),
         cl := s.cl.(pc := Halted), net := CLOSED)
  }

  function ClientDo(mode: Mode, l: Label, s: State): State
    requires !l.ByServer() && ClientEnabled(mode, l, s)
  {
    var c := s.cl;
    match l
    case Crash => s.(cl := c.(pc := Down), net := CLOSED)
    case Start(skip, wrote) =>
      s.(cl := Client(Top, c.saved || skip, false, c.saved || (skip && wrote)),
         past := s.past.(skipped := s.past.skipped || (skip && !c.saved)))
    case Exchange(Granted(healed)) =>
      s.(cl := Client(if c.boot then Dialing else Fetching(FirstRun), c.boot, false, c.saved || (healed && c.boot)))
    case Exchange(Revoked) => s.(cl := c.(pc := Halted))
    case Exchange(Unreachable) => s
    case Fetch(out) => AfterFetch(s, out)
    case Restore(out) => AfterRestore(s, out)
    case SetFlag(wrote) =>
      var saved := c.saved || (!c.boot && wrote);
      if c.pc.purpose.FirstRun? then s.(cl := Client(Dialing, true, c.pending, saved))
      else
        var f := c.pc.purpose.frame;
        s.(cl := Client(if f.Batch? && f.required then AtRecv else Onward(f), true, false, saved))
    case Dial(ok) =>
      if ok then
        s.(net := Net(true, [], []), srv := s.srv.(sent := s.srv.acked, leased := s.srv.acked),
           past := s.past.(handled := s.srv.acked), cl := c.(pc := AtRecv))
      else s.(cl := c.(pc := Top))
    case Recv =>
      var f := s.net.wire[0];
      s.(net := s.net.(wire := s.net.wire[1..]), cl := c.(pc := Got(f)))
    case RecvFails => s.(cl := c.(pc := Top))
    case Route =>
      var f := c.pc.frame;
      s.(cl := c.(pc := if NeedsSnapshot(c, f) then Fetching(ForFrame(f)) else Onward(f)))
    case Ignore => s.(cl := c.(pc := AtRecv), past := Deal(s.past, c.pc.frame))
    case RunBatch(out) => AfterBatch(s, out)
    case SendAck(Sent) => s.(net := s.net.(acks := s.net.acks + [c.pc.upTo]), cl := c.(pc := AtRecv))
    case SendAck(LostInFlight) => s.(cl := c.(pc := AtRecv))
    case SendAck(SendFailed) => s.(cl := c.(pc := Top))
    case Exit => s.(cl := c.(pc := Down))
  }

  function Do(mode: Mode, l: Label, s: State): State
    requires Enabled(mode, l, s)
  {
    if l.ByServer() then ServerDo(l, s) else ClientDo(mode, l, s)
  }

  // === Runs ==================================================================

  // A freshly paired profile: nothing received, no flag, no process.
  ghost predicate Init(mode: Mode, s: State) {
    && WellFormed(s.srv.log) && s.srv.acked <= |s.srv.log| && s.srv.sent == s.srv.acked
    && Clean(s.srv.log, s.db, s.srv.acked)
    && s.net == CLOSED
    && s.cl == Client(Down, false, false, false)
    && s.past == History(s.srv.acked, s.srv.acked, s.srv.acked, [], |s.srv.log|, false, false)
    && forall p :: p in mode.poison && p < s.srv.acked ==> s.srv.log[p].silent
  }

  // Where a run leads, or None when some label is not enabled.
  ghost function Trace(mode: Mode, s: State, run: seq<Label>): Option<State> {
    if run == [] then Some(s)
    else
      var m := |run| - 1;
      match Trace(mode, s, run[..m])
      case None => None
      case Some(t) => if Enabled(mode, run[m], t) then Some(Do(mode, run[m], t)) else None
  }

  ghost predicate Legal(mode: Mode, s: State, run: seq<Label>) {
    Trace(mode, s, run).Some?
  }

  ghost function After(mode: Mode, s: State, run: seq<Label>): State
    requires Legal(mode, s, run)
  {
    Trace(mode, s, run).value
  }

  lemma {:induction false} PrefixLegal(mode: Mode, s: State, run: seq<Label>, i: nat)
    requires Legal(mode, s, run) && i <= |run|
    ensures Legal(mode, s, run[..i])
    ensures i < |run| ==> Enabled(mode, run[i], After(mode, s, run[..i])) &&
                          Trace(mode, s, run[..i + 1]) == Some(Do(mode, run[i], After(mode, s, run[..i])))
  {
    if i < |run| - 1 {
      PrefixLegal(mode, s, run[..|run| - 1], i);
      assert run[..|run| - 1][..i] == run[..i];
      assert run[..|run| - 1][..i + 1] == run[..i + 1];
    } else {
      assert run[..|run|] == run;
    }
  }

  ghost function Next(mode: Mode, s: Option<State>, l: Label): Option<State> {
    if s.Some? && Enabled(mode, l, s.value) then Some(Do(mode, l, s.value)) else None
  }

  lemma OneMore(mode: Mode, s: State, run: seq<Label>, l: Label)
    ensures Trace(mode, s, run + [l]) == Next(mode, Trace(mode, s, run), l)
  {
    assert (run + [l])[..|run|] == run;
  }

  // A run with one more step.
  lemma Extend(mode: Mode, s0: State, run: seq<Label>, s: State, l: Label) returns (longer: seq<Label>)
    requires Trace(mode, s0, run) == Some(s) && Enabled(mode, l, s)
    ensures longer == run + [l] && Trace(mode, s0, longer) == Some(Do(mode, l, s))
  {
    longer := run + [l];
    OneMore(mode, s0, run, l);
  }

  // A run goes on where its beginning leads.
  lemma {:induction false} Continues(mode: Mode, s: State, a: seq<Label>, t: State, b: seq<Label>)
    requires Trace(mode, s, a) == Some(t)
    ensures Trace(mode, s, a + b) == Trace(mode, t, b)
  {
    if b == [] {
      assert a + b == a;
    } else {
      var m := |b| - 1;
      assert a + b == (a + b[..m]) + [b[m]];
      assert b == b[..m] + [b[m]];
      Continues(mode, s, a, t, b[..m]);
      OneMore(mode, s, a + b[..m], b[m]);
      OneMore(mode, t, b[..m], b[m]);
    }
  }

  // The operator vouches for the replica with --skip-bootstrap.
  predicate Skips(l: Label) {
    l.Start? && l.skip
  }

  // The snapshot script committed in this step.
  predicate Lands(l: Label) {
    l.Restore? && !l.restored.NotApplied?
  }

  // The frame in hand holds window w and is dropped because nothing is published yet.
  ghost predicate DropsWindow(s: State, l: Label, f: Frame) {
    && s.cl.pending && f.IsWindow()
    && ((l.Ignore? && s.cl.pc == Got(f)) || (l == Fetch(NotPublished) && s.cl.pc == Fetching(ForFrame(f))))
  }
}

/**
 * What every step of the data plane keeps, without the strict form of E1: the order
 * of bootstrap and batches, the windows on their way, and which log entries an ack
 * may cover.
 */
module ClientOrder {
  import opened Wrappers
  import opened ServerLog
  import opened DataPlane

  // === What every step keeps: order of bootstrap =============================

  predicate Bootstrapping(pc: Pc) {
    pc.Fetching? || pc.Holding? || pc.Flagging?
  }

  function PurposeOf(pc: Pc): Purpose
    requires Bootstrapping(pc)
  {
    match pc
    case Fetching(p) => p
    case Holding(_, p) => p
    case Flagging(p) => p
  }

  predicate InPump(pc: Pc) {
    pc.AtRecv? || pc.Got? || pc.Applying? || pc.Acking? || (Bootstrapping(pc) && PurposeOf(pc).ForFrame?)
  }

  // The client's side: which flags hold at which point of the program.
  predicate ClientInv(c: Client) {
    && (c.saved && !c.pc.Down? ==> c.boot)
    && (c.pc.Applying? || c.pc.Acking? ==> c.boot && !c.pending)
    && (c.pc.Dialing? || c.pc.AtRecv? || c.pc.Got? ==> c.pending != c.boot)
    && (Bootstrapping(c.pc) ==>
          if PurposeOf(c.pc).FirstRun? then !c.boot && !c.pending
          else c.pending != c.boot && NeedsSnapshot(c, PurposeOf(c.pc).frame))
  }

  ghost predicate OrderInv(s: State) {
    && ClientInv(s.cl)
    && (s.cl.boot || s.cl.saved ==> s.past.seeded || s.past.skipped)
    && (s.cl.pc.Flagging? ==> s.past.seeded)
    && (s.net.up ==> InPump(s.cl.pc))
    && (|s.net.acks| > 0 ==> s.cl.boot)
    && (!s.net.up ==> s.net == CLOSED)
  }

  lemma OrderStep(mode: Mode, l: Label, s: State)
    requires OrderInv(s) && Enabled(mode, l, s)
    ensures OrderInv(Do(mode, l, s))
  {
    if l.ByServer() {
      OrderServer(mode, l, s);
    } else if l.AboutProcess() {
      OrderProcess(mode, l, s);
    } else if l.AboutSnapshot() {
      OrderSnapshot(mode, l, s);
    } else {
      OrderFrame(mode, l, s);
    }
  }

  lemma OrderServer(mode: Mode, l: Label, s: State)
    requires OrderInv(s) && l.ByServer() && ServerEnabled(mode, l, s)
    ensures OrderInv(ServerDo(l, s))
  {
  }

  lemma OrderProcess(mode: Mode, l: Label, s: State)
    requires OrderInv(s) && l.AboutProcess() && ClientEnabled(mode, l, s)
    ensures OrderInv(ClientDo(mode, l, s))
  {
  }

  lemma OrderSnapshot(mode: Mode, l: Label, s: State)
    requires OrderInv(s) && l.AboutSnapshot() && ClientEnabled(mode, l, s)
    ensures OrderInv(ClientDo(mode, l, s))
  {
  }

  lemma OrderFrame(mode: Mode, l: Label, s: State)
    requires OrderInv(s) && l.AboutFrame() && ClientEnabled(mode, l, s)
    ensures OrderInv(ClientDo(mode, l, s))
  {
  }

  // === What every step keeps: the windows on their way =======================

  function WindowOf(f: Frame): Option<Window> {
    if f.IsWindow() then Some(Window(f.from, f.to)) else None
  }

  // The window the client took off the wire and has not dealt with.
  function Held(pc: Pc): Option<Window> {
    match pc
    case Got(f) => WindowOf(f)
    case Applying(from, to) => Some(Window(from, to))
    case Fetching(ForFrame(f)) => WindowOf(f)
    case Holding(_, ForFrame(f)) => WindowOf(f)
    case Flagging(ForFrame(f)) => WindowOf(f)
    case _ => None
  }

  // Where this connection's windows end: those dealt with, and those received.
  function Limit(s: State): nat {
    if InPump(s.cl.pc) then s.past.handled else s.srv.acked
  }

  function Taken(s: State): nat {
    match Held(s.cl.pc) case Some(w) => Max(Limit(s), w.to) case None => Limit(s)
  }

  // No window of the wire starts beyond the furthest end before it.
  predicate Linked(wire: seq<Frame>, end: nat) {
    wire == [] ||
    (if wire[0].IsWindow() then wire[0].from <= end && Linked(wire[1..], Max(end, wire[0].to))
     else Linked(wire[1..], end))
  }

  // Where the windows of the wire take the furthest end.
  function Furthest(wire: seq<Frame>, end: nat): nat {
    if wire == [] then end
    else Furthest(wire[1..], if wire[0].IsWindow() then Max(end, wire[0].to) else end)
  }

  // E4 and E1: no deltas with snapshot_required, and a window ends on a fed entry.
  predicate FrameOk(log: seq<Entry>, f: Frame) {
    && (f.Batch? && f.required ==> f.from == f.to)
    && (f.IsWindow() ==> f.to <= |log| && !log[f.to - 1].silent)
  }

  predicate FrameInHandOk(log: seq<Entry>, pc: Pc) {
    && (pc.Got? ==> FrameOk(log, pc.frame))
    && (pc.Applying? ==> pc.from < pc.to <= |log| && !log[pc.to - 1].silent)
    && (Bootstrapping(pc) && PurposeOf(pc).ForFrame? ==> FrameOk(log, PurposeOf(pc).frame))
  }

  // The connection: what is on the wire joins what has been received.
  ghost predicate LinkInv(s: State) {
    && (s.net.up ==> Linked(s.net.wire, Taken(s)) && Furthest(s.net.wire, Taken(s)) == s.srv.leased)
    && (s.net.up ==> s.srv.sent <= s.srv.leased <= |s.srv.log|)
    && (Held(s.cl.pc).Some? ==> Held(s.cl.pc).value.from <= s.past.handled)
  }

  ghost predicate WireInv(s: State) {
    && s.srv.acked <= Limit(s) <= |s.srv.log|
    && s.past.covered <= |s.srv.log| && s.past.applied <= |s.srv.log|
    && (forall f :: f in s.net.wire ==> FrameOk(s.srv.log, f))
    && FrameInHandOk(s.srv.log, s.cl.pc)
    && LinkInv(s)
    && (forall i :: 0 <= i < |s.net.acks| ==> s.net.acks[i] <= Limit(s))
    && (s.cl.pc.Acking? ==> s.cl.pc.upTo <= s.past.handled)
    && (s.cl.pc.Holding? ==>
          && s.past.covered <= s.cl.pc.m <= |s.srv.log| && s.past.applied <= s.cl.pc.m
          && Limit(s) <= s.cl.pc.m)
  }

  lemma {:induction false} LinkAppend(wire: seq<Frame>, f: Frame, end: nat)
    requires Linked(wire, end) && (f.IsWindow() ==> f.from <= Furthest(wire, end))
    ensures Linked(wire + [f], end)
    ensures Furthest(wire + [f], end) == if f.IsWindow() then Max(Furthest(wire, end), f.to) else Furthest(wire, end)
  {
    if wire == [] {
      assert (wire + [f])[1..] == [];
    } else {
      assert (wire + [f])[1..] == wire[1..] + [f];
      LinkAppend(wire[1..], f, if wire[0].IsWindow() then Max(end, wire[0].to) else end);
    }
  }

  lemma WireStep(mode: Mode, l: Label, s: State)
    requires OrderInv(s) && WireInv(s) && Enabled(mode, l, s)
    ensures WireInv(Do(mode, l, s))
  {
    if l.SendWindow? || l.SendRequired? || l.SendOther? {
      WireSend(mode, l, s);
    } else if l.ByServer() {
      WireServer(mode, l, s);
    } else if l.AboutProcess() {
      WireProcess(mode, l, s);
    } else if l.Fetch? {
      assert Do(mode, l, s) == AfterFetch(s, l.fetched);
      WireFetched(s, l.fetched);
    } else if l.Restore? {
      assert Do(mode, l, s) == AfterRestore(s, l.restored);
      WireRestored(s, l.restored);
    } else if l.SetFlag? {
      WireFlag(mode, l, s);
    } else if l.RunBatch? {
      assert Do(mode, l, s) == AfterBatch(s, l.batch);
      WireRan(s, l.batch);
    } else if l.SendAck? {
      WireAck(mode, l, s);
    } else {
      WireFrame(mode, l, s);
    }
  }

  function Outgoing(l: Label, s: State): Frame
    requires l.SendWindow? || l.SendRequired? || l.SendOther?
  {
    if l.SendWindow? then Batch(s.srv.sent, l.to, false) else if l.SendRequired? then Batch(0, 0, true) else l.f
  }

  lemma WireSend(mode: Mode, l: Label, s: State)
    requires OrderInv(s) && WireInv(s) && (l.SendWindow? || l.SendRequired? || l.SendOther?) &&
        ServerEnabled(mode, l, s)
    ensures WireInv(ServerDo(l, s))
  {
    LinkAppend(s.net.wire, Outgoing(l, s), Taken(s));
  }

  lemma WireServer(mode: Mode, l: Label, s: State)
    requires OrderInv(s) && WireInv(s) && l.ByServer() && ServerEnabled(mode, l, s)
    requires !l.SendWindow? && !l.SendRequired? && !l.SendOther?
    ensures WireInv(ServerDo(l, s))
  {
    if l.ExpireLease? || l.TakeAck? {
      WireCursor(mode, l, s);
    }
  }

  lemma WireCursor(mode: Mode, l: Label, s: State)
    requires OrderInv(s) && WireInv(s) && (l.ExpireLease? || l.TakeAck?) && ServerEnabled(mode, l, s)
    ensures WireInv(ServerDo(l, s))
  {
    if s.net.up {
      FurthestGrows(s.net.wire, Taken(s));
    }
  }

  lemma {:induction false} FurthestGrows(wire: seq<Frame>, end: nat)
    ensures end <= Furthest(wire, end)
  {
    if wire != [] {
      FurthestGrows(wire[1..], if wire[0].IsWindow() then Max(end, wire[0].to) else end);
    }
  }

  lemma WireProcess(mode: Mode, l: Label, s: State)
    requires OrderInv(s) && WireInv(s) && l.AboutProcess() && ClientEnabled(mode, l, s)
    ensures WireInv(ClientDo(mode, l, s))
  {
    if l.Dial? && l.ok {
      WireDial(mode, s);
    } else {
      WireOutside(s, ClientDo(mode, l, s));
    }
  }

  // Outside Pump there is no connection and no window.
  lemma WireOutside(s: State, t: State)
    requires WireInv(s) && t.srv == s.srv && t.past.(skipped := s.past.skipped) == s.past && t.net == CLOSED
    requires !InPump(t.cl.pc) && !t.cl.pc.Holding? && Held(t.cl.pc).None?
    ensures WireInv(t)
  {
  }

  lemma WireDial(mode: Mode, s: State)
    requires OrderInv(s) && WireInv(s) && s.cl.pc.Dialing?
    ensures WireInv(ClientDo(mode, Dial(true), s))
  {
  }

  lemma WireFetched(s: State, out: FetchOut)
    requires OrderInv(s) && WireInv(s) && s.cl.pc.Fetching?
    ensures WireInv(AfterFetch(s, out))
  {
  }

  lemma WireRestored(s: State, out: RestoreOut)
    requires OrderInv(s) && WireInv(s) && s.cl.pc.Holding? && s.cl.pc.m <= |s.srv.log|
    ensures WireInv(AfterRestore(s, out))
  {
  }

  lemma WireFlag(mode: Mode, l: Label, s: State)
    requires OrderInv(s) && WireInv(s) && l.SetFlag? && ClientEnabled(mode, l, s)
    ensures WireInv(ClientDo(mode, l, s))
  {
  }

  lemma WireRan(s: State, out: BatchOut)
    requires OrderInv(s) && WireInv(s) && s.cl.pc.Applying?
    ensures WireInv(AfterBatch(s, out))
  {
  }

  lemma WireAck(mode: Mode, l: Label, s: State)
    requires OrderInv(s) && WireInv(s) && l.SendAck? && ClientEnabled(mode, l, s)
    ensures WireInv(ClientDo(mode, l, s))
  {
  }

  lemma WireFrame(mode: Mode, l: Label, s: State)
    requires OrderInv(s) && WireInv(s) && l.AboutFrame() && !l.RunBatch? && !l.SendAck? && ClientEnabled(mode, l, s)
    ensures WireInv(ClientDo(mode, l, s))
  {
    if l.Recv? {
      WireRecv(mode, s);
    } else if l.RecvFails? {
      WireOutside(s, ClientDo(mode, l, s));
    } else {
      WireTakeUp(mode, l, s);
    }
  }

  lemma WireRecv(mode: Mode, s: State)
    requires OrderInv(s) && WireInv(s) && ClientEnabled(mode, Recv, s)
    ensures WireInv(ClientDo(mode, Recv, s))
  {
    assert s.net.wire[0] in s.net.wire;
  }

  lemma WireTakeUp(mode: Mode, l: Label, s: State)
    requires OrderInv(s) && WireInv(s) && (l.Route? || l.Ignore?) && ClientEnabled(mode, l, s)
    ensures WireInv(ClientDo(mode, l, s))
  {
    var t := ClientDo(mode, l, s);
    assert t.srv == s.srv && t.net == s.net && Taken(t) == Taken(s);
  }

  // === What every step keeps: no ack runs ahead of the data ==================

  // Entry i has been run by a committed batch, is part of a committed snapshot,
  // or was acknowledged before this profile was paired.
  ghost predicate Delivered(past: History, i: nat) {
    || i < past.start
    || (past.seeded && i < past.covered)
    || exists w :: w in past.landed && w.from <= i < w.to
  }

  ghost predicate CoverInv(s: State) {
    && (forall i: nat :: i < s.srv.acked ==> Delivered(s.past, i))
    && (!s.cl.pending || s.cl.pc.Flagging? ==> forall i: nat :: i < Limit(s) ==> Delivered(s.past, i))
  }

  // History only grows.
  lemma StaysDelivered(p: History, q: History)
    requires p.start == q.start && (p.seeded ==> q.seeded) && p.covered <= q.covered && p.landed <= q.landed
    ensures forall i: nat {:trigger Delivered(q, i)} :: Delivered(p, i) ==> Delivered(q, i)
  {
    forall i: nat | Delivered(p, i)
      ensures Delivered(q, i)
    {
      if w :| w in p.landed && w.from <= i < w.to {
        assert w in q.landed;
      }
    }
  }

  lemma CoverStep(mode: Mode, l: Label, s: State)
    requires OrderInv(s) && WireInv(s) && CoverInv(s) && Enabled(mode, l, s)
    ensures CoverInv(Do(mode, l, s))
  {
    if l.ByServer() {
      CoverServer(mode, l, s);
    } else if l.Restore? {
      assert Do(mode, l, s) == AfterRestore(s, l.restored);
      CoverRestored(s, l.restored);
    } else if l.RunBatch? {
      assert Do(mode, l, s) == AfterBatch(s, l.batch);
      CoverRan(s, l.batch);
    } else {
      CoverElsewhere(mode, l, s);
    }
  }

  lemma CoverServer(mode: Mode, l: Label, s: State)
    requires OrderInv(s) && WireInv(s) && CoverInv(s) && l.ByServer() && ServerEnabled(mode, l, s)
    ensures CoverInv(ServerDo(l, s))
  {
    var t := ServerDo(l, s);
    assert t.past == s.past && t.cl == s.cl;
    assert l.TakeAck? ==> s.cl.boot && s.net.acks[0] <= Limit(s);
  }

  lemma CoverRestored(s: State, out: RestoreOut)
    requires OrderInv(s) && WireInv(s) && CoverInv(s) && s.cl.pc.Holding?
    ensures CoverInv(AfterRestore(s, out))
  {
    StaysDelivered(s.past, AfterRestore(s, out).past);
  }

  lemma CoverRan(s: State, out: BatchOut)
    requires OrderInv(s) && WireInv(s) && CoverInv(s) && s.cl.pc.Applying?
    ensures CoverInv(AfterBatch(s, out))
  {
    var t := AfterBatch(s, out);
    StaysDelivered(s.past, t.past);
    if !out.BatchFailed? {
      assert Window(s.cl.pc.from, s.cl.pc.to) in t.past.landed;
    }
  }

  // Everywhere else nothing is delivered, and windows are only dropped while the
  // first bootstrap is pending.
  lemma CoverElsewhere(mode: Mode, l: Label, s: State)
    requires OrderInv(s) && WireInv(s) && CoverInv(s)
    requires !l.ByServer() && !l.Restore? && !l.RunBatch? && ClientEnabled(mode, l, s)
    ensures CoverInv(ClientDo(mode, l, s))
  {
    var t := ClientDo(mode, l, s);
    SameDelivered(mode, l, s);
    if !t.cl.pending || t.cl.pc.Flagging? {
      LimitElsewhere(mode, l, s);
    }
  }

  lemma SameDelivered(mode: Mode, l: Label, s: State)
    requires !l.ByServer() && !l.Restore? && !l.RunBatch? && ClientEnabled(mode, l, s)
    ensures ClientDo(mode, l, s).srv.acked == s.srv.acked
    ensures forall i: nat :: Delivered(ClientDo(mode, l, s).past, i) <==> Delivered(s.past, i)
  {
    var t := ClientDo(mode, l, s);
    assert t.past.landed == s.past.landed && t.past.start == s.past.start;
    assert t.past.seeded == s.past.seeded && t.past.covered == s.past.covered;
  }

  lemma LimitElsewhere(mode: Mode, l: Label, s: State)
    requires OrderInv(s) && WireInv(s) && !l.ByServer() && !l.Restore? && !l.RunBatch? && ClientEnabled(mode, l, s)
    requires var t := ClientDo(mode, l, s); !t.cl.pending || t.cl.pc.Flagging?
    ensures Limit(ClientDo(mode, l, s)) == s.srv.acked ||
            (Limit(ClientDo(mode, l, s)) == Limit(s) && (!s.cl.pending || s.cl.pc.Flagging?))
  {
  }

  // === What every step keeps: acks rise with steady leases ===================

  predicate Rising(wire: seq<Frame>, end: nat) {
    wire == [] ||
    (if wire[0].IsWindow() then end <= wire[0].to && Rising(wire[1..], wire[0].to) else Rising(wire[1..], end))
  }

  ghost predicate RisingAcks(acked: nat, acks: seq<nat>) {
    && (forall i :: 0 <= i < |acks| ==> acked <= acks[i])
    && (forall i, j :: 0 <= i < j < |acks| ==> acks[i] <= acks[j])
  }

  ghost predicate RisingInv(s: State) {
    && (s.net.up ==> Rising(s.net.wire, Taken(s)))
    && (Held(s.cl.pc).Some? ==> Limit(s) <= Held(s.cl.pc).value.to)
    && RisingAcks(s.srv.acked, s.net.acks)
    && (s.cl.pc.Acking? ==>
          s.srv.acked <= s.cl.pc.upTo && forall i :: 0 <= i < |s.net.acks| ==> s.net.acks[i] <= s.cl.pc.upTo)
  }

  lemma {:induction false} RisingAppend(wire: seq<Frame>, f: Frame, end: nat)
    requires Rising(wire, end) && (f.IsWindow() ==> Furthest(wire, end) <= f.to)
    ensures Rising(wire + [f], end)
  {
    if wire == [] {
      assert (wire + [f])[1..] == [];
    } else {
      assert (wire + [f])[1..] == wire[1..] + [f];
      RisingAppend(wire[1..], f, if wire[0].IsWindow() then wire[0].to else end);
    }
  }

  lemma RisingStep(mode: Mode, l: Label, s: State)
    requires OrderInv(s) && WireInv(s) && RisingInv(s) && Enabled(mode, l, s) && mode.steady
    ensures RisingInv(Do(mode, l, s))
  {
    if l.SendWindow? || l.SendRequired? || l.SendOther? {
      RisingAppend(s.net.wire, Outgoing(l, s), Taken(s));
    } else if l.ByServer() {
      RisingServer(mode, l, s);
    } else if l.AboutProcess() {
      RisingProcess(mode, l, s);
    } else if l.AboutSnapshot() {
      RisingSnapshot(mode, l, s);
    } else if l.RunBatch? {
      assert Do(mode, l, s) == AfterBatch(s, l.batch);
      RisingRan(s, l.batch);
    } else {
      RisingFrame(mode, l, s);
    }
  }

  lemma RisingServer(mode: Mode, l: Label, s: State)
    requires WireInv(s) && RisingInv(s) && l.ByServer() && ServerEnabled(mode, l, s)
    requires !l.SendWindow? && !l.SendRequired? && !l.SendOther?
    ensures RisingInv(ServerDo(l, s))
  {
  }

  lemma RisingProcess(mode: Mode, l: Label, s: State)
    requires OrderInv(s) && WireInv(s) && RisingInv(s) && l.AboutProcess() && ClientEnabled(mode, l, s)
    ensures RisingInv(ClientDo(mode, l, s))
  {
  }

  lemma RisingSnapshot(mode: Mode, l: Label, s: State)
    requires OrderInv(s) && WireInv(s) && RisingInv(s) && l.AboutSnapshot() && ClientEnabled(mode, l, s)
    ensures RisingInv(ClientDo(mode, l, s))
  {
    SnapshotKeepsLink(mode, l, s);
    RisingFrom(s, ClientDo(mode, l, s));
  }

  // Snapshot steps leave the connection alone or close it.
  lemma SnapshotKeepsLink(mode: Mode, l: Label, s: State)
    requires OrderInv(s) && FrameInHandOk(s.srv.log, s.cl.pc) && l.AboutSnapshot() && ClientEnabled(mode, l, s)
    ensures var t := ClientDo(mode, l, s);
            && t.srv.acked == s.srv.acked && !t.cl.pc.Acking?
            && (t.net == s.net || t.net == CLOSED)
            && (t.net.up ==> Taken(t) == Taken(s))
            && (Held(t.cl.pc).Some? ==> Held(t.cl.pc) == Held(s.cl.pc) && Limit(t) == Limit(s))
  {
  }

  lemma RisingFrom(s: State, t: State)
    requires RisingInv(s) && t.srv.acked == s.srv.acked && !t.cl.pc.Acking? && (t.net == s.net || t.net == CLOSED)
    requires t.net.up ==> Taken(t) == Taken(s)
    requires Held(t.cl.pc).Some? ==> Held(t.cl.pc) == Held(s.cl.pc) && Limit(t) == Limit(s)
    ensures RisingInv(t)
  {
  }

  lemma RisingRan(s: State, out: BatchOut)
    requires OrderInv(s) && WireInv(s) && RisingInv(s) && s.cl.pc.Applying?
    ensures RisingInv(AfterBatch(s, out))
  {
  }

  lemma RisingFrame(mode: Mode, l: Label, s: State)
    requires OrderInv(s) && WireInv(s) && RisingInv(s) && l.AboutFrame() && !l.RunBatch? && ClientEnabled(mode, l, s)
    ensures RisingInv(ClientDo(mode, l, s))
  {
    if l.Route? || l.Ignore? {
      var t := ClientDo(mode, l, s);
      assert t.srv == s.srv && t.net == s.net && Taken(t) == Taken(s);
    }
  }

  // === What every step keeps: offers made while the first bootstrap is pending =

  // Nothing has been acked on this connection, so no window starts below the cursor.
  ghost predicate OfferInv(s: State) {
    s.cl.pending && InPump(s.cl.pc) ==>
      && (Held(s.cl.pc).Some? ==> s.srv.acked <= Held(s.cl.pc).value.from)
      && (s.net.up ==> s.srv.acked <= s.srv.sent)
      && (forall f :: f in s.net.wire && f.IsWindow() ==> s.srv.acked <= f.from)
  }

  lemma OfferStep(mode: Mode, l: Label, s: State)
    requires OrderInv(s) && OfferInv(s) && Enabled(mode, l, s)
    ensures OfferInv(Do(mode, l, s))
  {
    if l.ByServer() {
      OfferServer(mode, l, s);
    } else if l.Dial? || l.Recv? {
      OfferConnection(mode, l, s);
    } else {
      OfferElsewhere(mode, l, s);
    }
  }

  lemma OfferServer(mode: Mode, l: Label, s: State)
    requires OrderInv(s) && OfferInv(s) && l.ByServer() && ServerEnabled(mode, l, s)
    ensures OfferInv(ServerDo(l, s))
  {
    assert s.cl.pending && InPump(s.cl.pc) ==> !s.cl.boot;
  }

  lemma OfferConnection(mode: Mode, l: Label, s: State)
    requires OrderInv(s) && OfferInv(s) && (l.Dial? || l.Recv?) && ClientEnabled(mode, l, s)
    ensures OfferInv(ClientDo(mode, l, s))
  {
  }

  lemma OfferElsewhere(mode: Mode, l: Label, s: State)
    requires OrderInv(s) && OfferInv(s) && !l.ByServer() && !l.Dial? && !l.Recv? && ClientEnabled(mode, l, s)
    ensures OfferInv(ClientDo(mode, l, s))
  {
    var t := ClientDo(mode, l, s);
    assert t.srv == s.srv && ((t.net.wire == s.net.wire && t.net.up == s.net.up) || t.net == CLOSED);
    if t.cl.pending && InPump(t.cl.pc) {
      OfferHeld(mode, l, s);
    }
  }

  lemma OfferHeld(mode: Mode, l: Label, s: State)
    requires OrderInv(s) && !l.ByServer() && !l.Dial? && !l.Recv? && ClientEnabled(mode, l, s)
    requires var t := ClientDo(mode, l, s); t.cl.pending && InPump(t.cl.pc)
    ensures s.cl.pending && InPump(s.cl.pc)
    ensures var t := ClientDo(mode, l, s); Held(t.cl.pc).Some? ==> Held(t.cl.pc) == Held(s.cl.pc)
  {
  }

  // === Whole runs ============================================================

  ghost predicate Safe(mode: Mode, s: State) {
    && OrderInv(s) && WireInv(s) && CoverInv(s) && OfferInv(s)
    && (mode.steady ==> RisingInv(s))
  }

  lemma InitSafe(mode: Mode, s: State)
    requires Init(mode, s)
    ensures Safe(mode, s)
  {
  }

  lemma SafeStep(mode: Mode, l: Label, s: State)
    requires Safe(mode, s) && Enabled(mode, l, s)
    ensures Safe(mode, Do(mode, l, s))
  {
    OrderStep(mode, l, s);
    WireStep(mode, l, s);
    CoverStep(mode, l, s);
    OfferStep(mode, l, s);
    if mode.steady {
      RisingStep(mode, l, s);
    }
  }

  lemma {:induction false} SafeRun(mode: Mode, s: State, run: seq<Label>)
    requires Safe(mode, s) && Legal(mode, s, run)
    ensures Safe(mode, After(mode, s, run))
  {
    if run != [] {
      var m := |run| - 1;
      PrefixLegal(mode, s, run, m);
      SafeRun(mode, s, run[..m]);
      SafeStep(mode, run[m], After(mode, s, run[..m]));
    }
  }

  // The history fields say what they claim: a snapshot has committed exactly when
  // a step of the run committed one.
  lemma {:induction false} SeededBy(mode: Mode, s0: State, run: seq<Label>)
    requires Init(mode, s0) && Legal(mode, s0, run)
    ensures After(mode, s0, run).past.seeded <==> exists i :: 0 <= i < |run| && Lands(run[i])
    ensures After(mode, s0, run).past.skipped ==> exists i :: 0 <= i < |run| && Skips(run[i])
  {
    if run != [] {
      var m := |run| - 1;
      PrefixLegal(mode, s0, run, m);
      SeededBy(mode, s0, run[..m]);
      SeededStep(mode, run[m], After(mode, s0, run[..m]));
      AnyOf(run);
    }
  }

  lemma AnyOf(run: seq<Label>)
    requires run != []
    ensures var m := |run| - 1;
            && ((exists i :: 0 <= i < |run| && Lands(run[i])) <==>
                Lands(run[m]) || exists i :: 0 <= i < m && Lands(run[..m][i]))
            && ((exists i :: 0 <= i < |run| && Skips(run[i])) <==>
                Skips(run[m]) || exists i :: 0 <= i < m && Skips(run[..m][i]))
  {
    var m := |run| - 1;
    assert forall i :: 0 <= i < m ==> run[..m][i] == run[i];
  }

  lemma SeededStep(mode: Mode, l: Label, s: State)
    requires Enabled(mode, l, s)
    ensures Do(mode, l, s).past.seeded == (s.past.seeded || Lands(l))
    ensures Do(mode, l, s).past.skipped ==> s.past.skipped || Skips(l)
  {
  }

  // A bootstrap flag, in memory or on disk, means an earlier committed snapshot
  // or an explicit --skip-bootstrap, at every crash point; and no batch runs
  // while the first bootstrap is pending.
  lemma BootstrapOrder(mode: Mode, s0: State, run: seq<Label>)
    requires Init(mode, s0) && Legal(mode, s0, run)
    ensures var s := After(mode, s0, run);
            && (s.cl.pc.Applying? ==> s.cl.boot && !s.cl.pending)
            && (s.cl.boot || s.cl.saved ==> exists i :: 0 <= i < |run| && (Lands(run[i]) || Skips(run[i])))
  {
    InitSafe(mode, s0);
    SafeRun(mode, s0, run);
    SeededBy(mode, s0, run);
  }

  // A window dropped while waiting for the first publish is never acked past, in
  // this process or a later one, until a snapshot commits after the drop or a
  // process is started with --skip-bootstrap.
  lemma AbandonedWindows(mode: Mode, s0: State, run: seq<Label>, drop: Label, f: Frame, later: seq<Label>)
    requires Init(mode, s0) && Legal(mode, s0, run)
    requires Enabled(mode, drop, After(mode, s0, run)) && DropsWindow(After(mode, s0, run), drop, f)
    requires Legal(mode, Do(mode, drop, After(mode, s0, run)), later)
    requires forall l :: l in later ==> !Lands(l) && !Skips(l)
    ensures After(mode, Do(mode, drop, After(mode, s0, run)), later).srv.acked <= f.from
  {
    var s := After(mode, s0, run);
    InitSafe(mode, s0);
    SafeRun(mode, s0, run);
    SafeStep(mode, drop, s);
    OwedFrom(mode, drop, s, f);
    StillOwed(mode, Do(mode, drop, s), later, f.from);
  }

  // Nothing from `from` on is acked, and no ack can be sent.
  ghost predicate Owed(s: State, from: nat) {
    !s.cl.boot && !s.cl.saved && !s.cl.pc.Flagging? && |s.net.acks| == 0 && s.srv.acked <= from
  }

  lemma OwedFrom(mode: Mode, l: Label, s: State, f: Frame)
    requires OrderInv(s) && OfferInv(s) && Enabled(mode, l, s) && DropsWindow(s, l, f)
    ensures Owed(Do(mode, l, s), f.from)
  {
  }

  lemma {:induction false} StillOwed(mode: Mode, s: State, run: seq<Label>, from: nat)
    requires Legal(mode, s, run) && forall l :: l in run ==> !Lands(l) && !Skips(l)
    requires Safe(mode, s) && Owed(s, from)
    ensures Owed(After(mode, s, run), from)
  {
    if run != [] {
      var m := |run| - 1;
      PrefixLegal(mode, s, run, m);
      StillOwed(mode, s, run[..m], from);
      SafeRun(mode, s, run[..m]);
      OwedStep(mode, run[m], After(mode, s, run[..m]), from);
    }
  }

  lemma OwedStep(mode: Mode, l: Label, s: State, from: nat)
    requires OrderInv(s) && Enabled(mode, l, s) && !Lands(l) && !Skips(l) && Owed(s, from)
    ensures Owed(Do(mode, l, s), from)
  {
  }

  // The windows of the batches that committed in a run, in order.
  ghost function CommittedWindows(mode: Mode, s0: State, run: seq<Label>): seq<Window>
    requires Legal(mode, s0, run)
  {
    if run == [] then []
    else
      var m := |run| - 1;
      PrefixLegal(mode, s0, run, m);
      var pc := After(mode, s0, run[..m]).cl.pc;
      CommittedWindows(mode, s0, run[..m]) +
      if run[m].RunBatch? && !run[m].batch.BatchFailed? && pc.Applying? then [Window(pc.from, pc.to)] else []
  }

  // Every ack carries the last id of the batch that committed last, before the send.
  lemma {:induction false} AckAfterCommit(mode: Mode, s0: State, run: seq<Label>)
    requires Init(mode, s0) && Legal(mode, s0, run)
    ensures After(mode, s0, run).past.landed == CommittedWindows(mode, s0, run)
    ensures var s := After(mode, s0, run);
            var done := CommittedWindows(mode, s0, run);
            s.cl.pc.Acking? ==> done != [] && done[|done| - 1].to == s.cl.pc.upTo
  {
    if run != [] {
      var m := |run| - 1;
      PrefixLegal(mode, s0, run, m);
      assert run[..m + 1] == run;
      AckAfterCommit(mode, s0, run[..m]);
      LandedStep(mode, run[m], After(mode, s0, run[..m]));
    }
  }

  lemma LandedStep(mode: Mode, l: Label, s: State)
    requires Enabled(mode, l, s)
    ensures var t := Do(mode, l, s);
            if l.RunBatch? && !l.batch.BatchFailed?
            then s.cl.pc.Applying? && t.past.landed == s.past.landed + [Window(s.cl.pc.from, s.cl.pc.to)]
            else t.past.landed == s.past.landed
    ensures var t := Do(mode, l, s);
            t.cl.pc.Acking? ==>
              if l.RunBatch? then l.batch.Committed? && t.cl.pc.upTo == s.cl.pc.to else t.cl.pc == s.cl.pc
  {
  }

  // With steady leases acks never move the server's cursor back, over reconnects,
  // restarts and leases that expire at any moment.
  lemma AckedOnlyGrows(mode: Mode, s0: State, run: seq<Label>, later: seq<Label>)
    requires Init(mode, s0) && Legal(mode, s0, run) && mode.steady
    requires Legal(mode, After(mode, s0, run), later)
    ensures After(mode, s0, run).srv.acked <= After(mode, After(mode, s0, run), later).srv.acked
  {
    InitSafe(mode, s0);
    SafeRun(mode, s0, run);
    AckedGrowsFrom(mode, After(mode, s0, run), later);
  }

  lemma {:induction false} AckedGrowsFrom(mode: Mode, s: State, run: seq<Label>)
    requires Safe(mode, s) && Legal(mode, s, run) && mode.steady
    ensures s.srv.acked <= After(mode, s, run).srv.acked
  {
    if run != [] {
      var m := |run| - 1;
      PrefixLegal(mode, s, run, m);
      AckedGrowsFrom(mode, s, run[..m]);
      SafeRun(mode, s, run[..m]);
      AckedStep(mode, run[m], After(mode, s, run[..m]));
    }
  }

  lemma AckedStep(mode: Mode, l: Label, s: State)
    requires RisingInv(s) && Enabled(mode, l, s)
    ensures s.srv.acked <= Do(mode, l, s).srv.acked
  {
  }

  // Nothing at or below the acked cursor was skipped: each entry was run by a
  // committed batch or is in a committed snapshot.
  lemma AckedIsDelivered(mode: Mode, s0: State, run: seq<Label>, e: nat)
    requires Init(mode, s0) && Legal(mode, s0, run)
    requires s0.srv.acked <= e < After(mode, s0, run).srv.acked
    ensures || (e < After(mode, s0, run).past.covered && exists i :: 0 <= i < |run| && Lands(run[i]))
            || exists w :: w in CommittedWindows(mode, s0, run) && w.from <= e < w.to
  {
    InitSafe(mode, s0);
    SafeRun(mode, s0, run);
    SeededBy(mode, s0, run);
    AckAfterCommit(mode, s0, run);
    StartFixed(mode, s0, run);
    assert Delivered(After(mode, s0, run).past, e);
  }

  lemma {:induction false} StartFixed(mode: Mode, s0: State, run: seq<Label>)
    requires Legal(mode, s0, run)
    ensures After(mode, s0, run).past.start == s0.past.start
  {
    if run != [] {
      var m := |run| - 1;
      PrefixLegal(mode, s0, run, m);
      StartFixed(mode, s0, run[..m]);
      StartStep(mode, run[m], After(mode, s0, run[..m]));
    }
  }

  lemma StartStep(mode: Mode, l: Label, s: State)
    requires Enabled(mode, l, s)
    ensures Do(mode, l, s).past.start == s.past.start
  {
  }

  // === Whole runs: the persisted flag ========================================

  // The step writes Bootstrapped into config.json, and the write succeeds.
  predicate WritesFlag(l: Label, s: State) {
    || (l == SetFlag(true) && !s.cl.boot)
    || l == Start(true, true)
    || (l == Exchange(Granted(true)) && s.cl.boot)
  }

  ghost predicate WritesFlagAt(mode: Mode, s0: State, run: seq<Label>, n: nat)
    requires Legal(mode, s0, run) && n < |run|
  {
    PrefixLegal(mode, s0, run, n);
    WritesFlag(run[n], After(mode, s0, run[..n]))
  }

  // config.json says bootstrapped if and only if one of those writes has succeeded,
  // after a first snapshot, a start with --skip-bootstrap, or a healing by a process
  // that has the flag in memory.
  lemma {:induction false} FlagIsWritten(mode: Mode, s0: State, run: seq<Label>)
    requires Init(mode, s0) && Legal(mode, s0, run)
    ensures After(mode, s0, run).cl.saved <==> exists n: nat :: n < |run| && WritesFlagAt(mode, s0, run, n)
  {
    if run != [] {
      var m := |run| - 1;
      PrefixLegal(mode, s0, run, m);
      FlagIsWritten(mode, s0, run[..m]);
      FlagStep(mode, run[m], After(mode, s0, run[..m]));
      WritesBefore(mode, s0, run, m);
    }
  }

  lemma WritesBefore(mode: Mode, s0: State, run: seq<Label>, m: nat)
    requires Legal(mode, s0, run) && |run| == m + 1 && Legal(mode, s0, run[..m])
    ensures (exists n: nat :: n < |run| && WritesFlagAt(mode, s0, run, n)) <==>
            || (exists n: nat :: n < m && WritesFlagAt(mode, s0, run[..m], n))
            || WritesFlag(run[m], After(mode, s0, run[..m]))
  {
    forall n: nat | n < m
      ensures WritesFlagAt(mode, s0, run, n) <==> WritesFlagAt(mode, s0, run[..m], n)
    {
      assert run[..m][..n] == run[..n];
    }
    assert WritesFlagAt(mode, s0, run, m) <==> WritesFlag(run[m], After(mode, s0, run[..m]));
  }

  lemma FlagStep(mode: Mode, l: Label, s: State)
    requires Enabled(mode, l, s)
    ensures Do(mode, l, s).cl.saved <==> s.cl.saved || WritesFlag(l, s)
  {
  }

  // The first bootstrap is over or was waived.
  predicate Booted(c: Client) {
    c.boot && !(Bootstrapping(c.pc) && PurposeOf(c.pc).FirstRun?)
  }

  // A process started over a profile marked bootstrapped, or with --skip-bootstrap,
  // never bootstraps for a first time, and where the mark is in config.json neither
  // does any later process.
  lemma {:induction false} BootstrapsOnce(mode: Mode, s: State, start: Label, run: seq<Label>)
    requires start.Start? && Enabled(mode, start, s) && Legal(mode, Do(mode, start, s), run)
    requires s.cl.saved || (start.skip && (start.wrote || forall l :: l in run ==> !l.Start?))
    ensures Booted(After(mode, Do(mode, start, s), run).cl)
    ensures s.cl.saved || start.wrote ==> After(mode, Do(mode, start, s), run).cl.saved
  {
    if run != [] {
      var m := |run| - 1;
      var t := Do(mode, start, s);
      PrefixLegal(mode, t, run, m);
      assert run[m] in run && forall l :: l in run[..m] ==> l in run;
      BootstrapsOnce(mode, s, start, run[..m]);
      BootedStep(mode, run[m], After(mode, t, run[..m]));
      FlagStep(mode, run[m], After(mode, t, run[..m]));
    }
  }

  lemma BootedStep(mode: Mode, l: Label, s: State)
    requires Enabled(mode, l, s) && Booted(s.cl) && (l.Start? ==> s.cl.saved)
    ensures Booted(Do(mode, l, s).cl)
  {
  }

  // Any other process, until its first bootstrap has committed and set the flag, dials
  // only with that bootstrap put off to the first publish, and applies nothing.
  lemma {:induction false} BootstrapsFirst(mode: Mode, s: State, wrote: bool, run: seq<Label>)
    requires s.cl.pc.Down? && !s.cl.saved && Legal(mode, Do(mode, Start(false, wrote), s), run)
    requires forall l :: l in run ==> !l.Start? && !l.SetFlag?
    ensures var c := After(mode, Do(mode, Start(false, wrote), s), run).cl;
            !c.boot && !c.pc.Applying? && !c.pc.Acking? && (c.pc.Dialing? || InPump(c.pc) ==> c.pending)
  {
    if run != [] {
      var m := |run| - 1;
      var t := Do(mode, Start(false, wrote), s);
      PrefixLegal(mode, t, run, m);
      assert run[m] in run && forall l :: l in run[..m] ==> l in run;
      BootstrapsFirst(mode, s, wrote, run[..m]);
      UnbootedStep(mode, run[m], After(mode, t, run[..m]));
    }
  }

  lemma UnbootedStep(mode: Mode, l: Label, s: State)
    requires Enabled(mode, l, s) && !l.Start? && !l.SetFlag?
    requires var c := s.cl;
             !c.boot && !c.pc.Applying? && !c.pc.Acking? && (c.pc.Dialing? || InPump(c.pc) ==> c.pending)
    ensures var c := Do(mode, l, s).cl;
            !c.boot && !c.pc.Applying? && !c.pc.Acking? && (c.pc.Dialing? || InPump(c.pc) ==> c.pending)
  {
  }
}

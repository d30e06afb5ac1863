/**
 When the hypotheses of the session theorems hold by themselves: event space, and an
 established session.
 */
module SessionEpochs {
  import opened SeqNum
  import opened Transport
  import opened Session
  import opened SessionReceive
  import opened SessionSend
  import opened SessionSafety
  import opened SessionRuns
  import opened SessionMoves

  // ------------------------------------------------- steps that only send

  /** The step gives the user no data and queues nothing. */
  ghost predicate NoNews(c: Chan<Msg>, out: Out<Msg>) {
    && DataOf(out.events) == []
    && out.chan.expectedID == c.expectedID
    && (out.chan.recvQ == c.recvQ || out.chan.recvQ == map[])
  }

  lemma {:induction false} WriteFromQueueNoNews(c: Chan<Msg>, first: bool, arrivals: nat -> int)
    ensures var out := WriteFromQueue(c, first, arrivals);
            out.events == [] && out.chan.expectedID == c.expectedID && out.chan.recvQ == c.recvQ
    decreases |c.writeQ|
  {
    if c.writeQ != [] && (first || CanWrite(c)) {
      var sent := WriteDirect(c.(writeQ := c.writeQ[1..]), c.writeQ[0], arrivals(|c.writeQ|));
      WriteFromQueueNoNews(sent.chan, false, arrivals);
    }
  }

  lemma NonDataNoNews(c: Chan<Msg>, p: Packet<Msg>, budget: nat, arrivals: nat -> int, allow: bool)
    requires !p.Data?
    ensures DataOf(Process(c, p, budget, arrivals, allow).events) == []
    ensures !p.Reset? && !p.AckReset? ==> NoNews(c, Process(c, p, budget, arrivals, allow))
  {
    var c1 := Connect(c).chan;
    if p.Ack? {
      WriteFromQueueNoNews(c1.(sendQ := SqRemove(c1.sendQ, p.id)), true, arrivals);
    }
    var events := Handle(c1, p, budget, arrivals, allow).events;
    assert events == [] || events == [GotAckPing] || events == [ResetLocal];
    assert DataOf([Connected]) == [] && DataOf([GotAckPing]) == [] && DataOf([ResetLocal]) == [];
    DataOfConcat(Connect(c).events, events);
  }

  lemma OtherStepsNoNews(x: Side, y: Side, step: Step)
    requires OneWay(x, y) && OneWay(y, x) && Enabled(x, y, step) && !step.Lose?
    requires !(step.Receive? && step.flight.packet.Data?)
    ensures NoNews(x.chan, Output(x.chan, step, |x.written|))
  {
    match step
    case Receive(f, budget, arrivals, allow) =>
      assert FlightOk(f, y.written, Issued(y.chan, y.written));
      NonDataNoNews(x.chan, f.packet, budget, arrivals, allow);
    case Send(_, _) =>
    case Elapse(t) => TickSafe(x.chan, x.written, t);
    case Shut => assert DataOf([Disconnected]) == [];
  }

  // ------------------------------------------------------------ event space

  /** The step finds room in the event channel for all it might deliver. */
  ghost predicate Spacious(x: Side, step: Step) {
    step.Receive? && step.flight.packet.Data? ==> EventSpace(x.chan, step.budget)
  }

  /** Only later messages are queued. */
  ghost predicate OnlyLater(x: Side) {
    QueuedWithin(x.chan, |x.delivered| + 1, |x.delivered| + REACH)
  }

  /** All that is outstanding from x to y, what y has queued not counted. */
  ghost predicate NetWindow(x: Side, y: Side) {
    var e := |y.delivered|;
    && (forall f | f in x.net && f.packet.Data? :: Near(e, f.packet.payload.n))
    && (forall f | f in y.net && f.packet.Ack? :: Near(e, f.tag))
    && QueueNear(x.chan.sendQ, e)
  }

  ghost predicate NetWindows(s: Session) {
    NetWindow(s.a, s.b) && NetWindow(s.b, s.a)
  }

  ghost predicate SpaciousRun(r: Run)
    requires IsRun(r)
  {
    forall i | 0 <= i < |r.steps| :: Spacious(Me(r.states[i], r.movers[i]), r.steps[i])
  }

  lemma LaterStaysLater(x: Side, y: Side, step: Step)
    requires OneWay(x, y) && OneWay(y, x) && Enabled(x, y, step)
    requires Clean(x, step) && Spacious(x, step)
    requires WindowOneWay(y, x) && OnlyLater(x)
    ensures OnlyLater(Move(x, step))
  {
    if step.Receive? && step.flight.packet.Data? {
      var f, c := step.flight, x.chan.(connected := true);
      ProcessData(x, y, f, step.budget, step.arrivals, step.allowEvents);
      var dp := DataProcess(c, Wire(f.tag), y.written[f.tag], step.budget);
      DataBranch(c, x.delivered, y.written, f.tag, step.budget);
      DataFresh(c, x.delivered, y.written, f.tag, step.budget, dp);
      assert |x.delivered + DataOf(dp.events)| >= |x.delivered|;
    } else if !step.Lose? {
      OtherStepsNoNews(x, y, step);
    }
  }

  lemma LaterIsInWindow(s: Session)
    requires OnlyLater(s.a) && OnlyLater(s.b) && NetWindows(s)
    ensures Window(s)
  {
  }

  lemma SpaciousStep(s: Session, who: Who, step: Step, s': Session)
    requires Inv(s) && Window(s) && OnlyLater(s.a) && OnlyLater(s.b)
    requires Next(s, who, step, s') && Clean(Me(s, who), step) && Spacious(Me(s, who), step)
    requires NetWindows(s')
    ensures Inv(s') && OnlyLater(s'.a) && OnlyLater(s'.b)
  {
    hide Move, Enabled, Clean, Spacious, OnlyLater, OneWay, WindowOneWay, NetWindows;
    LaterStaysLater(Me(s, who), Peer(s, who), step);
    LaterIsInWindow(s');
    NextKeeps(s, who, step, s');
  }

  lemma {:induction false} SpaciousRunIsInWindow(r: Run, k: nat)
    requires IsRun(r) && k < |r.states| && NoResetBefore(r, k) && SpaciousRun(r)
    requires Inv(r.states[0]) && OnlyLater(r.states[0].a) && OnlyLater(r.states[0].b)
    requires forall i | 0 <= i < |r.states| :: NetWindows(r.states[i])
    ensures Inv(r.states[k]) && OnlyLater(r.states[k].a) && OnlyLater(r.states[k].b)
    ensures Window(r.states[k])
  {
    hide Inv, Window, Next, OnlyLater, NetWindows, Clean, Spacious;
    if k > 0 {
      SpaciousRunIsInWindow(r, k - 1);
      var s, s', who, step := r.states[k - 1], r.states[k], r.movers[k - 1], r.steps[k - 1];
      SpaciousStep(s, who, step, s');
    }
    LaterIsInWindow(r.states[k]);
  }

  /** With event space throughout, no message is ever left behind in a receive
      queue, and packet ids may wrap any number of times. */
  lemma SpaciousSessionIsReliable(r: Run, k: nat)
    requires IsRun(r) && StartsNew(r) && k < |r.states|
    requires NoReset(r) && SpaciousRun(r)
    requires forall i | 0 <= i < |r.states| :: NetWindows(r.states[i])
    ensures Reliable(r.states[k].a, r.states[k].b)
    ensures Reliable(r.states[k].b, r.states[k].a)
    ensures OnlyLater(r.states[k].a) && OnlyLater(r.states[k].b)
  {
    var m, l :| r.states[0] == Session(NewSide(m), NewSide(l));
    NewIsInv(m, l);
    SpaciousRunIsInWindow(r, k);
  }

  // ------------------------------------------------------------ established

  /** The channel will never send a packet with id 0 again. */
  ghost predicate PastFirst(c: Chan<Msg>) {
    && (c.stopped || c.id != FIRST_PACKET_ID)
    && forall i | 0 <= i < |c.sendQ| :: c.sendQ[i].packet.id != FIRST_PACKET_ID
  }

  ghost predicate NoFirst(wire: seq<Packet<Msg>>) {
    forall p | p in wire && p.Data? :: p.id != FIRST_PACKET_ID
  }

  /** Packet 0 went through from x to y, and no copy of it is left anywhere. */
  ghost predicate Established(x: Side, y: Side) {
    && PastFirst(x.chan)
    && y.chan.expectedID != FIRST_PACKET_ID
    && forall f | f in x.net && f.packet.Data? :: f.packet.id != FIRST_PACKET_ID
  }

  lemma WriteDirectPastFirst(c: Chan<Msg>, data: Msg, arrival: int)
    requires PastFirst(c) && !c.stopped
    ensures var out := WriteDirect(c, data, arrival); PastFirst(out.chan) && NoFirst(out.wire)
  {
  }

  lemma {:induction false} WriteFromQueuePastFirst(c: Chan<Msg>, first: bool, arrivals: nat -> int)
    requires PastFirst(c) && !c.stopped
    ensures var out := WriteFromQueue(c, first, arrivals); PastFirst(out.chan) && NoFirst(out.wire)
    decreases |c.writeQ|
  {
    if c.writeQ != [] && (first || CanWrite(c)) {
      var c1 := c.(writeQ := c.writeQ[1..]);
      WriteDirectPastFirst(c1, c.writeQ[0], arrivals(|c.writeQ|));
      WriteFromQueuePastFirst(WriteDirect(c1, c.writeQ[0], arrivals(|c.writeQ|)).chan, false, arrivals);
    }
  }

  lemma {:induction false} ResendPastFirst(c: Chan<Msg>, i: nat, now: int, arrivals: nat -> int)
    requires PastFirst(c)
    ensures var out := Resend(c, i, now, arrivals); PastFirst(out.chan) && NoFirst(out.wire)
    decreases |c.sendQ| - i
  {
    if i < |c.sendQ| && now > c.sendQ[i].arrivalTime && c.sendQ[i].resendAttempt < MAX_RESEND_ATTEMPT {
      var resent := c.(sendQ := SqAdd(c.sendQ, c.sendQ[i].packet, arrivals(i)));
      assert |resent.sendQ| == |c.sendQ|;
      ResendPastFirst(resent, i + 1, now, arrivals);
    }
  }

  lemma DrainLeavesSending(c: Chan<Msg>, budget: nat)
    ensures var out := Drain(c, budget);
            && out.chan == c.(expectedID := out.chan.expectedID, recvQ := out.chan.recvQ) && out.wire == []
            && (c.expectedID != FIRST_PACKET_ID ==> out.chan.expectedID != FIRST_PACKET_ID)
    decreases |c.recvQ|
  {
  }

  /** A packet that triggers no reset leaves the sending part alone, and is not followed
      by a first one. */
  lemma CleanLeavesSending(c: Chan<Msg>, id: ID, data: Msg, budget: nat)
    requires id == FIRST_PACKET_ID <==> c.expectedID == FIRST_PACKET_ID
    ensures var out := DataProcess(c, id, data, budget);
            && out.chan == c.(expectedID := out.chan.expectedID, recvQ := out.chan.recvQ, dropped := out.chan.dropped)
            && out.wire == [] && out.chan.expectedID != FIRST_PACKET_ID
  {
    DrainLeavesSending(c.(expectedID := NextID(c.expectedID)), budget);
    DrainLeavesSending(c.(recvQ := c.recvQ[id := data]), budget);
  }

  lemma DataOutput(x: Side, y: Side, step: Step)
    requires Enabled(x, y, step) && Clean(x, step) && step.Receive? && step.flight.packet.Data?
    ensures var out := Output(x.chan, step, |x.written|);
            && (PastFirst(x.chan) ==> PastFirst(out.chan) && NoFirst(out.wire))
            && out.chan.expectedID != FIRST_PACKET_ID
  {
    hide DataProcess;
    var p := step.flight.packet;
    CleanLeavesSending(x.chan.(connected := true), p.id, p.payload, step.budget);
  }

  lemma EstablishedOutput(x: Side, y: Side, step: Step)
    requires OneWay(x, y) && OneWay(y, x) && Enabled(x, y, step) && Clean(x, step) && !step.Lose?
    ensures var out := Output(x.chan, step, |x.written|);
            && (PastFirst(x.chan) ==> PastFirst(out.chan) && NoFirst(out.wire))
            && (x.chan.expectedID != FIRST_PACKET_ID ==> out.chan.expectedID != FIRST_PACKET_ID)
  {
    if step.Receive? && step.flight.packet.Data? {
      DataOutput(x, y, step);
    } else {
      OtherStepsNoNews(x, y, step);
      if PastFirst(x.chan) { OtherOutput(x, y, step); }
    }
  }

  lemma AckPastFirst(x: Side, step: Step)
    requires !x.chan.stopped && step.Receive? && step.flight.packet.Ack? && PastFirst(x.chan)
    ensures var out := Output(x.chan, step, |x.written|); PastFirst(out.chan) && NoFirst(out.wire)
  {
    var c := x.chan.(connected := true, sendQ := SqRemove(x.chan.sendQ, step.flight.packet.id));
    assert PastFirst(c);
    WriteFromQueuePastFirst(c, true, step.arrivals);
    assert Output(x.chan, step, |x.written|) == Then(Connect(x.chan), WriteFromQueue(c, true, step.arrivals));
  }

  lemma OtherOutput(x: Side, y: Side, step: Step)
    requires OneWay(y, x) && Enabled(x, y, step) && !step.Lose? && PastFirst(x.chan)
    requires !(step.Receive? && step.flight.packet.Data?)
    ensures var out := Output(x.chan, step, |x.written|); PastFirst(out.chan) && NoFirst(out.wire)
  {
    match step
    case Receive(f, _, _, _) =>
      if f.packet.Ack? {
        AckPastFirst(x, step);
      } else {
        assert FlightOk(f, y.written, Issued(y.chan, y.written));
      }
    case Send(data, arrival) =>
      WriteDirectPastFirst(x.chan, Msg(|x.written|, data), arrival);
    case Elapse(t) =>
      ResendPastFirst(x.chan, 0, t.now, t.arrivals);
    case Shut =>
  }

  /** What is established in a direction stays so, whoever makes a step. */
  lemma EstablishedStays(x: Side, y: Side, step: Step)
    requires OneWay(x, y) && OneWay(y, x) && Enabled(x, y, step) && Clean(x, step)
    ensures Established(x, y) ==> Established(Move(x, step), y)
    ensures Established(y, x) ==> Established(y, Move(x, step))
  {
    if !step.Lose? {
      hide Output, PastFirst;
      EstablishedOutput(x, y, step);
    }
  }

  /** From an established direction, or one in which nothing was ever written, no packet
      can come that triggers a reset. */
  lemma SettledIsClean(x: Side, y: Side, step: Step)
    requires OneWay(y, x) && Enabled(x, y, step)
    requires Established(y, x) || y.written == []
    ensures Clean(x, step)
  {
    if step.Receive? { assert FlightOk(step.flight, y.written, Issued(y.chan, y.written)); }
  }

  // ------------------------------------------------- established sessions

  /** The direction from who is established in state e, or who never writes after. */
  ghost predicate Settled(r: Run, who: Who, e: nat)
    requires e < |r.states|
  {
    || Established(Me(r.states[e], who), Peer(r.states[e], who))
    || forall i | e <= i < |r.states| :: Me(r.states[i], who).written == []
  }

  /** What was established in state e still is in state k. */
  ghost predicate StillEstablished(r: Run, who: Who, e: nat, k: nat)
    requires e <= k < |r.states|
  {
    Established(Me(r.states[e], who), Peer(r.states[e], who)) ==>
      Established(Me(r.states[k], who), Peer(r.states[k], who))
  }

  lemma SettledStep(r: Run, e: nat, k: nat)
    requires IsRun(r) && e <= k < |r.steps| && Inv(r.states[k])
    requires Settled(r, A, e) && Settled(r, B, e)
    requires StillEstablished(r, A, e, k) && StillEstablished(r, B, e, k)
    ensures Clean(Me(r.states[k], r.movers[k]), r.steps[k])
    ensures StillEstablished(r, A, e, k + 1) && StillEstablished(r, B, e, k + 1)
  {
    hide Move, Clean, Established, OneWay;
    var s, who, step := r.states[k], r.movers[k], r.steps[k];
    assert Next(s, who, step, r.states[k + 1]);
    SettledIsClean(Me(s, who), Peer(s, who), step);
    EstablishedStays(Me(s, who), Peer(s, who), step);
  }

  lemma {:induction false} EstablishedKeeps(r: Run, e: nat, k: nat)
    requires IsRun(r) && e <= k < |r.states| && InWindow(r)
    requires Inv(r.states[0]) && NoResetBefore(r, e) && Settled(r, A, e) && Settled(r, B, e)
    ensures NoResetBefore(r, k) && StillEstablished(r, A, e, k) && StillEstablished(r, B, e, k)
  {
    hide Inv, Window, Next, Settled, Established, Clean;
    if k > e {
      EstablishedKeeps(r, e, k - 1);
      RunKeeps(r, k - 1);
      SettledStep(r, e, k - 1);
    }
  }

  /** Once each direction is established, or nothing is written in it, no reset can be
      triggered any more: the guarantee holds with no hypothesis on which packets come. */
  lemma EstablishedSessionIsReliable(r: Run, e: nat, k: nat)
    requires IsRun(r) && StartsNew(r) && e <= k < |r.states| && InWindow(r)
    requires NoResetBefore(r, e) && Settled(r, A, e) && Settled(r, B, e)
    ensures Reliable(r.states[k].a, r.states[k].b)
    ensures Reliable(r.states[k].b, r.states[k].a)
    ensures NoResetBefore(r, k)
  {
    hide Inv, Window, Next, Settled, Clean, Reliable;
    var m, l :| r.states[0] == Session(NewSide(m), NewSide(l));
    NewIsInv(m, l);
    EstablishedKeeps(r, e, k);
    RunKeeps(r, k);
    InvIsReliable(r.states[k]);
  }

  lemma {:induction false} EstablishedSpaciousKeeps(r: Run, e: nat, k: nat)
    requires IsRun(r) && e <= k < |r.states| && SpaciousRun(r)
    requires forall i | 0 <= i < |r.states| :: NetWindows(r.states[i])
    requires Inv(r.states[0]) && OnlyLater(r.states[0].a) && OnlyLater(r.states[0].b)
    requires NoResetBefore(r, e) && Settled(r, A, e) && Settled(r, B, e)
    ensures NoResetBefore(r, k) && StillEstablished(r, A, e, k) && StillEstablished(r, B, e, k)
  {
    hide Inv, Next, Settled, Established, Clean, NetWindows, OnlyLater, Spacious;
    if k > e {
      EstablishedSpaciousKeeps(r, e, k - 1);
      SpaciousRunIsInWindow(r, k - 1);
      SettledStep(r, e, k - 1);
    }
  }

  /** With event space besides, a bound on what the network and the send queues hold is
      all that is left to assume. */
  lemma EstablishedSpaciousIsReliable(r: Run, e: nat, k: nat)
    requires IsRun(r) && StartsNew(r) && e <= k < |r.states| && SpaciousRun(r)
    requires forall i | 0 <= i < |r.states| :: NetWindows(r.states[i])
    requires NoResetBefore(r, e) && Settled(r, A, e) && Settled(r, B, e)
    ensures Reliable(r.states[k].a, r.states[k].b)
    ensures Reliable(r.states[k].b, r.states[k].a)
    ensures OnlyLater(r.states[k].a) && OnlyLater(r.states[k].b) && NoResetBefore(r, k)
  {
    hide Inv, Next, Settled, Clean, Reliable, NetWindows, Spacious;
    var m, l :| r.states[0] == Session(NewSide(m), NewSide(l));
    NewIsInv(m, l);
    EstablishedSpaciousKeeps(r, e, k);
    SpaciousRunIsInWindow(r, k);
    InvIsReliable(r.states[k]);
  }

  ghost predicate Short(s: Session) {
    |s.a.written| <= REACH && |s.b.written| <= REACH
  }

  lemma {:induction false} EstablishedShortKeeps(r: Run, e: nat, k: nat)
    requires IsRun(r) && e <= k < |r.states| && forall i | 0 <= i <= k :: Short(r.states[i])
    requires Inv(r.states[0]) && NoResetBefore(r, e) && Settled(r, A, e) && Settled(r, B, e)
    ensures NoResetBefore(r, k) && StillEstablished(r, A, e, k) && StillEstablished(r, B, e, k)
  {
    hide Inv, Next, Settled, Established, Clean;
    if k > e {
      EstablishedShortKeeps(r, e, k - 1);
      assert forall i | 0 <= i <= k - 1 :: Short(r.states[i]);
      ShortRunKeeps(r, k - 1);
      SettledStep(r, e, k - 1);
    }
  }

  /** And while each user has written at most 2^31-2 messages, nothing at all. */
  lemma EstablishedShortIsReliable(r: Run, e: nat, k: nat)
    requires IsRun(r) && StartsNew(r) && e <= k < |r.states|
    requires forall i | 0 <= i <= k :: Short(r.states[i])
    requires NoResetBefore(r, e) && Settled(r, A, e) && Settled(r, B, e)
    ensures Reliable(r.states[k].a, r.states[k].b)
    ensures Reliable(r.states[k].b, r.states[k].a)
    ensures NoResetBefore(r, k)
  {
    hide Inv, Next, Settled, Clean, Reliable;
    var m, l :| r.states[0] == Session(NewSide(m), NewSide(l));
    NewIsInv(m, l);
    EstablishedShortKeeps(r, e, k);
    assert forall i | 0 <= i <= k :: Short(r.states[i]);
    ShortRunKeeps(r, k);
    InvIsReliable(r.states[k]);
  }

  // ------------------------------------------------------ such runs exist

  lemma ExtendCleanly(r: Run, who: Who, step: Step)
    requires IsRun(r) && NoReset(r) && Clean(Me(Last(r), who), step)
    requires Enabled(Me(Last(r), who), Peer(Last(r), who), step)
    ensures var r' := Extend(r, who, step);
            IsRun(r') && NoReset(r') && Last(r') == After(Last(r), who, step) && r'.states[0] == r.states[0]
  {
    hide Move, Clean, Next;
    ExtendIsRun(r, who, step);
    var r' := Extend(r, who, step);
    forall i | 0 <= i < |r'.steps|
      ensures Clean(Me(r'.states[i], r'.movers[i]), r'.steps[i])
    {
      if i < |r.steps| { assert Clean(Me(r.states[i], r.movers[i]), r.steps[i]); }
    }
  }

  /** A writes a message; its packet arrives, the acknowledgement arrives, and the copy
      still in flight is lost. */
  ghost function OneWayRun(d0: Bytes, arrivals: nat -> int): Run {
    var f := DataFlight(0, 0, d0);
    Extend(Extend(Extend(OneSent(d0), B, Take(f, arrivals)), A, Take(Flight(0, Ack(0)), arrivals)), A, Lose(f))
  }

  lemma OneWayRunIs(d0: Bytes, arrivals: nat -> int)
    ensures var r, m := OneWayRun(d0, arrivals), Msg(0, d0);
            && IsRun(r) && NoReset(r) && r.states[0] == NewRun().states[0]
            && Last(r) == Session(Side(FRESH.(id := 1, connected := true), [m], [], {}),
                                  Side(FRESH.(expectedID := 1, connected := true), [], [m], {Flight(0, Ack(0))}))
  {
    hide Move, IsRun, NoReset;
    var f := DataFlight(0, 0, d0);
    OneSentIs(d0);
    OneSentIsClean(d0);
    var r1 := OneSent(d0);
    ExtendCleanly(r1, B, Take(f, arrivals));
    FirstMoves(Last(r1).b, f, arrivals);
    var r2 := Extend(r1, B, Take(f, arrivals));
    assert {} + {Flight(0, Ack(0))} == {Flight(0, Ack(0))};
    ExtendCleanly(r2, A, Take(Flight(0, Ack(0)), arrivals));
    AckMoves(Last(r2).a, Flight(0, Ack(0)), arrivals);
    var r3 := Extend(r2, A, Take(Flight(0, Ack(0)), arrivals));
    assert SqRemove([QueueEntry(0, 0, d0)], 0) == [];
    ExtendCleanly(r3, A, Lose(f));
    LoseMoves(Last(r3).a, f);
    assert {f} - {f} == {};
  }

  lemma OneSentIsClean(d0: Bytes)
    ensures IsRun(OneSent(d0)) && NoReset(OneSent(d0))
  {
    hide Move;
    ExtendCleanly(NewRun(), A, Send(d0, 0));
  }

  lemma LoseMoves(x: Side, f: Flight)
    ensures Move(x, Lose(f)) == x.(net := x.net - {f})
  {
  }

  /** Then B writes one, and the same happens to it. */
  ghost function BothWaysRun(d0: Bytes, d1: Bytes, arrivals: nat -> int): Run {
    var f := DataFlight(0, 0, d1);
    var r := Extend(OneWayRun(d0, arrivals), B, Send(d1, 0));
    Extend(Extend(Extend(r, A, Take(f, arrivals)), B, Take(Flight(0, Ack(0)), arrivals)), B, Lose(f))
  }

  /** New channels reach an established direction, the other one silent; and from there
      a session established both ways. */
  lemma EstablishedIsReached(d0: Bytes, d1: Bytes, arrivals: nat -> int)
    ensures var r := OneWayRun(d0, arrivals);
            && IsRun(r) && StartsNew(r) && NoReset(r)
            && Established(Last(r).a, Last(r).b) && Last(r).b.written == []
    ensures var r := BothWaysRun(d0, d1, arrivals);
            && IsRun(r) && StartsNew(r) && NoReset(r)
            && Established(Last(r).a, Last(r).b) && Established(Last(r).b, Last(r).a)
  {
    hide Move, IsRun, NoReset;
    OneWayRunIs(d0, arrivals);
    BothWaysRunIs(d0, d1, arrivals);
  }

  lemma BothWaysRunIs(d0: Bytes, d1: Bytes, arrivals: nat -> int)
    ensures var r, m0, m1 := BothWaysRun(d0, d1, arrivals), Msg(0, d0), Msg(0, d1);
            && IsRun(r) && NoReset(r) && r.states[0] == NewRun().states[0]
            && Last(r).a == Side(FRESH.(id := 1, expectedID := 1, connected := true), [m0], [m1], {Flight(0, Ack(0))})
            && Last(r).b == Side(FRESH.(id := 1, expectedID := 1, connected := true), [m1], [m0], {Flight(0, Ack(0))})
  {
    hide Move, IsRun, NoReset;
    var f, ack := DataFlight(0, 0, d1), Flight(0, Ack(0));
    OneWayRunIs(d0, arrivals);
    var r4 := OneWayRun(d0, arrivals);
    ExtendCleanly(r4, B, Send(d1, 0));
    SendMoves(Last(r4).b, d1);
    var r5 := Extend(r4, B, Send(d1, 0));
    ExtendCleanly(r5, A, Take(f, arrivals));
    FirstMoves(Last(r5).a, f, arrivals);
    var r6 := Extend(r5, A, Take(f, arrivals));
    assert ack in Last(r6).a.net;
    ExtendCleanly(r6, B, Take(ack, arrivals));
    AckMoves(Last(r6).b, ack, arrivals);
    var r7 := Extend(r6, B, Take(ack, arrivals));
    assert SqRemove([QueueEntry(0, 0, d1)], 0) == [];
    ExtendCleanly(r7, B, Lose(f));
    LoseMoves(Last(r7).b, f);
    assert {ack, f} - {f} == {ack};
    assert {} + {ack} == {ack};
  }
}

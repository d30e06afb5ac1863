/**
 What holds in every run of a session: messages arrive in order, none is repeated,
 none is lost.
 */
module SessionSafety {
  import opened SeqNum
  import opened Transport
  import opened Session
  import opened SessionReceive
  import opened SessionSend

  // ------------------------------------------------ the invariant, one way

  /** No reset is in flight, and a message packet carries one that was sent. */
  ghost predicate FlightOk(f: Flight, written: seq<Msg>, issued: int) {
    && !f.packet.Reset? && !f.packet.AckReset?
    && (f.packet.Data? ==> GoodData(f.packet, written) && f.tag == f.packet.payload.n < issued)
  }

  ghost predicate SenderOk(x: Side) {
    && Numbered(x.written)
    && (if x.chan.stopped then x.chan.sendQ == [] else SendOk(x.chan, x.written))
    && (forall f | f in x.net :: FlightOk(f, x.written, Issued(x.chan, x.written)))
  }

  ghost predicate AckOk(f: Flight, y: Side, written: seq<Msg>) {
    f.packet.Ack? ==>
      && f.tag < |written| && f.packet.id == Wire(f.tag)
      && (!y.chan.stopped ==> Held(y.chan, y.delivered, f.tag))
  }

  ghost predicate ReceiverOk(y: Side, written: seq<Msg>) {
    && RecvOk(y.chan, y.delivered, written)
    && (forall f | f in y.net :: AckOk(f, y, written))
  }

  /** Every message sent is held by the receiver or kept by the sender. */
  ghost predicate NothingLost(x: Side, y: Side) {
    !x.chan.stopped && !y.chan.stopped ==>
      forall n: nat | n < Issued(x.chan, x.written) ::
        Held(y.chan, y.delivered, n) || Unacked(x.chan.sendQ, n)
  }

  ghost predicate OneWay(x: Side, y: Side) {
    SenderOk(x) && ReceiverOk(y, x.written) && NothingLost(x, y)
  }

  ghost predicate Inv(s: Session) {
    OneWay(s.a, s.b) && OneWay(s.b, s.a)
  }

  // ------------------------------------------ what is assumed of the network

  /** Everything outstanding from x to y is within REACH of y's position. */
  ghost predicate WindowOneWay(x: Side, y: Side) {
    var e := |y.delivered|;
    && (forall f | f in x.net && f.packet.Data? :: Near(e, f.packet.payload.n))
    && (forall f | f in y.net && f.packet.Ack? :: Near(e, f.tag))
    && QueueNear(x.chan.sendQ, e)
    && QueuedWithin(y.chan, e - REACH, e + REACH)
  }

  ghost predicate Window(s: Session) {
    WindowOneWay(s.a, s.b) && WindowOneWay(s.b, s.a)
  }

  /** The step is not the arrival of a packet that starts a reset: a first packet
      that was already delivered, or another one before the first. */
  predicate Clean(x: Side, step: Step) {
    step.Receive? && step.flight.packet.Data? ==>
      (step.flight.packet.id == FIRST_PACKET_ID <==> x.chan.expectedID == FIRST_PACKET_ID)
  }

  // ------------------------------------------------------ steps, case by case

  /** The step leaves the receiving part of the channel and its news alone. */
  lemma SendingKeepsReceiver(x: Side, out: Out<Msg>, tag: nat, written: seq<Msg>)
    requires ReceiverOk(x, written)
    requires SameRecvPart(x.chan, out.chan) && out.chan.stopped == x.chan.stopped
    requires DataOf(out.events) == []
    requires forall p | p in out.wire :: !p.Ack?
    ensures ReceiverOk(Emit(x, out, tag), written)
    ensures Emit(x, out, tag).delivered == x.delivered
  {
    var x' := Emit(x, out, tag);
    assert x'.delivered == x.delivered;
    forall f | f in x'.net
      ensures AckOk(f, x', written)
    {
      if f in x.net { assert AckOk(f, x, written); }
    }
  }

  lemma StoppingKeepsReceiver(x: Side, out: Out<Msg>, tag: nat, written: seq<Msg>)
    requires ReceiverOk(x, written)
    requires out.chan.expectedID == x.chan.expectedID && out.chan.recvQ == map[] && out.chan.stopped
    requires DataOf(out.events) == []
    requires forall p | p in out.wire :: !p.Ack?
    ensures ReceiverOk(Emit(x, out, tag), written)
    ensures Emit(x, out, tag).delivered == x.delivered
  {
    var x' := Emit(x, out, tag);
    assert x'.delivered == x.delivered;
    forall f | f in x'.net
      ensures AckOk(f, x', written)
    {
      if f in x.net { assert AckOk(f, x, written); }
    }
  }

  lemma EmitFlights(x: Side, out: Out<Msg>, tag: nat, written: seq<Msg>)
    requires forall f | f in x.net :: FlightOk(f, written, Issued(out.chan, written))
    requires forall p | p in out.wire ::
      (GoodData(p, written) && p.payload.n < Issued(out.chan, written)) || p.Ping? || p.Ack? || p.AckPing?
    ensures forall f | f in Emit(x, out, tag).net :: FlightOk(f, written, Issued(out.chan, written))
  {
  }

  // A message packet arrives.

  ghost predicate DataStep(x: Side, y: Side, f: Flight, budget: nat) {
    && OneWay(x, y) && OneWay(y, x) && WindowOneWay(y, x)
    && !x.chan.stopped && f in y.net && f.packet.Data?
    && (f.packet.id == FIRST_PACKET_ID <==> x.chan.expectedID == FIRST_PACKET_ID)
  }

  lemma ProcessData(x: Side, y: Side, f: Flight, budget: nat, arrivals: nat -> int, allow: bool)
    requires DataStep(x, y, f, budget)
    ensures f.packet == Data(Wire(f.tag), f.packet.payload)
    ensures var c, out := x.chan.(connected := true), Process(x.chan, f.packet, budget, arrivals, allow);
            var dp := DataProcess(c, f.packet.id, f.packet.payload, budget);
            && f.tag < |y.written| && f.packet.payload == y.written[f.tag]
            && DataArrives(c, x.delivered, y.written, f.tag)
            && out.chan == dp.chan && out.wire == [Ack(Wire(f.tag))] && DataOf(out.events) == DataOf(dp.events)
            && Received(c, x.delivered, y.written, dp)
            && Held(dp.chan, x.delivered + DataOf(dp.events), f.tag)
  {
    assert FlightOk(f, y.written, Issued(y.chan, y.written));
    var c := x.chan.(connected := true);
    assert Near(|x.delivered|, f.tag);
    DataSafe(c, x.delivered, y.written, f.tag, budget);
    var dp := DataProcess(c, f.packet.id, f.packet.payload, budget);
    DataOfConcat(Connect(x.chan).events, [] + dp.events);
    assert [] + dp.events == dp.events;
    assert DataOf([Connected]) == [] + DataOf([]);
  }

  lemma ReceiveDataKeeps(x: Side, y: Side, f: Flight, budget: nat, arrivals: nat -> int, allow: bool)
    requires DataStep(x, y, f, budget)
    ensures var x' := Emit(x, Process(x.chan, f.packet, budget, arrivals, allow), f.tag);
            OneWay(x', y) && OneWay(y, x')
  {
    ProcessData(x, y, f, budget, arrivals, allow);
    var out := Process(x.chan, f.packet, budget, arrivals, allow);
    TakeDelivery(x, y, out, f.tag);
  }

  lemma TakeDelivery(x: Side, y: Side, out: Out<Msg>, n: nat)
    requires OneWay(x, y) && OneWay(y, x) && !x.chan.stopped && n < |y.written|
    requires out.wire == [Ack(Wire(n))]
    requires out.chan == x.chan.(connected := true, expectedID := out.chan.expectedID, recvQ := out.chan.recvQ,
                                      dropped := out.chan.dropped)
    requires RecvOk(out.chan, x.delivered + DataOf(out.events), y.written)
    requires KeepsHeld(x.chan.(connected := true), x.delivered, out.chan, x.delivered + DataOf(out.events))
    requires Held(out.chan, x.delivered + DataOf(out.events), n)
    ensures var x' := Emit(x, out, n); OneWay(x', y) && OneWay(y, x')
  {
    var x' := Emit(x, out, n);
    EmitFlights(x, out, n, x.written);
    forall k: nat | Held(x.chan, x.delivered, k)
      ensures Held(x'.chan, x'.delivered, k)
    {
      assert Held(x.chan.(connected := true), x.delivered, k);
    }
    forall f | f in x'.net
      ensures AckOk(f, x', y.written)
    {
      if f in x.net { assert AckOk(f, x, y.written); } else { assert f == Flight(n, Ack(Wire(n))); }
    }
  }

  // An acknowledgement arrives.

  lemma ReceiveAckKeeps(x: Side, y: Side, f: Flight, budget: nat, arrivals: nat -> int, allow: bool, e: nat)
    requires OneWay(x, y) && OneWay(y, x)
    requires !x.chan.stopped && f in y.net && f.packet.Ack?
    requires QueueNear(x.chan.sendQ, e) && Near(e, f.tag)
    requires WireNear(Process(x.chan, f.packet, budget, arrivals, allow).wire, e)
    ensures var x' := Emit(x, Process(x.chan, f.packet, budget, arrivals, allow), f.tag);
            OneWay(x', y) && OneWay(y, x')
  {
    assert AckOk(f, y, x.written);
    var n := f.tag;
    var c := x.chan.(connected := true, sendQ := SqRemove(x.chan.sendQ, Wire(n)));
    RemoveSafe(x.chan.sendQ, x.written, Issued(x.chan, x.written), n, e);
    var sent := WriteFromQueue(c, true, arrivals);
    var out := Process(x.chan, f.packet, budget, arrivals, allow);
    assert out == Then(Connect(x.chan), sent);
    assert out.wire == sent.wire;
    WriteFromQueueSafe(c, x.written, true, arrivals, e);
    assert DataOf([Connected]) == [] + DataOf([]);
    DataOfConcat(Connect(x.chan).events, sent.events);
    TakeAck(x, y, c, sent, out, n);
  }

  lemma TakeAck(x: Side, y: Side, c: Chan<Msg>, sent: Out<Msg>, out: Out<Msg>, n: nat)
    requires OneWay(x, y) && OneWay(y, x) && !x.chan.stopped
    requires !y.chan.stopped ==> Held(y.chan, y.delivered, n)
    requires c == x.chan.(connected := true, sendQ := c.sendQ)
    requires forall k: nat :: Unacked(c.sendQ, k) <==> Unacked(x.chan.sendQ, k) && k != n
    requires Sent(c, x.written, sent)
    requires out.chan == sent.chan && out.wire == sent.wire && DataOf(out.events) == []
    ensures var x' := Emit(x, out, n); OneWay(x', y) && OneWay(y, x')
  {
    EmitFlights(x, out, n, x.written);
    SendingKeepsReceiver(x, out, n, y.written);
    forall k: nat | !y.chan.stopped && k < Issued(out.chan, x.written)
      ensures Held(y.chan, y.delivered, k) || Unacked(out.chan.sendQ, k)
    {
      if k < Issued(x.chan, x.written) {
        assert Held(y.chan, y.delivered, k) || Unacked(c.sendQ, k);
      }
    }
  }

  // A ping or an answer to one arrives: no part of the session changes.

  lemma ReceivePingKeeps(x: Side, y: Side, f: Flight, budget: nat, arrivals: nat -> int, allow: bool)
    requires OneWay(x, y) && OneWay(y, x)
    requires !x.chan.stopped && f in y.net && !f.packet.Data? && !f.packet.Ack?
    ensures var x' := Emit(x, Process(x.chan, f.packet, budget, arrivals, allow), f.tag);
            OneWay(x', y) && OneWay(y, x')
  {
    assert FlightOk(f, y.written, Issued(y.chan, y.written));
    var out := Process(x.chan, f.packet, budget, arrivals, allow);
    assert DataOf([Connected]) == [] + DataOf([]) && DataOf([GotAckPing]) == [] + DataOf([]);
    DataOfConcat(Connect(x.chan).events, Handle(Connect(x.chan).chan, f.packet, budget, arrivals, allow).events);
    assert out.chan == x.chan.(connected := true);
    SendingKeepsReceiver(x, out, f.tag, y.written);
    EmitFlights(x, out, f.tag, x.written);
  }

  // The user writes.

  lemma WriteSafe(c: Chan<Msg>, written: seq<Msg>, msg: Msg, arrival: int, e: int)
    requires SendOk(c, written) && msg.n == |written|
    requires QueueNear(c.sendQ, e) && WireNear(WriteTo(c, msg, arrival).wire, e)
    ensures var out := WriteTo(c, msg, arrival);
            && Sent(c.(writeQ := c.writeQ + [msg]), written + [msg], out)
            && KeepsUnacked(c.sendQ, out.chan.sendQ)
            && Issued(out.chan, written + [msg]) >= Issued(c, written)
            && NewUnacked(out.chan.sendQ, Issued(c, written), Issued(out.chan, written + [msg]))
  {
    var written' := written + [msg];
    var out := WriteTo(c, msg, arrival);
    if c.writeQ == [] && CanWrite(c) {
      assert out.wire[0] in out.wire;
      WriteDirectAppends(c, written', |written|, arrival, e);
    } else {
      assert c.writeQ + [msg] == written'[Issued(c, written)..];
    }
  }

  lemma SendKeeps(x: Side, y: Side, msg: Msg, arrival: int)
    requires OneWay(x, y) && OneWay(y, x) && !x.chan.stopped && WindowOneWay(x, y)
    requires msg.n == |x.written|
    requires WireNear(WriteTo(x.chan, msg, arrival).wire, |y.delivered|)
    ensures var x' := Emit(x, WriteTo(x.chan, msg, arrival), 0).(written := x.written + [msg]);
            OneWay(x', y) && OneWay(y, x')
  {
    var out := WriteTo(x.chan, msg, arrival);
    WriteSafe(x.chan, x.written, msg, arrival, |y.delivered|);
    EmitFlights(x, out, 0, x.written + [msg]);
    SendingKeepsReceiver(x, out, 0, y.written);
  }

  // The timer fires, the user closes the channel, the network loses a packet.

  lemma ElapseKeeps(x: Side, y: Side, t: Tick)
    requires OneWay(x, y) && OneWay(y, x) && !x.chan.stopped
    ensures var x' := Emit(x, OnTick(x.chan, t), 0); OneWay(x', y) && OneWay(y, x')
  {
    var out := OnTick(x.chan, t);
    TickSafe(x.chan, x.written, t);
    EmitFlights(x, out, 0, x.written);
    if out.chan.stopped {
      StoppingKeepsReceiver(x, out, 0, y.written);
    } else {
      SendingKeepsReceiver(x, out, 0, y.written);
    }
  }

  lemma ShutKeeps(x: Side, y: Side)
    requires OneWay(x, y) && OneWay(y, x) && !x.chan.stopped
    ensures var x' := Emit(x, Destroy(x.chan), 0); OneWay(x', y) && OneWay(y, x')
  {
    var out := Destroy(x.chan);
    DestroySafe(x.chan, x.written);
    EmitFlights(x, out, 0, x.written);
    StoppingKeepsReceiver(x, out, 0, y.written);
  }

  lemma LoseKeeps(x: Side, y: Side, f: Flight)
    requires OneWay(x, y) && OneWay(y, x)
    ensures var x' := x.(net := x.net - {f}); OneWay(x', y) && OneWay(y, x')
  {
    forall g | g in x.net
      ensures AckOk(g, x.(net := x.net - {f}), y.written)
    {
      assert AckOk(g, x, y.written);
    }
  }

  // -------------------------------------------------------------- every step

  lemma MoveKeeps(x: Side, y: Side, step: Step)
    requires OneWay(x, y) && OneWay(y, x) && Enabled(x, y, step) && Clean(x, step)
    requires WindowOneWay(x, y) && WindowOneWay(y, x)
    requires !step.Lose? ==> WireNear(Output(x.chan, step, |x.written|).wire, |y.delivered|)
    ensures OneWay(Move(x, step), y) && OneWay(y, Move(x, step))
  {
    match step
    case Receive(f, budget, arrivals, allow) =>
      if f.packet.Data? {
        ReceiveDataKeeps(x, y, f, budget, arrivals, allow);
      } else if f.packet.Ack? {
        ReceiveAckKeeps(x, y, f, budget, arrivals, allow, |y.delivered|);
      } else {
        ReceivePingKeeps(x, y, f, budget, arrivals, allow);
      }
    case Send(data, arrival) =>
      SendKeeps(x, y, Msg(|x.written|, data), arrival);
    case Elapse(t) => ElapseKeeps(x, y, t);
    case Shut => ShutKeeps(x, y);
    case Lose(f) => LoseKeeps(x, y, f);
  }
}

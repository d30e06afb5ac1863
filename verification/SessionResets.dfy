/**
 What an arrival that triggers a reset breaks: exactly when the arrival of a message
 packet keeps a session reliable, and runs in which it does not.
 */
module SessionResets {
  import opened SeqNum
  import opened Transport
  import opened Session
  import opened SessionReceive
  import opened SessionSend
  import opened SessionSafety
  import opened SessionRuns
  import opened SessionMoves

  // --------------------------------------------------- the exact condition

  ghost predicate BothReliable(x: Side, y: Side) {
    Reliable(x, y) && Reliable(y, x)
  }

  /** x receives a message packet, and ack is the arrival at y of the answer to it. */
  ghost predicate Exchange(x: Side, y: Side, step: Step, ack: Step) {
    && Enabled(x, y, step) && step.Receive? && step.flight.packet.Data?
    && ack.Receive? && ack.flight == Flight(step.flight.tag, Ack(step.flight.packet.id))
    && (!y.chan.stopped ==> WireNear(Output(y.chan, ack, |y.written|).wire, |x.delivered|))
  }

  /** The session is reliable after the arrival, and after its acknowledgement arrives,
      unless y has closed its channel and takes none. */
  ghost predicate StaysReliable(x: Side, y: Side, step: Step, ack: Step) {
    && BothReliable(Move(x, step), y)
    && (!y.chan.stopped ==> BothReliable(Move(x, step), Move(y, ack)))
  }

  /** Whatever becomes of a message packet, it is acknowledged. */
  lemma AckGoesOut(x: Side, step: Step)
    requires step.Receive? && step.flight.packet.Data?
    ensures Flight(step.flight.tag, Ack(step.flight.packet.id)) in Move(x, step).net
  {
    var wire := Output(x.chan, step, |x.written|).wire;
    assert wire[0] == Ack(step.flight.packet.id) && wire[0] in wire;
  }

  lemma CleanStaysReliable(x: Side, y: Side, step: Step, ack: Step)
    requires OneWay(x, y) && OneWay(y, x) && WindowOneWay(x, y) && WindowOneWay(y, x)
    requires Exchange(x, y, step, ack) && Clean(x, step)
    ensures StaysReliable(x, y, step, ack)
  {
    var f, x' := step.flight, Move(x, step);
    ReceiveDataKeeps(x, y, f, step.budget, step.arrivals, step.allowEvents);
    ProcessData(x, y, f, step.budget, step.arrivals, step.allowEvents);
    AckGoesOut(x, step);
    InvIsReliable(Session(x', y));
    if !y.chan.stopped {
      ReceiveAckKeeps(y, x', ack.flight, ack.budget, ack.arrivals, ack.allowEvents, |x.delivered|);
      InvIsReliable(Session(x', Move(y, ack)));
    }
  }

  /** A first packet that arrives again: the user has too much at once. */
  lemma RepeatedIsUnreliable(x: Side, y: Side, step: Step)
    requires OneWay(x, y) && OneWay(y, x) && Enabled(x, y, step)
    requires step.Receive? && step.flight.packet.Data?
    requires step.flight.packet.id == FIRST_PACKET_ID != x.chan.expectedID
    ensures !(Move(x, step).delivered <= y.written)
  {
    var f := step.flight;
    assert FlightOk(f, y.written, Issued(y.chan, y.written));
    RepeatedFirst(x.chan, f.packet, step.budget, step.arrivals, step.allowEvents);
    var n := |x.delivered|;
    assert n > 0 && (x.delivered + [y.written[0]])[n] == y.written[0];
    assert n < |y.written| ==> y.written[n].n == n != y.written[0].n;
  }

  lemma {:induction false} ReleasedAreNew(c: Chan<Msg>, written: seq<Msg>, first: bool, arrivals: nat -> int,
                                           e: int, n: nat)
    requires SendOk(c, written) && QueueNear(c.sendQ, e)
    requires WireNear(WriteFromQueue(c, first, arrivals).wire, e)
    requires n < Issued(c, written) && !Unacked(c.sendQ, n)
    ensures !Unacked(WriteFromQueue(c, first, arrivals).chan.sendQ, n)
    decreases |c.writeQ|
  {
    if c.writeQ != [] && (first || CanWrite(c)) {
      var next := Issued(c, written);
      var c1 := c.(writeQ := c.writeQ[1..]);
      var sent := WriteDirect(c1, c.writeQ[0], arrivals(|c.writeQ|));
      var rest := WriteFromQueue(sent.chan, false, arrivals);
      assert Then(sent, rest).wire == sent.wire + rest.wire && sent.wire[0] in sent.wire + rest.wire;
      assert c.writeQ[0] == written[next];
      ReleaseOne(c, written, arrivals(|c.writeQ|), e);
      WriteDirectAppends(c1, written, next, arrivals(|c.writeQ|), e);
      assert WireNear(rest.wire, e);
      ReleasedAreNew(sent.chan, written, false, arrivals, e, n);
    }
  }

  /** An acknowledged message leaves the sender for good. */
  lemma AckForgets(y: Side, ack: Step, n: nat, e: int)
    requires SendOk(y.chan, y.written) && !y.chan.stopped && n < Issued(y.chan, y.written)
    requires QueueNear(y.chan.sendQ, e) && Near(e, n)
    requires ack.Receive? && ack.flight.packet == Ack(Wire(n))
    requires WireNear(Output(y.chan, ack, |y.written|).wire, e)
    ensures var y' := Move(y, ack);
            && n < |y'.written| - |y'.chan.writeQ| && !Unacked(y'.chan.sendQ, n) && !y'.chan.stopped
  {
    hide SqRemove, WriteFromQueue, Unacked, SendQOk;
    RemoveSafe(y.chan.sendQ, y.written, Issued(y.chan, y.written), n, e);
    var c := y.chan.(connected := true, sendQ := SqRemove(y.chan.sendQ, Wire(n)));
    var sent := WriteFromQueue(c, true, ack.arrivals);
    assert Output(y.chan, ack, |y.written|) == Then(Connect(y.chan), sent);
    assert Then(Connect(y.chan), sent).wire == sent.wire;
    WriteFromQueueSafe(c, y.written, true, ack.arrivals, e);
    ReleasedAreNew(c, y.written, true, ack.arrivals, e, n);
  }

  /** A later packet before the first is acknowledged, and its message is then kept by
      nobody: the receiver has thrown it away, the sender takes it for delivered. */
  lemma EarlyIsForgotten(x: Side, y: Side, step: Step, ack: Step)
    requires OneWay(x, y) && OneWay(y, x) && WindowOneWay(y, x) && !y.chan.stopped
    requires Exchange(x, y, step, ack)
    requires step.flight.packet.id != FIRST_PACKET_ID == x.chan.expectedID
    ensures var x', y', n := Move(x, step), Move(y, ack), step.flight.tag;
            && n < |y'.written| - |y'.chan.writeQ| && !x'.chan.stopped && !y'.chan.stopped
            && !Held(x'.chan, x'.delivered, n) && !Unacked(y'.chan.sendQ, n)
  {
    var f := step.flight;
    assert FlightOk(f, y.written, Issued(y.chan, y.written));
    AckForgets(y, ack, f.tag, |x.delivered|);
    hide Process, SendOk, Unacked;
    BeforeFirst(x.chan, f.packet, step.budget, step.arrivals, step.allowEvents);
    assert Move(x, step).delivered == x.delivered;
  }

  /** A closed peer has forgotten what it sent anyway. */
  lemma EarlyFromClosed(x: Side, y: Side, step: Step, ack: Step)
    requires OneWay(x, y) && OneWay(y, x) && y.chan.stopped
    requires Exchange(x, y, step, ack)
    requires step.flight.packet.id != FIRST_PACKET_ID == x.chan.expectedID
    ensures StaysReliable(x, y, step, ack)
  {
    BeforeFirst(x.chan, step.flight.packet, step.budget, step.arrivals, step.allowEvents);
  }

  /** Exactly when the arrival of a message packet keeps the session reliable, both at
      once and when its acknowledgement arrives: when a first packet is expected and
      this is it, or another is expected and this is not a first one. (And a packet that
      comes before the first does no harm if its sender has closed the channel.) */
  lemma ArrivalStaysReliableIff(x: Side, y: Side, step: Step, ack: Step)
    requires OneWay(x, y) && OneWay(y, x) && WindowOneWay(x, y) && WindowOneWay(y, x)
    requires Exchange(x, y, step, ack)
    ensures ack.flight in Move(x, step).net
    ensures StaysReliable(x, y, step, ack)
            <==> Clean(x, step) || (y.chan.stopped && x.chan.expectedID == FIRST_PACKET_ID)
  {
    hide Move, Reliable, OneWay, WindowOneWay, Output;
    AckGoesOut(x, step);
    if Clean(x, step) {
      CleanStaysReliable(x, y, step, ack);
    } else if x.chan.expectedID != FIRST_PACKET_ID {
      RepeatedIsUnreliable(x, y, step);
      Unordered(Move(x, step), y);
    } else if y.chan.stopped {
      EarlyFromClosed(x, y, step, ack);
    } else {
      EarlyIsForgotten(x, y, step, ack);
      Forgotten(Move(x, step), Move(y, ack), step.flight.tag);
    }
  }

  /** So in every state that a run from new channels reaches without such an arrival. */
  lemma ReachedStaysReliableIff(r: Run, k: nat, who: Who, step: Step, ack: Step)
    requires IsRun(r) && StartsNew(r) && InWindow(r) && k < |r.states| && NoResetBefore(r, k)
    requires Exchange(Me(r.states[k], who), Peer(r.states[k], who), step, ack)
    ensures var x, y := Me(r.states[k], who), Peer(r.states[k], who);
            StaysReliable(x, y, step, ack)
            <==> Clean(x, step) || (y.chan.stopped && x.chan.expectedID == FIRST_PACKET_ID)
  {
    hide OneWay, WindowOneWay, StaysReliable, Clean, Exchange, IsRun;
    var m, l :| r.states[0] == Session(NewSide(m), NewSide(l));
    NewIsInv(m, l);
    RunKeeps(r, k);
    assert Window(r.states[k]);
    ArrivalStaysReliableIff(Me(r.states[k], who), Peer(r.states[k], who), step, ack);
  }

  lemma Unordered(x: Side, y: Side)
    requires !(x.delivered <= y.written)
    ensures !Reliable(y, x)
  {
  }

  lemma Forgotten(x: Side, y: Side, n: nat)
    requires !x.chan.stopped && !y.chan.stopped && n < |y.written| - |y.chan.writeQ|
    requires !Held(x.chan, x.delivered, n) && !Unacked(y.chan.sendQ, n)
    ensures !Reliable(y, x)
  {
  }

  // ------------------------------------------------------------------ runs

  /** The packet of that message arrives twice. */
  ghost function TwiceRun(d0: Bytes, arrivals: nat -> int): Run {
    var take := Take(DataFlight(0, 0, d0), arrivals);
    Extend(Extend(OneSent(d0), B, take), B, take)
  }

  /** One message is written, and given to the user twice. */
  lemma FirstPacketTwice(d0: Bytes, arrivals: nat -> int)
    ensures var r, m := TwiceRun(d0, arrivals), Msg(0, d0);
            && IsRun(r) && r.states[0] == NewRun().states[0]
            && Last(r).a.written == [m] && Last(r).b.delivered == [m, m]
  {
    hide Move, IsRun;
    var f := DataFlight(0, 0, d0);
    var take := Take(f, arrivals);
    OneSentIs(d0);
    ExtendIsRun(OneSent(d0), B, take);
    FirstMoves(Last(OneSent(d0)).b, f, arrivals);
    var r := Extend(OneSent(d0), B, take);
    ExtendIsRun(r, B, take);
    AgainMoves(Last(r).b, f, arrivals);
  }

  /** A writes two messages, and the packet of the second arrives first. */
  ghost function EarlyRun(d0: Bytes, d1: Bytes, arrivals: nat -> int): Run {
    Extend(Extend(OneSent(d0), A, Send(d1, 0)), B, Take(DataFlight(1, 1, d1), arrivals))
  }

  ghost predicate Repeats(x: Side, step: Step) {
    step.Receive? && step.flight.packet.Data? && step.flight.packet.id == FIRST_PACKET_ID != x.chan.expectedID
  }

  /** No first packet arrives while another one is expected. */
  ghost predicate NoRepeats(r: Run)
    requires IsRun(r)
  {
    forall i | 0 <= i < |r.steps| :: !Repeats(Me(r.states[i], r.movers[i]), r.steps[i])
  }

  lemma ExtendRepeatsNothing(r: Run, who: Who, step: Step)
    requires IsRun(r) && IsRun(Extend(r, who, step)) && NoRepeats(r) && !Repeats(Me(Last(r), who), step)
    ensures NoRepeats(Extend(r, who, step))
  {
    hide Move, Repeats, Next;
    var r' := Extend(r, who, step);
    forall i | 0 <= i < |r'.steps|
      ensures !Repeats(Me(r'.states[i], r'.movers[i]), r'.steps[i])
    {
      if i < |r.steps| { assert !Repeats(Me(r.states[i], r.movers[i]), r.steps[i]); }
    }
  }

  /** The run with one more step that repeats no first packet. */
  lemma ExtendPlainly(r: Run, who: Who, step: Step)
    requires IsRun(r) && NoRepeats(r) && !Repeats(Me(Last(r), who), step)
    requires Enabled(Me(Last(r), who), Peer(Last(r), who), step)
    ensures var r' := Extend(r, who, step);
            IsRun(r') && NoRepeats(r') && Last(r') == After(Last(r), who, step) && r'.states[0] == r.states[0]
  {
    hide Move, Repeats, Next, NoRepeats;
    ExtendIsRun(r, who, step);
    ExtendRepeatsNothing(r, who, step);
  }

  lemma EarlyRunIs(d0: Bytes, d1: Bytes, arrivals: nat -> int)
    ensures var r, f0, f1 := EarlyRun(d0, d1, arrivals), DataFlight(0, 0, d0), DataFlight(1, 1, d1);
            && IsRun(r) && NoRepeats(r) && r.states[0] == NewRun().states[0]
            && Last(r) == Session(
                 Side(FRESH.(id := 2, sendQ := [QueueEntry(0, 0, d0), QueueEntry(1, 1, d1)]),
                      [Msg(0, d0), Msg(1, d1)], [], {f0, f1}),
                 Side(FRESH.(connected := true), [], [], {Flight(1, Ack(1)), Flight(1, Packet.Reset(0))}))
  {
    hide Move, IsRun;
    var f1 := DataFlight(1, 1, d1);
    OneSentIs(d0);
    assert NoRepeats(OneSent(d0));
    ExtendPlainly(OneSent(d0), A, Send(d1, 0));
    SendMoves(Last(OneSent(d0)).a, d1);
    var r := Extend(OneSent(d0), A, Send(d1, 0));
    ExtendPlainly(r, B, Take(f1, arrivals));
    EarlyMoves(Last(r).b, f1, arrivals);
    assert Last(r).a.net == {DataFlight(0, 0, d0), f1};
  }

  /** Then its acknowledgement arrives. */
  ghost function LossRun(d0: Bytes, d1: Bytes, arrivals: nat -> int): Run {
    Extend(EarlyRun(d0, d1, arrivals), A, Take(Flight(1, Ack(1)), arrivals))
  }

  /** The second message is lost: the first two packets have only changed places. */
  lemma SecondMessageLost(d0: Bytes, d1: Bytes, arrivals: nat -> int)
    ensures var r := LossRun(d0, d1, arrivals);
            && IsRun(r) && r.states[0] == NewRun().states[0]
            && Last(r).a.written == [Msg(0, d0), Msg(1, d1)] && Last(r).a.chan.writeQ == []
            && !Held(Last(r).b.chan, Last(r).b.delivered, 1) && !Unacked(Last(r).a.chan.sendQ, 1)
            && !Reliable(Last(r).a, Last(r).b)
  {
    hide Move, IsRun;
    var r := EarlyRun(d0, d1, arrivals);
    EarlyRunIs(d0, d1, arrivals);
    ExtendIsRun(r, A, Take(Flight(1, Ack(1)), arrivals));
    AckMoves(Last(r).a, Flight(1, Ack(1)), arrivals);
    var q := Last(r).a.chan.sendQ;
    assert Position(q, 1) == 1 && SqRemove(q, 1) == [q[0]];
    Forgotten(Last(LossRun(d0, d1, arrivals)).b, Last(LossRun(d0, d1, arrivals)).a, 1);
  }

  /** Or the RESET it caused arrives, A writes a third message, and that is delivered. */
  ghost function OrderRun(d0: Bytes, d1: Bytes, d2: Bytes, arrivals: nat -> int): Run {
    Extend(Extend(Extend(EarlyRun(d0, d1, arrivals), A, Take(Flight(1, Packet.Reset(0)), arrivals)),
                  A, Send(d2, 0)),
           B, Take(DataFlight(2, 0, d2), arrivals))
  }

  /** The user at B has the third message only, although no first packet came again. */
  lemma OrderLost(d0: Bytes, d1: Bytes, d2: Bytes, arrivals: nat -> int)
    ensures var r := OrderRun(d0, d1, d2, arrivals);
            && IsRun(r) && NoRepeats(r) && r.states[0] == NewRun().states[0]
            && Last(r).a.written == [Msg(0, d0), Msg(1, d1), Msg(2, d2)] && Last(r).b.delivered == [Msg(2, d2)]
            && !(Last(r).b.delivered <= Last(r).a.written)
  {
    hide Move, IsRun, NoRepeats;
    var reset, f2 := Flight(1, Packet.Reset(0)), DataFlight(2, 0, d2);
    var r0 := EarlyRun(d0, d1, arrivals);
    EarlyRunIs(d0, d1, arrivals);
    ExtendPlainly(r0, A, Take(reset, arrivals));
    ResetMoves(Last(r0).a, reset, arrivals);
    var r1 := Extend(r0, A, Take(reset, arrivals));
    ExtendPlainly(r1, A, Send(d2, 0));
    SendMoves(Last(r1).a, d2);
    var r2 := Extend(r1, A, Send(d2, 0));
    assert f2 in Last(r2).a.net;
    ExtendPlainly(r2, B, Take(f2, arrivals));
    FirstMoves(Last(r2).b, f2, arrivals);
    var s := Last(OrderRun(d0, d1, d2, arrivals));
    assert s.b.delivered[0].n == 2 && s.a.written[0].n == 0;
  }
}

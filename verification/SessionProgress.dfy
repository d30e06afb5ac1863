/**
 A session goes on: the message the receiver waits for is never gone, and a tick that
 sends it again, with one arrival of the packet, gives it to the user.
 */
module SessionProgress {
  import opened SeqNum
  import opened Transport
  import opened Session
  import opened SessionReceive
  import opened SessionSend
  import opened SessionSafety
  import opened StepLaws

  /** The next message for the user at y is in y's receive queue, or at some place in the
      send queue of x. */
  lemma NextMessageWaits(x: Side, y: Side) returns (i: nat)
    requires OneWay(x, y) && !x.chan.stopped && !y.chan.stopped
    requires |y.delivered| < Issued(x.chan, x.written)
    ensures y.chan.expectedID in y.chan.recvQ
            || (i < |x.chan.sendQ| && Number(x.chan.sendQ[i]) == |y.delivered|)
  {
    var n := |y.delivered|;
    i := 0;
    if !Held(y.chan, y.delivered, n) {
      assert Unacked(x.chan.sendQ, n);
      i :| 0 <= i < |x.chan.sendQ| && Number(x.chan.sendQ[i]) == n;
    }
  }

  lemma PacketGoesOut(x: Side, t: Tick, i: nat)
    requires SendOk(x.chan, x.written) && !x.chan.stopped && Distinct(x.chan.sendQ)
    requires i < DueLength(x.chan.sendQ, t.now)
    ensures i < |x.chan.sendQ|
    ensures FlightOf(x.chan.sendQ[i].packet, 0) in Move(x, Elapse(t)).net
  {
    var q := x.chan.sendQ;
    hide DueLength, OnTick, SentAgain;
    TickLaw(x.chan, t);
    var wire := OnTick(x.chan, t).wire;
    assert DueRun(q, t.now, DueLength(q, t.now));
    assert wire[i] == PacketsOf(q[..DueLength(q, t.now)])[i] == q[i].packet && wire[i] in wire;
  }

  /** The packet that is expected gives its message to the user, whatever the window. */
  lemma ExpectedArrives(y: Side, f: Flight, budget: nat, arrivals: nat -> int, allow: bool)
    requires f.packet.Data? && f.packet.id == y.chan.expectedID && !y.chan.stopped
    ensures var y' := Move(y, Receive(f, budget, arrivals, allow));
            && |y'.delivered| > |y.delivered| && y'.delivered[..|y.delivered| + 1] == y.delivered + [f.packet.payload]
            && Flight(f.tag, Ack(f.packet.id)) in y'.net
  {
    var out := Process(y.chan, f.packet, budget, arrivals, allow);
    AnswerLaw(y.chan, f.packet, budget, arrivals, allow);
    var more := ExpectedNews(y.chan, f.packet, budget, arrivals, allow);
    hide Process, DataOf;
    assert out.wire[0] == Ack(f.packet.id) && out.wire[0] in out.wire;
    assert (y.delivered + ([f.packet.payload] + more))[..|y.delivered| + 1] == y.delivered + [f.packet.payload];
  }

  lemma ExpectedNews(c: Chan<Msg>, p: Packet<Msg>, budget: nat, arrivals: nat -> int, allow: bool)
    returns (more: seq<Msg>)
    requires p.Data? && p.id == c.expectedID
    ensures DataOf(Process(c, p, budget, arrivals, allow).events) == [p.payload] + more
  {
    var c1 := c.(connected := true);
    NoticeLaw(c, p, budget, arrivals, allow);
    DataLaw(c1, p.id, p.payload, budget);
    hide Process, DataProcess;
    var next := Drain(c1.(expectedID := NextID(p.id)), budget).events;
    DeliverFirst([], p.id, p.payload, next);
    AfterConnecting(c, [GotData(p.id, p.payload)] + next);
    more := DataOf(next);
  }

  lemma AfterConnecting(c: Chan<Msg>, events: seq<Event<Msg>>)
    ensures DataOf((if c.connected then [] else [Connected]) + events) == DataOf(events)
  {
    var connect: seq<Event<Msg>> := if c.connected then [] else [Connected];
    DataOfConcat(connect, events);
  }

  /** A due packet with the next message: the tick puts it in flight, and when it arrives
      the user has the message and an acknowledgement is on its way back. */
  lemma ResendDelivers(x: Side, y: Side, i: nat, t: Tick, budget: nat, arrivals: nat -> int, allow: bool)
    requires OneWay(x, y) && !x.chan.stopped && !y.chan.stopped
    requires i < DueLength(x.chan.sendQ, t.now) && i < |x.chan.sendQ| && Number(x.chan.sendQ[i]) == |y.delivered|
    requires Distinct(x.chan.sendQ)
    ensures var n := |y.delivered|;
            && n < |x.written|
            && var f := Flight(n, Data(Wire(n), x.written[n]));
               var y' := Move(y, Receive(f, budget, arrivals, allow));
               && f in Move(x, Elapse(t)).net
               && |y'.delivered| > n && y'.delivered[..n + 1] == y.delivered + [x.written[n]]
               && Flight(n, Ack(Wire(n))) in y'.net
  {
    hide Move;
    var n := |y.delivered|;
    assert GoodData(x.chan.sendQ[i].packet, x.written);
    PacketGoesOut(x, t, i);
    ExpectedArrives(y, Flight(n, Data(Wire(n), x.written[n])), budget, arrivals, allow);
  }

  /** No two entries of a send queue within the window have the same id. */
  lemma WindowIsDistinct(x: Side, e: int)
    requires SendOk(x.chan, x.written) && QueueNear(x.chan.sendQ, e)
    ensures Distinct(x.chan.sendQ)
  {
    var q := x.chan.sendQ;
    forall i, j | 0 <= i < j < |q|
      ensures q[i].packet.id != q[j].packet.id
    {
      assert GoodData(q[i].packet, x.written) && GoodData(q[j].packet, x.written);
      assert Near(e, Number(q[i])) && Near(e, Number(q[j])) && Number(q[i]) < Number(q[j]);
      if q[i].packet.id == q[j].packet.id { WireInjective(Number(q[i]), Number(q[j])); }
    }
  }
}

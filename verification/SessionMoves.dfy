/**
 What single steps do to a side of a session whose queues are simple: the links of the
 concrete runs.
 */
module SessionMoves {
  import opened SeqNum
  import opened Transport
  import opened Session
  import opened SessionReceive
  import opened SessionRuns

  lemma EmitOne(x: Side, out: Out<Msg>, tag: nat, p: Packet<Msg>)
    requires out.wire == [p]
    ensures Emit(x, out, tag).net == x.net + {FlightOf(p, tag)}
  {
    assert p == out.wire[0];
  }

  lemma EmitTwo(x: Side, out: Out<Msg>, tag: nat, p: Packet<Msg>, q: Packet<Msg>)
    requires out.wire == [p, q]
    ensures Emit(x, out, tag).net == x.net + {FlightOf(p, tag), FlightOf(q, tag)}
  {
    assert p == out.wire[0] && q == out.wire[1];
  }

  lemma NoData(a: Event<Msg>)
    requires !a.GotData?
    ensures DataOf([a]) == []
  {
  }

  /** What follows the connect event. */
  lemma AfterConnect(c: Chan<Msg>, events: seq<Event<Msg>>)
    ensures DataOf(Connect(c).events + events) == DataOf(events)
  {
    DataOfConcat(Connect(c).events, events);
    if c.connected { assert [] + events == events; } else { NoData(Connected); }
  }

  function Take(f: Flight, arrivals: nat -> int): Step {
    Receive(f, 0, arrivals, false)
  }

  /** A write that finds room in the window. */
  lemma SendMoves(x: Side, data: Bytes)
    requires x.chan.writeQ == [] && CanWrite(x.chan) && Position(x.chan.sendQ, x.chan.id) == |x.chan.sendQ|
    ensures var c, n := x.chan, |x.written|;
            var p := Data(c.id, Msg(n, data));
            Move(x, Send(data, 0))
            == Side(c.(id := NextID(c.id), sendQ := c.sendQ + [Entry(p, 0, 0)]),
                    x.written + [Msg(n, data)], x.delivered, x.net + {Flight(n, p)})
  {
    var out := WriteTo(x.chan, Msg(|x.written|, data), 0);
    EmitOne(x, out, 0, Data(x.chan.id, Msg(|x.written|, data)));
    assert x.delivered + DataOf([]) == x.delivered;
  }

  /** The first packet arrives while it is expected. */
  lemma FirstMoves(x: Side, f: Flight, arrivals: nat -> int)
    requires f.packet.Data? && f.packet.id == FIRST_PACKET_ID == x.chan.expectedID && x.chan.recvQ == map[]
    ensures Move(x, Take(f, arrivals))
            == x.(chan := x.chan.(connected := true, expectedID := 1), delivered := x.delivered + [f.packet.payload],
                  net := x.net + {Flight(f.tag, Ack(0))})
  {
    var c, p := x.chan.(connected := true), f.packet;
    var got: Event<Msg> := GotData(0, p.payload);
    FirstData(c, p.payload, 0);
    assert [] + [got] == [got] && DataOf([got]) == [p.payload] + [];
    AfterConnect(x.chan, [got]);
    EmitOne(x, Process(x.chan, p, 0, arrivals, false), f.tag, Ack(0));
  }

  /** The first packet arrives while a later one is expected. */
  lemma AgainMoves(x: Side, f: Flight, arrivals: nat -> int)
    requires f.packet.Data? && f.packet.id == FIRST_PACKET_ID != x.chan.expectedID
    ensures Move(x, Take(f, arrivals))
            == x.(chan := ResetChan(x.chan).chan.(connected := true, expectedID := 1),
                  delivered := x.delivered + [f.packet.payload],
                  net := x.net + {Flight(f.tag, Ack(0))})
  {
    var c, p := x.chan.(connected := true), f.packet;
    var got: Event<Msg> := GotData(0, p.payload);
    FirstData(c, p.payload, 0);
    assert [] + ([ResetLocal] + [got]) == [ResetLocal, got];
    assert [ResetLocal, got][1..] == [got] && DataOf([got]) == [p.payload] + [];
    AfterConnect(x.chan, [ResetLocal, got]);
    EmitOne(x, Process(x.chan, p, 0, arrivals, false), f.tag, Ack(0));
  }

  /** Another packet arrives before the first. */
  lemma EarlyMoves(x: Side, f: Flight, arrivals: nat -> int)
    requires f.packet.Data? && f.packet.id != FIRST_PACKET_ID == x.chan.expectedID
    ensures Move(x, Take(f, arrivals))
            == x.(chan := x.chan.(connected := true),
                  net := x.net + {Flight(f.tag, Ack(f.packet.id)), Flight(f.tag, Packet.Reset(0))})
  {
    var out := Process(x.chan, f.packet, 0, arrivals, false);
    BeforeFirst(x.chan, f.packet, 0, arrivals, false);
    EmitTwo(x, out, f.tag, Ack(f.packet.id), Packet.Reset(0));
    assert x.delivered + [] == x.delivered;
  }

  /** An acknowledgement arrives, and no write waits. */
  lemma AckMoves(x: Side, f: Flight, arrivals: nat -> int)
    requires f.packet.Ack? && x.chan.writeQ == []
    ensures Move(x, Take(f, arrivals))
            == x.(chan := x.chan.(connected := true, sendQ := SqRemove(x.chan.sendQ, f.packet.id)))
  {
    var out := Process(x.chan, f.packet, 0, arrivals, false);
    AfterConnect(x.chan, []);
    assert out.wire == [] && x.net + {} == x.net;
    assert x.delivered + [] == x.delivered;
  }

  /** A RESET arrives. */
  lemma ResetMoves(x: Side, f: Flight, arrivals: nat -> int)
    requires f.packet.Reset?
    ensures Move(x, Take(f, arrivals))
            == x.(chan := ResetChan(x.chan).chan.(connected := true),
                  net := x.net + {Flight(f.tag, AckReset(f.packet.id))})
  {
    var out := Process(x.chan, f.packet, 0, arrivals, false);
    assert out.wire == [AckReset(f.packet.id)];
    EmitOne(x, out, f.tag, AckReset(f.packet.id));
    NoData(ResetLocal);
    AfterConnect(x.chan, [ResetLocal]);
    assert out.events == Connect(x.chan).events + [ResetLocal];
    assert x.delivered + [] == x.delivered;
  }

  // ------------------------------------------- arrivals around packet 0

  /** A first packet is taken as the start of an epoch, whatever came before. */
  lemma FirstData(c: Chan<Msg>, data: Msg, budget: nat)
    requires c.expectedID == FIRST_PACKET_ID ==> c.recvQ == map[]
    ensures var reset := ResetChan(c);
            var taken := Out(c.(expectedID := 1), [GotData(FIRST_PACKET_ID, data)], [], []);
            var again := Out(reset.chan.(expectedID := 1), [GotData(FIRST_PACKET_ID, data)], [], []);
            DataProcess(c, FIRST_PACKET_ID, data, budget)
            == if c.expectedID == FIRST_PACKET_ID then taken else Then(reset, again)
  {
    assert c.expectedID != 0 ==> PacketDistance(c.expectedID, FIRST_PACKET_ID) != 0;
  }

  lemma FirstDataEvents(c: Chan<Msg>, data: Msg, budget: nat)
    requires c.expectedID == FIRST_PACKET_ID ==> c.recvQ == map[]
    ensures DataOf(DataProcess(c, FIRST_PACKET_ID, data, budget).events) == [data]
  {
    hide DataProcess;
    FirstData(c, data, budget);
    var got := [GotData(FIRST_PACKET_ID, data)];
    assert DataOf(got) == [data] + [] && DataOf([ResetLocal]) == [];
    DataOfConcat([ResetLocal], got);
  }

  /** A first packet that arrives again is given to the user again. */
  lemma RepeatedFirst(c: Chan<Msg>, p: Packet<Msg>, budget: nat, arrivals: nat -> int, allow: bool)
    requires p.Data? && p.id == FIRST_PACKET_ID && c.expectedID != FIRST_PACKET_ID
    ensures DataOf(Process(c, p, budget, arrivals, allow).events) == [p.payload]
  {
    var c1 := Connect(c).chan;
    FirstDataEvents(c1, p.payload, budget);
    var events := DataProcess(c1, p.id, p.payload, budget).events;
    assert [] + events == events;
    AfterConnect(c, events);
  }

  /** A later packet that arrives before the first is acknowledged and then thrown
      away, and a RESET goes back. */
  lemma BeforeFirst(c: Chan<Msg>, p: Packet<Msg>, budget: nat, arrivals: nat -> int, allow: bool)
    requires p.Data? && p.id != FIRST_PACKET_ID && c.expectedID == FIRST_PACKET_ID
    ensures var out := Process(c, p, budget, arrivals, allow);
            && DataOf(out.events) == [] && out.wire == [Ack(p.id), Packet.Reset(0)]
            && out.chan == c.(connected := true)
  {
    assert PacketDistance(c.expectedID, p.id) != 0;
    NoData(SendReset);
    var events: seq<Event<Msg>> := [SendReset];
    assert [] + events == events;
    AfterConnect(c, events);
  }

  // ------------------------------------------------------ building runs

  const FRESH: Chan<Msg> := NewChan(DEFAULT_QUEUE_SIZE, false)

  ghost function NewRun(): Run {
    Run([Session(NewSide(DEFAULT_QUEUE_SIZE), NewSide(DEFAULT_QUEUE_SIZE))], [], [])
  }

  function DataFlight(n: nat, id: ID, data: Bytes): Flight {
    Flight(n, Data(id, Msg(n, data)))
  }

  function QueueEntry(n: nat, id: ID, data: Bytes): Entry<Msg> {
    Entry(Data(id, Msg(n, data)), 0, 0)
  }

  /** A writes one message. */
  ghost function OneSent(d0: Bytes): Run {
    Extend(NewRun(), A, Send(d0, 0))
  }

  lemma OneSentIs(d0: Bytes)
    ensures var r, f := OneSent(d0), DataFlight(0, 0, d0);
            && IsRun(r) && r.states[0] == NewRun().states[0]
            && Last(r) == Session(Side(FRESH.(id := 1, sendQ := [QueueEntry(0, 0, d0)]), [f.packet.payload], [], {f}),
                                  NewSide(DEFAULT_QUEUE_SIZE))
  {
    ExtendIsRun(NewRun(), A, Send(d0, 0));
    SendMoves(NewSide(DEFAULT_QUEUE_SIZE), d0);
  }
}

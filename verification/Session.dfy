/**
 Two TR-UDP channels talking over a network that loses, duplicates and reorders.

 Each side is a channel of module Transport. The messages a user writes are
 numbered in the order of writing; since the channel is generic in its payload,
 it cannot look at the number. A packet in flight carries a tag beside its wire
 image: the number of the message it carries or acknowledges. No step reads it.

 A packet stays in flight until it is lost, so it can be received any number of
 times and in any order.
 */
module Session {
  import opened SeqNum
  import opened Transport

  type Bytes = seq<bv8>

  datatype Msg = Msg(n: nat, data: Bytes)

  datatype Flight = Flight(tag: nat, packet: Packet<Msg>)

  datatype Side = Side(
    chan: Chan<Msg>,
    written: seq<Msg>,    // all messages the user wrote, in order
    delivered: seq<Msg>,  // all messages given to the user, in order
    net: set<Flight>)     // packets this side sent that are still in flight

  datatype Session = Session(a: Side, b: Side)

  datatype Who = A | B

  datatype Step =
    | Receive(flight: Flight, budget: nat, arrivals: nat -> int, allowEvents: bool)
    | Send(data: Bytes, arrival: int)
    | Elapse(tick: Tick)
    | Shut
    | Lose(flight: Flight)

  // ------------------------------------------------------------ transitions

  function DataOf(events: seq<Event<Msg>>): seq<Msg> {
    if events == [] then []
    else (if events[0].GotData? then [events[0].data] else []) + DataOf(events[1..])
  }

  function FlightOf(packet: Packet<Msg>, tag: nat): Flight {
    Flight(if packet.Data? then packet.payload.n else tag, packet)
  }

  function Emit(x: Side, out: Out<Msg>, tag: nat): Side {
    x.(chan := out.chan,
       delivered := x.delivered + DataOf(out.events),
       net := x.net + set p | p in out.wire :: FlightOf(p, tag))
  }

  function Output(c: Chan<Msg>, step: Step, n: nat): Out<Msg>
    requires !step.Lose?
  {
    Apply(c, match step
             case Receive(f, budget, arrivals, allow) => Arrive(f.packet, budget, arrivals, allow)
             case Send(data, arrival) => Write(Msg(n, data), arrival)
             case Elapse(tick) => Timer(tick)
             case Shut => Close)
  }

  function Move(x: Side, step: Step): Side {
    if step.Lose? then
      x.(net := x.net - {step.flight})
    else
      var x' := Emit(x, Output(x.chan, step, |x.written|), if step.Receive? then step.flight.tag else 0);
      if step.Send? then x'.(written := x.written + [Msg(|x.written|, step.data)]) else x'
  }

  predicate Enabled(x: Side, y: Side, step: Step) {
    match step
    case Receive(f, _, _, _) => !x.chan.stopped && f in y.net
    case Lose(f) => f in x.net
    case _ => !x.chan.stopped
  }

  function Me(s: Session, who: Who): Side { if who.A? then s.a else s.b }
  function Peer(s: Session, who: Who): Side { if who.A? then s.b else s.a }

  ghost predicate Next(s: Session, who: Who, step: Step, s': Session) {
    && Enabled(Me(s, who), Peer(s, who), step)
    && Me(s', who) == Move(Me(s, who), step)
    && Peer(s', who) == Peer(s, who)
  }

  function NewSide(queueSize: int): Side {
    Side(NewChan(queueSize, false), [], [], {})
  }

  // ------------------------------------------------------------- invariants

  ghost predicate GoodData(p: Packet<Msg>, written: seq<Msg>) {
    p.Data? && p.payload.n < |written| && p == Data(Wire(p.payload.n), written[p.payload.n])
  }

  ghost predicate Numbered(written: seq<Msg>) {
    forall i | 0 <= i < |written| :: written[i].n == i
  }

  function Issued(c: Chan<Msg>, written: seq<Msg>): int {
    |written| - |c.writeQ|
  }

  function Number(e: Entry<Msg>): int {
    if e.packet.Data? then e.packet.payload.n else -1
  }

  ghost predicate Unacked(q: seq<Entry<Msg>>, n: nat) {
    exists i | 0 <= i < |q| :: Number(q[i]) == n
  }

  ghost predicate SendQOk(q: seq<Entry<Msg>>, written: seq<Msg>, issued: int) {
    && (forall i | 0 <= i < |q| :: GoodData(q[i].packet, written) && Number(q[i]) < issued)
    && (forall i, j | 0 <= i < j < |q| :: Number(q[i]) < Number(q[j]))
  }

  ghost predicate SendOk(c: Chan<Msg>, written: seq<Msg>) {
    && Numbered(written)
    && 0 <= Issued(c, written)
    && c.writeQ == written[Issued(c, written)..]
    && c.id == Wire(Issued(c, written))
    && SendQOk(c.sendQ, written, Issued(c, written))
  }

  ghost predicate RecvQOk(c: Chan<Msg>, written: seq<Msg>) {
    forall id | id in c.recvQ :: GoodData(Data(id, c.recvQ[id]), written)
  }

  /** The receiving part of a channel, delivered being what the user got so far. Nothing
      is queued before the first packet. */
  ghost predicate RecvOk(c: Chan<Msg>, delivered: seq<Msg>, written: seq<Msg>) {
    && delivered <= written
    && c.expectedID == Wire(|delivered|)
    && (c.expectedID == FIRST_PACKET_ID ==> c.recvQ == map[])
    && RecvQOk(c, written)
  }

  /** Message n has reached this channel: given to the user, or queued for it. */
  ghost predicate Held(c: Chan<Msg>, delivered: seq<Msg>, n: nat) {
    n < |delivered| || (Wire(n) in c.recvQ && c.recvQ[Wire(n)].n == n)
  }
}

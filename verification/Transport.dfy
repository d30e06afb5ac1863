/**
 One TR-UDP channel as a value, and what each event of the kernel loop does to it.

 Every function below is one step of the kernel goroutine on one channel. It
 returns the channel after the step together with what the step emitted: events
 for the user, packets for the UDP writer, and answers to waiting writes.
 The payload type T is a parameter: the protocol never looks inside a payload.

 What the kernel reads from outside is an argument of the step:
   - arrivals(k), arrival: the clock plus the round-trip time, when a packet is
     put in the send queue (k numbers the packets of one step);
   - budget: how many queued packets the event channel has room for while the
     receive queue is drained, that is, how often sendEventAvailable still says
     yes.
 */
module Transport {
  import opened SeqNum

  const MAX_RESEND_ATTEMPT := 50
  const DEFAULT_QUEUE_SIZE := 256

  datatype Packet<+T> =
    | Data(id: ID, payload: T)
    | Ack(id: ID)
    | Reset(id: ID)
    | AckReset(id: ID)
    | Ping(id: ID)
    | AckPing(id: ID)
    | Unknown(id: ID)

  datatype Event<+T> =
    | Connected
    | Disconnected
    | GotData(id: ID, data: T)
    | SendReset
    | ResetLocal
    | GotAckPing

  datatype Entry<+T> = Entry(packet: Packet<T>, arrivalTime: int, resendAttempt: nat)

  // The answer a write gets: true when its packet was sent, false when a reset
  // or the end of the channel dropped it.
  datatype Answer<+T> = Answer(data: T, sent: bool)

  datatype Chan<+T> = Chan(
    id: ID,
    expectedID: ID,
    sendQ: seq<Entry<T>>,
    recvQ: map<ID, T>,
    writeQ: seq<T>,
    maxQueueSize: int,
    stopped: bool,
    connected: bool,
    dropped: nat)

  datatype Out<+T> = Out(
    chan: Chan<T>,
    events: seq<Event<T>>,
    wire: seq<Packet<T>>,
    answers: seq<Answer<T>>)

  function NewChan<T>(queueSize: int, connected: bool): Chan<T> {
    Chan(FIRST_PACKET_ID, FIRST_PACKET_ID, [], map[], [], queueSize, false, connected, 0)
  }

  /** First does a, then what b describes of the channel a left. */
  function Then<T>(a: Out<T>, b: Out<T>): Out<T> {
    Out(b.chan, a.events + b.events, a.wire + b.wire, a.answers + b.answers)
  }

  // ------------------------------------------------------------- send queue

  function Position<T>(q: seq<Entry<T>>, id: ID): (i: nat)
    ensures i <= |q|
    ensures i < |q| ==> q[i].packet.id == id
    ensures forall j | 0 <= j < i :: q[j].packet.id != id
  {
    if q == [] || q[0].packet.id == id then 0 else 1 + Position(q[1..], id)
  }

  ghost predicate Distinct<T>(q: seq<Entry<T>>) {
    forall i, j | 0 <= i < j < |q| :: q[i].packet.id != q[j].packet.id
  }

  function SqAdd<T>(q: seq<Entry<T>>, packet: Packet<T>, arrival: int): seq<Entry<T>> {
    var i := Position(q, packet.id);
    if i < |q| then
      q[i := q[i].(resendAttempt := q[i].resendAttempt + 1, arrivalTime := arrival)]
    else
      q + [Entry(packet, arrival, 0)]
  }

  function SqRemove<T>(q: seq<Entry<T>>, id: ID): seq<Entry<T>> {
    var i := Position(q, id);
    if i < |q| then q[..i] + q[i + 1..] else q
  }

  // ----------------------------------------------------------------- writes

  predicate CanWrite<T>(c: Chan<T>) {
    |c.sendQ| < c.maxQueueSize
  }

  function WriteDirect<T>(c: Chan<T>, data: T, arrival: int): Out<T> {
    var packet := Data(c.id, data);
    Out(c.(id := NextID(c.id), sendQ := SqAdd(c.sendQ, packet, arrival)),
        [], [packet], [Answer(data, true)])
  }

  function WriteTo<T>(c: Chan<T>, data: T, arrival: int): Out<T> {
    if c.writeQ == [] && CanWrite(c) then
      WriteDirect(c, data, arrival)
    else
      Out(c.(writeQ := c.writeQ + [data]), [], [], [])
  }

  /** The first waiting write goes out in any case, the others while there is room. */
  function WriteFromQueue<T>(c: Chan<T>, first: bool, arrivals: nat -> int): Out<T>
    decreases |c.writeQ|
  {
    if c.writeQ != [] && (first || CanWrite(c)) then
      var sent := WriteDirect(c.(writeQ := c.writeQ[1..]), c.writeQ[0], arrivals(|c.writeQ|));
      Then(sent, WriteFromQueue(sent.chan, false, arrivals))
    else
      Out(c, [], [], [])
  }

  function Refused<T>(writeQ: seq<T>): (answers: seq<Answer<T>>)
    ensures |answers| == |writeQ|
    ensures forall i | 0 <= i < |writeQ| :: answers[i] == Answer(writeQ[i], false)
  {
    seq(|writeQ|, i requires 0 <= i < |writeQ| => Answer(writeQ[i], false))
  }

  // ---------------------------------------------------------- reset, destroy

  function Cleared<T>(c: Chan<T>): Chan<T> {
    c.(sendQ := [], recvQ := map[], writeQ := [])
  }

  function ResetChan<T>(c: Chan<T>): Out<T> {
    Out(Cleared(c).(id := FIRST_PACKET_ID, expectedID := FIRST_PACKET_ID),
        [ResetLocal], [], Refused(c.writeQ))
  }

  function Destroy<T>(c: Chan<T>): Out<T> {
    if c.stopped then
      Out(c, [], [], [])
    else
      Out(Cleared(c).(stopped := true),
          if c.connected then [Disconnected] else [], [], Refused(c.writeQ))
  }

  // ---------------------------------------------------------------- receive

  /** Takes the expected packet out of the receive queue. */
  function Advance<T>(c: Chan<T>): (c': Chan<T>)
    requires c.expectedID in c.recvQ
    ensures |c'.recvQ| < |c.recvQ|
  {
    var recvQ := c.recvQ - {c.expectedID};
    assert recvQ.Keys == c.recvQ.Keys - {c.expectedID};
    c.(expectedID := NextID(c.expectedID), recvQ := recvQ)
  }

  /** Delivers queued packets in order while there are any and there is room. */
  function Drain<T>(c: Chan<T>, budget: nat): Out<T>
    decreases |c.recvQ|
  {
    if c.expectedID in c.recvQ && budget > 0 then
      Then(Out(Advance(c), [GotData(c.expectedID, c.recvQ[c.expectedID])], [], []),
           Drain(Advance(c), budget - 1))
    else
      Out(c, [], [], [])
  }

  /** packetDataProcess: what a DATA packet does, by its place relative to the
      expected id. A repeated first packet resets the channel and is then taken
      as the first packet of a new epoch. */
  function DataProcess<T>(c: Chan<T>, id: ID, data: T, budget: nat): Out<T>
    decreases c.expectedID
  {
    var distance := PacketDistance(c.expectedID, id);
    if distance == 0 then
      Then(Out(c.(expectedID := NextID(c.expectedID)), [GotData(id, data)], [], []),
           Drain(c.(expectedID := NextID(c.expectedID)), budget))
    else if id == FIRST_PACKET_ID then
      Then(ResetChan(c), DataProcess(ResetChan(c).chan, id, data, budget))
    else if c.expectedID == FIRST_PACKET_ID then
      Out(c, [SendReset], [Reset(0)], [])
    else if distance < 0 || id in c.recvQ then
      Out(c.(dropped := c.dropped + 1), [], [], [])
    else
      Drain(c.(recvQ := c.recvQ[id := data]), budget)
  }

  /** packetType.process on an existing channel. Only the first packet a channel
      sees finds it not connected. */
  function Process<T>(c: Chan<T>, packet: Packet<T>, budget: nat, arrivals: nat -> int,
                      allowEvents: bool): Out<T>
  {
    Then(Connect(c), Handle(Connect(c).chan, packet, budget, arrivals, allowEvents))
  }

  function Connect<T>(c: Chan<T>): Out<T> {
    Out(c.(connected := true), if c.connected then [] else [Connected], [], [])
  }

  function Handle<T>(c: Chan<T>, packet: Packet<T>, budget: nat, arrivals: nat -> int,
                     allowEvents: bool): Out<T>
  {
    match packet
    case Data(id, data) =>
      Then(Out(c, [], [Ack(id)], []), DataProcess(c, id, data, budget))
    case Ack(id) =>
      WriteFromQueue(c.(sendQ := SqRemove(c.sendQ, id)), true, arrivals)
    case Reset(id) =>
      Then(Out(c, [], [AckReset(id)], []), ResetChan(c))
    case AckReset(_) =>
      ResetChan(c)
    case Ping(id) =>
      Out(c, [], [AckPing(id)], [])
    case AckPing(_) =>
      Out(c, if allowEvents then [GotAckPing] else [], [], [])
    case Unknown(_) =>
      Out(c, [], [], [])
  }

  // ------------------------------------------------------------- timer tick

  /** sendQueueResendProcess from the i-th entry on: resends entries that are due,
      stops at the first that is not, and gives the channel up at an entry that
      has been resent too often. */
  function Resend<T>(c: Chan<T>, i: nat, now: int, arrivals: nat -> int): Out<T>
    decreases |c.sendQ| - i
  {
    if i >= |c.sendQ| || now <= c.sendQ[i].arrivalTime then
      Out(c, [], [], [])
    else if c.sendQ[i].resendAttempt >= MAX_RESEND_ATTEMPT then
      Destroy(c)
    else
      var packet := c.sendQ[i].packet;
      var resent := c.(sendQ := SqAdd(c.sendQ, packet, arrivals(i)));
      Then(Out(resent, [], [packet], []), Resend(resent, i + 1, now, arrivals))
  }

  /** keepAlive, without the test traffic. */
  function KeepAlive<T>(c: Chan<T>, quiet: bool, silent: bool): Out<T> {
    Then(Out(c, [], if quiet then [Ping(0)] else [], []),
         if silent then Destroy(c) else Out(c, [], [], []))
  }

  /** sendQueueCalculateLength: adapts the send window to the speeds seen. */
  function CalculateLength(size: int, queued: nat, sendSpeed: nat, repeatSpeed: nat): int {
    var queueIsFull := queued >= size;
    if sendSpeed <= 30 then size
    else if size < 2048 && repeatSpeed == 0 && queueIsFull then size + 128
    else if size > 4 && (repeatSpeed > 20 || (repeatSpeed > 10 && queueIsFull)) then size - 4
    else size
  }

  // What one timer tick finds: the clock, whether the keep-alive check and the
  // window calculation are due, and what they see.
  datatype Tick = Tick(
    now: int, arrivals: nat -> int,
    keepAlive: bool, quiet: bool, silent: bool,
    calculate: bool, sendSpeed: nat, repeatSpeed: nat)

  function OnTick<T>(c: Chan<T>, t: Tick): Out<T> {
    Resize(CheckAlive(Resend(c, 0, t.now, t.arrivals), t), t)
  }

  function CheckAlive<T>(out: Out<T>, t: Tick): Out<T> {
    if t.keepAlive then Then(out, KeepAlive(out.chan, t.quiet, t.silent)) else out
  }

  function Resize<T>(out: Out<T>, t: Tick): Out<T> {
    if t.calculate then
      var size := CalculateLength(out.chan.maxQueueSize, |out.chan.sendQ|, t.sendSpeed, t.repeatSpeed);
      out.(chan := out.chan.(maxQueueSize := size))
    else out
  }

  // -------------------------------------------------- one step of the kernel

  datatype Action<+T> =
    | Arrive(packet: Packet<T>, budget: nat, arrivals: nat -> int, allowEvents: bool)
    | Write(data: T, arrival: int)
    | Timer(tick: Tick)
    | Close

  function Apply<T>(c: Chan<T>, a: Action<T>): Out<T> {
    match a
    case Arrive(packet, budget, arrivals, allow) => Process(c, packet, budget, arrivals, allow)
    case Write(data, arrival) => WriteTo(c, data, arrival)
    case Timer(t) => OnTick(c, t)
    case Close => Destroy(c)
  }
}

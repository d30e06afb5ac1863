/**
 What single steps of a channel do, in full: who is answered, what goes out again, when
 the user hears of it, and when the window moves.
 */
module StepLaws {
  import opened SeqNum
  import opened Transport
  import opened ChannelRuns
  import opened SendQueueRuns

  // ------------------------------------------------------------- resending

  /** It is time to send this entry again, and it may be. */
  ghost predicate Due<T>(e: Entry<T>, now: int) {
    now > e.arrivalTime && e.resendAttempt < MAX_RESEND_ATTEMPT
  }

  /** The first k entries are due, and no more of them in a row. */
  ghost predicate DueRun<T>(q: seq<Entry<T>>, now: int, k: nat) {
    k <= |q| && (forall j | 0 <= j < k :: Due(q[j], now)) && (k < |q| ==> !Due(q[k], now))
  }

  ghost function DueLength<T>(q: seq<Entry<T>>, now: int): (k: nat)
    ensures DueRun(q, now, k)
  {
    if q == [] || !Due(q[0], now) then 0 else 1 + DueLength(q[1..], now)
  }

  /** The scan comes to an entry that was sent too often. */
  ghost predicate Exhausted<T>(q: seq<Entry<T>>, now: int) {
    var k := DueLength(q, now);
    k < |q| && now > q[k].arrivalTime && q[k].resendAttempt >= MAX_RESEND_ATTEMPT
  }

  function PacketsOf<T>(q: seq<Entry<T>>): (packets: seq<Packet<T>>)
    ensures |packets| == |q|
  {
    seq(|q|, j requires 0 <= j < |q| => q[j].packet)
  }

  /** The queue after the entries from i to k have been sent again. */
  function SentAgain<T>(q: seq<Entry<T>>, i: nat, k: nat, arrivals: nat -> int): (q': seq<Entry<T>>)
    ensures |q'| == |q|
  {
    seq(|q|, j requires 0 <= j < |q| =>
      if i <= j < k then Entry(q[j].packet, arrivals(j), q[j].resendAttempt + 1) else q[j])
  }

  lemma NoneAgain<T>(q: seq<Entry<T>>, i: nat, arrivals: nat -> int)
    requires i <= |q|
    ensures PacketsOf(q[i..i]) == [] && SentAgain(q, i, i, arrivals) == q
  {
  }

  lemma OneAgain<T>(q: seq<Entry<T>>, i: nat, k: nat, arrivals: nat -> int)
    requires i < k <= |q|
    ensures var q1 := q[i := Entry(q[i].packet, arrivals(i), q[i].resendAttempt + 1)];
            && PacketsOf(q[i..k]) == [q[i].packet] + PacketsOf(q1[i + 1..k])
            && SentAgain(q1, i + 1, k, arrivals) == SentAgain(q, i, k, arrivals)
  {
  }

  lemma {:induction false} ScanFrom<T>(c: Chan<T>, i: nat, now: int, arrivals: nat -> int, k: nat)
    requires Distinct(c.sendQ) && !c.stopped && i <= k && k <= |c.sendQ|
    requires (forall j | i <= j < k :: Due(c.sendQ[j], now)) && (k < |c.sendQ| ==> !Due(c.sendQ[k], now))
    ensures var out, q := Resend(c, i, now, arrivals), c.sendQ;
            && out.wire == PacketsOf(q[i..k])
            && if k < |q| && now > q[k].arrivalTime then
                 && out.chan == c.(sendQ := [], recvQ := map[], writeQ := [], stopped := true)
                 && out.events == (if c.connected then [Disconnected] else []) && out.answers == Refused(c.writeQ)
               else
                 out.chan == c.(sendQ := SentAgain(q, i, k, arrivals)) && out.events == [] && out.answers == []
    decreases k - i
  {
    var q := c.sendQ;
    hide PacketsOf, SentAgain, Distinct, SqAdd;
    if i == k {
      NoneAgain(q, i, arrivals);
    } else {
      assert Due(q[i], now);
      ResendsOne(q, i, arrivals(i));
      var resent := c.(sendQ := SqAdd(q, q[i].packet, arrivals(i)));
      ScanFrom(resent, i + 1, now, arrivals, k);
      OneAgain(q, i, k, arrivals);
    }
  }

  /** A scan sends again, in order, exactly the due entries at the head of the queue; it
      counts an attempt of each and touches no other; and it gives the channel up exactly
      if the next entry is out of attempts. */
  lemma ResendLaw<T>(c: Chan<T>, now: int, arrivals: nat -> int)
    requires Distinct(c.sendQ) && !c.stopped
    ensures var out, k := Resend(c, 0, now, arrivals), DueLength(c.sendQ, now);
            && out.wire == PacketsOf(c.sendQ[..k])
            && (out.chan.stopped <==> Exhausted(c.sendQ, now))
            && (!out.chan.stopped ==>
                  out.chan == c.(sendQ := SentAgain(c.sendQ, 0, k, arrivals)) && out.events == [] && out.answers == [])
            && (out.chan.stopped ==>
                  && out.chan == c.(sendQ := [], recvQ := map[], writeQ := [], stopped := true)
                  && out.events == (if c.connected then [Disconnected] else []) && out.answers == Refused(c.writeQ))
  {
    hide Resend, DueLength;
    var k := DueLength(c.sendQ, now);
    assert DueRun(c.sendQ, now, k);
    ScanFrom(c, 0, now, arrivals, k);
  }

  /** The tick ends the channel: an entry out of attempts, or silence for too long. */
  ghost predicate Ends<T>(c: Chan<T>, t: Tick) {
    Exhausted(c.sendQ, t.now) || (t.keepAlive && t.silent)
  }

  lemma AliveLaw<T>(c: Chan<T>, quiet: bool, silent: bool)
    ensures var out := KeepAlive(c, quiet, silent);
            && out.wire == (if quiet then [Ping(0)] else [])
            && if silent && !c.stopped then
                 && out.chan == c.(sendQ := [], recvQ := map[], writeQ := [], stopped := true)
                 && out.events == (if c.connected then [Disconnected] else []) && out.answers == Refused(c.writeQ)
               else out.chan == c && out.events == [] && out.answers == []
  {
    var ping := Out(c, [], if quiet then [Ping(0)] else [], []);
    assert KeepAlive(c, quiet, silent) == Then(ping, if silent then Destroy(c) else Out(c, [], [], []));
    assert [] + Destroy(c).events == Destroy(c).events && [] + Destroy(c).answers == Destroy(c).answers;
    assert ping.wire + [] == ping.wire;
  }

  lemma OneIsEmpty<X>(a: seq<X>, b: seq<X>)
    ensures a + [] == a && (a == [] ==> a + b == b) && (b == [] ==> a + b == a)
  {
  }

  lemma NothingAfterEnd<T>(writeQ: seq<T>)
    ensures writeQ == [] ==> Refused(writeQ) == []
  {
  }

  /** One tick: the due packets go out again, after them a ping if the peer has been quiet;
      the user hears of the end of a channel that was connected; and the window moves as
      the speeds say. */
  lemma TickLaw<T>(c: Chan<T>, t: Tick)
    requires Distinct(c.sendQ) && !c.stopped
    ensures var out, k, ends := OnTick(c, t), DueLength(c.sendQ, t.now), Ends(c, t);
            && out.wire == PacketsOf(c.sendQ[..k]) + (if t.keepAlive && t.quiet then [Ping(0)] else [])
            && (out.chan.stopped <==> ends)
            && out.events == (if ends && c.connected then [Disconnected] else [])
            && out.answers == (if ends then Refused(c.writeQ) else [])
            && out.chan.maxQueueSize
               == (if t.calculate then CalculateLength(c.maxQueueSize, |out.chan.sendQ|, t.sendSpeed, t.repeatSpeed)
                   else c.maxQueueSize)
            && (!ends ==> out.chan == c.(sendQ := SentAgain(c.sendQ, 0, k, t.arrivals),
                                         maxQueueSize := out.chan.maxQueueSize))
            && (ends ==> out.chan == c.(sendQ := [], recvQ := map[], writeQ := [], stopped := true,
                                        maxQueueSize := out.chan.maxQueueSize))
  {
    hide Resend, KeepAlive, DueLength, CalculateLength, Refused, PacketsOf, SentAgain, Distinct, Exhausted;
    var resent := Resend(c, 0, t.now, t.arrivals);
    ResendLaw(c, t.now, t.arrivals);
    AliveLaw(resent.chan, t.quiet, t.silent);
    NothingAfterEnd(resent.chan.writeQ);
    var alive := KeepAlive(resent.chan, t.quiet, t.silent);
    OneIsEmpty(resent.events, alive.events);
    OneIsEmpty(resent.answers, alive.answers);
    OneIsEmpty(resent.wire, []);
    var checked := CheckAlive(resent, t);
    assert OnTick(c, t) == checked.(chan := OnTick(c, t).chan);
  }

  /** When the window grows, when it shrinks, and by how much: by 128 when nothing had to
      be repeated and the queue filled it, by 4 when much had to be. */
  lemma WindowLaw(size: int, queued: nat, sendSpeed: nat, repeatSpeed: nat)
    ensures var r, full := CalculateLength(size, queued, sendSpeed, repeatSpeed), queued >= size;
            && (r == size + 128 <==> sendSpeed > 30 && repeatSpeed == 0 && full && size < 2048)
            && (r == size - 4 <==> sendSpeed > 30 && size > 4 && (repeatSpeed > 20 || (repeatSpeed > 10 && full)))
            && (r == size || r == size + 128 || r == size - 4)
  {
  }

  // --------------------------------------------------------------- writing

  /** A write goes out at once exactly if none waits and the window has room. */
  lemma WriteLaw<T>(c: Chan<T>, data: T, arrival: int)
    ensures var out, now := WriteTo(c, data, arrival), c.writeQ == [] && |c.sendQ| < c.maxQueueSize;
            && out.wire == (if now then [Data(c.id, data)] else [])
            && out.answers == (if now then [Answer(data, true)] else [])
            && out.chan.writeQ == (if now then [] else c.writeQ + [data]) && out.events == []
            && out.chan == c.(writeQ := out.chan.writeQ, id := if now then NextID(c.id) else c.id,
                              sendQ := out.chan.sendQ)
            && (!now ==> out.chan.sendQ == c.sendQ)
            && (now && FreshID(c) ==> out.chan.sendQ == c.sendQ + [Entry(Data(c.id, data), arrival, 0)])
  {
  }

  /** The packets are numbered one after the other. */
  ghost predicate Consecutive<T>(wire: seq<Packet<T>>, first: ID) {
    && (wire != [] ==> wire[0].id == first)
    && forall j | 0 < j < |wire| :: wire[j].id == NextID(wire[j - 1].id)
  }

  /** What a release may have done when it has sent the first k waiting writes. */
  ghost predicate ReleasedFirst<T>(c: Chan<T>, first: bool, out: Out<T>, k: nat) {
    && k <= |c.writeQ| && out.chan.writeQ == c.writeQ[k..]
    && |out.wire| == |out.answers| == k && Consecutive(out.wire, c.id)
    && (forall j | 0 <= j < k :: out.wire[j].Data? && out.wire[j].payload == c.writeQ[j])
    && (forall j | 0 <= j < k :: out.answers[j] == Answer(c.writeQ[j], true))
    && (first && c.writeQ != [] ==> k > 0)
    && (out.chan.writeQ != [] ==> |out.chan.sendQ| >= c.maxQueueSize)
    && (k > (if first then 1 else 0) ==> |out.chan.sendQ| <= c.maxQueueSize)
  }

  lemma ReleasedThen<T>(c: Chan<T>, first: bool, sent: Out<T>, rest: Out<T>, k: nat)
    requires c.writeQ != [] && (first || CanWrite(c))
    requires sent.wire == [Data(c.id, c.writeQ[0])] && sent.answers == [Answer(c.writeQ[0], true)]
    requires sent.chan == c.(id := NextID(c.id), sendQ := sent.chan.sendQ, writeQ := c.writeQ[1..])
    requires |sent.chan.sendQ| <= |c.sendQ| + 1 && ReleasedFirst(sent.chan, false, rest, k)
    requires k == 0 ==> rest.chan == sent.chan
    ensures ReleasedFirst(c, first, Then(sent, rest), k + 1)
  {
    var out := Then(sent, rest);
    forall j | 0 < j < |out.wire|
      ensures out.wire[j].id == NextID(out.wire[j - 1].id)
    {
      assert out.wire[j] == rest.wire[j - 1];
      if j > 1 { assert out.wire[j - 1] == rest.wire[j - 2]; }
    }
    forall j | 0 < j < k + 1
      ensures out.wire[j] == rest.wire[j - 1] && out.answers[j] == rest.answers[j - 1]
      ensures c.writeQ[1..][j - 1] == c.writeQ[j]
    {
    }
  }

  /** A release sends the first waiting write in any case, and goes on exactly until none
      waits or the window is full. */
  lemma {:induction false} ReleaseLaw<T>(c: Chan<T>, first: bool, arrivals: nat -> int) returns (k: nat)
    ensures var out := WriteFromQueue(c, first, arrivals);
            && ReleasedFirst(c, first, out, k) && out.events == [] && (k == 0 ==> out.chan == c)
            && out.chan == c.(id := out.chan.id, sendQ := out.chan.sendQ, writeQ := out.chan.writeQ)
    decreases |c.writeQ|
  {
    if c.writeQ != [] && (first || CanWrite(c)) {
      hide NextID, ReleasedFirst;
      var c1, data, arrival := c.(writeQ := c.writeQ[1..]), c.writeQ[0], arrivals(|c.writeQ|);
      var sent := WriteDirect(c1, data, arrival);
      k := ReleaseLaw(sent.chan, false, arrivals);
      ReleasedThen(c, first, sent, WriteFromQueue(sent.chan, false, arrivals), k);
      k := k + 1;
    } else {
      k := 0;
    }
  }

  // ------------------------------------------------------------- receiving

  /** The distance is the only number from -2^31 to 2^31-1 that leads from one id to the
      other, counting in 32 bits. */
  lemma DistanceLaw(a: ID, b: ID, d: int)
    requires -0x8000_0000 <= d < 0x8000_0000
    ensures PacketDistance(a, b) == d <==> (a + d) % LIMIT == b
  {
  }

  /** Draining goes on exactly until the next packet is missing or the room is used up. */
  lemma {:induction false} DrainLaw<T>(c: Chan<T>, budget: nat)
    ensures var out, k := Drain(c, budget), |Drain(c, budget).events|;
            && k <= budget && (k == budget || out.chan.expectedID !in out.chan.recvQ)
            && |out.chan.recvQ| == |c.recvQ| - k && out.wire == [] && out.answers == []
            && (forall id | id in out.chan.recvQ :: id in c.recvQ && out.chan.recvQ[id] == c.recvQ[id])
            && out.chan == c.(expectedID := out.chan.expectedID, recvQ := out.chan.recvQ)
            && Delivered(c, out.events)
    decreases |c.recvQ|
  {
    if c.expectedID in c.recvQ && budget > 0 {
      DrainLaw(Advance(c), budget - 1);
      assert (c.recvQ - {c.expectedID}).Keys == c.recvQ.Keys - {c.expectedID};
      var rest := Drain(Advance(c), budget - 1).events;
      assert ([GotData(c.expectedID, c.recvQ[c.expectedID])] + rest)[1..] == rest;
    }
  }

  /** These are queued packets from the expected one on, each with its id. */
  ghost predicate Delivered<T>(c: Chan<T>, events: seq<Event<T>>)
    decreases |events|
  {
    events == [] ||
    (c.expectedID in c.recvQ && events[0] == GotData(c.expectedID, c.recvQ[c.expectedID])
     && Delivered(Advance(c), events[1..]))
  }

  /** What becomes of a DATA packet, by its id. */
  lemma DataLaw<T>(c: Chan<T>, id: ID, data: T, budget: nat)
    ensures var out, d := DataProcess(c, id, data, budget), PacketDistance(c.expectedID, id);
            && (id == c.expectedID ==>
                  var next := Drain(c.(expectedID := NextID(id)), budget);
                  out.events == [GotData(id, data)] + next.events && out.chan == next.chan && out.wire == [])
            && (id != c.expectedID && id != FIRST_PACKET_ID && c.expectedID == FIRST_PACKET_ID ==>
                  out.chan == c && out.events == [SendReset] && out.wire == [Packet.Reset(0)])
            && (id != FIRST_PACKET_ID && c.expectedID != FIRST_PACKET_ID && (d < 0 || (d > 0 && id in c.recvQ)) ==>
                  out.chan == c.(dropped := c.dropped + 1) && out.events == [] && out.wire == [])
            && (id != FIRST_PACKET_ID && c.expectedID != FIRST_PACKET_ID && d > 0 && id !in c.recvQ
                && c.expectedID !in c.recvQ ==>
                  out.chan == c.(recvQ := c.recvQ[id := data]) && out.events == [] && out.wire == [])
  {
    DistanceZero(c.expectedID, id);
    if id == c.expectedID { DrainLaw(c.(expectedID := NextID(id)), budget); }
  }

  /** A first packet that comes while another is expected: the channel starts again, and
      what waited is refused. */
  lemma RestartLaw<T>(c: Chan<T>, data: T, budget: nat)
    requires c.expectedID != FIRST_PACKET_ID
    ensures var out := DataProcess(c, FIRST_PACKET_ID, data, budget);
            && out.events == [ResetLocal, GotData(0, data)] && out.wire == [] && out.answers == Refused(c.writeQ)
            && out.chan == c.(id := 0, expectedID := 1, sendQ := [], recvQ := map[], writeQ := [])
  {
    DistanceZero(c.expectedID, FIRST_PACKET_ID);
    var c1 := c.(id := 0, expectedID := 0, sendQ := [], recvQ := map[], writeQ := []);
    var again := DataProcess(c1, FIRST_PACKET_ID, data, budget);
    DataLaw(c1, FIRST_PACKET_ID, data, budget);
    assert again.answers == [] && Refused(c.writeQ) + [] == Refused(c.writeQ);
    assert [GotData(0, data)] + [] == [GotData(0, data)];
  }

  /** What goes back at once when a packet arrives: an acknowledgement of DATA, RESET and
      PING with their ids, and a RESET for a packet before the first; and after an ACK
      nothing but waiting writes. */
  lemma AnswerLaw<T>(c: Chan<T>, p: Packet<T>, budget: nat, arrivals: nat -> int, allow: bool)
    ensures var wire := Process(c, p, budget, arrivals, allow).wire;
            && (p.Data? && (p.id == FIRST_PACKET_ID || c.expectedID != FIRST_PACKET_ID) ==> wire == [Ack(p.id)])
            && (p.Data? && p.id != FIRST_PACKET_ID == c.expectedID ==> wire == [Ack(p.id), Packet.Reset(0)])
            && (p.Reset? ==> wire == [AckReset(p.id)]) && (p.Ping? ==> wire == [AckPing(p.id)])
            && (p.AckReset? || p.AckPing? || p.Unknown? ==> wire == [])
            && (p.Ack? ==> forall q | q in wire :: q.Data? && q.payload in c.writeQ)
  {
    var c1 := c.(connected := true);
    if p.Data? {
      DataLaw(c1, p.id, p.payload, budget);
      DataWire(c1, p.id, p.payload, budget);
    } else if p.Ack? {
      var c2 := c1.(sendQ := SqRemove(c.sendQ, p.id));
      var k := ReleaseLaw(c2, true, arrivals);
      assert Process(c, p, budget, arrivals, allow).wire == WriteFromQueue(c2, true, arrivals).wire;
    }
  }

  lemma DataWire<T>(c: Chan<T>, id: ID, data: T, budget: nat)
    ensures DataProcess(c, id, data, budget).wire
            == if id != FIRST_PACKET_ID && c.expectedID == FIRST_PACKET_ID then [Packet.Reset(0)] else []
  {
    DistanceZero(c.expectedID, id);
    DrainLaw(c.(expectedID := NextID(c.expectedID)), budget);
    DrainLaw(c.(recvQ := c.recvQ[id := data]), budget);
    if id == FIRST_PACKET_ID != c.expectedID { RestartLaw(c, data, budget); }
  }

  /** What the user hears when a packet arrives, data and resets by DATA apart. */
  lemma NoticeLaw<T>(c: Chan<T>, p: Packet<T>, budget: nat, arrivals: nat -> int, allow: bool)
    ensures var out := Process(c, p, budget, arrivals, allow);
            var connect := if c.connected then [] else [Connected];
            && out.chan.connected
            && (p.Data? ==>
                  out.events == connect + DataProcess(c.(connected := true), p.id, p.payload, budget).events)
            && (p.Reset? || p.AckReset? ==>
                  && out.events == connect + [ResetLocal] && out.answers == Refused(c.writeQ)
                  && out.chan == c.(id := 0, expectedID := 0, sendQ := [], recvQ := map[], writeQ := [],
                                    connected := true))
            && (p.AckPing? ==> out.events == connect + (if allow then [GotAckPing] else []))
            && (p.Ack? || p.Ping? || p.Unknown? ==> out.events == connect)
            && (p.Ping? || p.AckPing? || p.Unknown? ==> out.chan == c.(connected := true) && out.answers == [])
            && (p.Ack? ==> out.chan == c.(connected := true, id := out.chan.id, sendQ := out.chan.sendQ,
                                          writeQ := out.chan.writeQ))
  {
    var c1 := c.(connected := true);
    if p.Data? {
      var dp := DataProcess(c1, p.id, p.payload, budget);
      assert [] + dp.events == dp.events;
      DataSendPart(c1, p.id, p.payload, budget);
    } else if p.Ack? {
      var k := ReleaseLaw(c1.(sendQ := SqRemove(c.sendQ, p.id)), true, arrivals);
    }
  }

  // --------------------------------------------- connected, disconnected

  ghost predicate Ordinary<T>(events: seq<Event<T>>) {
    forall e | e in events :: !e.Connected? && !e.Disconnected?
  }

  lemma {:induction false} DrainIsOrdinary<T>(c: Chan<T>, budget: nat)
    ensures Ordinary(Drain(c, budget).events)
    decreases |c.recvQ|
  {
    if c.expectedID in c.recvQ && budget > 0 { DrainIsOrdinary(Advance(c), budget - 1); }
  }

  lemma DataIsOrdinary<T>(c: Chan<T>, id: ID, data: T, budget: nat)
    ensures Ordinary(DataProcess(c, id, data, budget).events)
  {
    DistanceZero(c.expectedID, id);
    DrainIsOrdinary(c.(expectedID := NextID(c.expectedID)), budget);
    DrainIsOrdinary(c.(recvQ := c.recvQ[id := data]), budget);
    if id == FIRST_PACKET_ID != c.expectedID { RestartLaw(c, data, budget); }
  }

  /** While the channel lives: nothing, or one connect event and then others. */
  ghost predicate Living<T>(connected: bool, events: seq<Event<T>>) {
    if connected then events != [] && events[0] == Connected && Ordinary(events[1..]) else events == []
  }

  /** The events of one action, by what it does to the channel. */
  ghost predicate Notices<T>(c: Chan<T>, a: Action<T>, out: Out<T>) {
    && (a.Arrive? ==> out.chan.connected && !out.chan.stopped)
    && (a.Arrive? && c.connected ==> Ordinary(out.events))
    && (a.Arrive? && !c.connected ==> Living(true, out.events))
    && (!a.Arrive? ==> out.chan.connected == c.connected)
    && (!a.Arrive? ==> out.events == if out.chan.stopped && c.connected then [Disconnected] else [])
  }

  lemma ActionNotices<T>(c: Chan<T>, a: Action<T>)
    requires Distinct(c.sendQ) && !c.stopped
    ensures Notices(c, a, Apply(c, a))
  {
    match a
    case Arrive(p, budget, arrivals, allow) =>
      ArrivalNotices(c, p, budget, arrivals, allow);
    case Write(data, arrival) => WriteLaw(c, data, arrival);
    case Timer(t) => TickLaw(c, t);
    case Close => AliveLaw(c, false, true);
  }

  lemma ArrivalNotices<T>(c: Chan<T>, p: Packet<T>, budget: nat, arrivals: nat -> int, allow: bool)
    requires !c.stopped
    ensures Notices(c, Arrive(p, budget, arrivals, allow), Process(c, p, budget, arrivals, allow))
  {
    hide Process;
    var out := Process(c, p, budget, arrivals, allow);
    NoticeLaw(c, p, budget, arrivals, allow);
    var c1 := c.(connected := true);
    var rest: seq<Event<T>> :=
      if p.Data? then DataProcess(c1, p.id, p.payload, budget).events
      else if p.Reset? || p.AckReset? then [ResetLocal]
      else if p.AckPing? && allow then [GotAckPing] else [];
    if p.Data? {
      DataIsOrdinary(c1, p.id, p.payload, budget);
      DataSendPart(c1, p.id, p.payload, budget);
      ProcessData(c, p, budget, arrivals, allow);
    }
    var connect: seq<Event<T>> := if c.connected then [] else [Connected];
    OneIsEmpty(connect, []);
    assert Ordinary(rest) && out.events == connect + rest;
    assert !c.connected ==> out.events[1..] == rest;
  }

  lemma ProcessData<T>(c: Chan<T>, p: Packet<T>, budget: nat, arrivals: nat -> int, allow: bool)
    requires p.Data?
    ensures Process(c, p, budget, arrivals, allow).chan
            == DataProcess(c.(connected := true), p.id, p.payload, budget).chan
  {
  }

  /** In the end: a disconnect event last, exactly if there was a connect event. */
  ghost predicate LifeStory<T>(c: Chan<T>, events: seq<Event<T>>) {
    if c.stopped && c.connected then
      events != [] && events[|events| - 1] == Disconnected && Living(true, events[..|events| - 1])
    else Living(c.connected, events)
  }

  lemma StoryGoesOn<T>(c: Chan<T>, events: seq<Event<T>>, a: Action<T>, out: Out<T>)
    requires !c.stopped && Living(c.connected, events) && Notices(c, a, out)
    ensures LifeStory(out.chan, events + out.events)
  {
    var all := events + out.events;
    if a.Arrive? {
      if c.connected {
        assert all[1..] == events[1..] + out.events;
      } else {
        assert all == out.events;
      }
    } else if out.chan.stopped && c.connected {
      assert all[..|all| - 1] == events;
    } else {
      assert all == events;
    }
  }

  lemma {:induction false} LifeFrom<T>(c: Chan<T>, l: Log<T>, actions: seq<Action<T>>, before: seq<Event<T>>)
    requires LogOk(c, l) && !c.stopped && Living(c.connected, before)
    ensures LifeStory(Total(c, actions).chan, before + Total(c, actions).events)
    decreases |actions|
  {
    hide LogOk, Apply, Record, Living, Notices, LifeStory;
    if actions == [] {
      OneIsEmpty(before, []);
      StoryOfLiving(c, before);
    } else {
      var a, out := actions[0], Apply(c, actions[0]);
      QueueIsDistinct(c, l);
      ActionNotices(c, a);
      StoryGoesOn(c, before, a, out);
      StepIsOk(c, l, a);
      var rest := Total(out.chan, actions[1..]);
      assert before + (out.events + rest.events) == before + out.events + rest.events;
      if out.chan.stopped {
        OneIsEmpty(before + out.events, []);
      } else {
        StoryOfLiving(out.chan, before + out.events);
        LifeFrom(out.chan, Record(l, c, a), actions[1..], before + out.events);
      }
    }
  }

  lemma StoryOfLiving<T>(c: Chan<T>, events: seq<Event<T>>)
    requires !c.stopped
    ensures LifeStory(c, events) <==> Living(c.connected, events)
  {
  }

  lemma QueueIsDistinct<T>(c: Chan<T>, l: Log<T>)
    requires LogOk(c, l) && !c.stopped
    ensures Distinct(c.sendQ)
  {
  }

  /** In every run of a new channel its user hears first, and once, that it is connected,
      then everything else, and last that it is disconnected, exactly if it was connected
      and is destroyed. A channel that is never connected is silent. */
  lemma UserHearsLifeStory<T>(actions: seq<Action<T>>)
    ensures var out := Total(NewChan<T>(DEFAULT_QUEUE_SIZE, false), actions);
            LifeStory(out.chan, out.events)
  {
    var c := NewChan<T>(DEFAULT_QUEUE_SIZE, false);
    LifeFrom(c, NewLog(), actions, []);
    OneIsEmpty([], Total(c, actions).events);
  }
}

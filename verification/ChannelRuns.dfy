/**
 What holds of one channel in every run, whatever packets arrive and whatever the
 user and the timer do: no hypothesis on the network or on the other side.

 The log keeps what happened since the last reset (an epoch) and, for the writes,
 since the channel was made.
 */
module ChannelRuns {
  import opened SeqNum
  import opened Transport

  datatype Log<+T> = Log(
    delivered: seq<(ID, T)>,      // given to the user in this epoch, under which id
    got: seq<(ID, T)>,            // DATA packets that arrived in this epoch
    wasted: int,                  // how many of those were dropped or answered with RESET
    issued: seq<T>,               // payloads sent in this epoch, in order
    epochWrites: seq<T>,          // all writes of this epoch
    writes: seq<T>,               // all writes of the channel's life
    answers: seq<Answer<T>>,      // all answers to them
    strayAcks: nat)               // ACKs that matched no entry of the send queue

  ghost function Deliver<T>(delivered: seq<(ID, T)>, event: Event<T>): seq<(ID, T)> {
    match event
    case ResetLocal => []
    case GotData(id, data) => delivered + [(id, data)]
    case _ => delivered
  }

  ghost function Deliveries<T>(delivered: seq<(ID, T)>, events: seq<Event<T>>): seq<(ID, T)>
    decreases |events|
  {
    if events == [] then delivered else Deliveries(Deliver(delivered, events[0]), events[1..])
  }

  ghost predicate Resets<T>(events: seq<Event<T>>) {
    ResetLocal in events
  }

  ghost function Wasted<T>(c: Chan<T>, out: Out<T>): int {
    out.chan.dropped - c.dropped + (if SendReset in out.events then 1 else 0)
  }

  ghost function IssuedBy<T>(answers: seq<Answer<T>>): seq<T> {
    if answers == [] then []
    else (if answers[0].sent then [answers[0].data] else []) + IssuedBy(answers[1..])
  }

  ghost predicate Stray<T>(c: Chan<T>, a: Action<T>) {
    a.Arrive? && a.packet.Ack? && Position(c.sendQ, a.packet.id) == |c.sendQ|
  }

  ghost function NewLog<T>(): Log<T> {
    Log([], [], 0, [], [], [], [], 0)
  }

  ghost function Record<T>(l: Log<T>, c: Chan<T>, a: Action<T>): Log<T>
  {
    var out := Apply(c, a);
    var reset := Resets(out.events);
    Log(
      Deliveries(l.delivered, out.events),
      (if reset then [] else l.got)
      + (if a.Arrive? && a.packet.Data? then [(a.packet.id, a.packet.payload)] else []),
      if reset then 0 else l.wasted + Wasted(c, out),
      if reset then [] else l.issued + IssuedBy(out.answers),
      (if reset then [] else l.epochWrites) + (if a.Write? then [a.data] else []),
      l.writes + (if a.Write? then [a.data] else []),
      l.answers + out.answers,
      l.strayAcks + (if Stray(c, a) then 1 else 0))
  }

  // ----------------------------------------------------------- receiving

  /** The ids delivered in this epoch are Wire(0), Wire(1), ... without a gap. */
  ghost predicate InSequence<T>(delivered: seq<(ID, T)>, expectedID: ID) {
    && expectedID == Wire(|delivered|)
    && forall i | 0 <= i < |delivered| :: delivered[i].0 == Wire(i)
  }

  /** All of it came in packets of this epoch, and every one of those is accounted
      for: delivered, queued, or wasted. */
  ghost predicate EpochOk<T>(c: Chan<T>, delivered: seq<(ID, T)>, got: seq<(ID, T)>, wasted: int) {
    && InSequence(delivered, c.expectedID)
    && (forall d | d in delivered :: d in got)
    && (forall id | id in c.recvQ :: (id, c.recvQ[id]) in got)
    && (!c.stopped ==> |got| == |delivered| + |c.recvQ| + wasted)
  }

  lemma DistanceZero(a: ID, b: ID)
    ensures PacketDistance(a, b) == 0 <==> a == b
  {
  }

  lemma {:induction false} DeliveriesConcat<T>(delivered: seq<(ID, T)>, a: seq<Event<T>>, b: seq<Event<T>>)
    ensures Deliveries(delivered, a + b) == Deliveries(Deliveries(delivered, a), b)
    decreases |a|
  {
    if a == [] {
      assert a + b == b;
    } else {
      assert (a + b)[1..] == a[1..] + b;
      DeliveriesConcat(Deliver(delivered, a[0]), a[1..], b);
    }
  }

  lemma {:induction false} DrainEpoch<T>(c: Chan<T>, delivered: seq<(ID, T)>, got: seq<(ID, T)>, wasted: int,
                                         budget: nat)
    requires EpochOk(c, delivered, got, wasted)
    ensures var out := Drain(c, budget);
            && EpochOk(out.chan, Deliveries(delivered, out.events), got, wasted)
            && !Resets(out.events) && Wasted(c, out) == 0
    decreases |c.recvQ|
  {
    if c.expectedID in c.recvQ && budget > 0 {
      var d := (c.expectedID, c.recvQ[c.expectedID]);
      AdvanceEpoch(c, delivered, got, wasted);
      DrainEpoch(Advance(c), delivered + [d], got, wasted, budget - 1);
      DeliveriesConcat(delivered, [GotData(d.0, d.1)], Drain(Advance(c), budget - 1).events);
      assert Deliveries(delivered, [GotData(d.0, d.1)]) == delivered + [d];
    }
  }

  lemma AdvanceEpoch<T>(c: Chan<T>, delivered: seq<(ID, T)>, got: seq<(ID, T)>, wasted: int)
    requires EpochOk(c, delivered, got, wasted) && c.expectedID in c.recvQ
    ensures EpochOk(Advance(c), delivered + [(c.expectedID, c.recvQ[c.expectedID])], got, wasted)
  {
    NextIDFollowsWire(|delivered|);
    assert Advance(c).recvQ.Keys == c.recvQ.Keys - {c.expectedID};
  }

  lemma ExpectedEpoch<T>(c: Chan<T>, delivered: seq<(ID, T)>, got: seq<(ID, T)>, wasted: int,
                         id: ID, data: T, budget: nat)
    requires EpochOk(c, delivered, got, wasted) && id == c.expectedID
    ensures var out := DataProcess(c, id, data, budget);
            && EpochOk(out.chan, Deliveries(delivered, out.events), got + [(id, data)], wasted)
            && !Resets(out.events) && Wasted(c, out) == 0
  {
    var c1 := c.(expectedID := NextID(c.expectedID));
    DistanceZero(c.expectedID, id);
    NextIDFollowsWire(|delivered|);
    DrainEpoch(c1, delivered + [(id, data)], got + [(id, data)], wasted, budget);
    DeliveriesConcat(delivered, [GotData(id, data)], Drain(c1, budget).events);
    assert Deliveries(delivered, [GotData(id, data)]) == delivered + [(id, data)];
  }

  ghost predicate Accounted<T>(c: Chan<T>, delivered: seq<(ID, T)>, got: seq<(ID, T)>, wasted: int, out: Out<T>,
                               d: (ID, T))
  {
    var restarts := Resets(out.events);
    && EpochOk(out.chan, Deliveries(delivered, out.events), (if restarts then [] else got) + [d],
               if restarts then 0 else wasted + Wasted(c, out))
    && (!restarts ==> Wasted(c, out) >= 0)
  }

  lemma WasteEpoch<T>(c: Chan<T>, delivered: seq<(ID, T)>, got: seq<(ID, T)>, wasted: int, d: (ID, T))
    requires EpochOk(c, delivered, got, wasted)
    ensures Accounted(c, delivered, got, wasted, Out(c, [SendReset], [Reset(0)], []), d)
    ensures Accounted(c, delivered, got, wasted, Out(c.(dropped := c.dropped + 1), [], [], []), d)
  {
    assert Deliveries(delivered, [SendReset]) == delivered;
  }

  lemma QueueEpoch<T>(c: Chan<T>, delivered: seq<(ID, T)>, got: seq<(ID, T)>, wasted: int, d: (ID, T), budget: nat)
    requires EpochOk(c, delivered, got, wasted) && d.0 !in c.recvQ
    ensures Accounted(c, delivered, got, wasted, Drain(c.(recvQ := c.recvQ[d.0 := d.1]), budget), d)
  {
    hide Drain, Deliveries, EpochOk;
    var c1 := c.(recvQ := c.recvQ[d.0 := d.1]);
    QueuedOk(c, delivered, got, wasted, d);
    DrainEpoch(c1, delivered, got + [d], wasted, budget);
  }

  lemma QueuedOk<T>(c: Chan<T>, delivered: seq<(ID, T)>, got: seq<(ID, T)>, wasted: int, d: (ID, T))
    requires EpochOk(c, delivered, got, wasted) && d.0 !in c.recvQ
    ensures EpochOk(c.(recvQ := c.recvQ[d.0 := d.1]), delivered, got + [d], wasted)
  {
    hide InSequence;
    assert c.recvQ[d.0 := d.1].Keys == c.recvQ.Keys + {d.0};
  }

  /** One DATA packet, whatever its id. */
  lemma DataEpoch<T>(c: Chan<T>, delivered: seq<(ID, T)>, got: seq<(ID, T)>, wasted: int,
                     id: ID, data: T, budget: nat)
    requires EpochOk(c, delivered, got, wasted)
    ensures Accounted(c, delivered, got, wasted, DataProcess(c, id, data, budget), (id, data))
  {
    DistanceZero(c.expectedID, id);
    if id == c.expectedID {
      ExpectedEpoch(c, delivered, got, wasted, id, data, budget);
    } else if id == FIRST_PACKET_ID {
      RestartEpoch(c, delivered, id, data, budget);
    } else {
      WasteEpoch(c, delivered, got, wasted, (id, data));
      if c.expectedID != FIRST_PACKET_ID && PacketDistance(c.expectedID, id) > 0 && id !in c.recvQ {
        QueueEpoch(c, delivered, got, wasted, (id, data), budget);
      }
    }
  }

  lemma RestartEpoch<T>(c: Chan<T>, delivered: seq<(ID, T)>, id: ID, data: T, budget: nat)
    requires id == FIRST_PACKET_ID != c.expectedID
    ensures var out := DataProcess(c, id, data, budget);
            && Resets(out.events)
            && EpochOk(out.chan, Deliveries(delivered, out.events), [(id, data)], 0)
  {
    var c1 := ResetChan(c).chan;
    DistanceZero(c.expectedID, id);
    ExpectedEpoch(c1, [], [], 0, id, data, budget);
    var again := DataProcess(c1, id, data, budget);
    DeliveriesConcat(delivered, [ResetLocal], again.events);
    assert ([ResetLocal] + again.events)[0] == ResetLocal;
    assert [] + [(id, data)] == [(id, data)];
  }

  // ------------------------------------------------------------- sending

  ghost function Answered<T>(answers: seq<Answer<T>>): (datas: seq<T>)
    ensures |datas| == |answers|
  {
    seq(|answers|, i requires 0 <= i < |answers| => answers[i].data)
  }

  /** p carries the k-th payload of the epoch under the k-th id, for some k. */
  ghost predicate IsIssued<T>(p: Packet<T>, issued: seq<T>) {
    exists k | 0 <= k < |issued| :: p == Data(Wire(k), issued[k])
  }

  ghost predicate QueueIssued<T>(q: seq<Entry<T>>, issued: seq<T>) {
    Distinct(q) && forall i | 0 <= i < |q| :: IsIssued(q[i].packet, issued)
  }

  ghost predicate WireIssued<T>(wire: seq<Packet<T>>, issued: seq<T>) {
    forall p | p in wire && p.Data? :: IsIssued(p, issued)
  }

  ghost predicate Sending<T>(c: Chan<T>, issued: seq<T>) {
    c.id == Wire(|issued|) && QueueIssued(c.sendQ, issued)
  }

  /** No write waits for an acknowledgement that cannot come. */
  ghost predicate NotStranded<T>(c: Chan<T>) {
    c.writeQ != [] ==> c.sendQ != []
  }

  function Max(a: int, b: int): int { if a >= b then a else b }

  lemma IssuedStays<T>(p: Packet<T>, issued: seq<T>, more: seq<T>)
    requires IsIssued(p, issued)
    ensures IsIssued(p, issued + more)
  {
    var k :| 0 <= k < |issued| && p == Data(Wire(k), issued[k]);
    assert (issued + more)[k] == issued[k];
  }

  lemma WriteDirectIssues<T>(c: Chan<T>, data: T, arrival: int, issued: seq<T>)
    requires Sending(c, issued)
    ensures var out := WriteDirect(c, data, arrival);
            && Sending(out.chan, issued + [data]) && WireIssued(out.wire, issued + [data])
            && 0 < |out.chan.sendQ| <= |c.sendQ| + 1
  {
    var out := WriteDirect(c, data, arrival);
    NextIDFollowsWire(|issued|);
    assert (issued + [data])[|issued|] == data;
    forall i | 0 <= i < |out.chan.sendQ|
      ensures IsIssued(out.chan.sendQ[i].packet, issued + [data])
    {
      if i < |c.sendQ| { IssuedStays(c.sendQ[i].packet, issued, [data]); }
    }
  }

  /** Released is what WriteFromQueue may do, apart from what it leaves alone. */
  ghost predicate Released<T>(c: Chan<T>, issued: seq<T>, first: bool, out: Out<T>) {
    var issued' := issued + IssuedBy(out.answers);
    && Sending(out.chan, issued') && WireIssued(out.wire, issued')
    && Answered(out.answers) + out.chan.writeQ == c.writeQ
    && IssuedBy(out.answers) == Answered(out.answers)
    && (first ==> NotStranded(out.chan))
    && (c.sendQ != [] ==> out.chan.sendQ != [])
    && |out.chan.sendQ| <= Max(|c.sendQ| + (if first then 1 else 0), c.maxQueueSize)
    && out.events == []
    && out.chan == c.(id := out.chan.id, sendQ := out.chan.sendQ, writeQ := out.chan.writeQ)
  }

  lemma {:induction false} WriteFromQueueReleases<T>(c: Chan<T>, first: bool, arrivals: nat -> int, issued: seq<T>)
    requires Sending(c, issued)
    ensures Released(c, issued, first, WriteFromQueue(c, first, arrivals))
    decreases |c.writeQ|
  {
    if c.writeQ != [] && (first || CanWrite(c)) {
      var c1, data := c.(writeQ := c.writeQ[1..]), c.writeQ[0];
      var sent := WriteDirect(c1, data, arrivals(|c.writeQ|));
      WriteDirectIssues(c1, data, arrivals(|c.writeQ|), issued);
      WriteFromQueueReleases(sent.chan, false, arrivals, issued + [data]);
      ReleasedThen(c, issued, first, sent, WriteFromQueue(sent.chan, false, arrivals));
    } else {
      assert issued + IssuedBy<T>([]) == issued && Answered<T>([]) == [];
    }
  }

  lemma ReleasedThen<T>(c: Chan<T>, issued: seq<T>, first: bool, sent: Out<T>, rest: Out<T>)
    requires c.writeQ != [] && (first || CanWrite(c))
    requires sent.answers == [Answer(c.writeQ[0], true)] && sent.events == []
    requires sent.chan == c.(id := sent.chan.id, sendQ := sent.chan.sendQ, writeQ := c.writeQ[1..])
    requires WireIssued(sent.wire, issued + [c.writeQ[0]]) && 0 < |sent.chan.sendQ| <= |c.sendQ| + 1
    requires Released(sent.chan, issued + [c.writeQ[0]], false, rest)
    ensures Released(c, issued, first, Then(sent, rest))
  {
    var data := c.writeQ[0];
    var more := IssuedBy(rest.answers);
    assert (sent.answers + rest.answers)[1..] == rest.answers;
    assert issued + ([data] + more) == issued + [data] + more;
    forall p | p in sent.wire && p.Data?
      ensures IsIssued(p, issued + [data] + more)
    {
      IssuedStays(p, issued + [data], more);
    }
    assert Answered(sent.answers + rest.answers) == [data] + Answered(rest.answers);
    assert c.writeQ == [data] + c.writeQ[1..];
  }

  lemma CutIssued<T>(q: seq<Entry<T>>, i: nat, issued: seq<T>)
    requires QueueIssued(q, issued) && i < |q|
    ensures QueueIssued(q[..i] + q[i + 1..], issued)
  {
    var q' := q[..i] + q[i + 1..];
    forall j | 0 <= j < |q'|
      ensures IsIssued(q'[j].packet, issued)
    {
      assert q'[j] == q[if j < i then j else j + 1];
    }
  }

  lemma RemoveIssued<T>(q: seq<Entry<T>>, id: ID, issued: seq<T>)
    requires QueueIssued(q, issued)
    ensures QueueIssued(SqRemove(q, id), issued)
    ensures |SqRemove(q, id)| == if Position(q, id) < |q| then |q| - 1 else |q|
  {
    if Position(q, id) < |q| { CutIssued(q, Position(q, id), issued); }
  }

  /** A scan or a tick: sends only what is queued, and answers a write only when it
      gives the channel up. */
  ghost predicate Scanned<T>(c: Chan<T>, issued: seq<T>, out: Out<T>) {
    && (forall e | e in out.events :: e == Disconnected)
    && WireIssued(out.wire, issued)
    && out.chan.expectedID == c.expectedID && out.chan.dropped == c.dropped
    && if out.chan.stopped then
         out.chan.writeQ == [] && out.chan.sendQ == [] && out.chan.recvQ == map[] && out.answers == Refused(c.writeQ)
       else
         && out.chan == c.(sendQ := out.chan.sendQ, maxQueueSize := out.chan.maxQueueSize)
         && out.answers == [] && |out.chan.sendQ| == |c.sendQ| && QueueIssued(out.chan.sendQ, issued)
  }

  lemma ScannedThen<T>(c: Chan<T>, issued: seq<T>, a: Out<T>, b: Out<T>)
    requires Scanned(c, issued, a) && !a.chan.stopped && Scanned(a.chan, issued, b)
    ensures Scanned(c, issued, Then(a, b))
  {
    assert a.answers + b.answers == b.answers;
  }

  lemma DestroyScanned<T>(c: Chan<T>, issued: seq<T>)
    requires !c.stopped
    ensures Scanned(c, issued, Destroy(c))
  {
  }

  lemma ResendOneIssued<T>(c: Chan<T>, issued: seq<T>, i: nat, arrival: int)
    requires !c.stopped && QueueIssued(c.sendQ, issued) && i < |c.sendQ|
    ensures var packet := c.sendQ[i].packet;
            Scanned(c, issued, Out(c.(sendQ := SqAdd(c.sendQ, packet, arrival)), [], [packet], []))
  {
    var q' := SqAdd(c.sendQ, c.sendQ[i].packet, arrival);
    assert |q'| == |c.sendQ|;
    assert forall j | 0 <= j < |q'| :: q'[j].packet == c.sendQ[j].packet;
  }

  lemma {:induction false} ResendScanned<T>(c: Chan<T>, issued: seq<T>, i: nat, now: int, arrivals: nat -> int)
    requires !c.stopped && QueueIssued(c.sendQ, issued)
    ensures Scanned(c, issued, Resend(c, i, now, arrivals))
    decreases |c.sendQ| - i
  {
    if i >= |c.sendQ| || now <= c.sendQ[i].arrivalTime {
    } else if c.sendQ[i].resendAttempt >= MAX_RESEND_ATTEMPT {
      DestroyScanned(c, issued);
    } else {
      var resent := c.(sendQ := SqAdd(c.sendQ, c.sendQ[i].packet, arrivals(i)));
      ResendOneIssued(c, issued, i, arrivals(i));
      ResendScanned(resent, issued, i + 1, now, arrivals);
      ScannedThen(c, issued, Out(resent, [], [c.sendQ[i].packet], []), Resend(resent, i + 1, now, arrivals));
    }
  }

  lemma CheckAliveScanned<T>(c: Chan<T>, issued: seq<T>, out: Out<T>, t: Tick)
    requires Scanned(c, issued, out)
    ensures Scanned(c, issued, CheckAlive(out, t))
  {
    if t.keepAlive {
      var ping := Out(out.chan, [], if t.quiet then [Ping(0)] else [], []);
      assert KeepAlive(out.chan, t.quiet, t.silent)
             == Then(ping, if t.silent then Destroy(out.chan) else Out(out.chan, [], [], []));
      if t.silent && !out.chan.stopped {
        DestroyScanned(out.chan, issued);
        assert out.answers + ([] + Refused(c.writeQ)) == Refused(c.writeQ);
      } else {
        assert out.answers + ([] + []) == out.answers;
        assert out.events + ([] + []) == out.events;
      }
    }
  }

  lemma TickScanned<T>(c: Chan<T>, issued: seq<T>, t: Tick)
    requires !c.stopped && QueueIssued(c.sendQ, issued)
    ensures Scanned(c, issued, OnTick(c, t))
  {
    var resent := Resend(c, 0, t.now, t.arrivals);
    ResendScanned(c, issued, 0, t.now, t.arrivals);
    CheckAliveScanned(c, issued, resent, t);
    var alive := CheckAlive(resent, t);
    var size := Resize(alive, t).chan.maxQueueSize;
    assert Resize(alive, t) == alive.(chan := alive.chan.(maxQueueSize := size));
  }

  // ---------------------------------------------------------- every action

  const MAX_WINDOW := 2172

  ghost predicate WindowSize(size: int) {
    4 <= size <= MAX_WINDOW && size % 4 == 0
  }

  lemma WindowStaysInRange(size: int, queued: nat, sendSpeed: nat, repeatSpeed: nat)
    requires WindowSize(size)
    ensures WindowSize(CalculateLength(size, queued, sendSpeed, repeatSpeed))
  {
  }

  ghost predicate LogOk<T>(c: Chan<T>, l: Log<T>) {
    && WindowSize(c.maxQueueSize)
    && EpochOk(c, l.delivered, l.got, l.wasted)
    && Answered(l.answers) + c.writeQ == l.writes
    && if c.stopped then c.sendQ == [] && c.writeQ == []
       else
         && Sending(c, l.issued) && NotStranded(c) && |c.sendQ| <= MAX_WINDOW + l.strayAcks
         && l.issued + c.writeQ == l.epochWrites
  }

  /** What one action did to the sending part. */
  ghost predicate SentOk<T>(c: Chan<T>, l: Log<T>, a: Action<T>) {
    var out, l' := Apply(c, a), Record(l, c, a);
    WireIssued(out.wire, l'.issued)
  }

  lemma DrainSendPart<T>(c: Chan<T>, budget: nat)
    ensures var out := Drain(c, budget);
            && out.chan == c.(expectedID := out.chan.expectedID, recvQ := out.chan.recvQ)
            && out.wire == [] && out.answers == []
    decreases |c.recvQ|
  {
  }

  /** A DATA packet leaves the sending part alone, or resets it. */
  lemma DataSendPart<T>(c: Chan<T>, id: ID, data: T, budget: nat)
    ensures var out := DataProcess(c, id, data, budget);
            && (forall p | p in out.wire :: !p.Data?)
            && if Resets(out.events) then
                 out.chan == ResetChan(c).chan.(expectedID := out.chan.expectedID, recvQ := out.chan.recvQ)
                 && out.answers == Refused(c.writeQ)
               else
                 out.chan == c.(expectedID := out.chan.expectedID, recvQ := out.chan.recvQ, dropped := out.chan.dropped)
                 && out.answers == []
  {
    DistanceZero(c.expectedID, id);
    var c1, c2 := c.(expectedID := NextID(c.expectedID)), c.(recvQ := c.recvQ[id := data]);
    DrainSendPart(c1, budget);
    DrainSendPart(c2, budget);
    DrainNoReset(c1, budget);
    DrainNoReset(c2, budget);
    if id == FIRST_PACKET_ID != c.expectedID {
      var c3 := ResetChan(c).chan;
      DistanceZero(c3.expectedID, id);
      var again := DataProcess(c3, id, data, budget);
      var c4 := c3.(expectedID := 1);
      assert again == Then(Out(c4, [GotData(id, data)], [], []), Out(c4, [], [], []));
      assert ([ResetLocal] + again.events)[0] == ResetLocal;
    }
  }

  lemma {:induction false} DrainNoReset<T>(c: Chan<T>, budget: nat)
    ensures !Resets(Drain(c, budget).events)
    decreases |c.recvQ|
  {
    if c.expectedID in c.recvQ && budget > 0 {
      DrainNoReset(Advance(c), budget - 1);
    }
  }

  /** The log after an action with output out that was not itself a DATA packet. */
  ghost predicate QuietEvents<T>(events: seq<Event<T>>) {
    forall e | e in events :: !e.GotData? && !e.ResetLocal? && !e.SendReset?
  }

  lemma {:induction false} QuietDeliveries<T>(delivered: seq<(ID, T)>, events: seq<Event<T>>)
    requires QuietEvents(events)
    ensures Deliveries(delivered, events) == delivered && !Resets(events) && SendReset !in events
    decreases |events|
  {
    if events != [] {
      assert events[0] in events;
      QuietDeliveries(delivered, events[1..]);
    }
  }

  lemma AnsweredConcat<T>(a: seq<Answer<T>>, b: seq<Answer<T>>)
    ensures Answered(a + b) == Answered(a) + Answered(b)
  {
  }

  lemma RefusedIsAll<T>(writeQ: seq<T>)
    ensures Answered(Refused(writeQ)) == writeQ
  {
  }

  lemma ResetStep<T>(c: Chan<T>, l: Log<T>, out: Out<T>)
    requires LogOk(c, l) && !c.stopped
    requires out.chan == ResetChan(c).chan.(expectedID := out.chan.expectedID, recvQ := out.chan.recvQ,
                                            connected := out.chan.connected)
    requires out.answers == Refused(c.writeQ)
    ensures Sending(out.chan, []) && NotStranded(out.chan) && out.chan.sendQ == [] && WindowSize(out.chan.maxQueueSize)
    ensures Answered(l.answers + out.answers) + out.chan.writeQ == l.writes
  {
    AnsweredConcat(l.answers, out.answers);
    RefusedIsAll(c.writeQ);
  }

  ghost predicate StepOk<T>(c: Chan<T>, l: Log<T>, a: Action<T>) {
    LogOk(Apply(c, a).chan, Record(l, c, a)) && SentOk(c, l, a)
  }

  // The channel and the events after the connect check.

  lemma ConnectLeaves<T>(c: Chan<T>, delivered: seq<(ID, T)>, b: seq<Event<T>>)
    ensures Deliveries(delivered, Connect(c).events + b) == Deliveries(delivered, b)
    ensures Resets(Connect(c).events + b) == Resets(b)
    ensures SendReset in Connect(c).events + b <==> SendReset in b
  {
    DeliveriesConcat(delivered, Connect(c).events, b);
    if !c.connected { assert Deliveries(delivered, [Connected]) == delivered; }
  }

  lemma DataRecord<T>(c: Chan<T>, l: Log<T>, a: Action<T>)
    requires a.Arrive? && a.packet.Data?
    ensures var out := DataProcess(c.(connected := true), a.packet.id, a.packet.payload, a.budget);
            var reset := Resets(out.events);
            && Apply(c, a).chan == out.chan && Apply(c, a).wire == [Ack(a.packet.id)] + out.wire
            && Record(l, c, a) == Log(
                 Deliveries(l.delivered, out.events),
                 (if reset then [] else l.got) + [(a.packet.id, a.packet.payload)],
                 if reset then 0 else l.wasted + Wasted(c, out),
                 if reset then [] else l.issued + IssuedBy(out.answers),
                 if reset then [] else l.epochWrites, l.writes, l.answers + out.answers, l.strayAcks)
  {
    hide DataProcess, Deliveries, IssuedBy;
    var out := DataProcess(c.(connected := true), a.packet.id, a.packet.payload, a.budget);
    assert [] + out.events == out.events && [] + out.answers == out.answers;
    ConnectLeaves(c, l.delivered, out.events);
    assert Apply(c, a).events == Connect(c).events + out.events && Apply(c, a).answers == out.answers;
    assert l.writes + [] == l.writes && l.epochWrites + [] == l.epochWrites;
  }

  lemma ArriveData<T>(c: Chan<T>, l: Log<T>, p: Packet<T>, budget: nat, arrivals: nat -> int, allow: bool)
    requires LogOk(c, l) && !c.stopped && p.Data?
    ensures StepOk(c, l, Arrive(p, budget, arrivals, allow))
  {
    hide Record, Apply, DataProcess, Deliveries, WindowSize, Answered, QueueIssued, Resets, Wasted;
    var a, c1 := Arrive(p, budget, arrivals, allow), c.(connected := true);
    DataRecord(c, l, a);
    DataEpoch(c1, l.delivered, l.got, l.wasted, p.id, p.payload, budget);
    DataSendPart(c1, p.id, p.payload, budget);
    var out := DataProcess(c1, p.id, p.payload, budget);
    WastedAlike(c, c1, out);
    if Resets(out.events) {
      ResetStep(c, l, out);
    } else {
      assert l.issued + IssuedBy<T>([]) == l.issued && l.answers + [] == l.answers;
    }
  }

  lemma WastedAlike<T>(c: Chan<T>, c1: Chan<T>, out: Out<T>)
    requires c1 == c.(connected := true)
    ensures Wasted(c1, out) == Wasted(c, out)
  {
  }

  function Acked<T>(c: Chan<T>, id: ID): Chan<T> {
    c.(connected := true, sendQ := SqRemove(c.sendQ, id))
  }

  lemma AckRecord<T>(c: Chan<T>, l: Log<T>, a: Action<T>)
    requires a.Arrive? && a.packet.Ack?
    requires var out := WriteFromQueue(Acked(c, a.packet.id), true, a.arrivals);
             out.events == [] && out.chan.dropped == c.dropped
    ensures var out := WriteFromQueue(Acked(c, a.packet.id), true, a.arrivals);
            && Apply(c, a).chan == out.chan && Apply(c, a).wire == out.wire
            && Record(l, c, a) == l.(issued := l.issued + IssuedBy(out.answers), answers := l.answers + out.answers,
                                     strayAcks := l.strayAcks + if Stray(c, a) then 1 else 0)
  {
    hide Stray, Deliveries, SqRemove, WriteFromQueue, IssuedBy;
    var out := WriteFromQueue(Acked(c, a.packet.id), true, a.arrivals);
    assert Apply(c, a) == Then(Connect(c), out);
    ConnectLeaves(c, l.delivered, out.events);
    NoDeliveries(l.delivered);
    assert Apply(c, a).wire == out.wire && Apply(c, a).answers == out.answers;
    assert l.got + [] == l.got && l.writes + [] == l.writes && l.epochWrites + [] == l.epochWrites;
  }

  lemma NoDeliveries<T>(delivered: seq<(ID, T)>)
    ensures Deliveries<T>(delivered, []) == delivered
  {
  }

  lemma ArriveAck<T>(c: Chan<T>, l: Log<T>, p: Packet<T>, budget: nat, arrivals: nat -> int, allow: bool)
    requires LogOk(c, l) && !c.stopped && p.Ack?
    ensures StepOk(c, l, Arrive(p, budget, arrivals, allow))
  {
    hide Record, Apply, WriteFromQueue, SqRemove, Answered, IssuedBy, QueueIssued;
    var a := Arrive(p, budget, arrivals, allow);
    var out := WriteFromQueue(Acked(c, p.id), true, arrivals);
    RemoveIssued(c.sendQ, p.id, l.issued);
    WriteFromQueueReleases(Acked(c, p.id), true, arrivals, l.issued);
    AckRecord(c, l, a);
    AnsweredConcat(l.answers, out.answers);
    assert Answered(l.answers) + c.writeQ == Answered(l.answers) + Answered(out.answers) + out.chan.writeQ;
    assert l.issued + c.writeQ == l.issued + IssuedBy(out.answers) + out.chan.writeQ;
  }

  lemma ResetOutput<T>(c: Chan<T>, p: Packet<T>, budget: nat, arrivals: nat -> int, allow: bool)
    requires p.Reset? || p.AckReset?
    ensures var out := Process(c, p, budget, arrivals, allow);
            && out.events == Connect(c).events + [ResetLocal]
            && out.chan == ResetChan(c.(connected := true)).chan
            && out.answers == Refused(c.writeQ)
            && forall q | q in out.wire :: !q.Data?
  {
  }

  /** The log after a reset starts anew, but for the writes and their answers. */
  lemma ResetRecord<T>(c: Chan<T>, l: Log<T>, a: Action<T>)
    requires a.Arrive? && (a.packet.Reset? || a.packet.AckReset?)
    ensures Record(l, c, a)
            == NewLog().(writes := l.writes, answers := l.answers + Refused(c.writeQ), strayAcks := l.strayAcks)
  {
    hide Process, Refused;
    ResetOutput(c, a.packet, a.budget, a.arrivals, a.allowEvents);
    ConnectLeaves(c, l.delivered, [ResetLocal]);
    assert Deliveries(l.delivered, [ResetLocal]) == [];
    assert l.writes + [] == l.writes;
  }

  lemma ArriveReset<T>(c: Chan<T>, l: Log<T>, p: Packet<T>, budget: nat, arrivals: nat -> int, allow: bool)
    requires LogOk(c, l) && !c.stopped && (p.Reset? || p.AckReset?)
    ensures StepOk(c, l, Arrive(p, budget, arrivals, allow))
  {
    hide Record, Process, Deliveries, Answered, Refused, WindowSize;
    var a := Arrive(p, budget, arrivals, allow);
    ResetOutput(c, p, budget, arrivals, allow);
    ResetRecord(c, l, a);
    ResetStep(c, l, Apply(c, a));
  }

  /** Actions that touch neither queue: their packets and events do not matter. */
  lemma IdleStep<T>(c: Chan<T>, l: Log<T>, a: Action<T>)
    requires LogOk(c, l) && !c.stopped && !a.Write? && !(a.Arrive? && (a.packet.Data? || a.packet.Ack?))
    requires var out := Apply(c, a);
             && out.chan == c.(connected := out.chan.connected) && out.answers == []
             && QuietEvents(out.events) && (forall p | p in out.wire :: !p.Data?)
    ensures StepOk(c, l, a)
  {
    QuietDeliveries(l.delivered, Apply(c, a).events);
    assert l.issued + IssuedBy<T>([]) == l.issued;
    assert l.answers + [] == l.answers;
  }

  lemma ArriveOther<T>(c: Chan<T>, l: Log<T>, p: Packet<T>, budget: nat, arrivals: nat -> int, allow: bool)
    requires LogOk(c, l) && !c.stopped && (p.Ping? || p.AckPing? || p.Unknown?)
    ensures StepOk(c, l, Arrive(p, budget, arrivals, allow))
  {
    IdleStep(c, l, Arrive(p, budget, arrivals, allow));
  }

  lemma WriteRecord<T>(c: Chan<T>, l: Log<T>, data: T, arrival: int)
    ensures var out := WriteTo(c, data, arrival);
            Record(l, c, Write(data, arrival))
            == l.(issued := l.issued + IssuedBy(out.answers), epochWrites := l.epochWrites + [data],
                  writes := l.writes + [data], answers := l.answers + out.answers)
  {
    hide SqAdd, IssuedBy;
    assert l.got + [] == l.got;
  }

  lemma OneAnswer<T>(data: T)
    ensures IssuedBy([Answer(data, true)]) == Answered([Answer(data, true)]) == [data]
  {
    assert IssuedBy([Answer(data, true)]) == [data] + [];
  }

  lemma WriteSent<T>(c: Chan<T>, l: Log<T>, data: T, arrival: int)
    requires LogOk(c, l) && !c.stopped && c.writeQ == [] && CanWrite(c)
    ensures StepOk(c, l, Write(data, arrival))
  {
    WriteRecord(c, l, data, arrival);
    WriteDirectIssues(c, data, arrival, l.issued);
    OneAnswer(data);
    AnsweredConcat(l.answers, [Answer(data, true)]);
    hide Record, WindowSize, Answered, IssuedBy, QueueIssued, SqAdd;
    assert Answered(l.answers) == l.writes && l.issued == l.epochWrites;
    assert [data] + [] == [data];
  }

  lemma WriteWaits<T>(c: Chan<T>, l: Log<T>, data: T, arrival: int)
    requires LogOk(c, l) && !c.stopped && !(c.writeQ == [] && CanWrite(c))
    ensures StepOk(c, l, Write(data, arrival))
  {
    WriteRecord(c, l, data, arrival);
    assert l.issued + IssuedBy<T>([]) == l.issued && l.answers + [] == l.answers;
    hide Record, WindowSize, Answered, IssuedBy, QueueIssued, SqAdd;
    assert Answered(l.answers) + (c.writeQ + [data]) == l.writes + [data];
    assert l.issued + (c.writeQ + [data]) == l.epochWrites + [data];
  }

  /** A scan adds nothing to the log but the answers. */
  lemma ScanRecord<T>(c: Chan<T>, l: Log<T>, a: Action<T>)
    requires (a.Timer? || a.Close?) && Scanned(c, l.issued, Apply(c, a))
    ensures Record(l, c, a) == l.(answers := l.answers + Apply(c, a).answers)
  {
    hide Apply, WireIssued, QueueIssued;
    var out := Apply(c, a);
    QuietDeliveries(l.delivered, out.events);
    NothingIssued(c.writeQ);
    assert l.issued + [] == l.issued && l.got + [] == l.got && l.writes + [] == l.writes;
    assert l.epochWrites + [] == l.epochWrites;
  }

  lemma ScanStep<T>(c: Chan<T>, l: Log<T>, a: Action<T>)
    requires LogOk(c, l) && !c.stopped && (a.Timer? || a.Close?)
    requires Scanned(c, l.issued, Apply(c, a)) && WindowSize(Apply(c, a).chan.maxQueueSize)
    requires Apply(c, a).chan.stopped || Apply(c, a).chan.recvQ == c.recvQ
    ensures StepOk(c, l, a)
  {
    hide Apply, Record, WindowSize, Answered, Refused, WireIssued, QueueIssued;
    ScanRecord(c, l, a);
    AnsweredConcat(l.answers, Apply(c, a).answers);
    RefusedIsAll(c.writeQ);
    NoAnswers<T>();
  }

  lemma NoAnswers<T>()
    ensures Answered<T>([]) == []
  {
  }

  lemma {:induction false} NothingIssued<T>(writeQ: seq<T>)
    ensures IssuedBy(Refused(writeQ)) == []
  {
    if writeQ != [] {
      assert Refused(writeQ)[1..] == Refused(writeQ[1..]);
      NothingIssued(writeQ[1..]);
    }
  }

  lemma {:induction false} ResendSize<T>(c: Chan<T>, i: nat, now: int, arrivals: nat -> int)
    ensures Resend(c, i, now, arrivals).chan.maxQueueSize == c.maxQueueSize
    decreases |c.sendQ| - i
  {
    if i < |c.sendQ| && now > c.sendQ[i].arrivalTime && c.sendQ[i].resendAttempt < MAX_RESEND_ATTEMPT {
      var resent := c.(sendQ := SqAdd(c.sendQ, c.sendQ[i].packet, arrivals(i)));
      assert |resent.sendQ| == |c.sendQ|;
      ResendSize(resent, i + 1, now, arrivals);
    }
  }

  lemma TickSize<T>(c: Chan<T>, t: Tick)
    requires WindowSize(c.maxQueueSize)
    ensures WindowSize(OnTick(c, t).chan.maxQueueSize)
  {
    ResendSize(c, 0, t.now, t.arrivals);
    var alive := CheckAlive(Resend(c, 0, t.now, t.arrivals), t);
    assert alive.chan.maxQueueSize == c.maxQueueSize;
    WindowStaysInRange(c.maxQueueSize, |alive.chan.sendQ|, t.sendSpeed, t.repeatSpeed);
  }

  lemma ActionKeeps<T>(c: Chan<T>, l: Log<T>, a: Action<T>)
    requires LogOk(c, l) && !c.stopped
    ensures StepOk(c, l, a)
  {
    match a
    case Arrive(p, budget, arrivals, allow) =>
      if p.Data? { ArriveData(c, l, p, budget, arrivals, allow); }
      else if p.Ack? { ArriveAck(c, l, p, budget, arrivals, allow); }
      else if p.Reset? || p.AckReset? { ArriveReset(c, l, p, budget, arrivals, allow); }
      else { ArriveOther(c, l, p, budget, arrivals, allow); }
    case Write(data, arrival) =>
      if c.writeQ == [] && CanWrite(c) { WriteSent(c, l, data, arrival); }
      else { WriteWaits(c, l, data, arrival); }
    case Timer(t) =>
      TickScanned(c, l.issued, t);
      TickSize(c, t);
      ScanStep(c, l, a);
    case Close =>
      DestroyScanned(c, l.issued);
      ScanStep(c, l, a);
  }

  // ---------------------------------------------------------------- runs

  /** The channel and its log after actions, until it is destroyed: then it is no longer in
      the channel map, and new writes fail. */
  ghost function Play<T>(c: Chan<T>, l: Log<T>, actions: seq<Action<T>>): (Chan<T>, Log<T>)
    decreases |actions|
  {
    if actions == [] || c.stopped then (c, l)
    else Play(Apply(c, actions[0]).chan, Record(l, c, actions[0]), actions[1..])
  }

  /** All that the channel emits on the way, and the channel after it. */
  ghost function Total<T>(c: Chan<T>, actions: seq<Action<T>>): Out<T>
    decreases |actions|
  {
    if actions == [] || c.stopped then Out(c, [], [], [])
    else Then(Apply(c, actions[0]), Total(Apply(c, actions[0]).chan, actions[1..]))
  }

  lemma {:induction false} TotalOne<T>(c: Chan<T>, actions: seq<Action<T>>, a: Action<T>)
    requires !Total(c, actions).chan.stopped
    ensures Total(c, actions + [a]) == Then(Total(c, actions), Apply(Total(c, actions).chan, a))
    decreases |actions|
  {
    hide Apply;
    if actions == [] || c.stopped {
      assert (actions + [a])[1..] == [];
      assert Then(Apply(c, a), Out(Apply(c, a).chan, [], [], [])) == Then(Out(c, [], [], []), Apply(c, a));
    } else {
      TotalOne(Apply(c, actions[0]).chan, actions[1..], a);
      assert (actions + [a])[1..] == actions[1..] + [a];
    }
  }

  lemma {:induction false} TotalEnds<T>(c: Chan<T>, l: Log<T>, actions: seq<Action<T>>)
    ensures Total(c, actions).chan == Play(c, l, actions).0
    decreases |actions|
  {
    hide Apply, Record;
    if actions != [] && !c.stopped {
      TotalEnds(Apply(c, actions[0]).chan, Record(l, c, actions[0]), actions[1..]);
    }
  }

  /** But a write that was on its way to the kernel when the channel was destroyed still
      goes out, once: it is answered as sent, and no tick comes to send it again. */
  lemma LateWriteIsSentOnce<T>(c: Chan<T>, l: Log<T>, data: T, arrival: int)
    requires LogOk(c, l) && c.stopped
    ensures var out := WriteTo(c, data, arrival);
            && out.wire == [Data(c.id, data)] && out.answers == [Answer(data, true)]
            && out.chan == c.(id := NextID(c.id), sendQ := [Entry(Data(c.id, data), arrival, 0)])
            && forall l', actions :: Play(out.chan, l', actions) == (out.chan, l')
  {
    assert [] + [Entry(Data(c.id, data), arrival, 0)] == [Entry(Data(c.id, data), arrival, 0)];
  }

  lemma {:induction false} PlayOne<T>(c: Chan<T>, l: Log<T>, actions: seq<Action<T>>, a: Action<T>)
    requires !Play(c, l, actions).0.stopped
    ensures var (c1, l1) := Play(c, l, actions);
            Play(c, l, actions + [a]) == (Apply(c1, a).chan, Record(l1, c1, a))
    decreases |actions|
  {
    hide Apply, Record;
    if actions == [] || c.stopped {
      assert (actions + [a])[1..] == [];
    } else {
      PlayOne(Apply(c, actions[0]).chan, Record(l, c, actions[0]), actions[1..], a);
      assert (actions + [a])[1..] == actions[1..] + [a];
    }
  }

  lemma {:induction false} PlayKeeps<T>(c: Chan<T>, l: Log<T>, actions: seq<Action<T>>)
    requires LogOk(c, l)
    ensures var (c', l') := Play(c, l, actions); LogOk(c', l')
    decreases |actions|
  {
    if actions != [] && !c.stopped {
      ActionKeeps(c, l, actions[0]);
      PlayKeeps(Apply(c, actions[0]).chan, Record(l, c, actions[0]), actions[1..]);
    }
  }

  ghost predicate Reached<T>(c: Chan<T>, l: Log<T>, connected: bool, actions: seq<Action<T>>) {
    (c, l) == Play(NewChan(DEFAULT_QUEUE_SIZE, connected), NewLog(), actions)
  }

  lemma ReachedIsOk<T>(c: Chan<T>, l: Log<T>, connected: bool, actions: seq<Action<T>>)
    requires Reached(c, l, connected, actions)
    ensures LogOk(c, l)
  {
    PlayKeeps(NewChan<T>(DEFAULT_QUEUE_SIZE, connected), NewLog(), actions);
  }

  /** Between two resets the user is given the packets with ids Wire(0), Wire(1), ...,
      and what is delivered under an id came in a packet with that id. */
  lemma DeliversInSequence<T>(c: Chan<T>, l: Log<T>, connected: bool, actions: seq<Action<T>>)
    requires Reached(c, l, connected, actions)
    ensures forall i | 0 <= i < |l.delivered| :: l.delivered[i].0 == Wire(i) && l.delivered[i] in l.got
    ensures c.expectedID == Wire(|l.delivered|)
  {
    ReachedIsOk(c, l, connected, actions);
  }

  /** DATA received = delivered + queued + dropped or refused. */
  lemma DataIsAccountedFor<T>(c: Chan<T>, l: Log<T>, connected: bool, actions: seq<Action<T>>)
    requires Reached(c, l, connected, actions) && !c.stopped
    ensures |l.got| == |l.delivered| + |c.recvQ| + l.wasted
    ensures forall id | id in c.recvQ :: (id, c.recvQ[id]) in l.got
  {
    ReachedIsOk(c, l, connected, actions);
  }

  /** Writes are answered once each, in order: the answered ones followed by the
      waiting ones are all there were. Those sent since the last reset carry the ids in
      order and, with the waiting ones, are all writes since; and a waiting write never
      outlives the packets it waits for. */
  lemma WritesAreFifo<T>(c: Chan<T>, l: Log<T>, connected: bool, actions: seq<Action<T>>)
    requires Reached(c, l, connected, actions)
    ensures Answered(l.answers) + c.writeQ == l.writes
    ensures !c.stopped ==> l.issued + c.writeQ == l.epochWrites && c.id == Wire(|l.issued|)
    ensures forall i | 0 <= i < |c.sendQ| :: IsIssued(c.sendQ[i].packet, l.issued)
    ensures c.writeQ != [] ==> c.sendQ != []
  {
    ReachedIsOk(c, l, connected, actions);
  }

  /** The window stays in range, and only stray ACKs let the send queue exceed it. */
  lemma SendQueueIsBounded<T>(c: Chan<T>, l: Log<T>, connected: bool, actions: seq<Action<T>>)
    requires Reached(c, l, connected, actions)
    ensures 4 <= c.maxQueueSize <= 2172 && c.maxQueueSize % 4 == 0
    ensures |c.sendQ| <= 2172 + l.strayAcks
    ensures Distinct(c.sendQ)
  {
    ReachedIsOk(c, l, connected, actions);
  }
}

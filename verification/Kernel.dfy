/**
 The kernel goroutine at work on one channel: the objects it updates and the methods
 that update them. Each method is proved to do what the function of module Transport
 of the same purpose says, so the theorems about runs are theorems about this code.
 */
module Kernel {
  import opened SeqNum
  import opened Transport
  import opened SendQueues

  const MAX_R_QUEUE := 65536
  const CH_EVENT_SIZE := 2048 + MAX_R_QUEUE

  /** What the channels of one TRUDP connection share. */
  class Trudp<T> {
    var chanEvent: seq<Event<T>>      // events the user has not read yet
    var chanWriter: seq<Packet<T>>    // packets handed to the UDP writer
    var answers: seq<Answer<T>>       // answers to writes
    var allowEvents: nat
    ghost var sent: seq<Event<T>>     // all events ever sent to the user

    /** What is unread has grown by no more than what was sent. */
    twostate predicate Unread()
      reads this
    {
      |chanEvent| + |old(sent)| <= |old(chanEvent)| + |sent|
    }

    /** The user reads some events; this can happen between any two kernel actions. */
    method UserReads()
      modifies this`chanEvent
      ensures |chanEvent| <= |old(chanEvent)|
    {
      var n :| 0 <= n <= |chanEvent|;
      chanEvent := chanEvent[n..];
    }

    method SendEventAvailable() returns (available: bool)
      modifies this`chanEvent
      ensures available == (|chanEvent| < CH_EVENT_SIZE - 16)
      ensures |chanEvent| <= |old(chanEvent)|
    {
      UserReads();
      available := |chanEvent| < CH_EVENT_SIZE - 16;
    }

    /** A send to a full channel waits until the user has read. */
    method AwaitRoom()
      modifies this`chanEvent
      ensures |chanEvent| < CH_EVENT_SIZE && |chanEvent| <= |old(chanEvent)|
      ensures |old(chanEvent)| < CH_EVENT_SIZE ==> chanEvent == old(chanEvent)
    {
      if |chanEvent| >= CH_EVENT_SIZE {
        var n :| |chanEvent| - CH_EVENT_SIZE < n <= |chanEvent|;
        chanEvent := chanEvent[n..];
      }
    }

    /** A send that finds room. */
    method SendEvent(event: Event<T>)
      requires |chanEvent| < CH_EVENT_SIZE
      modifies this`chanEvent, this`sent
      ensures chanEvent == old(chanEvent) + [event] && sent == old(sent) + [event]
    {
      chanEvent, sent := chanEvent + [event], sent + [event];
    }
  }

  class ChannelData<T> {
    const trudp: Trudp<T>
    const sendQueue: SendQueue<T>
    var id: ID
    var expectedID: ID
    var receiveQueue: map<ID, T>
    var writeQueue: seq<T>
    var maxQueueSize: int
    var stoppedF: bool
    var connected: bool
    var dropped: nat

    ghost predicate Valid()
      reads this, sendQueue, sendQueue.q
    {
      sendQueue.Valid()
    }

    ghost function Model(): Chan<T>
      reads this, sendQueue
    {
      Chan(id, expectedID, sendQueue.Contents, receiveQueue, writeQueue, maxQueueSize,
           stoppedF, connected, dropped)
    }

    /** The channel, and all that was emitted so far. */
    ghost function State(): Out<T>
      reads this, trudp, sendQueue
    {
      Out(Model(), trudp.sent, trudp.chanWriter, trudp.answers)
    }

    /** The method did what out says: the channel is out.chan, and it emitted the rest. */
    twostate predicate Did(new out: Out<T>)
      reads this, trudp, sendQueue, sendQueue.q
    {
      Valid() && State() == Then(old(State()), out)
    }

    /** The entries of the send queue are some of those given, and new ones. */
    twostate predicate OldOrFresh(entries: seq<SendQueueData<T>>)
      reads sendQueue
    {
      forall e | e in sendQueue.q :: e in entries || fresh(e)
    }

    constructor (trudp: Trudp<T>, maxQueueSize: int)
      ensures Valid() && this.trudp == trudp && fresh(sendQueue) && sendQueue.q == []
      ensures Model() == NewChan(maxQueueSize, false)
    {
      this.trudp, this.maxQueueSize := trudp, maxQueueSize;
      sendQueue := new SendQueue();
      id, expectedID := FIRST_PACKET_ID, FIRST_PACKET_ID;
      receiveQueue, writeQueue := map[], [];
      stoppedF, connected, dropped := false, false, 0;
    }

    // ------------------------------------------------------------- ids

    /** incID on expectedID */
    method IncExpectedID()
      modifies this`expectedID
      ensures expectedID == NextID(old(expectedID))
    {
      var bumped := (expectedID + 1) % LIMIT;
      if bumped == 0 {
        bumped := bumped + 1;
      }
      expectedID := bumped;
    }

    /** ID: returns the id for the next packet and steps on */
    method TakeID() returns (currentID: ID)
      modifies this`id
      ensures currentID == old(id) && id == NextID(old(id))
    {
      currentID := id;
      var newID := (currentID + 1) % LIMIT;
      if newID == 0 {
        newID := newID + 1;
      }
      id := newID;
    }

    predicate CanWrite()
      reads this, sendQueue
    {
      |sendQueue.q| < maxQueueSize
    }

    // ---------------------------------------------------------- writing

    /** packetType.writeTo for a packet that is kept in the send queue */
    method SendKept(packet: Packet<T>, arrival: int)
      requires Valid()
      modifies trudp`chanWriter, sendQueue, sendQueue.q
      ensures Valid() && OldOrFresh(old(sendQueue.q))
      ensures packet.id in old(sendQueue.idx) ==> sendQueue.q == old(sendQueue.q)
      ensures sendQueue.Contents == SqAdd(old(sendQueue.Contents), packet, arrival)
      ensures trudp.chanWriter == old(trudp.chanWriter) + [packet]
    {
      trudp.chanWriter := trudp.chanWriter + [packet];
      sendQueue.Add(packet, arrival);
    }

    method WriteToDirect(data: T, arrival: int)
      requires Valid()
      modifies this, trudp, sendQueue, sendQueue.q
      ensures OldOrFresh(old(sendQueue.q))
      ensures Did(WriteDirect(old(Model()), data, arrival))
      ensures trudp.chanEvent == old(trudp.chanEvent)
    {
      hide NextID, SqAdd;
      DirectState(State(), data, arrival);
      var packetID := TakeID();
      SendKept(Data(packetID, data), arrival);
      trudp.answers := trudp.answers + [Answer(data, true)];
    }

    method WriteTo(data: T, arrival: int)
      requires Valid()
      modifies this, trudp, sendQueue, sendQueue.q
      ensures trudp.Unread()
      ensures OldOrFresh(old(sendQueue.q))
      ensures Did(Transport.WriteTo(old(Model()), data, arrival))
      ensures trudp.chanEvent == old(trudp.chanEvent)
    {
      if |writeQueue| == 0 && CanWrite() {
        WriteToDirect(data, arrival);
      } else {
        writeQueue := writeQueue + [data];
      }
    }

    /** The first waiting write goes out. */
    method ReleaseOne(arrival: int)
      requires Valid() && writeQueue != []
      modifies this, trudp, sendQueue, sendQueue.q
      ensures OldOrFresh(old(sendQueue.q))
      ensures Did(ReleaseFirst(old(Model()), arrival))
      ensures trudp.chanEvent == old(trudp.chanEvent)
    {
      var data := writeQueue[0];
      writeQueue := writeQueue[1..];
      WriteToDirect(data, arrival);
    }

    method WriteFromQueue(arrivals: nat -> int)
      requires Valid()
      modifies this, trudp, sendQueue, sendQueue.q
      ensures OldOrFresh(old(sendQueue.q))
      ensures Did(Transport.WriteFromQueue(old(Model()), true, arrivals))
      ensures trudp.chanEvent == old(trudp.chanEvent)
    {
      ghost var goal := Then(State(), Transport.WriteFromQueue(Model(), true, arrivals));
      var first := true;
      while |writeQueue| > 0 && (first || CanWrite())
        invariant Valid() && OldOrFresh(old(sendQueue.q))
        invariant trudp.chanEvent == old(trudp.chanEvent)
        invariant Then(State(), Transport.WriteFromQueue(Model(), first, arrivals)) == goal
        decreases |writeQueue|
      {
        ReleaseStep(State(), first, arrivals);
        ReleaseOne(arrivals(|writeQueue|));
        first := false;
      }
      ReleaseNothing(State(), first, arrivals);
    }
  
    // --------------------------------------------------- reset, destroy

    /** writeQueueReset: every waiting write is answered with false. */
    method WriteQueueReset()
      modifies this`writeQueue, trudp`answers
      ensures writeQueue == []
      ensures trudp.answers == old(trudp.answers) + Refused(old(writeQueue))
    {
      for i := 0 to |writeQueue|
        invariant writeQueue == old(writeQueue)
        invariant trudp.answers == old(trudp.answers) + Refused(old(writeQueue))[..i]
      {
        trudp.answers := trudp.answers + [Answer(writeQueue[i], false)];
      }
      writeQueue := [];
    }

    method ClearQueues()
      requires Valid()
      modifies this`receiveQueue, this`writeQueue, trudp`answers, sendQueue
      ensures Valid() && sendQueue.q == []
      ensures Model() == Cleared(old(Model()))
      ensures trudp.answers == old(trudp.answers) + Refused(old(writeQueue))
    {
      sendQueue.Reset();
      receiveQueue := map[];
      WriteQueueReset();
    }

    method Reset()
      requires Valid() && |trudp.chanEvent| < CH_EVENT_SIZE
      modifies this, trudp, sendQueue
      ensures trudp.Unread()
      ensures sendQueue.q == [] && Did(ResetChan(old(Model())))
      ensures |trudp.chanEvent| == |old(trudp.chanEvent)| + 1
    {
      ClearQueues();
      id := FIRST_PACKET_ID;
      expectedID := FIRST_PACKET_ID;
      trudp.SendEvent(ResetLocal);
    }

    /** The disconnect event may have to wait for room. */
    method Destroy()
      requires Valid()
      modifies this, trudp, sendQueue
      ensures trudp.Unread()
      ensures Did(Transport.Destroy(old(Model()))) && stoppedF
      ensures |trudp.chanEvent| <= |old(trudp.chanEvent)| + 1
      ensures |old(trudp.chanEvent)| < CH_EVENT_SIZE ==> old(trudp.chanEvent) <= trudp.chanEvent
      ensures sendQueue.q == [] || sendQueue.q == old(sendQueue.q)
    {
      if stoppedF {
        return;
      }
      stoppedF := true;
      ClearQueues();
      if connected {
        trudp.AwaitRoom();
        trudp.SendEvent(Disconnected);
      }
    }

    // --------------------------------------------------------- receiving

    /** receiveQueueProcess: delivers queued packets until the next one is missing, or
        the event channel is full. It never blocks on that channel. */
    method ReceiveQueueProcess() returns (ok: bool, ghost budget: nat)
      requires Valid()
      modifies this`expectedID, this`receiveQueue, trudp`chanEvent, trudp`sent
      ensures trudp.Unread()
      ensures Did(Drain(old(Model()), budget))
      ensures ok ==> budget == |old(receiveQueue)|
      ensures !ok ==> expectedID in receiveQueue && |trudp.chanEvent| >= CH_EVENT_SIZE - 16
      ensures |trudp.chanEvent| <= |old(trudp.chanEvent)| || |trudp.chanEvent| <= CH_EVENT_SIZE - 16
    {
      ghost var start := State();
      budget := 0;
      ok := true;
      while expectedID in receiveQueue
        invariant Valid() && Drained(start, budget)
        invariant |trudp.chanEvent| <= |old(trudp.chanEvent)| || |trudp.chanEvent| <= CH_EVENT_SIZE - 16
        invariant trudp.Unread()
        decreases |receiveQueue|
      {
        var available := trudp.SendEventAvailable();
        if !available {
          ok := false;
          return;
        }
        DeliverNext(start, budget);
        budget := budget + 1;
      }
      DrainEnds(start.chan, budget, |start.chan.recvQ|);
      budget := |start.chan.recvQ|;
    }

    /** Since start, k queued packets have been delivered. */
    ghost predicate Drained(start: Out<T>, k: nat)
      reads this, trudp, sendQueue
    {
      && State() == Then(start, Drain(start.chan, k))
      && |Drain(start.chan, k).events| == k == |start.chan.recvQ| - |receiveQueue|
    }

    method DeliverNext(ghost start: Out<T>, ghost k: nat)
      requires Valid() && Drained(start, k) && expectedID in receiveQueue
      requires |trudp.chanEvent| < CH_EVENT_SIZE
      modifies this`expectedID, this`receiveQueue, trudp`chanEvent, trudp`sent
      ensures trudp.Unread()
      ensures Valid() && Drained(start, k + 1) && |receiveQueue| < |old(receiveQueue)|
      ensures |trudp.chanEvent| == |old(trudp.chanEvent)| + 1
    {
      DrainExtends(start.chan, k);
      ThenAssociates(start, Drain(start.chan, k), DeliverFirst(Model()));
      DeliverQueued();
    }

    /** One round of receiveQueueProcess. */
    method DeliverQueued()
      requires Valid() && expectedID in receiveQueue && |trudp.chanEvent| < CH_EVENT_SIZE
      modifies this`expectedID, this`receiveQueue, trudp`chanEvent, trudp`sent
      ensures trudp.Unread()
      ensures Did(DeliverFirst(old(Model())))
      ensures |receiveQueue| == |old(receiveQueue)| - 1
      ensures |trudp.chanEvent| == |old(trudp.chanEvent)| + 1
    {
      var packetID := expectedID;
      IncExpectedID();
      trudp.SendEvent(GotData(packetID, receiveQueue[packetID]));
      assert (receiveQueue - {packetID}).Keys == receiveQueue.Keys - {packetID};
      receiveQueue := receiveQueue - {packetID};
    }
  
    /** packetType.writeTo for a service packet */
    method SendService(packet: Packet<T>)
      modifies trudp`chanWriter
      ensures trudp.chanWriter == old(trudp.chanWriter) + [packet]
    {
      trudp.chanWriter := trudp.chanWriter + [packet];
    }

    /** The expected packet: it is delivered, and queued ones after it. */
    method DeliverExpected(data: T) returns (ghost budget: nat)
      requires Valid() && |trudp.chanEvent| < CH_EVENT_SIZE
      modifies this`expectedID, this`receiveQueue, trudp`chanEvent, trudp`sent
      ensures trudp.Unread()
      ensures Did(Then(Out(old(Model()).(expectedID := NextID(old(expectedID))),
                           [GotData(old(expectedID), data)], [], []),
                       Drain(old(Model()).(expectedID := NextID(old(expectedID))), budget)))
      ensures |trudp.chanEvent| <= |old(trudp.chanEvent)| + 1 || |trudp.chanEvent| <= CH_EVENT_SIZE - 16
    {
      ghost var start := State();
      var packetID := expectedID;
      IncExpectedID();
      trudp.SendEvent(GotData(packetID, data));
      ghost var one: Out<T> := Out(Model(), [GotData(packetID, data)], [], []);
      assert State() == Then(start, one);
      var ok;
      ok, budget := ReceiveQueueProcess();
      ThenAssociates(start, one, Drain(one.chan, budget));
    }

    /** packetDataProcess. The event channel has room for what it may send besides
        draining the queue: a reset event and the packet itself. */
    method PacketDataProcess(packetID: ID, data: T) returns (ghost budget: nat)
      requires Valid()
      requires |trudp.chanEvent| <= CH_EVENT_SIZE - (if expectedID == FIRST_PACKET_ID then 15 else 16)
      modifies this, trudp, sendQueue
      ensures trudp.Unread()
      ensures Did(DataProcess(old(Model()), packetID, data, budget))
      ensures |trudp.chanEvent| <= CH_EVENT_SIZE - 14
      ensures sendQueue.q == [] || sendQueue.q == old(sendQueue.q)
      decreases expectedID, 1
    {
      var distance := PacketDistance(expectedID, packetID);
      if distance == 0 {
        SameID(expectedID, packetID);
        budget := DeliverExpected(data);
      } else if packetID == FIRST_PACKET_ID {
        budget := Restart(data);
      } else if expectedID == FIRST_PACKET_ID {
        budget := 0;
        SendService(Packet.Reset(0));
        trudp.SendEvent(SendReset);
      } else if distance < 0 || packetID in receiveQueue {
        budget := 0;
        dropped := dropped + 1;
      } else {
        receiveQueue := receiveQueue[packetID := data];
        var ok;
        ok, budget := ReceiveQueueProcess();
      }
    }

    /** A first packet while a later one is expected. */
    method Restart(data: T) returns (ghost budget: nat)
      requires Valid() && expectedID != FIRST_PACKET_ID
      requires |trudp.chanEvent| <= CH_EVENT_SIZE - 16
      modifies this, trudp, sendQueue
      ensures trudp.Unread()
      ensures Did(Then(ResetChan(old(Model())),
                       DataProcess(ResetChan(old(Model())).chan, FIRST_PACKET_ID, data, budget)))
      ensures |trudp.chanEvent| <= CH_EVENT_SIZE - 14
      ensures sendQueue.q == []
      decreases expectedID, 0
    {
      ghost var start := State();
      ghost var reset := ResetChan(Model());
      Reset();
      budget := PacketDataProcess(FIRST_PACKET_ID, data);
      ThenAssociates(start, reset, DataProcess(reset.chan, FIRST_PACKET_ID, data, budget));
    }
  
    /** What newChannelData does to an existing channel: the first packet it sees
        connects it. */
    method ConnectCheck()
      requires Valid() && |trudp.chanEvent| < CH_EVENT_SIZE
      modifies this`connected, trudp`chanEvent, trudp`sent
      ensures trudp.Unread()
      ensures Did(Connect(old(Model())))
      ensures |trudp.chanEvent| <= |old(trudp.chanEvent)| + 1
    {
      if !connected {
        connected := true;
        trudp.SendEvent(Connected);
      }
    }

    /** The cases of packetType.process. */
    method HandlePacket(packet: Packet<T>, arrivals: nat -> int) returns (ghost budget: nat)
      requires Valid() && |trudp.chanEvent| <= CH_EVENT_SIZE - 16
      modifies this, trudp, sendQueue, sendQueue.q
      ensures trudp.Unread()
      ensures Did(Handle(old(Model()), packet, budget, arrivals, old(trudp.allowEvents) > 0))
      ensures |trudp.chanEvent| <= CH_EVENT_SIZE - 14
      ensures OldOrFresh(old(sendQueue.q))
    {
      budget := 0;
      match packet
      case Data(id, data) =>
        budget := HandleData(id, data);
      case Ack(id) =>
        HandleAck(id, arrivals);
      case Reset(id) =>
        HandleReset(id);
      case AckReset(_) =>
        Reset();
      case Ping(id) =>
        SendService(AckPing(id));
      case AckPing(_) =>
        if trudp.allowEvents > 0 {
          trudp.SendEvent(GotAckPing);
        }
      case Unknown(_) =>
    }

    /** DATA: the acknowledgement goes out first. */
    method HandleData(id: ID, data: T) returns (ghost budget: nat)
      requires Valid() && |trudp.chanEvent| <= CH_EVENT_SIZE - 16
      modifies this, trudp, sendQueue
      ensures trudp.Unread()
      ensures Did(Then(Out(old(Model()), [], [Ack(id)], []), DataProcess(old(Model()), id, data, budget)))
      ensures |trudp.chanEvent| <= CH_EVENT_SIZE - 14
      ensures sendQueue.q == [] || sendQueue.q == old(sendQueue.q)
    {
      ghost var start := State();
      ghost var one: Out<T> := Out(start.chan, [], [Ack(id)], []);
      SendService(Ack(id));
      assert State() == Then(start, one);
      budget := PacketDataProcess(id, data);
      ThenAssociates(start, one, DataProcess(start.chan, id, data, budget));
    }

    /** ACK: the packet is not sent again, and one waiting write goes out. */
    method HandleAck(id: ID, arrivals: nat -> int)
      requires Valid()
      modifies this, trudp, sendQueue, sendQueue.q
      ensures trudp.Unread()
      ensures Did(Transport.WriteFromQueue(old(Model()).(sendQ := SqRemove(old(Model()).sendQ, id)), true, arrivals))
      ensures trudp.chanEvent == old(trudp.chanEvent)
      ensures OldOrFresh(old(sendQueue.q))
    {
      sendQueue.Remove(id);
      WriteFromQueue(arrivals);
    }

    /** RESET: acknowledged and obeyed. */
    method HandleReset(id: ID)
      requires Valid() && |trudp.chanEvent| < CH_EVENT_SIZE
      modifies this, trudp, sendQueue
      ensures trudp.Unread()
      ensures Did(Then(Out(old(Model()), [], [AckReset(id)], []), ResetChan(old(Model()))))
      ensures |trudp.chanEvent| == |old(trudp.chanEvent)| + 1
      ensures sendQueue.q == []
    {
      SendService(AckReset(id));
      Reset();
    }

    /** packetType.process. It may only be called when the event channel has room, and
        then no event it sends finds that channel full. */
    method Process(packet: Packet<T>, arrivals: nat -> int) returns (ghost budget: nat)
      requires Valid() && |trudp.chanEvent| < CH_EVENT_SIZE - 16
      modifies this, trudp, sendQueue, sendQueue.q
      ensures trudp.Unread()
      ensures Did(Transport.Process(old(Model()), packet, budget, arrivals, old(trudp.allowEvents) > 0))
      ensures |trudp.chanEvent| <= CH_EVENT_SIZE - 14
      ensures OldOrFresh(old(sendQueue.q))
    {
      ghost var start := State();
      ConnectCheck();
      budget := HandlePacket(packet, arrivals);
      ThenAssociates(start, Connect(start.chan),
                     Handle(Connect(start.chan).chan, packet, budget, arrivals, old(trudp.allowEvents) > 0));
    }

    /** The kernel's read case: a packet is processed only if there is room for its
        events, and thrown away otherwise. */
    method OnRead(packet: Packet<T>, arrivals: nat -> int) returns (taken: bool, ghost budget: nat)
      requires Valid()
      modifies this, trudp, sendQueue, sendQueue.q
      ensures trudp.Unread()
      ensures taken ==> Did(Transport.Process(old(Model()), packet, budget, arrivals, old(trudp.allowEvents) > 0))
      ensures !taken ==> Did(Out(old(Model()), [], [], []))
      ensures |old(trudp.chanEvent)| < CH_EVENT_SIZE - 16 ==> taken
      ensures taken ==> |trudp.chanEvent| <= CH_EVENT_SIZE - 14
      ensures !taken ==> CH_EVENT_SIZE - 16 <= |trudp.chanEvent| <= |old(trudp.chanEvent)|
      ensures OldOrFresh(old(sendQueue.q))
    {
      taken := trudp.SendEventAvailable();
      budget := 0;
      if taken {
        budget := Process(packet, arrivals);
      }
    }

    // ------------------------------------------------------------ timer

    /** From the state now, the scan from entry i on leads to goal. */
    ghost predicate Scanning(goal: Out<T>, i: nat, now: int, arrivals: nat -> int)
      reads this, trudp, sendQueue
    {
      Then(State(), Resend(Model(), i, now, arrivals)) == goal
    }

    /** One entry of the scan: its packet goes out again. */
    method ResendEntry(i: nat, arrivals: nat -> int, ghost now: int, ghost goal: Out<T>)
      requires Valid() && Scanning(goal, i, now, arrivals)
      requires i < |sendQueue.q| && now > sendQueue.q[i].arrivalTime
      requires sendQueue.q[i].resendAttempt < MAX_RESEND_ATTEMPT
      modifies trudp`chanWriter, sendQueue, sendQueue.q
      ensures Valid() && sendQueue.q == old(sendQueue.q)
      ensures Scanning(goal, i + 1, now, arrivals)
    {
      ResendStep(State(), i, now, arrivals);
      assert sendQueue.q[i] in sendQueue.q;
      SendKept(sendQueue.q[i].packet, arrivals(i));
    }

    /** An entry that was resent too often ends the scan and the channel. */
    method GiveUp(i: nat, ghost now: int, ghost arrivals: nat -> int, ghost goal: Out<T>)
      requires Valid() && Scanning(goal, i, now, arrivals)
      requires i < |sendQueue.q| && now > sendQueue.q[i].arrivalTime
      requires sendQueue.q[i].resendAttempt >= MAX_RESEND_ATTEMPT
      modifies this, trudp, sendQueue
      ensures trudp.Unread()
      ensures Valid() && State() == goal && stoppedF
      ensures sendQueue.q == [] || sendQueue.q == old(sendQueue.q)
      ensures |trudp.chanEvent| <= |old(trudp.chanEvent)| + 1
    {
      ResendGivesUp(State(), i, now, arrivals);
      Destroy();
    }

    lemma ScanStarts(now: int, arrivals: nat -> int)
      ensures Scanning(Then(State(), Resend(Model(), 0, now, arrivals)), 0, now, arrivals)
    {
    }

    lemma ScanEnds(i: nat, now: int, arrivals: nat -> int, goal: Out<T>)
      requires Valid() && Scanning(goal, i, now, arrivals)
      requires i >= |sendQueue.q| || now <= sendQueue.q[i].arrivalTime
      ensures State() == goal
    {
      ResendNothing(State(), i, now, arrivals);
    }

    /** sendQueueResendProcess */
    method ResendProcess(now: int, arrivals: nat -> int)
      requires Valid()
      modifies this, trudp, sendQueue, sendQueue.q
      ensures trudp.Unread()
      ensures Did(Resend(old(Model()), 0, now, arrivals))
      ensures OldOrFresh(old(sendQueue.q))
      ensures stoppedF || trudp.chanEvent == old(trudp.chanEvent)
      ensures |trudp.chanEvent| <= |old(trudp.chanEvent)| + 1
    {
      hide Resend, Scanning, Valid, State, Model;
      ghost var goal := Then(State(), Resend(Model(), 0, now, arrivals));
      var i := 0;
      ScanStarts(now, arrivals);
      while i < |sendQueue.q|
        invariant Valid() && sendQueue.q == old(sendQueue.q)
        invariant trudp.chanEvent == old(trudp.chanEvent) && trudp.sent == old(trudp.sent)
        invariant Scanning(goal, i, now, arrivals)
        decreases |sendQueue.q| - i
      {
        if now <= sendQueue.q[i].arrivalTime {
          break;
        }
        if sendQueue.q[i].resendAttempt >= MAX_RESEND_ATTEMPT {
          GiveUp(i, now, arrivals, goal);
          return;
        }
        ResendEntry(i, arrivals, now, goal);
        i := i + 1;
      }
      ScanEnds(i, now, arrivals, goal);
    }

    method KeepAlive(quiet: bool, silent: bool)
      requires Valid()
      modifies this, trudp, sendQueue
      ensures trudp.Unread()
      ensures Did(Transport.KeepAlive(old(Model()), quiet, silent))
      ensures sendQueue.q == [] || sendQueue.q == old(sendQueue.q)
    {
      ghost var start := State();
      ghost var one: Out<T> := Out(start.chan, [], if quiet then [Ping(0)] else [], []);
      if quiet {
        SendService(Ping(0));
      }
      assert State() == Then(start, one);
      if silent {
        Destroy();
      }
      ThenAssociates(start, one, if silent then Transport.Destroy(start.chan) else Out(start.chan, [], [], []));
    }

    /** sendQueueCalculateLength */
    method CalculateLength(sendSpeed: nat, repeatSpeed: nat)
      modifies this`maxQueueSize
      ensures maxQueueSize == Transport.CalculateLength(old(maxQueueSize), |sendQueue.q|, sendSpeed, repeatSpeed)
    {
      if sendSpeed > 30 {
        var lessMaxSize := maxQueueSize < 2048;
        var queueIsFull := |sendQueue.q| >= maxQueueSize;
        var largerDefaultSize := maxQueueSize > 4;
        if lessMaxSize {
          if repeatSpeed == 0 && queueIsFull {
            maxQueueSize := maxQueueSize + 128;
            return;
          }
        }
        if largerDefaultSize {
          if repeatSpeed > 20 || (repeatSpeed > 10 && queueIsFull) {
            maxQueueSize := maxQueueSize - 4;
          }
        }
      }
    }

    /** The kernel's timer case, for this channel. */
    method OnTimer(t: Tick)
      requires Valid()
      modifies this, trudp, sendQueue, sendQueue.q
      ensures trudp.Unread()
      ensures Did(OnTick(old(Model()), t))
      ensures OldOrFresh(old(sendQueue.q))
    {
      ghost var start := State();
      ghost var resent := Resend(Model(), 0, t.now, t.arrivals);
      ResendProcess(t.now, t.arrivals);
      if t.keepAlive {
        KeepAlive(t.quiet, t.silent);
        ThenAssociates(start, resent, Transport.KeepAlive(resent.chan, t.quiet, t.silent));
      }
      if t.calculate {
        CalculateLength(t.sendSpeed, t.repeatSpeed);
      }
    }
  }

  ghost function Resent<T>(s: Out<T>, i: nat, arrival: int): Out<T>
    requires i < |s.chan.sendQ|
  {
    var packet := s.chan.sendQ[i].packet;
    s.(chan := s.chan.(sendQ := SqAdd(s.chan.sendQ, packet, arrival)), wire := s.wire + [packet])
  }

  lemma ResendStep<T>(s: Out<T>, i: nat, now: int, arrivals: nat -> int)
    requires i < |s.chan.sendQ| && now > s.chan.sendQ[i].arrivalTime
    requires s.chan.sendQ[i].resendAttempt < MAX_RESEND_ATTEMPT
    ensures var one := Resent(s, i, arrivals(i));
            && |one.chan.sendQ| == |s.chan.sendQ|
            && Then(s, Resend(s.chan, i, now, arrivals)) == Then(one, Resend(one.chan, i + 1, now, arrivals))
  {
    var packet := s.chan.sendQ[i].packet;
    var resent := s.chan.(sendQ := SqAdd(s.chan.sendQ, packet, arrivals(i)));
    assert |resent.sendQ| == |s.chan.sendQ|;
    ThenAssociates(s, Out(resent, [], [packet], []), Resend(resent, i + 1, now, arrivals));
    assert s.events + [] == s.events && s.answers + [] == s.answers;
  }

  lemma ResendGivesUp<T>(s: Out<T>, i: nat, now: int, arrivals: nat -> int)
    requires i < |s.chan.sendQ| && now > s.chan.sendQ[i].arrivalTime
    requires s.chan.sendQ[i].resendAttempt >= MAX_RESEND_ATTEMPT
    ensures Resend(s.chan, i, now, arrivals) == Destroy(s.chan)
  {
  }

  lemma ResendNothing<T>(s: Out<T>, i: nat, now: int, arrivals: nat -> int)
    requires i >= |s.chan.sendQ| || now <= s.chan.sendQ[i].arrivalTime
    ensures Then(s, Resend(s.chan, i, now, arrivals)) == s
  {
  }

  lemma SameID(a: ID, b: ID)
    requires PacketDistance(a, b) == 0
    ensures a == b
  {
  }

  ghost function DeliverFirst<T>(c: Chan<T>): Out<T>
    requires c.expectedID in c.recvQ
  {
    Out(Advance(c), [GotData(c.expectedID, c.recvQ[c.expectedID])], [], [])
  }

  lemma {:induction false} DrainExtends<T>(c: Chan<T>, k: nat)
    requires |Drain(c, k).events| == k && Drain(c, k).chan.expectedID in Drain(c, k).chan.recvQ
    ensures Drain(c, k + 1) == Then(Drain(c, k), DeliverFirst(Drain(c, k).chan))
    decreases k
  {
    if k > 0 {
      DrainExtends(Advance(c), k - 1);
      ThenAssociates(DeliverFirst(c), Drain(Advance(c), k - 1), DeliverFirst(Drain(c, k).chan));
    } else {
      assert Drain(c, 1) == Then(DeliverFirst(c), Out(Advance(c), [], [], []));
    }
  }

  lemma {:induction false} DrainEnds<T>(c: Chan<T>, k: nat, more: nat)
    requires |Drain(c, k).events| == k <= more && Drain(c, k).chan.expectedID !in Drain(c, k).chan.recvQ
    ensures Drain(c, more) == Drain(c, k)
    decreases k
  {
    if k > 0 {
      DrainEnds(Advance(c), k - 1, more - 1);
    }
  }

  lemma DirectState<T>(s: Out<T>, data: T, arrival: int)
    ensures var packet := Data(s.chan.id, data);
            Then(s, WriteDirect(s.chan, data, arrival))
            == Out(s.chan.(id := NextID(s.chan.id), sendQ := SqAdd(s.chan.sendQ, packet, arrival)),
                   s.events, s.wire + [packet], s.answers + [Answer(data, true)])
  {
    assert s.events + [] == s.events;
  }

  ghost function ReleaseFirst<T>(c: Chan<T>, arrival: int): Out<T>
    requires c.writeQ != []
  {
    WriteDirect(c.(writeQ := c.writeQ[1..]), c.writeQ[0], arrival)
  }

  lemma ReleaseStep<T>(s: Out<T>, first: bool, arrivals: nat -> int)
    requires s.chan.writeQ != [] && (first || Transport.CanWrite(s.chan))
    ensures var one := Then(s, ReleaseFirst(s.chan, arrivals(|s.chan.writeQ|)));
            Then(s, Transport.WriteFromQueue(s.chan, first, arrivals))
            == Then(one, Transport.WriteFromQueue(one.chan, false, arrivals))
  {
    var one := ReleaseFirst(s.chan, arrivals(|s.chan.writeQ|));
    ThenAssociates(s, one, Transport.WriteFromQueue(one.chan, false, arrivals));
  }

  lemma ReleaseNothing<T>(s: Out<T>, first: bool, arrivals: nat -> int)
    requires s.chan.writeQ == [] || !(first || Transport.CanWrite(s.chan))
    ensures Then(s, Transport.WriteFromQueue(s.chan, first, arrivals)) == s
  {
  }

  lemma ThenAssociates<T>(a: Out<T>, b: Out<T>, c: Out<T>)
    ensures Then(Then(a, b), c) == Then(a, Then(b, c))
  {
  }
}

/**
 The send queue over all runs: entries stand in the order they were first sent, also
 across the wrap of the ids; exactly when no packet is resent more often than the limit;
 and what becomes of a packet that is sent under an id that still waits.
 */
module SendQueueRuns {
  import opened SeqNum
  import opened Transport
  import opened ChannelRuns

  // ------------------------------------------------------------- the order

  /** The i-th entry is packet nums[i] of the epoch, with the payload it was sent with. */
  ghost predicate InSendOrder<T>(q: seq<Entry<T>>, nums: seq<nat>, issued: seq<T>) {
    && |nums| == |q|
    && (forall i | 0 <= i < |q| :: nums[i] < |issued| && q[i].packet == Data(Wire(nums[i]), issued[nums[i]]))
    && (forall i, j | 0 <= i < j < |q| :: nums[i] < nums[j])
  }

  lemma AppendedInOrder<T>(q: seq<Entry<T>>, e: Entry<T>, nums: seq<nat>, issued: seq<T>, data: T)
    requires InSendOrder(q, nums, issued) && e.packet == Data(Wire(|issued|), data)
    ensures InSendOrder(q + [e], nums + [|issued|], issued + [data])
  {
    hide Wire;
  }

  lemma ChangedInOrder<T>(q: seq<Entry<T>>, i: nat, e: Entry<T>, nums: seq<nat>, issued: seq<T>, data: T)
    requires InSendOrder(q, nums, issued) && i < |q| && e.packet == q[i].packet
    ensures InSendOrder(q[i := e], nums, issued + [data])
  {
    hide Wire;
  }

  /** A packet joins the end of the queue, or changes no packet in it. */
  lemma WriteDirectOrdered<T>(c: Chan<T>, data: T, arrival: int, nums: seq<nat>, issued: seq<T>)
    returns (nums': seq<nat>)
    requires c.id == Wire(|issued|) && InSendOrder(c.sendQ, nums, issued)
    ensures var c' := WriteDirect(c, data, arrival).chan;
            && c' == c.(id := NextID(c.id), sendQ := c'.sendQ) && c'.id == Wire(|issued + [data]|)
            && InSendOrder(c'.sendQ, nums', issued + [data])
  {
    hide InSendOrder, Position;
    NextIDFollowsWire(|issued|);
    var i := Position(c.sendQ, c.id);
    if i < |c.sendQ| {
      nums' := nums;
      ChangedInOrder(c.sendQ, i, WriteDirect(c, data, arrival).chan.sendQ[i], nums, issued, data);
    } else {
      nums' := nums + [|issued|];
      AppendedInOrder(c.sendQ, Entry(Data(c.id, data), arrival, 0), nums, issued, data);
    }
  }

  lemma IssuedFirst<T>(data: T, rest: seq<Answer<T>>, issued: seq<T>)
    ensures issued + IssuedBy([Answer(data, true)] + rest) == issued + [data] + IssuedBy(rest)
  {
    assert ([Answer(data, true)] + rest)[1..] == rest;
    assert issued + [data] + IssuedBy(rest) == issued + ([data] + IssuedBy(rest));
  }

  lemma {:induction false} WriteFromQueueOrdered<T>(c: Chan<T>, first: bool, arrivals: nat -> int, nums: seq<nat>,
                                                    issued: seq<T>) returns (nums': seq<nat>)
    requires c.id == Wire(|issued|) && InSendOrder(c.sendQ, nums, issued)
    ensures var out := WriteFromQueue(c, first, arrivals);
            InSendOrder(out.chan.sendQ, nums', issued + IssuedBy(out.answers))
    decreases |c.writeQ|
  {
    if c.writeQ != [] && (first || CanWrite(c)) {
      hide InSendOrder, NextID, IssuedBy, SqAdd;
      var c1, data, arrival := c.(writeQ := c.writeQ[1..]), c.writeQ[0], arrivals(|c.writeQ|);
      var sent := WriteDirect(c1, data, arrival);
      var rest := WriteFromQueue(sent.chan, false, arrivals);
      nums' := WriteDirectOrdered(c1, data, arrival, nums, issued);
      nums' := WriteFromQueueOrdered(sent.chan, false, arrivals, nums', issued + [data]);
      IssuedFirst(data, rest.answers, issued);
    } else {
      nums' := nums;
      assert issued + [] == issued;
    }
  }

  lemma RemoveOrdered<T>(q: seq<Entry<T>>, id: ID, nums: seq<nat>, issued: seq<T>) returns (nums': seq<nat>)
    requires InSendOrder(q, nums, issued)
    ensures InSendOrder(SqRemove(q, id), nums', issued)
  {
    hide Position;
    var i, q' := Position(q, id), SqRemove(q, id);
    nums' := nums;
    if i < |q| {
      nums' := nums[..i] + nums[i + 1..];
      assert forall j | 0 <= j < |q'| :: q'[j] == q[if j < i then j else j + 1];
      assert forall j | 0 <= j < |q'| :: nums'[j] == nums[if j < i then j else j + 1];
    }
  }

  /** Resending an entry counts one attempt on that entry and changes no other. */
  lemma ResendsOne<T>(q: seq<Entry<T>>, i: nat, arrival: int)
    requires Distinct(q) && i < |q|
    ensures var q' := SqAdd(q, q[i].packet, arrival);
            q' == q[i := Entry(q[i].packet, arrival, q[i].resendAttempt + 1)] && Distinct(q')
  {
    assert Position(q, q[i].packet.id) == i;
  }

  lemma {:induction false} ResendOrdered<T>(c: Chan<T>, i: nat, now: int, arrivals: nat -> int, nums: seq<nat>,
                                            issued: seq<T>)
    requires InSendOrder(c.sendQ, nums, issued) && Distinct(c.sendQ)
    ensures var c' := Resend(c, i, now, arrivals).chan; c'.sendQ == [] || InSendOrder(c'.sendQ, nums, issued)
    decreases |c.sendQ| - i
  {
    hide Distinct, SqAdd;
    if i < |c.sendQ| && now > c.sendQ[i].arrivalTime && c.sendQ[i].resendAttempt < MAX_RESEND_ATTEMPT {
      ResendsOne(c.sendQ, i, arrivals(i));
      var resent := c.(sendQ := SqAdd(c.sendQ, c.sendQ[i].packet, arrivals(i)));
      ResendOrdered(resent, i + 1, now, arrivals, nums, issued);
    }
  }

  lemma EmptyIsOrdered<T>(issued: seq<T>)
    ensures InSendOrder<T>([], [], issued)
  {
  }

  lemma AckOrdered<T>(c: Chan<T>, l: Log<T>, a: Action<T>, nums: seq<nat>) returns (nums': seq<nat>)
    requires LogOk(c, l) && !c.stopped && InSendOrder(c.sendQ, nums, l.issued)
    requires a.Arrive? && a.packet.Ack?
    ensures InSendOrder(Apply(c, a).chan.sendQ, nums', Record(l, c, a).issued)
  {
    hide InSendOrder, Record, Apply, WriteFromQueue, EpochOk, QueueIssued, Answered;
    nums' := RemoveOrdered(c.sendQ, a.packet.id, nums, l.issued);
    RemoveIssued(c.sendQ, a.packet.id, l.issued);
    WriteFromQueueReleases(Acked(c, a.packet.id), true, a.arrivals, l.issued);
    AckRecord(c, l, a);
    nums' := WriteFromQueueOrdered(Acked(c, a.packet.id), true, a.arrivals, nums', l.issued);
  }

  lemma WriteOrdered<T>(c: Chan<T>, l: Log<T>, a: Action<T>, nums: seq<nat>) returns (nums': seq<nat>)
    requires LogOk(c, l) && !c.stopped && InSendOrder(c.sendQ, nums, l.issued) && a.Write?
    ensures InSendOrder(Apply(c, a).chan.sendQ, nums', Record(l, c, a).issued)
  {
    hide InSendOrder, EpochOk, QueueIssued, Answered, SqAdd, Record;
    nums' := nums;
    WriteRecord(c, l, a.data, a.arrival);
    if c.writeQ == [] && CanWrite(c) {
      OneAnswer(a.data);
      nums' := WriteDirectOrdered(c, a.data, a.arrival, nums, l.issued);
    } else {
      assert l.issued + IssuedBy<T>([]) == l.issued;
    }
  }

  lemma TickOrdered<T>(c: Chan<T>, l: Log<T>, a: Action<T>, nums: seq<nat>) returns (nums': seq<nat>)
    requires LogOk(c, l) && !c.stopped && InSendOrder(c.sendQ, nums, l.issued) && a.Timer?
    ensures InSendOrder(Apply(c, a).chan.sendQ, nums', Record(l, c, a).issued)
  {
    hide InSendOrder, Resend, Record, EpochOk;
    var t := a.tick;
    ResendOrdered(c, 0, t.now, t.arrivals, nums, l.issued);
    TickScanned(c, l.issued, t);
    ScanRecord(c, l, a);
    EmptyIsOrdered(l.issued);
    nums' := if Apply(c, a).chan.sendQ == [] then [] else nums;
  }

  lemma DataOrdered<T>(c: Chan<T>, l: Log<T>, a: Action<T>, nums: seq<nat>) returns (nums': seq<nat>)
    requires LogOk(c, l) && !c.stopped && InSendOrder(c.sendQ, nums, l.issued) && a.Arrive? && a.packet.Data?
    ensures InSendOrder(Apply(c, a).chan.sendQ, nums', Record(l, c, a).issued)
  {
    hide InSendOrder, DataProcess, Record, Apply, EpochOk;
    DataRecord(c, l, a);
    DataSendPart(c.(connected := true), a.packet.id, a.packet.payload, a.budget);
    EmptyIsOrdered<T>([]);
    var out := DataProcess(c.(connected := true), a.packet.id, a.packet.payload, a.budget);
    assert !Resets(out.events) ==> l.issued + IssuedBy(out.answers) == l.issued;
    nums' := if Resets(out.events) then [] else nums;
  }

  lemma RestOrdered<T>(c: Chan<T>, l: Log<T>, a: Action<T>, nums: seq<nat>) returns (nums': seq<nat>)
    requires LogOk(c, l) && !c.stopped && InSendOrder(c.sendQ, nums, l.issued)
    requires a.Close? || (a.Arrive? && !a.packet.Data? && !a.packet.Ack?)
    ensures InSendOrder(Apply(c, a).chan.sendQ, nums', Record(l, c, a).issued)
  {
    hide InSendOrder, EpochOk, Deliveries, QueueIssued;
    var c' := Apply(c, a).chan;
    EmptyIsOrdered(Record(l, c, a).issued);
    nums' := if c'.sendQ == [] then [] else nums;
    if a.Arrive? && !a.packet.Reset? && !a.packet.AckReset? {
      QuietDeliveries(l.delivered, Apply(c, a).events);
      assert l.issued + IssuedBy<T>([]) == l.issued;
    }
  }

  lemma ActionOrdered<T>(c: Chan<T>, l: Log<T>, a: Action<T>, nums: seq<nat>) returns (nums': seq<nat>)
    requires LogOk(c, l) && !c.stopped && InSendOrder(c.sendQ, nums, l.issued)
    ensures InSendOrder(Apply(c, a).chan.sendQ, nums', Record(l, c, a).issued)
  {
    hide InSendOrder, LogOk, Record, Apply;
    if a.Arrive? && a.packet.Data? { nums' := DataOrdered(c, l, a, nums); }
    else if a.Arrive? && a.packet.Ack? { nums' := AckOrdered(c, l, a, nums); }
    else if a.Write? { nums' := WriteOrdered(c, l, a, nums); }
    else if a.Timer? { nums' := TickOrdered(c, l, a, nums); }
    else { nums' := RestOrdered(c, l, a, nums); }
  }

  lemma StepIsOk<T>(c: Chan<T>, l: Log<T>, a: Action<T>)
    requires LogOk(c, l) && !c.stopped
    ensures LogOk(Apply(c, a).chan, Record(l, c, a))
  {
    hide LogOk, Record, Apply;
    ActionKeeps(c, l, a);
  }

  lemma {:induction false} PlayOrdered<T>(c: Chan<T>, l: Log<T>, actions: seq<Action<T>>, nums: seq<nat>)
    returns (nums': seq<nat>)
    requires LogOk(c, l) && InSendOrder(c.sendQ, nums, l.issued)
    ensures var end := Play(c, l, actions); InSendOrder(end.0.sendQ, nums', end.1.issued)
    decreases |actions|
  {
    hide InSendOrder, LogOk, Record, Apply, StepOk;
    nums' := nums;
    if actions != [] && !c.stopped {
      StepIsOk(c, l, actions[0]);
      nums' := ActionOrdered(c, l, actions[0], nums);
      nums' := PlayOrdered(Apply(c, actions[0]).chan, Record(l, c, actions[0]), actions[1..], nums');
    }
  }

  /** In every run the entries are packets of the epoch in the order of their first
      sending, with the payloads they were sent with. The ids may wrap. */
  lemma SendQueueIsInOrder<T>(c: Chan<T>, l: Log<T>, connected: bool, actions: seq<Action<T>>)
    requires Reached(c, l, connected, actions)
    ensures exists nums :: InSendOrder(c.sendQ, nums, l.issued)
  {
    hide Play;
    EmptyIsOrdered<T>([]);
    var nums := PlayOrdered(NewChan<T>(DEFAULT_QUEUE_SIZE, connected), NewLog(), actions, []);
    assert InSendOrder(c.sendQ, nums, l.issued);
  }

  // ---------------------------------------------------------- the attempts

  ghost predicate WithinAttempts<T>(q: seq<Entry<T>>) {
    forall i | 0 <= i < |q| :: q[i].resendAttempt <= MAX_RESEND_ATTEMPT
  }

  /** An entry that waits under the id of the next packet has an attempt left. */
  ghost predicate Room<T>(c: Chan<T>) {
    var i := Position(c.sendQ, c.id);
    i < |c.sendQ| ==> c.sendQ[i].resendAttempt < MAX_RESEND_ATTEMPT
  }

  ghost predicate RoomyReleases<T>(c: Chan<T>, first: bool, arrivals: nat -> int)
    decreases |c.writeQ|
  {
    if c.writeQ != [] && (first || CanWrite(c)) then
      var c1 := c.(writeQ := c.writeQ[1..]);
      Room(c1) && RoomyReleases(WriteDirect(c1, c.writeQ[0], arrivals(|c.writeQ|)).chan, false, arrivals)
    else true
  }

  /** Each packet that the action sends for the first time finds room. */
  ghost predicate SendsWithRoom<T>(c: Chan<T>, a: Action<T>) {
    match a
    case Arrive(p, _, arrivals, _) => p.Ack? ==> RoomyReleases(Acked(c, p.id), true, arrivals)
    case Write(_, _) => c.writeQ == [] && CanWrite(c) ==> Room(c)
    case _ => true
  }

  ghost predicate AlwaysRoom<T>(c: Chan<T>, actions: seq<Action<T>>)
    decreases |actions|
  {
    actions == [] || c.stopped || (SendsWithRoom(c, actions[0]) && AlwaysRoom(Apply(c, actions[0]).chan, actions[1..]))
  }

  /** In this state and in all that follow, no entry has more attempts than the limit. */
  ghost predicate AlwaysWithin<T>(c: Chan<T>, actions: seq<Action<T>>)
    decreases |actions|
  {
    && WithinAttempts(c.sendQ)
    && (actions == [] || c.stopped || AlwaysWithin(Apply(c, actions[0]).chan, actions[1..]))
  }

  lemma WriteDirectWithinIff<T>(c: Chan<T>, data: T, arrival: int)
    ensures WithinAttempts(WriteDirect(c, data, arrival).chan.sendQ) <==> WithinAttempts(c.sendQ) && Room(c)
  {
    hide Position;
    var i, q, q' := Position(c.sendQ, c.id), c.sendQ, WriteDirect(c, data, arrival).chan.sendQ;
    if WithinAttempts(q') {
      forall j | 0 <= j < |q|
        ensures q[j].resendAttempt <= MAX_RESEND_ATTEMPT && (j == i ==> q[j].resendAttempt < MAX_RESEND_ATTEMPT)
      {
        assert q'[j].resendAttempt <= MAX_RESEND_ATTEMPT;
      }
    }
  }

  lemma {:induction false} ReleasesWithinIff<T>(c: Chan<T>, first: bool, arrivals: nat -> int)
    ensures WithinAttempts(WriteFromQueue(c, first, arrivals).chan.sendQ)
            <==> WithinAttempts(c.sendQ) && RoomyReleases(c, first, arrivals)
    decreases |c.writeQ|
  {
    if c.writeQ != [] && (first || CanWrite(c)) {
      hide WithinAttempts, Room, SqAdd;
      var c1 := c.(writeQ := c.writeQ[1..]);
      WriteDirectWithinIff(c1, c.writeQ[0], arrivals(|c.writeQ|));
      ReleasesWithinIff(WriteDirect(c1, c.writeQ[0], arrivals(|c.writeQ|)).chan, false, arrivals);
    }
  }

  lemma RemoveWithin<T>(q: seq<Entry<T>>, id: ID)
    requires WithinAttempts(q)
    ensures WithinAttempts(SqRemove(q, id))
  {
    hide Position;
    var i, q' := Position(q, id), SqRemove(q, id);
    if i < |q| {
      assert forall j | 0 <= j < |q'| :: q'[j] == q[if j < i then j else j + 1];
    }
  }

  lemma {:induction false} ResendWithin<T>(c: Chan<T>, i: nat, now: int, arrivals: nat -> int)
    requires WithinAttempts(c.sendQ) && Distinct(c.sendQ)
    ensures WithinAttempts(Resend(c, i, now, arrivals).chan.sendQ)
    decreases |c.sendQ| - i
  {
    hide Distinct, SqAdd;
    if i < |c.sendQ| && now > c.sendQ[i].arrivalTime && c.sendQ[i].resendAttempt < MAX_RESEND_ATTEMPT {
      ResendsOne(c.sendQ, i, arrivals(i));
      var resent := c.(sendQ := SqAdd(c.sendQ, c.sendQ[i].packet, arrivals(i)));
      ResendWithin(resent, i + 1, now, arrivals);
    }
  }

  lemma OtherWithin<T>(c: Chan<T>, l: Log<T>, a: Action<T>)
    requires LogOk(c, l) && !c.stopped && WithinAttempts(c.sendQ)
    requires !a.Write? && !(a.Arrive? && a.packet.Ack?)
    ensures WithinAttempts(Apply(c, a).chan.sendQ)
  {
    hide WithinAttempts, Resend, EpochOk, DataProcess;
    assert WithinAttempts<T>([]) by { NoneWithin<T>(); }
    match a
    case Arrive(p, budget, _, _) =>
      if p.Data? { DataSendPart(c.(connected := true), p.id, p.payload, budget); }
    case Timer(t) =>
      ResendWithin(c, 0, t.now, t.arrivals);
      TickScanned(c, l.issued, t);
    case Close =>
  }

  lemma NoneWithin<T>()
    ensures WithinAttempts<T>([])
  {
  }

  lemma ActionWithinIff<T>(c: Chan<T>, l: Log<T>, a: Action<T>)
    requires LogOk(c, l) && !c.stopped && WithinAttempts(c.sendQ)
    ensures WithinAttempts(Apply(c, a).chan.sendQ) <==> SendsWithRoom(c, a)
  {
    hide WithinAttempts, LogOk, Room, RoomyReleases, WriteFromQueue, SqAdd;
    if a.Arrive? && a.packet.Ack? {
      RemoveWithin(c.sendQ, a.packet.id);
      ReleasesWithinIff(Acked(c, a.packet.id), true, a.arrivals);
      assert Apply(c, a).chan == WriteFromQueue(Acked(c, a.packet.id), true, a.arrivals).chan;
    } else if a.Write? {
      WriteDirectWithinIff(c, a.data, a.arrival);
    } else {
      OtherWithin(c, l, a);
    }
  }

  lemma {:induction false} PlayWithinIff<T>(c: Chan<T>, l: Log<T>, actions: seq<Action<T>>)
    requires LogOk(c, l) && WithinAttempts(c.sendQ)
    ensures AlwaysWithin(c, actions) <==> AlwaysRoom(c, actions)
    decreases |actions|
  {
    hide WithinAttempts, LogOk, Record, Apply, SendsWithRoom;
    if actions != [] && !c.stopped {
      ActionWithinIff(c, l, actions[0]);
      StepIsOk(c, l, actions[0]);
      if SendsWithRoom(c, actions[0]) {
        PlayWithinIff(Apply(c, actions[0]).chan, Record(l, c, actions[0]), actions[1..]);
      } else {
        BeyondAtOnce(Apply(c, actions[0]).chan, actions[1..]);
      }
    }
  }

  lemma BeyondAtOnce<T>(c: Chan<T>, actions: seq<Action<T>>)
    requires !WithinAttempts(c.sendQ)
    ensures !AlwaysWithin(c, actions)
  {
  }

  /** No entry has more than 50 attempts in any state of a run exactly if no packet is sent
      under an id whose waiting entry already has 50. */
  lemma AttemptsAreWithinIff<T>(connected: bool, actions: seq<Action<T>>)
    ensures var c := NewChan<T>(DEFAULT_QUEUE_SIZE, connected);
            AlwaysWithin(c, actions) <==> AlwaysRoom(c, actions)
  {
    PlayWithinIff(NewChan<T>(DEFAULT_QUEUE_SIZE, connected), NewLog(), actions);
  }

  // ------------------------------------------------------ ids sent again

  /** No entry waits under the id the next packet gets. */
  ghost predicate FreshID<T>(c: Chan<T>) {
    Position(c.sendQ, c.id) == |c.sendQ|
  }

  ghost predicate FreshReleases<T>(c: Chan<T>, first: bool, arrivals: nat -> int)
    decreases |c.writeQ|
  {
    if c.writeQ != [] && (first || CanWrite(c)) then
      var c1 := c.(writeQ := c.writeQ[1..]);
      FreshID(c1) && FreshReleases(WriteDirect(c1, c.writeQ[0], arrivals(|c.writeQ|)).chan, false, arrivals)
    else true
  }

  /** The action sends no packet under an id that still waits. */
  ghost predicate SendsFresh<T>(c: Chan<T>, a: Action<T>) {
    match a
    case Arrive(p, _, arrivals, _) => p.Ack? ==> FreshReleases(Acked(c, p.id), true, arrivals)
    case Write(_, _) => c.writeQ == [] && CanWrite(c) ==> FreshID(c)
    case _ => true
  }

  /** So every packet that is sent joins the send queue. */
  ghost predicate NeverReuses<T>(c: Chan<T>, actions: seq<Action<T>>)
    decreases |actions|
  {
    actions == [] || c.stopped || (SendsFresh(c, actions[0]) && NeverReuses(Apply(c, actions[0]).chan, actions[1..]))
  }

  // --------------------------------------------------------- short epochs

  /** At no time are more than PERIOD packets sent since a reset. */
  ghost predicate ShortEpochs<T>(c: Chan<T>, l: Log<T>, actions: seq<Action<T>>)
    decreases |actions|
  {
    && |l.issued| <= PERIOD
    && (actions == [] || c.stopped || ShortEpochs(Apply(c, actions[0]).chan, Record(l, c, actions[0]), actions[1..]))
  }

  lemma ShortIsFresh<T>(c: Chan<T>, nums: seq<nat>, issued: seq<T>)
    requires c.id == Wire(|issued|) && InSendOrder(c.sendQ, nums, issued) && |issued| < PERIOD
    ensures FreshID(c)
  {
    var i := Position(c.sendQ, c.id);
    if i < |c.sendQ| {
      WireInjective(nums[i], |issued|);
      assert false;
    }
  }

  lemma {:induction false} ShortReleasesFresh<T>(c: Chan<T>, first: bool, arrivals: nat -> int, nums: seq<nat>,
                                                 issued: seq<T>)
    requires c.id == Wire(|issued|) && InSendOrder(c.sendQ, nums, issued)
    requires |issued + IssuedBy(WriteFromQueue(c, first, arrivals).answers)| <= PERIOD
    ensures FreshReleases(c, first, arrivals)
    decreases |c.writeQ|
  {
    if c.writeQ != [] && (first || CanWrite(c)) {
      hide NextID, IssuedBy, SqAdd, InSendOrder, FreshID;
      var c1, data, arrival := c.(writeQ := c.writeQ[1..]), c.writeQ[0], arrivals(|c.writeQ|);
      var sent := WriteDirect(c1, data, arrival);
      var rest := WriteFromQueue(sent.chan, false, arrivals);
      IssuedFirst(data, rest.answers, issued);
      ShortIsFresh(c1, nums, issued);
      var nums' := WriteDirectOrdered(c1, data, arrival, nums, issued);
      ShortReleasesFresh(sent.chan, false, arrivals, nums', issued + [data]);
    }
  }

  lemma ShortSendsFresh<T>(c: Chan<T>, l: Log<T>, a: Action<T>, nums: seq<nat>)
    requires LogOk(c, l) && !c.stopped && InSendOrder(c.sendQ, nums, l.issued) && |Record(l, c, a).issued| <= PERIOD
    ensures SendsFresh(c, a)
  {
    hide InSendOrder, Record, Apply, WriteFromQueue, FreshReleases, EpochOk, QueueIssued, Answered, IssuedBy, FreshID;
    if a.Arrive? && a.packet.Ack? {
      var nums' := RemoveOrdered(c.sendQ, a.packet.id, nums, l.issued);
      RemoveIssued(c.sendQ, a.packet.id, l.issued);
      WriteFromQueueReleases(Acked(c, a.packet.id), true, a.arrivals, l.issued);
      AckRecord(c, l, a);
      ShortReleasesFresh(Acked(c, a.packet.id), true, a.arrivals, nums', l.issued);
    } else if a.Write? && c.writeQ == [] && CanWrite(c) {
      WriteRecord(c, l, a.data, a.arrival);
      OneAnswer(a.data);
      ShortIsFresh(c, nums, l.issued);
    }
  }

  /** Runs with short epochs never send under an id that still waits: what is sent is kept. */
  lemma {:induction false} ShortEpochsNeverReuse<T>(c: Chan<T>, l: Log<T>, actions: seq<Action<T>>, nums: seq<nat>)
    requires LogOk(c, l) && InSendOrder(c.sendQ, nums, l.issued) && ShortEpochs(c, l, actions)
    ensures NeverReuses(c, actions)
    decreases |actions|
  {
    hide InSendOrder, LogOk, Record, Apply, SendsFresh;
    if actions != [] && !c.stopped {
      var c', l' := Apply(c, actions[0]).chan, Record(l, c, actions[0]);
      assert |l'.issued| <= PERIOD;
      ShortSendsFresh(c, l, actions[0], nums);
      StepIsOk(c, l, actions[0]);
      var nums' := ActionOrdered(c, l, actions[0], nums);
      ShortEpochsNeverReuse(c', l', actions[1..], nums');
    }
  }

  // ----------------------------------------------------- an id sent again

  /** A packet joins the send queue exactly if no entry waits under its id. */
  lemma SentIsKeptIff<T>(c: Chan<T>, data: T, arrival: int)
    ensures WriteDirect(c, data, arrival).chan.sendQ == c.sendQ + [Entry(Data(c.id, data), arrival, 0)] <==> FreshID(c)
  {
  }

  /** Otherwise it goes out once and is kept nowhere: the old packet under that id stays
      in its place, and has one attempt more. */
  lemma ReusedIdLosesPayload<T>(c: Chan<T>, data: T, arrival: int)
    requires Distinct(c.sendQ) && !FreshID(c)
    ensures var out, i := WriteDirect(c, data, arrival), Position(c.sendQ, c.id);
            && out.wire == [Data(c.id, data)] && out.answers == [Answer(data, true)] && out.chan.id == NextID(c.id)
            && out.chan.sendQ == c.sendQ[i := Entry(c.sendQ[i].packet, arrival, c.sendQ[i].resendAttempt + 1)]
            && (c.sendQ[i].packet != Data(c.id, data) ==>
                  forall j | 0 <= j < |out.chan.sendQ| :: out.chan.sendQ[j].packet != Data(c.id, data))
  {
  }

  // A run in which this happens: packet 1 is never acknowledged, all others are, until
  // its id comes round again.

  ghost predicate CanReach<T(!new)>(c: Chan<T>) {
    exists l, actions :: Reached(c, l, false, actions)
  }

  lemma ReachNext<T(!new)>(c: Chan<T>, a: Action<T>)
    requires CanReach(c) && !c.stopped
    ensures CanReach(Apply(c, a).chan)
  {
    hide Apply, Record, Play;
    var l, actions :| Reached(c, l, false, actions);
    PlayOne(NewChan<T>(DEFAULT_QUEUE_SIZE, false), NewLog(), actions, a);
    assert Reached(Apply(c, a).chan, Record(l, c, a), false, actions + [a]);
  }

  /** Packet 1 waits after some attempts, and the next packet has number k. */
  function Waiting<T>(d: T, k: nat, attempts: nat): Chan<T> {
    NewChan(DEFAULT_QUEUE_SIZE, true).(id := Wire(k), sendQ := [Entry(Data(1, d), 0, attempts)])
  }

  const AT_ONCE: nat -> int := k => 0
  const TICK := Tick(1, AT_ONCE, false, false, false, false, 0, 0)

  lemma ReachNew<T(!new)>()
    ensures CanReach(NewChan<T>(DEFAULT_QUEUE_SIZE, false))
  {
    assert Reached(NewChan<T>(DEFAULT_QUEUE_SIZE, false), NewLog(), false, []);
  }

  lemma FirstSteps<T>(d: T)
    ensures var c0 := NewChan<T>(DEFAULT_QUEUE_SIZE, false);
            var c1, c2 := c0.(id := 1, sendQ := [Entry(Data(0, d), 0, 0)]), c0.(id := 1, connected := true);
            && WriteTo(c0, d, 0).chan == c1
            && Apply(c1, Arrive(Ack(0), 0, AT_ONCE, false)).chan == c2
            && WriteTo(c2, d, 0).chan == Waiting(d, 2, 0)
  {
  }

  lemma ReachWaiting<T(!new)>(d: T)
    ensures CanReach(Waiting(d, 2, 0))
  {
    hide CanReach, WriteTo, Process;
    var c0 := NewChan<T>(DEFAULT_QUEUE_SIZE, false);
    var c1, c2 := c0.(id := 1, sendQ := [Entry(Data(0, d), 0, 0)]), c0.(id := 1, connected := true);
    FirstSteps(d);
    ReachNew<T>();
    ReachNext(c0, Write(d, 0));
    ReachNext(c1, Arrive(Ack(0), 0, AT_ONCE, false));
    ReachNext(c2, Write(d, 0));
  }

  lemma {:induction false} ReachResent<T(!new)>(d: T, attempts: nat)
    requires attempts <= MAX_RESEND_ATTEMPT
    ensures CanReach(Waiting(d, 2, attempts))
  {
    hide CanReach;
    if attempts == 0 {
      ReachWaiting(d);
    } else {
      var c := Waiting(d, 2, attempts - 1);
      ReachResent(d, attempts - 1);
      ReachNext(c, Timer(TICK));
      TickResends(d, attempts - 1);
    }
  }

  lemma TickResends<T>(d: T, attempts: nat)
    requires attempts < MAX_RESEND_ATTEMPT
    ensures OnTick(Waiting(d, 2, attempts), TICK).chan == Waiting(d, 2, attempts + 1)
  {
    var c, c' := Waiting(d, 2, attempts), Waiting(d, 2, attempts + 1);
    assert SqAdd(c.sendQ, c.sendQ[0].packet, 0) == c'.sendQ;
    assert Resend(c', 1, 1, AT_ONCE) == Out(c', [], [], []);
  }

  lemma {:induction false} ReachRound<T(!new)>(d: T, k: nat)
    requires 2 <= k <= PERIOD + 1
    ensures CanReach(Waiting(d, k, MAX_RESEND_ATTEMPT))
  {
    hide CanReach, Waiting;
    if k == 2 {
      ReachResent(d, MAX_RESEND_ATTEMPT);
    } else {
      ReachRound(d, k - 1);
      ReachOneMore(d, k - 1);
    }
  }

  lemma ReachOneMore<T(!new)>(d: T, k: nat)
    requires 2 <= k <= PERIOD && CanReach(Waiting(d, k, MAX_RESEND_ATTEMPT))
    ensures CanReach(Waiting(d, k + 1, MAX_RESEND_ATTEMPT))
  {
    hide CanReach, WriteTo, Process, Wire;
    var c := Waiting(d, k, MAX_RESEND_ATTEMPT);
    OneMore(d, k);
    ReachNext(c, Write(d, 0));
    ReachNext(WriteTo(c, d, 0).chan, Arrive(Ack(Wire(k)), 0, AT_ONCE, false));
  }

  lemma OneMore<T>(d: T, k: nat)
    requires 2 <= k <= PERIOD
    ensures var c, ack := Waiting(d, k, MAX_RESEND_ATTEMPT), Arrive(Ack(Wire(k)), 0, AT_ONCE, false);
            && !WriteTo(c, d, 0).chan.stopped
            && Apply(WriteTo(c, d, 0).chan, ack).chan == Waiting(d, k + 1, MAX_RESEND_ATTEMPT)
  {
    var c := Waiting(d, k, MAX_RESEND_ATTEMPT);
    NextIDFollowsWire(k);
    assert Wire(k) == k;
    var q := c.sendQ + [Entry(Data(Wire(k), d), 0, 0)];
    assert Position(c.sendQ, Wire(k)) == 1;
    assert WriteTo(c, d, 0).chan == c.(id := Wire(k + 1), sendQ := q);
    assert Position(q, Wire(k)) == 1 && SqRemove(q, Wire(k)) == c.sendQ;
  }

  /** A new channel can come to a state in which the next write is answered as sent and
      kept nowhere, and the packet under its id has been resent 51 times. */
  lemma AttemptsCanExceed<T(!new)>(d: T, e: T, arrival: int)
    requires d != e
    ensures exists c: Chan<T> :: CanReach(c)
              && WriteTo(c, e, arrival).answers == [Answer(e, true)]
              && WriteTo(c, e, arrival).chan.sendQ == [Entry(Data(1, d), arrival, MAX_RESEND_ATTEMPT + 1)]
  {
    hide CanReach;
    var c := Waiting(d, PERIOD + 1, MAX_RESEND_ATTEMPT);
    ReachRound(d, PERIOD + 1);
    assert Wire(PERIOD + 1) == 1;
    assert Position(c.sendQ, 1) == 0;
    assert WriteTo(c, e, arrival).chan.sendQ == [Entry(Data(1, d), arrival, MAX_RESEND_ATTEMPT + 1)];
  }
}

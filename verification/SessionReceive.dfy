/**
 The receiving half of a session: what an arriving DATA packet does to a channel
 that has delivered a prefix of the messages written at the other side.
 */
module SessionReceive {
  import opened SeqNum
  import opened Transport
  import opened Session

  ghost predicate SameSendPart(c: Chan<Msg>, c': Chan<Msg>) {
    c' == c.(expectedID := c'.expectedID, recvQ := c'.recvQ, dropped := c'.dropped)
  }

  ghost predicate QueuedWithin(c: Chan<Msg>, lo: int, hi: int) {
    forall id | id in c.recvQ :: lo <= c.recvQ[id].n <= hi
  }

  /** Room in the event channel for everything that is or comes in the queue. */
  ghost predicate EventSpace(c: Chan<Msg>, budget: nat) {
    budget > |c.recvQ|
  }

  lemma {:induction false} DataOfConcat(a: seq<Event<Msg>>, b: seq<Event<Msg>>)
    ensures DataOf(a + b) == DataOf(a) + DataOf(b)
  {
    if a == [] {
      assert a + b == b;
    } else {
      assert (a + b)[0] == a[0] && (a + b)[1..] == a[1..] + b;
      DataOfConcat(a[1..], b);
      var first := if a[0].GotData? then [a[0].data] else [];
      assert first + (DataOf(a[1..]) + DataOf(b)) == first + DataOf(a[1..]) + DataOf(b);
    }
  }

  /** What the user has after an event list that starts with a delivery. */
  lemma DeliverFirst(delivered: seq<Msg>, id: ID, msg: Msg, rest: seq<Event<Msg>>)
    ensures delivered + DataOf([GotData(id, msg)] + rest) == delivered + [msg] + DataOf(rest)
  {
    DataOfConcat([GotData(id, msg)], rest);
    assert DataOf([GotData(id, msg)]) == [msg] + [];
  }

  ghost predicate KeepsHeld(c: Chan<Msg>, delivered: seq<Msg>, c': Chan<Msg>, delivered': seq<Msg>) {
    forall n: nat :: Held(c, delivered, n) ==> Held(c', delivered', n)
  }

  /** The state of the receiving part after out, relative to before. */
  ghost predicate Received(c: Chan<Msg>, delivered: seq<Msg>, written: seq<Msg>, out: Out<Msg>) {
    && RecvOk(out.chan, delivered + DataOf(out.events), written)
    && SameSendPart(c, out.chan) && out.wire == [] && out.answers == []
    && KeepsHeld(c, delivered, out.chan, delivered + DataOf(out.events))
  }

  lemma ReceivedNothing(c: Chan<Msg>, delivered: seq<Msg>, written: seq<Msg>, c': Chan<Msg>)
    requires RecvOk(c, delivered, written)
    requires c' == c.(dropped := c'.dropped)
    ensures Received(c, delivered, written, Out(c', [], [], []))
  {
    assert delivered + DataOf([]) == delivered;
  }

  /** A delivery of the next message, followed by rest. */
  lemma ReceivedThen(c: Chan<Msg>, delivered: seq<Msg>, written: seq<Msg>, c1: Chan<Msg>, id: ID, msg: Msg,
                     rest: Out<Msg>)
    requires SameSendPart(c, c1)
    requires KeepsHeld(c, delivered, c1, delivered + [msg])
    requires Received(c1, delivered + [msg], written, rest)
    ensures Received(c, delivered, written, Then(Out(c1, [GotData(id, msg)], [], []), rest))
    ensures delivered + DataOf([GotData(id, msg)] + rest.events) == delivered + [msg] + DataOf(rest.events)
  {
    DeliverFirst(delivered, id, msg, rest.events);
  }

  /** The queued packet under the expected id is the next message. */
  lemma AdvanceSafe(c: Chan<Msg>, delivered: seq<Msg>, written: seq<Msg>)
    requires RecvOk(c, delivered, written) && Numbered(written)
    requires c.expectedID in c.recvQ
    requires -PERIOD < c.recvQ[c.expectedID].n - |delivered| < PERIOD
    ensures c.recvQ[c.expectedID].n == |delivered|
    ensures RecvOk(Advance(c), delivered + [c.recvQ[c.expectedID]], written)
    ensures KeepsHeld(c, delivered, Advance(c), delivered + [c.recvQ[c.expectedID]])
  {
    var msg := c.recvQ[c.expectedID];
    assert GoodData(Data(c.expectedID, msg), written);
    WireInjective(|delivered|, msg.n);
    NextIDFollowsWire(|delivered|);
    assert delivered + [msg] == written[..|delivered| + 1];
  }

  lemma {:induction false} DrainSafe(c: Chan<Msg>, delivered: seq<Msg>, written: seq<Msg>, budget: nat, lo: int)
    requires RecvOk(c, delivered, written) && Numbered(written)
    requires QueuedWithin(c, lo, lo + 2 * REACH)
    requires lo <= |delivered| <= lo + 2 * REACH + 1
    ensures Received(c, delivered, written, Drain(c, budget))
    decreases |c.recvQ|
  {
    if c.expectedID in c.recvQ && budget > 0 {
      var msg := c.recvQ[c.expectedID];
      AdvanceSafe(c, delivered, written);
      DrainSafe(Advance(c), delivered + [msg], written, budget - 1, lo);
      ReceivedThen(c, delivered, written, Advance(c), c.expectedID, msg, Drain(Advance(c), budget - 1));
    } else {
      ReceivedNothing(c, delivered, written, c);
    }
  }

  /** Everything still queued after out comes later than what the user has. */
  ghost predicate Fresh(delivered: seq<Msg>, out: Out<Msg>, hi: int) {
    QueuedWithin(out.chan, |delivered + DataOf(out.events)| + 1, hi)
  }

  lemma FreshThen(c1: Chan<Msg>, delivered: seq<Msg>, id: ID, msg: Msg, rest: Out<Msg>, hi: int)
    requires Fresh(delivered + [msg], rest, hi)
    ensures Fresh(delivered, Then(Out(c1, [GotData(id, msg)], [], []), rest), hi)
  {
    DeliverFirst(delivered, id, msg, rest.events);
  }

  lemma NotNext(c: Chan<Msg>, delivered: seq<Msg>, written: seq<Msg>, hi: int)
    requires RecvOk(c, delivered, written) && QueuedWithin(c, |delivered|, hi)
    ensures QueuedWithin(c.(recvQ := c.recvQ - {c.expectedID}), |delivered| + 1, hi)
  {
    forall id | id in c.recvQ && id != c.expectedID
      ensures c.recvQ[id].n > |delivered|
    {
      assert GoodData(Data(id, c.recvQ[id]), written);
    }
  }

  lemma AdvanceFresh(c: Chan<Msg>, delivered: seq<Msg>, written: seq<Msg>, hi: int)
    requires RecvOk(c, delivered, written) && Numbered(written) && c.expectedID in c.recvQ
    requires QueuedWithin(c, |delivered|, hi) && hi <= |delivered| + 2 * REACH
    ensures RecvOk(Advance(c), delivered + [c.recvQ[c.expectedID]], written)
    ensures QueuedWithin(Advance(c), |delivered| + 1, hi)
  {
    AdvanceSafe(c, delivered, written);
    NotNext(c, delivered, written, hi);
  }

  lemma FreshNothing(c: Chan<Msg>, delivered: seq<Msg>, written: seq<Msg>, hi: int)
    requires RecvOk(c, delivered, written) && QueuedWithin(c, |delivered|, hi) && c.expectedID !in c.recvQ
    ensures Fresh(delivered, Out(c, [], [], []), hi)
  {
    NotNext(c, delivered, written, hi);
    assert c.recvQ - {c.expectedID} == c.recvQ;
    assert delivered + DataOf([]) == delivered;
  }

  lemma {:induction false} DrainFresh(c: Chan<Msg>, delivered: seq<Msg>, written: seq<Msg>, budget: nat, hi: int)
    requires RecvOk(c, delivered, written) && Numbered(written)
    requires QueuedWithin(c, |delivered|, hi) && hi <= |delivered| + 2 * REACH
    requires budget >= |c.recvQ|
    ensures Fresh(delivered, Drain(c, budget), hi)
    decreases |c.recvQ|
  {
    hide RecvOk, QueuedWithin, Numbered, Fresh, Advance;
    if c.expectedID in c.recvQ {
      assert c.recvQ.Keys != {};
      var msg := c.recvQ[c.expectedID];
      AdvanceFresh(c, delivered, written, hi);
      DrainFresh(Advance(c), delivered + [msg], written, budget - 1, hi);
      FreshThen(Advance(c), delivered, c.expectedID, msg, Drain(Advance(c), budget - 1), hi);
    } else {
      FreshNothing(c, delivered, written, hi);
    }
  }

  ghost predicate DataArrives(c: Chan<Msg>, delivered: seq<Msg>, written: seq<Msg>, n: nat) {
    && RecvOk(c, delivered, written) && Numbered(written)
    && n < |written|
    && Near(|delivered|, n)
    && QueuedWithin(c, |delivered| - REACH, |delivered| + REACH)
    && (n == 0 <==> |delivered| == 0)
  }

  /** Where an arriving message goes: delivered, dropped or queued, by its number. */
  ghost predicate Branch(c: Chan<Msg>, delivered: seq<Msg>, written: seq<Msg>, n: nat, budget: nat, out: Out<Msg>)
    requires n < |written|
  {
    var id, msg := Wire(n), written[n];
    if n == |delivered| then
      var c1 := c.(expectedID := NextID(c.expectedID));
      out == Then(Out(c1, [GotData(id, msg)], [], []), Drain(c1, budget))
    else if Held(c, delivered, n) then
      out == Out(c.(dropped := c.dropped + 1), [], [], [])
    else
      && id !in c.recvQ
      && out == Drain(c.(recvQ := c.recvQ[id := msg]), budget)
  }

  lemma DataBranch(c: Chan<Msg>, delivered: seq<Msg>, written: seq<Msg>, n: nat, budget: nat)
    requires DataArrives(c, delivered, written, n)
    ensures Branch(c, delivered, written, n, budget, DataProcess(c, Wire(n), written[n], budget))
  {
    DistanceIsFaithful(|delivered|, n);
    if Wire(n) in c.recvQ {
      WireInjective(n, c.recvQ[Wire(n)].n);
    }
  }

  lemma NextArrives(c: Chan<Msg>, delivered: seq<Msg>, written: seq<Msg>, n: nat)
    requires DataArrives(c, delivered, written, n) && n == |delivered|
    ensures var c1 := c.(expectedID := NextID(c.expectedID));
            && RecvOk(c1, delivered + [written[n]], written)
            && KeepsHeld(c, delivered, c1, delivered + [written[n]])
  {
    NextIDFollowsWire(n);
    assert delivered + [written[n]] == written[..n + 1];
  }

  lemma EarlyArrives(c: Chan<Msg>, delivered: seq<Msg>, written: seq<Msg>, n: nat)
    requires DataArrives(c, delivered, written, n) && n > |delivered| && Wire(n) !in c.recvQ
    ensures var c1 := c.(recvQ := c.recvQ[Wire(n) := written[n]]);
            && RecvOk(c1, delivered, written)
            && KeepsHeld(c, delivered, c1, delivered)
            && Held(c1, delivered, n)
  {
  }

  lemma KeptHeld(c: Chan<Msg>, delivered: seq<Msg>, written: seq<Msg>, out: Out<Msg>, n: nat)
    requires Received(c, delivered, written, out) && Held(c, delivered, n)
    ensures Held(out.chan, delivered + DataOf(out.events), n)
  {
  }

  lemma ReceivedTrans(c: Chan<Msg>, delivered: seq<Msg>, written: seq<Msg>, c1: Chan<Msg>, out: Out<Msg>)
    requires SameSendPart(c, c1) && KeepsHeld(c, delivered, c1, delivered)
    requires Received(c1, delivered, written, out)
    ensures Received(c, delivered, written, out)
  {
  }

  lemma DataSafe(c: Chan<Msg>, delivered: seq<Msg>, written: seq<Msg>, n: nat, budget: nat)
    requires DataArrives(c, delivered, written, n)
    ensures var out := DataProcess(c, Wire(n), written[n], budget);
            && Received(c, delivered, written, out)
            && Held(out.chan, delivered + DataOf(out.events), n)
  {
    DataBranch(c, delivered, written, n, budget);
    var id, msg := Wire(n), written[n];
    if n == |delivered| {
      var c1 := c.(expectedID := NextID(c.expectedID));
      NextArrives(c, delivered, written, n);
      DrainSafe(c1, delivered + [msg], written, budget, n - REACH);
      KeptHeld(c1, delivered + [msg], written, Drain(c1, budget), n);
      ReceivedThen(c, delivered, written, c1, id, msg, Drain(c1, budget));
    } else if Held(c, delivered, n) {
      ReceivedNothing(c, delivered, written, c.(dropped := c.dropped + 1));
      assert delivered + DataOf([]) == delivered;
    } else {
      var c1 := c.(recvQ := c.recvQ[id := msg]);
      EarlyArrives(c, delivered, written, n);
      DrainSafe(c1, delivered, written, budget, |delivered| - REACH);
      KeptHeld(c1, delivered, written, Drain(c1, budget), n);
      ReceivedTrans(c, delivered, written, c1, Drain(c1, budget));
    }
  }

  /** With event space, nothing stays queued that the user already has. */
  lemma DataFresh(c: Chan<Msg>, delivered: seq<Msg>, written: seq<Msg>, n: nat, budget: nat, out: Out<Msg>)
    requires DataArrives(c, delivered, written, n)
    requires QueuedWithin(c, |delivered| + 1, |delivered| + REACH)
    requires EventSpace(c, budget)
    requires Branch(c, delivered, written, n, budget, out)
    ensures Fresh(delivered, out, |delivered| + REACH)
  {
    hide Drain, RecvOk, Numbered, NextID, Wire;
    var id, msg := Wire(n), written[n];
    if n == |delivered| {
      var c1 := c.(expectedID := NextID(c.expectedID));
      NextArrives(c, delivered, written, n);
      DrainFresh(c1, delivered + [msg], written, budget, n + REACH);
      FreshThen(c1, delivered, id, msg, Drain(c1, budget), n + REACH);
    } else if Held(c, delivered, n) {
      assert delivered + DataOf([]) == delivered;
    } else {
      var c1 := c.(recvQ := c.recvQ[id := msg]);
      EarlyArrives(c, delivered, written, n);
      assert c1.recvQ.Keys == c.recvQ.Keys + {id};
      DrainFresh(c1, delivered, written, budget, |delivered| + REACH);
    }
  }
}

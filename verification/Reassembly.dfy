/**
 The receiving state machine against a simple specification: of the packets that
 have arrived, the user has the longest run without a gap, whatever the order and
 the repetitions in which they came.
 */
module Reassembly {
  import opened SeqNum
  import opened Transport
  import opened Session
  import opened SessionReceive
  import opened SessionMoves

  // ------------------------------------------------------ the specification

  ghost function RunLength(r: set<nat>): (k: nat)
    ensures k !in r && forall i: nat | i < k :: i in r
  {
    RunFrom(r, 0)
  }

  ghost function RunFrom(r: set<nat>, from: nat): (k: nat)
    requires forall i: nat | i < from :: i in r
    ensures k !in r && forall i: nat | i < k :: i in r
    decreases |set i | i in r && i >= from|
  {
    if from !in r then from
    else
      assert (set i | i in r && i >= from + 1) == (set i | i in r && i >= from) - {from};
      RunFrom(r, from + 1)
  }

  lemma RunLengthIsUnique(r: set<nat>, k: nat)
    requires k !in r && forall i: nat | i < k :: i in r
    ensures RunLength(r) == k
  {
  }

  // ---------------------------------------------------------- the machine

  // What the receiver is after some arrivals, and what it gave the user.
  datatype Got = Got(chan: Chan<Msg>, delivered: seq<Msg>)

  /** The n-th message arrives while the event channel has room for all. */
  ghost function Take(g: Got, written: seq<Msg>, n: nat): Got
    requires n < |written|
  {
    var out := DataProcess(g.chan, Wire(n), written[n], |g.chan.recvQ| + 1);
    Got(out.chan, g.delivered + DataOf(out.events))
  }

  ghost predicate AllWritten(ns: seq<nat>, written: seq<Msg>) {
    forall i | 0 <= i < |ns| :: ns[i] < |written|
  }

  ghost function TakeAll(written: seq<Msg>, ns: seq<nat>): Got
    requires AllWritten(ns, written)
  {
    if ns == [] then Got(NewChan(DEFAULT_QUEUE_SIZE, true), [])
    else Take(TakeAll(written, ns[..|ns| - 1]), written, ns[|ns| - 1])
  }

  ghost function Numbers(ns: seq<nat>): set<nat> {
    set n | n in ns
  }

  /** The first message comes first, and once. */
  ghost predicate FirstComesFirst(ns: seq<nat>) {
    forall i | 0 <= i < |ns| :: ns[i] == 0 <==> i == 0
  }

  /** Every message comes within REACH of the first one still missing. */
  ghost predicate InReach(ns: seq<nat>) {
    forall i | 0 <= i < |ns| :: Near(RunLength(Numbers(ns[..i])), ns[i])
  }

  ghost predicate FairArrivals(ns: seq<nat>) {
    FirstComesFirst(ns) && InReach(ns)
  }

  /** More room than for the whole queue changes nothing. */
  lemma {:induction false} MoreRoomIsNoDifferent(c: Chan<Msg>, budget: nat, more: nat)
    requires |c.recvQ| <= budget <= more
    ensures Drain(c, budget) == Drain(c, more)
    decreases |c.recvQ|
  {
    if c.expectedID in c.recvQ {
      assert c.recvQ.Keys != {};
      MoreRoomIsNoDifferent(Advance(c), budget - 1, more - 1);
    }
  }

  lemma AdvanceHoldsNoMore(c: Chan<Msg>, delivered: seq<Msg>, written: seq<Msg>, lo: int, n: nat)
    requires RecvOk(c, delivered, written) && Numbered(written) && c.expectedID in c.recvQ
    requires QueuedWithin(c, lo, lo + 2 * REACH)
    requires lo <= |delivered| <= lo + 2 * REACH + 1
    ensures var msg := c.recvQ[c.expectedID];
            && RecvOk(Advance(c), delivered + [msg], written) && |delivered| <= lo + 2 * REACH
            && QueuedWithin(Advance(c), lo, lo + 2 * REACH)
            && (Held(Advance(c), delivered + [msg], n) ==> Held(c, delivered, n))
  {
    AdvanceSafe(c, delivered, written);
  }

  lemma {:induction false} DrainHoldsNoMore(c: Chan<Msg>, delivered: seq<Msg>, written: seq<Msg>, budget: nat,
                                             lo: int, n: nat)
    requires RecvOk(c, delivered, written) && Numbered(written)
    requires QueuedWithin(c, lo, lo + 2 * REACH)
    requires lo <= |delivered| <= lo + 2 * REACH + 1
    requires Held(Drain(c, budget).chan, delivered + DataOf(Drain(c, budget).events), n)
    ensures Held(c, delivered, n)
    decreases |c.recvQ|
  {
    hide RecvOk, QueuedWithin, Numbered, Held, Advance, DataOf;
    if c.expectedID in c.recvQ && budget > 0 {
      var msg := c.recvQ[c.expectedID];
      AdvanceHoldsNoMore(c, delivered, written, lo, n);
      DeliverFirst(delivered, c.expectedID, msg, Drain(Advance(c), budget - 1).events);
      DrainHoldsNoMore(Advance(c), delivered + [msg], written, budget - 1, lo, n);
    } else {
      NoNews(delivered);
    }
  }

  lemma NoNews(delivered: seq<Msg>)
    ensures delivered + DataOf([]) == delivered
  {
  }

  lemma HoldsNoMore(c: Chan<Msg>, delivered: seq<Msg>, written: seq<Msg>, n: nat, budget: nat, out: Out<Msg>, k: nat)
    requires DataArrives(c, delivered, written, n)
    requires Branch(c, delivered, written, n, budget, out)
    requires Held(out.chan, delivered + DataOf(out.events), k)
    ensures Held(c, delivered, k) || k == n
  {
    hide Drain, DataOf, NextID, RecvOk;
    var id, msg := Wire(n), written[n];
    if n == |delivered| {
      var c1 := c.(expectedID := NextID(c.expectedID));
      NextArrives(c, delivered, written, n);
      DeliverFirst(delivered, id, msg, Drain(c1, budget).events);
      DrainHoldsNoMore(c1, delivered + [msg], written, budget, n - REACH, k);
    } else if Held(c, delivered, n) {
      NoNews(delivered);
    } else {
      var c1 := c.(recvQ := c.recvQ[id := msg]);
      EarlyArrives(c, delivered, written, n);
      DrainHoldsNoMore(c1, delivered, written, budget, |delivered| - REACH, k);
    }
  }

  // ---------------------------------------------------------- refinement

  ghost predicate Represents(g: Got, written: seq<Msg>, r: set<nat>) {
    && RecvOk(g.chan, g.delivered, written)
    && QueuedWithin(g.chan, |g.delivered| + 1, |g.delivered| + REACH)
    && (forall n: nat :: Held(g.chan, g.delivered, n) <==> n in r)
  }

  lemma RepresentsRun(g: Got, written: seq<Msg>, r: set<nat>)
    requires Represents(g, written, r)
    ensures |g.delivered| == RunLength(r)
  {
    var e := |g.delivered|;
    assert !Held(g.chan, g.delivered, e);
    forall i: nat | i < e
      ensures i in r
    {
      assert Held(g.chan, g.delivered, i);
    }
    RunLengthIsUnique(r, e);
  }

  lemma TakeRepresents(g: Got, written: seq<Msg>, r: set<nat>, n: nat)
    requires Represents(g, written, r) && Numbered(written) && n < |written|
    requires Near(RunLength(r), n) && (n == 0 <==> |g.delivered| == 0)
    ensures Represents(Take(g, written, n), written, r + {n})
  {
    RepresentsRun(g, written, r);
    var c, d, budget := g.chan, g.delivered, |g.chan.recvQ| + 1;
    var out := DataProcess(c, Wire(n), written[n], budget);
    DataSafe(c, d, written, n, budget);
    DataBranch(c, d, written, n, budget);
    DataFresh(c, d, written, n, budget, out);
    assert |d + DataOf(out.events)| >= |d|;
    forall k: nat
      ensures Held(out.chan, d + DataOf(out.events), k) <==> k in r + {n}
    {
      if Held(out.chan, d + DataOf(out.events), k) {
        HoldsNoMore(c, d, written, n, budget, out, k);
      }
      if k in r { assert Held(c, d, k); }
    }
  }

  lemma NothingArrived(written: seq<Msg>)
    ensures Represents(TakeAll(written, []), written, Numbers([]))
  {
    assert Numbers([]) == {};
  }

  lemma FairPrefix(ns: seq<nat>)
    requires ns != [] && FairArrivals(ns)
    ensures var before, n := ns[..|ns| - 1], ns[|ns| - 1];
            && FairArrivals(before) && Numbers(ns) == Numbers(before) + {n}
            && Near(RunLength(Numbers(before)), n)
            && (n == 0 <==> RunLength(Numbers(before)) == 0)
  {
    hide Near, RunLength;
    var before, n := ns[..|ns| - 1], ns[|ns| - 1];
    assert forall i | 0 <= i < |before| :: before[..i] == ns[..i] && before[i] == ns[i];
    assert ns == before + [n];
    if |before| > 0 { assert before[0] in before; }
  }

  lemma {:induction false} TakeAllRepresents(written: seq<Msg>, ns: seq<nat>)
    requires Numbered(written) && AllWritten(ns, written) && FairArrivals(ns)
    ensures Represents(TakeAll(written, ns), written, Numbers(ns))
  {
    hide Represents, Take, Near, RunLength, FairArrivals, Numbers;
    if ns == [] {
      NothingArrived(written);
    } else {
      var before, n := ns[..|ns| - 1], ns[|ns| - 1];
      FairPrefix(ns);
      TakeAllRepresents(written, before);
      var g := TakeAll(written, before);
      RepresentsRun(g, written, Numbers(before));
      TakeRepresents(g, written, Numbers(before), n);
    }
  }

  /** The user has exactly the longest run of messages without a gap, and what came
      beyond it is queued, nothing else. */
  ghost predicate Meets(written: seq<Msg>, ns: seq<nat>)
    requires AllWritten(ns, written)
  {
    var g, k := TakeAll(written, ns), RunLength(Numbers(ns));
    && k <= |written| && g.delivered == written[..k]
    && g.chan.expectedID == Wire(k)
    && (forall id | id in g.chan.recvQ :: exists n :: n in ns && n > k && id == Wire(n))
    && (forall n | n in ns && n > k :: Wire(n) in g.chan.recvQ && g.chan.recvQ[Wire(n)] == written[n])
  }

  lemma DeliversLongestRun(written: seq<Msg>, ns: seq<nat>)
    requires Numbered(written) && AllWritten(ns, written) && FairArrivals(ns)
    ensures Meets(written, ns)
  {
    var g := TakeAll(written, ns);
    TakeAllRepresents(written, ns);
    RepresentsRun(g, written, Numbers(ns));
    forall id | id in g.chan.recvQ
      ensures exists n :: n in ns && n > |g.delivered| && id == Wire(n)
    {
      assert GoodData(Data(id, g.chan.recvQ[id]), written);
      assert Held(g.chan, g.delivered, g.chan.recvQ[id].n);
    }
    forall n | n in ns && n > |g.delivered|
      ensures Wire(n) in g.chan.recvQ && g.chan.recvQ[Wire(n)] == written[n]
    {
      assert n in Numbers(ns);
      assert Held(g.chan, g.delivered, n);
      assert GoodData(Data(Wire(n), g.chan.recvQ[Wire(n)]), written);
    }
  }

  lemma QueueWithin(written: seq<Msg>, ns: seq<nat>, ms: seq<nat>, id: ID)
    requires Numbered(written) && AllWritten(ns, written) && AllWritten(ms, written)
    requires FairArrivals(ns) && FairArrivals(ms) && Numbers(ns) == Numbers(ms)
    requires id in TakeAll(written, ns).chan.recvQ
    ensures id in TakeAll(written, ms).chan.recvQ
    ensures TakeAll(written, ms).chan.recvQ[id] == TakeAll(written, ns).chan.recvQ[id]
  {
    DeliversLongestRun(written, ns);
    DeliversLongestRun(written, ms);
    var n :| n in ns && n > RunLength(Numbers(ns)) && id == Wire(n);
    assert n in Numbers(ms);
  }

  /** So the result depends on which messages arrived, not on how. */
  lemma OrderDoesNotMatter(written: seq<Msg>, ns: seq<nat>, ms: seq<nat>)
    requires Numbered(written) && AllWritten(ns, written) && AllWritten(ms, written)
    requires FairArrivals(ns) && FairArrivals(ms)
    requires Numbers(ns) == Numbers(ms)
    ensures TakeAll(written, ns).delivered == TakeAll(written, ms).delivered
    ensures TakeAll(written, ns).chan.recvQ == TakeAll(written, ms).chan.recvQ
  {
    hide TakeAll, FairArrivals, Numbers, RunLength, Wire;
    DeliversLongestRun(written, ns);
    DeliversLongestRun(written, ms);
    var q, q' := TakeAll(written, ns).chan.recvQ, TakeAll(written, ms).chan.recvQ;
    forall id | id in q ensures id in q' && q'[id] == q[id] { QueueWithin(written, ns, ms, id); }
    forall id | id in q' ensures id in q { QueueWithin(written, ms, ns, id); }
  }

  // ------------------------------------------- packet 0 must come first, once

  lemma PrefixIsFair(ns: seq<nat>, i: nat)
    requires i <= |ns| && FairArrivals(ns)
    ensures FairArrivals(ns[..i])
  {
    hide Near, RunLength, Numbers;
    assert forall j | 0 <= j < i :: ns[..i][..j] == ns[..j] && ns[..i][j] == ns[j];
  }

  lemma {:induction false} FirstFault(ns: seq<nat>) returns (i: nat)
    requires !FirstComesFirst(ns)
    ensures i < |ns| && FirstComesFirst(ns[..i]) && (ns[i] == 0) != (i == 0)
  {
    var n := |ns| - 1;
    if FirstComesFirst(ns[..n]) {
      i := n;
    } else {
      i := FirstFault(ns[..n]);
      assert ns[..n][..i] == ns[..i];
    }
  }

  /** Without the first packet, another one is not kept. */
  lemma StartsWrong(written: seq<Msg>, n: nat)
    requires n < |written| && n > 0
    ensures !Meets(written, [n])
  {
    var g := TakeAll(written, []);
    assert [n][..0] == [] && TakeAll(written, [n]) == Take(g, written, n);
    assert PacketDistance(0, Wire(n)) != 0;
    assert Take(g, written, n).chan.recvQ == map[];
    RunLengthIsUnique(Numbers([n]), 0);
    assert n in [n];
  }

  /** A first packet that comes again is delivered again. */
  lemma ComesAgain(written: seq<Msg>, ns: seq<nat>)
    requires Numbered(written) && AllWritten(ns, written) && Meets(written, ns)
    requires ns != [] && ns[0] == 0
    ensures !Meets(written, ns + [0])
  {
    hide Process, DataProcess;
    var g, k := TakeAll(written, ns), RunLength(Numbers(ns));
    assert ns[0] in ns && 0 in Numbers(ns);
    assert (ns + [0])[..|ns|] == ns;
    FirstDataEvents(g.chan, written[0], |g.chan.recvQ| + 1);
    assert TakeAll(written, ns + [0]) == Take(g, written, 0);
    assert |Take(g, written, 0).delivered| == k + 1;
    assert Numbers(ns + [0]) == Numbers(ns);
  }

  lemma FaultShows(written: seq<Msg>, ns: seq<nat>)
    requires Numbered(written) && AllWritten(ns, written) && InReach(ns) && !FirstComesFirst(ns)
    ensures exists i: nat :: i <= |ns| && !Meets(written, ns[..i])
  {
    hide Meets, InReach, Near;
    var i := FirstFault(ns);
    var before := ns[..i];
    assert ns[..i + 1] == before + [ns[i]];
    if i == 0 {
      StartsWrong(written, ns[0]);
      assert ns[..1] == [ns[0]];
    } else {
      PrefixIsInReach(ns, i);
      DeliversLongestRun(written, before);
      ComesAgain(written, before);
    }
    assert !Meets(written, ns[..i + 1]);
  }

  lemma PrefixIsInReach(ns: seq<nat>, i: nat)
    requires i <= |ns| && InReach(ns)
    ensures InReach(ns[..i])
  {
    hide Near, RunLength, Numbers;
    assert forall j | 0 <= j < i :: ns[..i][..j] == ns[..j] && ns[..i][j] == ns[j];
  }

  /** Of arrivals within reach, the specification is met after every one exactly if the
      first packet comes first, and once. */
  lemma LongestRunIff(written: seq<Msg>, ns: seq<nat>)
    requires Numbered(written) && AllWritten(ns, written) && InReach(ns)
    ensures (forall i: nat | i <= |ns| :: Meets(written, ns[..i])) <==> FirstComesFirst(ns)
  {
    hide Meets, InReach, FirstComesFirst;
    if FirstComesFirst(ns) {
      forall i: nat | i <= |ns|
        ensures Meets(written, ns[..i])
      {
        PrefixIsFair(ns, i);
        DeliversLongestRun(written, ns[..i]);
      }
    } else {
      FaultShows(written, ns);
    }
  }
}

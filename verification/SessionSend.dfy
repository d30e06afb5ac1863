/**
 The sending half of a session: writes, acknowledgements and timer ticks on a
 channel whose packets carry the messages written, in order.
 */
module SessionSend {
  import opened SeqNum
  import opened Transport
  import opened Session

  ghost predicate SameRecvPart(c: Chan<Msg>, c': Chan<Msg>) {
    c'.expectedID == c.expectedID && c'.recvQ == c.recvQ
  }

  ghost predicate QueueNear(q: seq<Entry<Msg>>, e: int) {
    forall i | 0 <= i < |q| :: Near(e, Number(q[i]))
  }

  ghost predicate WireNear(wire: seq<Packet<Msg>>, e: int) {
    forall p | p in wire && p.Data? :: Near(e, p.payload.n)
  }

  /** All that a sending step puts on the wire: message packets and pings. */
  ghost predicate GoodWire(wire: seq<Packet<Msg>>, written: seq<Msg>, issued: int) {
    forall p | p in wire :: (GoodData(p, written) && p.payload.n < issued) || p.Ping?
  }

  ghost predicate KeepsUnacked(q: seq<Entry<Msg>>, q': seq<Entry<Msg>>) {
    forall n: nat :: Unacked(q, n) ==> Unacked(q', n)
  }

  /** Every message issued by the step waits for its acknowledgement. */
  ghost predicate NewUnacked(q': seq<Entry<Msg>>, from: int, to: int) {
    forall n: nat | from <= n < to :: Unacked(q', n)
  }

  ghost predicate Sent(c: Chan<Msg>, written: seq<Msg>, out: Out<Msg>) {
    && SendOk(out.chan, written) && Issued(c, written) <= Issued(out.chan, written)
    && SameRecvPart(c, out.chan) && out.chan.stopped == c.stopped
    && out.events == [] && GoodWire(out.wire, written, Issued(out.chan, written))
    && KeepsUnacked(c.sendQ, out.chan.sendQ)
    && NewUnacked(out.chan.sendQ, Issued(c, written), Issued(out.chan, written))
  }

  lemma KeepsByIndex(q: seq<Entry<Msg>>, q': seq<Entry<Msg>>)
    requires |q| <= |q'| && forall i | 0 <= i < |q| :: q'[i].packet == q[i].packet
    ensures KeepsUnacked(q, q')
  {
    forall n: nat | Unacked(q, n)
      ensures Unacked(q', n)
    {
      var i :| 0 <= i < |q| && Number(q[i]) == n;
      assert Number(q'[i]) == n;
    }
  }

  /** A message sent for the first time joins the end of the send queue. */
  lemma WriteDirectAppends(c: Chan<Msg>, written: seq<Msg>, next: nat, arrival: int, e: int)
    requires Numbered(written) && next < |written|
    requires c.id == Wire(next) && SendQOk(c.sendQ, written, next)
    requires QueueNear(c.sendQ, e) && Near(e, next)
    ensures var packet := Data(Wire(next), written[next]);
            var q' := c.sendQ + [Entry(packet, arrival, 0)];
            && WriteDirect(c, written[next], arrival)
               == Out(c.(id := Wire(next + 1), sendQ := q'), [], [packet], [Answer(written[next], true)])
            && SendQOk(q', written, next + 1)
            && QueueNear(q', e)
            && KeepsUnacked(c.sendQ, q') && Unacked(q', next)
  {
    NextIDFollowsWire(next);
    var i := Position(c.sendQ, c.id);
    if i < |c.sendQ| {
      assert GoodData(c.sendQ[i].packet, written) && Near(e, Number(c.sendQ[i]));
      WireInjective(Number(c.sendQ[i]), next);
      assert false;
    }
    var q' := c.sendQ + [Entry(Data(Wire(next), written[next]), arrival, 0)];
    KeepsByIndex(c.sendQ, q');
    assert Number(q'[|c.sendQ|]) == next;
  }

  lemma SentNothing(c: Chan<Msg>, written: seq<Msg>)
    requires SendOk(c, written)
    ensures Sent(c, written, Out(c, [], [], []))
  {
  }

  /** The first waiting write goes out. */
  lemma ReleaseOne(c: Chan<Msg>, written: seq<Msg>, arrival: int, e: int)
    requires SendOk(c, written) && c.writeQ != []
    requires QueueNear(c.sendQ, e) && Near(e, Issued(c, written))
    ensures c.writeQ[0] == written[Issued(c, written)]
    ensures var out := WriteDirect(c.(writeQ := c.writeQ[1..]), c.writeQ[0], arrival);
            && Sent(c, written, out) && QueueNear(out.chan.sendQ, e)
            && out.wire == [Data(c.id, c.writeQ[0])]
            && out.chan.writeQ == c.writeQ[1..]
  {
    var next := Issued(c, written);
    assert c.writeQ[0] == written[next];
    WriteDirectAppends(c.(writeQ := c.writeQ[1..]), written, next, arrival, e);
  }

  lemma SentThen(c: Chan<Msg>, written: seq<Msg>, a: Out<Msg>, b: Out<Msg>)
    requires Sent(c, written, a) && Sent(a.chan, written, b)
    ensures Sent(c, written, Then(a, b))
  {
    forall n: nat | Issued(c, written) <= n < Issued(b.chan, written)
      ensures Unacked(b.chan.sendQ, n)
    {
      if n < Issued(a.chan, written) { assert Unacked(a.chan.sendQ, n); }
    }
  }

  lemma {:induction false} WriteFromQueueSafe(c: Chan<Msg>, written: seq<Msg>, first: bool, arrivals: nat -> int,
                                               e: int)
    requires SendOk(c, written) && QueueNear(c.sendQ, e)
    requires WireNear(WriteFromQueue(c, first, arrivals).wire, e)
    ensures Sent(c, written, WriteFromQueue(c, first, arrivals))
    decreases |c.writeQ|
  {
    if c.writeQ != [] && (first || CanWrite(c)) {
      var sent := WriteDirect(c.(writeQ := c.writeQ[1..]), c.writeQ[0], arrivals(|c.writeQ|));
      var rest := WriteFromQueue(sent.chan, false, arrivals);
      assert Then(sent, rest).wire == sent.wire + rest.wire;
      assert sent.wire[0] in sent.wire + rest.wire;
      assert c.writeQ[0] == written[Issued(c, written)];
      ReleaseOne(c, written, arrivals(|c.writeQ|), e);
      assert WireNear(rest.wire, e);
      WriteFromQueueSafe(sent.chan, written, false, arrivals, e);
      SentThen(c, written, sent, rest);
    } else {
      SentNothing(c, written);
    }
  }

  function Cut(q: seq<Entry<Msg>>, i: nat): (q': seq<Entry<Msg>>)
    requires i < |q|
    ensures |q'| == |q| - 1 && forall j | 0 <= j < |q'| :: q'[j] == q[if j < i then j else j + 1]
  {
    q[..i] + q[i + 1..]
  }

  lemma CutOk(q: seq<Entry<Msg>>, written: seq<Msg>, issued: int, i: nat)
    requires i < |q| && SendQOk(q, written, issued)
    ensures SendQOk(Cut(q, i), written, issued)
  {
    hide Cut, GoodData, Number;
  }

  lemma CutKeeps(q: seq<Entry<Msg>>, i: nat, k: nat)
    requires i < |q| && Unacked(q, k) && k != Number(q[i])
    ensures Unacked(Cut(q, i), k)
  {
    hide Cut, Number;
    var j :| 0 <= j < |q| && Number(q[j]) == k;
    assert Cut(q, i)[if j < i then j else j - 1] == q[j];
  }

  lemma CutMisses(q: seq<Entry<Msg>>, written: seq<Msg>, issued: int, i: nat, k: nat)
    requires i < |q| && SendQOk(q, written, issued) && Unacked(Cut(q, i), k)
    ensures Unacked(q, k) && k != Number(q[i])
  {
    hide Cut, GoodData, Number;
    var j :| 0 <= j < |Cut(q, i)| && Number(Cut(q, i)[j]) == k;
    assert Number(q[if j < i then j else j + 1]) == k;
  }

  /** Without its i-th entry, a send queue misses exactly that entry's message. */
  lemma CutSafe(q: seq<Entry<Msg>>, written: seq<Msg>, issued: int, i: nat)
    requires i < |q| && SendQOk(q, written, issued)
    ensures SendQOk(Cut(q, i), written, issued)
    ensures forall k: nat :: Unacked(Cut(q, i), k) <==> Unacked(q, k) && k != Number(q[i])
  {
    hide Cut, SendQOk, Unacked, Number;
    CutOk(q, written, issued, i);
    forall k: nat
      ensures Unacked(Cut(q, i), k) <==> Unacked(q, k) && k != Number(q[i])
    {
      if Unacked(Cut(q, i), k) { CutMisses(q, written, issued, i, k); }
      if Unacked(q, k) && k != Number(q[i]) { CutKeeps(q, i, k); }
    }
  }

  /** An acknowledgement takes exactly its own message out of the send queue. */
  lemma RemoveSafe(q: seq<Entry<Msg>>, written: seq<Msg>, issued: int, n: nat, e: int)
    requires Numbered(written) && SendQOk(q, written, issued) && QueueNear(q, e) && Near(e, n)
    ensures var q' := SqRemove(q, Wire(n));
            && SendQOk(q', written, issued) && QueueNear(q', e)
            && (forall k: nat :: Unacked(q', k) <==> Unacked(q, k) && k != n)
  {
    var i := Position(q, Wire(n));
    if i < |q| {
      assert GoodData(q[i].packet, written) && Near(e, Number(q[i]));
      WireInjective(Number(q[i]), n);
      CutSafe(q, written, issued, i);
      assert SqRemove(q, Wire(n)) == Cut(q, i);
    } else {
      assert forall j | 0 <= j < |q| :: GoodData(q[j].packet, written) && q[j].packet.id != Wire(n);
      assert !Unacked(q, n);
    }
  }

  lemma ResendOne(c: Chan<Msg>, written: seq<Msg>, i: nat, arrival: int)
    requires SendOk(c, written) && i < |c.sendQ|
    ensures var resent := c.(sendQ := SqAdd(c.sendQ, c.sendQ[i].packet, arrival));
            && Sent(c, written, Out(resent, [], [c.sendQ[i].packet], []))
            && |resent.sendQ| == |c.sendQ|
  {
    var q' := SqAdd(c.sendQ, c.sendQ[i].packet, arrival);
    assert |q'| == |c.sendQ|;
    assert forall j | 0 <= j < |q'| :: q'[j].packet == c.sendQ[j].packet;
    assert forall j | 0 <= j < |q'| :: Number(q'[j]) == Number(c.sendQ[j]);
    KeepsByIndex(c.sendQ, q');
    assert GoodData(c.sendQ[i].packet, written);
  }

  /** A scan changes no packet in the queue; or it gives the channel up. */
  ghost predicate Scanned(c: Chan<Msg>, written: seq<Msg>, out: Out<Msg>) {
    && DataOf(out.events) == [] && GoodWire(out.wire, written, Issued(out.chan, written))
    && if out.chan.stopped then out.chan == Cleared(c).(stopped := true)
       else Sent(c, written, out) && out.chan == c.(sendQ := out.chan.sendQ)
  }

  lemma ScannedThen(c: Chan<Msg>, written: seq<Msg>, q': seq<Entry<Msg>>, p: Packet<Msg>, rest: Out<Msg>)
    requires Sent(c, written, Out(c.(sendQ := q'), [], [p], []))
    requires Scanned(c.(sendQ := q'), written, rest)
    ensures Scanned(c, written, Then(Out(c.(sendQ := q'), [], [p], []), rest))
  {
    assert [] + rest.events == rest.events;
    if !rest.chan.stopped {
      SentThen(c, written, Out(c.(sendQ := q'), [], [p], []), rest);
    }
  }

  lemma {:induction false} ResendSafe(c: Chan<Msg>, written: seq<Msg>, i: nat, now: int, arrivals: nat -> int)
    requires SendOk(c, written) && !c.stopped
    ensures Scanned(c, written, Resend(c, i, now, arrivals))
    decreases |c.sendQ| - i
  {
    if i >= |c.sendQ| || now <= c.sendQ[i].arrivalTime {
      SentNothing(c, written);
    } else if c.sendQ[i].resendAttempt >= MAX_RESEND_ATTEMPT {
      DestroySafe(c, written);
    } else {
      ResendOne(c, written, i, arrivals(i));
      var resent := c.(sendQ := SqAdd(c.sendQ, c.sendQ[i].packet, arrivals(i)));
      ResendSafe(resent, written, i + 1, now, arrivals);
      ScannedThen(c, written, resent.sendQ, c.sendQ[i].packet, Resend(resent, i + 1, now, arrivals));
    }
  }

  lemma DestroySafe(c: Chan<Msg>, written: seq<Msg>)
    requires !c.stopped
    ensures Scanned(c, written, Destroy(c)) && Destroy(c).chan.stopped
  {
    assert DataOf([Disconnected]) == [] + DataOf([]);
  }

  ghost predicate Ticked(c: Chan<Msg>, written: seq<Msg>, out: Out<Msg>) {
    && DataOf(out.events) == [] && GoodWire(out.wire, written, Issued(out.chan, written))
    && if out.chan.stopped then
         out.chan == Cleared(c).(stopped := true, maxQueueSize := out.chan.maxQueueSize)
       else Sent(c, written, out)
  }

  lemma ResizeSafe(c: Chan<Msg>, written: seq<Msg>, out: Out<Msg>, t: Tick)
    requires Scanned(c, written, out)
    ensures Ticked(c, written, Resize(out, t))
  {
    var size := Resize(out, t).chan.maxQueueSize;
    assert Resize(out, t) == out.(chan := out.chan.(maxQueueSize := size));
  }

  lemma CheckAliveSafe(c: Chan<Msg>, written: seq<Msg>, out: Out<Msg>, t: Tick)
    requires Scanned(c, written, out)
    ensures Scanned(c, written, CheckAlive(out, t))
  {
    if t.keepAlive {
      KeepAliveSafe(c, written, out, t.quiet, t.silent);
    }
  }

  /** A whole timer tick: besides the scan, only pings and the window size. */
  lemma TickSafe(c: Chan<Msg>, written: seq<Msg>, t: Tick)
    requires SendOk(c, written) && !c.stopped
    ensures Ticked(c, written, OnTick(c, t))
  {
    var resent := Resend(c, 0, t.now, t.arrivals);
    ResendSafe(c, written, 0, t.now, t.arrivals);
    CheckAliveSafe(c, written, resent, t);
    ResizeSafe(c, written, CheckAlive(resent, t), t);
  }

  lemma KeepAliveSafe(c: Chan<Msg>, written: seq<Msg>, before: Out<Msg>, quiet: bool, silent: bool)
    requires Scanned(c, written, before)
    ensures Scanned(c, written, Then(before, KeepAlive(before.chan, quiet, silent)))
  {
    var alive := KeepAlive(before.chan, quiet, silent);
    if silent && !before.chan.stopped {
      assert before.events + alive.events == alive.events;
      DestroySafe(before.chan, written);
      assert [] + Destroy(before.chan).events == Destroy(before.chan).events;
    } else {
      assert alive.events == [];
      assert before.events + alive.events == before.events;
    }
  }
}

/**
 The main theorems about a session, over whole runs.
 */
module SessionRuns {
  import opened SeqNum
  import opened Transport
  import opened Session
  import opened SessionReceive
  import opened SessionSend
  import opened SessionSafety

  // A run: the states it goes through, and who made which step between them.
  datatype Run = Run(states: seq<Session>, movers: seq<Who>, steps: seq<Step>)

  ghost predicate IsRun(r: Run) {
    && |r.states| == |r.steps| + 1 && |r.movers| == |r.steps|
    && forall i | 0 <= i < |r.steps| :: Next(r.states[i], r.movers[i], r.steps[i], r.states[i + 1])
  }

  ghost function Last(r: Run): Session
    requires r.states != []
  {
    r.states[|r.states| - 1]
  }

  function After(s: Session, who: Who, step: Step): Session {
    if who.A? then Session(Move(s.a, step), s.b) else Session(s.a, Move(s.b, step))
  }

  /** The run with one more step. */
  ghost function Extend(r: Run, who: Who, step: Step): Run
    requires r.states != []
  {
    Run(r.states + [After(Last(r), who, step)], r.movers + [who], r.steps + [step])
  }

  lemma ExtendIsRun(r: Run, who: Who, step: Step)
    requires IsRun(r) && Enabled(Me(Last(r), who), Peer(Last(r), who), step)
    ensures var r' := Extend(r, who, step);
            IsRun(r') && Last(r') == After(Last(r), who, step) && r'.states[0] == r.states[0]
  {
    hide Move;
    var r' := Extend(r, who, step);
    forall i | 0 <= i < |r'.steps|
      ensures Next(r'.states[i], r'.movers[i], r'.steps[i], r'.states[i + 1])
    {
      if i < |r.steps| { assert Next(r.states[i], r.movers[i], r.steps[i], r.states[i + 1]); }
    }
  }

  ghost predicate StartsNew(r: Run) {
    |r.states| > 0 && exists k, l :: r.states[0] == Session(NewSide(k), NewSide(l))
  }

  /** No arrival in the run triggers a reset. */
  ghost predicate NoReset(r: Run)
    requires IsRun(r)
  {
    NoResetBefore(r, |r.steps|)
  }

  ghost predicate NoResetBefore(r: Run, k: nat)
    requires IsRun(r) && k <= |r.steps|
  {
    forall i | 0 <= i < k :: Clean(Me(r.states[i], r.movers[i]), r.steps[i])
  }

  ghost predicate InWindow(r: Run) {
    forall i | 0 <= i < |r.states| :: Window(r.states[i])
  }

  /** The user at y has a prefix of what was written at x; and as long as both
      channels live, every message sent has arrived or will be sent again. */
  ghost predicate Reliable(x: Side, y: Side) {
    && y.delivered <= x.written
    && (!x.chan.stopped && !y.chan.stopped ==>
          forall n: nat | n < |x.written| - |x.chan.writeQ| ::
            Held(y.chan, y.delivered, n) || Unacked(x.chan.sendQ, n))
  }

  lemma InvIsReliable(s: Session)
    requires Inv(s)
    ensures Reliable(s.a, s.b) && Reliable(s.b, s.a)
  {
  }

  lemma NewIsInv(k: int, l: int)
    ensures Inv(Session(NewSide(k), NewSide(l)))
  {
  }

  /** A message on the wire of an output is in flight afterwards. */
  lemma EmittedIsNear(x: Side, out: Out<Msg>, tag: nat, y: Side)
    requires WindowOneWay(Emit(x, out, tag), y)
    ensures WireNear(out.wire, |y.delivered|)
  {
    forall p | p in out.wire && p.Data?
      ensures Near(|y.delivered|, p.payload.n)
    {
      assert FlightOf(p, tag) in Emit(x, out, tag).net;
    }
  }

  lemma NextKeeps(s: Session, who: Who, step: Step, s': Session)
    requires Inv(s) && Next(s, who, step, s') && Clean(Me(s, who), step)
    requires Window(s) && Window(s')
    ensures Inv(s')
  {
    var x, y := Me(s, who), Peer(s, who);
    if !step.Lose? {
      var out := Output(x.chan, step, |x.written|);
      EmittedIsNear(x, out, if step.Receive? then step.flight.tag else 0, y);
    }
    MoveKeeps(x, y, step);
  }

  lemma {:induction false} RunKeeps(r: Run, k: nat)
    requires IsRun(r) && k < |r.states| && Inv(r.states[0])
    requires NoResetBefore(r, k) && InWindow(r)
    ensures Inv(r.states[k])
  {
    if k > 0 {
      RunKeeps(r, k - 1);
      NextKeeps(r.states[k - 1], r.movers[k - 1], r.steps[k - 1], r.states[k]);
    }
  }

  /** Whatever the network loses, repeats and reorders, in every state of a run from
      new channels both users have a prefix of what the other one wrote, and no
      message is lost. */
  lemma SessionIsReliable(r: Run, k: nat)
    requires IsRun(r) && StartsNew(r) && k < |r.states|
    requires NoReset(r) && InWindow(r)
    ensures Reliable(r.states[k].a, r.states[k].b)
    ensures Reliable(r.states[k].b, r.states[k].a)
  {
    var m, l :| r.states[0] == Session(NewSide(m), NewSide(l));
    NewIsInv(m, l);
    RunKeeps(r, k);
  }

  // -------------------------------------------- runs of few enough messages

  lemma ShortIsInWindow(x: Side, y: Side)
    requires OneWay(x, y) && OneWay(y, x) && |x.written| <= REACH
    ensures WindowOneWay(x, y)
  {
    forall f | f in y.net && f.packet.Ack?
      ensures Near(|y.delivered|, f.tag)
    {
      assert AckOk(f, y, x.written);
    }
    forall id | id in y.chan.recvQ
      ensures y.chan.recvQ[id].n < |x.written|
    {
      assert GoodData(Data(id, y.chan.recvQ[id]), x.written);
    }
  }

  lemma {:induction false} ReleasedWereWaiting(c: Chan<Msg>, first: bool, arrivals: nat -> int)
    ensures forall p | p in WriteFromQueue(c, first, arrivals).wire :: p.Data? && p.payload in c.writeQ
    decreases |c.writeQ|
  {
    if c.writeQ != [] && (first || CanWrite(c)) {
      var sent := WriteDirect(c.(writeQ := c.writeQ[1..]), c.writeQ[0], arrivals(|c.writeQ|));
      ReleasedWereWaiting(sent.chan, false, arrivals);
    }
  }

  lemma ShortOutput(x: Side, y: Side, step: Step)
    requires OneWay(x, y) && OneWay(y, x) && Enabled(x, y, step) && Clean(x, step) && !step.Lose?
    requires |Move(x, step).written| <= REACH && WindowOneWay(y, x)
    ensures WireNear(Output(x.chan, step, |x.written|).wire, |y.delivered|)
  {
    match step
    case Receive(f, budget, arrivals, allow) =>
      if f.packet.Data? {
        ProcessData(x, y, f, budget, arrivals, allow);
      } else if f.packet.Ack? {
        var c := x.chan.(connected := true, sendQ := SqRemove(x.chan.sendQ, f.packet.id));
        var out := WriteFromQueue(c, true, arrivals);
        ReleasedWereWaiting(c, true, arrivals);
        assert Output(x.chan, step, |x.written|).wire == [] + out.wire == out.wire;
      } else {
        assert FlightOk(f, y.written, Issued(y.chan, y.written));
      }
    case Send(_, _) =>
    case Elapse(t) => TickSafe(x.chan, x.written, t);
    case Shut =>
  }

  lemma {:induction false} ShortRunKeeps(r: Run, k: nat)
    requires IsRun(r) && k < |r.states| && Inv(r.states[0]) && NoResetBefore(r, k)
    requires forall i | 0 <= i <= k :: |r.states[i].a.written| <= REACH && |r.states[i].b.written| <= REACH
    ensures Inv(r.states[k])
  {
    if k > 0 {
      ShortRunKeeps(r, k - 1);
      var s, who, step := r.states[k - 1], r.movers[k - 1], r.steps[k - 1];
      var x, y := Me(s, who), Peer(s, who);
      assert Next(s, who, step, r.states[k]);
      ShortIsInWindow(x, y);
      ShortIsInWindow(y, x);
      if !step.Lose? { ShortOutput(x, y, step); }
      MoveKeeps(x, y, step);
    }
  }

  /** While each user has written at most 2^31-2 messages, nothing need be assumed
      about how long packets stay in the network, nor about event space. */
  lemma ShortSessionIsReliable(r: Run, k: nat)
    requires IsRun(r) && StartsNew(r) && k < |r.states| && NoReset(r)
    requires forall i | 0 <= i <= k :: |r.states[i].a.written| <= REACH && |r.states[i].b.written| <= REACH
    ensures Reliable(r.states[k].a, r.states[k].b)
    ensures Reliable(r.states[k].b, r.states[k].a)
  {
    var m, l :| r.states[0] == Session(NewSide(m), NewSide(l));
    NewIsInv(m, l);
    ShortRunKeeps(r, k);
  }
}

/**
 The kernel serving one channel from its making on: whatever it is given to do, what it
 does is a run in the sense of module ChannelRuns, so all that is proved of those runs
 is true of the objects it works on.
 */
module KernelRuns {
  import opened SeqNum
  import opened Transport
  import opened ChannelRuns
  import opened Kernel

  /** A case of the kernel's select that concerns the channel */
  datatype Input<T> =
    | Read(packet: Packet<T>, arrivals: nat -> int)
    | FromUser(data: T, arrival: int)
    | Tick(tick: Tick)
    | UserCloses

  ghost predicate Matches<T>(input: Input<T>, a: Action<T>) {
    match input
    case Read(packet, arrivals) => a.Arrive? && a.packet == packet && a.arrivals == arrivals
    case FromUser(data, arrival) => a == Write(data, arrival)
    case Tick(tick) => a == Timer(tick)
    case UserCloses => a == Close
  }

  /** There are as many unread events that a packet is thrown away. */
  predicate Crowded(unread: int) {
    unread >= CH_EVENT_SIZE - 16
  }

  /** The actions are the inputs one after the other, but for the packets that came when
      so many events were unread; backlog[i] were when inputs[i] had been looked at. */
  ghost predicate Serves<T>(inputs: seq<Input<T>>, backlog: seq<nat>, actions: seq<Action<T>>)
    requires |backlog| == |inputs|
  {
    if inputs == [] then actions == []
    else
      var n, k := |inputs| - 1, |actions| - 1;
      if inputs[n].Read? && Crowded(backlog[n]) then Serves(inputs[..n], backlog[..n], actions)
      else k >= 0 && Matches(inputs[n], actions[k]) && Serves(inputs[..n], backlog[..n], actions[..k])
  }

  lemma ServesOne<T>(inputs: seq<Input<T>>, n: nat, backlog: seq<nat>, unread: nat, actions: seq<Action<T>>,
                     a: Action<T>)
    requires n == |backlog| < |inputs| && Serves(inputs[..n], backlog, actions)
    ensures inputs[n].Read? && Crowded(unread) ==> Serves(inputs[..n + 1], backlog + [unread], actions)
    ensures !(inputs[n].Read? && Crowded(unread)) && Matches(inputs[n], a) ==>
              Serves(inputs[..n + 1], backlog + [unread], actions + [a])
  {
    hide Matches, Crowded;
    assert inputs[..n + 1][..n] == inputs[..n] && (actions + [a])[..|actions|] == actions;
    assert (backlog + [unread])[..n] == backlog;
  }

  lemma ReachedOne<T>(c: Chan<T>, l: Log<T>, actions: seq<Action<T>>, a: Action<T>)
    requires Reached(c, l, false, actions) && !c.stopped
    ensures Reached(Apply(c, a).chan, Record(l, c, a), false, actions + [a])
  {
    hide Apply, Record, Play;
    PlayOne(NewChan<T>(DEFAULT_QUEUE_SIZE, false), NewLog(), actions, a);
  }

  lemma ReachedNone<T>()
    ensures Reached(NewChan<T>(DEFAULT_QUEUE_SIZE, false), NewLog(), false, [])
  {
  }

  /** One case of the select, and the action it amounts to. */
  method ServeOne<T>(tcd: ChannelData<T>, input: Input<T>)
    returns (taken: bool, ghost unread: nat, ghost a: Action<T>)
    requires tcd.Valid()
    modifies tcd, tcd.trudp, tcd.sendQueue, tcd.sendQueue.q
    ensures tcd.Valid() && tcd.OldOrFresh(old(tcd.sendQueue.q)) && tcd.trudp.Unread()
    ensures unread <= |old(tcd.trudp.chanEvent)|
    ensures taken <==> !(input.Read? && Crowded(unread))
    ensures taken ==> Matches(input, a) && tcd.State() == Then(old(tcd.State()), Apply(old(tcd.Model()), a))
    ensures !taken ==> tcd.State() == old(tcd.State())
  {
    hide Transport.Process, Transport.WriteTo, OnTick, Transport.Destroy;
    taken, unread := true, 0;
    match input
    case Read(packet, arrivals) =>
      ghost var allow := tcd.trudp.allowEvents > 0;
      ghost var budget;
      taken, budget := tcd.OnRead(packet, arrivals);
      a := Arrive(packet, budget, arrivals, allow);
      unread := if taken then 0 else |tcd.trudp.chanEvent|;
    case FromUser(data, arrival) =>
      tcd.WriteTo(data, arrival);
      a := Write(data, arrival);
    case Tick(tick) =>
      tcd.OnTimer(tick);
      a := Timer(tick);
    case UserCloses =>
      tcd.Destroy();
      a := Close;
  }

  /** The kernel serves a new channel until it is destroyed or there is nothing to do. What
      it has emitted is what the run emits; and packets can only have been thrown away if
      the unread events and those it sent come to that many. */
  method Serve<T>(trudp: Trudp<T>, inputs: seq<Input<T>>)
    returns (tcd: ChannelData<T>, n: nat, ghost backlog: seq<nat>, ghost actions: seq<Action<T>>, ghost l: Log<T>)
    modifies trudp
    ensures fresh(tcd) && tcd.Valid() && tcd.trudp == trudp
    ensures n <= |inputs| && (n < |inputs| ==> tcd.stoppedF)
    ensures |backlog| == n && Serves(inputs[..n], backlog, actions)
    ensures forall i | 0 <= i < n :: backlog[i] <= |old(trudp.chanEvent)| + |trudp.sent| - |old(trudp.sent)|
    ensures !Crowded(|old(trudp.chanEvent)| + |trudp.sent| - |old(trudp.sent)|) ==> |actions| == n
    ensures Reached(tcd.Model(), l, false, actions)
    ensures var out := Total(NewChan<T>(DEFAULT_QUEUE_SIZE, false), actions);
            && trudp.sent == old(trudp.sent) + out.events && trudp.chanWriter == old(trudp.chanWriter) + out.wire
            && trudp.answers == old(trudp.answers) + out.answers
  {
    hide Reached, Serves, Apply, Record, Matches, Total, ChannelData.Valid;
    ghost var c0 := NewChan<T>(DEFAULT_QUEUE_SIZE, false);
    ghost var start := Out(c0, trudp.sent, trudp.chanWriter, trudp.answers);
    tcd := new ChannelData(trudp, DEFAULT_QUEUE_SIZE);
    n, backlog, actions, l := 0, [], [], NewLog();
    ReachedNone<T>();
    ServesNone(inputs);
    TotalNone(start);
    while n < |inputs| && !tcd.stoppedF
      invariant n <= |inputs| && |backlog| == n && Serves(inputs[..n], backlog, actions)
      invariant fresh(tcd) && fresh(tcd.sendQueue) && tcd.trudp == trudp && tcd.Valid()
      invariant forall e | e in tcd.sendQueue.q :: fresh(e)
      invariant trudp.Unread() && |trudp.sent| >= |old(trudp.sent)|
      invariant forall i | 0 <= i < n :: backlog[i] <= |old(trudp.chanEvent)| + |trudp.sent| - |old(trudp.sent)|
      invariant Reached(tcd.Model(), l, false, actions)
      invariant tcd.State() == Then(start, Total(c0, actions))
    {
      forall i | 0 <= i < |tcd.sendQueue.q|
        ensures fresh(tcd.sendQueue.q[i])
      {
        assert tcd.sendQueue.q[i] in tcd.sendQueue.q;
      }
      ghost var c := tcd.Model();
      ghost var a, unread;
      var taken;
      taken, unread, a := ServeOne(tcd, inputs[n]);
      ServesOne(inputs, n, backlog, unread, actions, a);
      backlog := backlog + [unread];
      if taken {
        ReachedOne(c, l, actions, a);
        TotalOne(c0, actions, a);
        ThenAssociates(start, Total(c0, actions), Apply(c, a));
        actions, l := actions + [a], Record(l, c, a);
      }
      n := n + 1;
    }
    NoneLeftOut(inputs[..n], backlog, actions);
  }

  lemma TotalNone<T>(start: Out<T>)
    ensures Then(start, Total(start.chan, [])) == start
  {
  }

  lemma ServesNone<T>(inputs: seq<Input<T>>)
    ensures Serves(inputs[..0], [], [])
  {
  }

  /** With never that many events unread, every input is served. */
  lemma {:induction false} NoneLeftOut<T>(inputs: seq<Input<T>>, backlog: seq<nat>, actions: seq<Action<T>>)
    requires |backlog| == |inputs| && Serves(inputs, backlog, actions)
    ensures (forall i | 0 <= i < |backlog| :: !Crowded(backlog[i])) ==> |actions| == |inputs|
  {
    if inputs != [] {
      hide Matches, Crowded;
      var n, k := |inputs| - 1, |actions| - 1;
      if inputs[n].Read? && Crowded(backlog[n]) {
      } else {
        NoneLeftOut(inputs[..n], backlog[..n], actions[..k]);
      }
    }
  }
}

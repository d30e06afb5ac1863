/**
 The send queue as the kernel keeps it: a list of entries in sending order, and an
 index from packet id to the same entry objects.
 */
module SendQueues {
  import opened SeqNum
  import opened Transport

  class SendQueueData<T> {
    const packet: Packet<T>
    var arrivalTime: int
    var resendAttempt: nat

    constructor (packet: Packet<T>, arrivalTime: int)
      ensures this.packet == packet && this.arrivalTime == arrivalTime && resendAttempt == 0
    {
      this.packet, this.arrivalTime, this.resendAttempt := packet, arrivalTime, 0;
    }

    function Value(): Entry<T>
      reads this
    {
      Entry(packet, arrivalTime, resendAttempt)
    }
  }

  class SendQueue<T> {
    ghost var Contents: seq<Entry<T>>   // the entries, as values
    var q: seq<SendQueueData<T>>
    var idx: map<ID, SendQueueData<T>>

    /** List and index hold the same objects, one for each id; Contents is their value. */
    ghost predicate Valid()
      reads this, q
    {
      && |Contents| == |q|
      && (forall i | 0 <= i < |q| :: Contents[i] == q[i].Value())
      && Paired()
    }

    ghost predicate Paired()
      reads this
    {
      && (forall e | e in q :: e.packet.id in idx && idx[e.packet.id] == e)
      && (forall id | id in idx :: idx[id] in q && idx[id].packet.id == id)
      && (forall i, j | 0 <= i < j < |q| :: q[i] != q[j])
    }

    constructor ()
      ensures Valid() && q == [] && Contents == []
    {
      Contents, q, idx := [], [], map[];
    }

    /** The index finds the entry that a search of the list would find. */
    lemma IndexFinds(id: ID)
      requires Valid()
      ensures id in idx <==> Position(Contents, id) < |q|
      ensures id in idx ==> q[Position(Contents, id)] == idx[id]
    {
      var i := Position(Contents, id);
      if i < |q| { assert q[i] in q; }
      if id in idx {
        var j :| 0 <= j < |q| && q[j] == idx[id];
        assert Contents[j].packet.id == id;
      }
    }

    lemma IdsAreDistinct()
      requires Valid()
      ensures Distinct(Contents)
    {
      forall i, j | 0 <= i < j < |q|
        ensures Contents[i].packet.id != Contents[j].packet.id
      {
        assert q[i] in q && q[j] in q;
      }
    }

    /** sendQueue.Find */
    method Find(id: ID) returns (sqd: SendQueueData?<T>)
      requires Valid()
      ensures var i := Position(Contents, id);
              if i < |q| then sqd == q[i] else sqd == null && id !in idx
    {
      IndexFinds(id);
      sqd := if id in idx then idx[id] else null;
    }

    /** sendQueue.Add: a new packet goes to the back; one that is there already keeps
        its place and counts another attempt. */
    method Add(packet: Packet<T>, arrivalTime: int)
      requires Valid()
      modifies this, q
      ensures Valid()
      ensures Contents == SqAdd(old(Contents), packet, arrivalTime)
      ensures if packet.id in old(idx) then q == old(q) else forall e | e in q :: e in old(q) || fresh(e)
    {
      hide Position;
      var sqd := Find(packet.id);
      if sqd == null {
        PushBack(packet, arrivalTime);
      } else {
        Again(sqd, arrivalTime, Position(Contents, packet.id));
      }
    }

    method PushBack(packet: Packet<T>, arrivalTime: int)
      requires Valid() && packet.id !in idx
      modifies this
      ensures Valid()
      ensures Contents == old(Contents) + [Entry(packet, arrivalTime, 0)]
      ensures |q| == |old(q)| + 1 && q[..|old(q)|] == old(q) && fresh(q[|old(q)|])
    {
      var e := new SendQueueData(packet, arrivalTime);
      q := q + [e];
      idx := idx[packet.id := e];
      Contents := Contents + [e.Value()];
    }

    method Again(sqd: SendQueueData<T>, arrivalTime: int, ghost i: nat)
      requires Valid() && i < |q| && q[i] == sqd
      modifies sqd, this`Contents
      ensures Valid()
      ensures Contents == old(Contents)[i := Entry(sqd.packet, arrivalTime, old(Contents[i].resendAttempt) + 1)]
    {
      sqd.resendAttempt := sqd.resendAttempt + 1;
      sqd.arrivalTime := arrivalTime;
      Contents := Contents[i := sqd.Value()];
    }

    /** sendQueue.Remove */
    method Remove(id: ID)
      requires Valid()
      modifies this
      ensures Valid()
      ensures Contents == SqRemove(old(Contents), id)
      ensures forall e | e in q :: e in old(q)
    {
      var sqd := Find(id);
      if sqd != null {
        var i :| 0 <= i < |q| && q[i] == sqd;
        assert i == Position(Contents, id);
        Cut(i);
      }
    }

    static lemma CutSplits(q: seq<SendQueueData<T>>, i: nat)
      requires i < |q| && forall j, k | 0 <= j < k < |q| :: q[j] != q[k]
      ensures var q' := q[..i] + q[i + 1..];
              && (forall e :: e in q' <==> e in q && e != q[i])
              && (forall j, k | 0 <= j < k < |q'| :: q'[j] != q'[k])
    {
      var q' := q[..i] + q[i + 1..];
      assert forall j | 0 <= j < |q'| :: q'[j] == q[if j < i then j else j + 1];
      forall e | e in q && e != q[i]
        ensures e in q'
      {
        var j :| 0 <= j < |q| && q[j] == e;
        assert q'[if j < i then j else j - 1] == e;
      }
    }

    method Cut(i: nat)
      requires Valid() && i < |q|
      modifies this
      ensures Valid()
      ensures Contents == old(Contents)[..i] + old(Contents)[i + 1..]
      ensures forall e | e in q :: e in old(q)
    {
      var e := q[i];
      CutSplits(q, i);
      q := q[..i] + q[i + 1..];
      idx := idx - {e.packet.id};
      Contents := Contents[..i] + Contents[i + 1..];
    }

    /** sendQueueReset */
    method Reset()
      modifies this
      ensures Valid() && q == [] && Contents == []
    {
      Contents, q, idx := [], [], map[];
    }
  }
}

/**
 The named queue of the key-value service: SetQueue adds a record, GetQueue selects an
 unlocked one, locks it by compare-and-set and deletes it. Every step is one query; a
 select may be answered by an outdated replica, so it may see any record there ever was.
 */
module TeocdbQueue {

  import opened Bytes

  type Client = nat
  type Data = seq<byte>

  datatype Status = Free | Locked | Deleted
  datatype Record = Record(data: Data, status: Status)

  datatype Call =
    | Idle
    | Selected(key: nat, data: Data)
    | Holding(key: nat, data: Data)    // its compare-and-set has locked the record

  /** A value returned without an error, and the record it came from */
  datatype Gift = Gift(client: Client, key: nat, data: Data)

  datatype Queue = Queue(
    records: seq<Record>,          // all there ever were, by their keys
    calls: map<Client, Call>,
    gifts: seq<Gift>,
    lost: set<nat>)                // locked or deleted by a call that ended in an error
  {
    function CallOf(c: Client): Call {
      if c in calls then calls[c] else Idle
    }
  }

  datatype Step =
    | Put(data: Data)                            // SetQueue
    | Select(client: Client, key: nat)
    | Lock(client: Client)                       // the compare-and-set on lock = ''
    | LockFails(client: Client, applied: bool)   // an error, with or without effect
    | Delete(client: Client)
    | DeleteFails(client: Client, applied: bool)
    | GiveUp(client: Client)                     // before it has locked anything

  function Empty(): Queue { Queue([], map[], [], {}) }

  function Set(q: Queue, c: Client, call: Call): Queue { q.(calls := q.calls[c := call]) }

  function Mark(q: Queue, k: nat, status: Status): Queue
    requires k < |q.records|
  {
    q.(records := q.records[k := q.records[k].(status := status)])
  }

  /** A step of a client that is not there to take it changes nothing. */
  function Next(q: Queue, step: Step): Queue {
    match step
    case Put(data) =>
      q.(records := q.records + [Record(data, Free)])
    case Select(c, k) =>
      if !q.CallOf(c).Idle? || k >= |q.records| then q
      else Set(q, c, Selected(k, q.records[k].data))
    case Lock(c) =>
      var call := q.CallOf(c);
      if !call.Selected? then q
      else if Unlocked(q, call.key) then Set(Mark(q, call.key, Locked), c, Holding(call.key, call.data))
      else Set(q, c, Idle)
    case LockFails(c, applied) =>
      var call := q.CallOf(c);
      if !call.Selected? then q
      else if applied && Unlocked(q, call.key) then
        var q' := Mark(q, call.key, Locked);
        Set(q', c, Idle).(lost := q'.lost + {call.key})
      else Set(q, c, Idle)
    case Delete(c) =>
      var call := q.CallOf(c);
      if !call.Holding? || call.key >= |q.records| then q
      else
        var q' := Mark(q, call.key, Deleted);
        Set(q', c, Idle).(gifts := q'.gifts + [Gift(c, call.key, call.data)])
    case DeleteFails(c, applied) =>
      var call := q.CallOf(c);
      if !call.Holding? || call.key >= |q.records| then q
      else
        var q' := Mark(q, call.key, if applied then Deleted else Locked);
        Set(q', c, Idle).(lost := q'.lost + {call.key})
    case GiveUp(c) =>
      if q.CallOf(c).Holding? then q else Set(q, c, Idle)
  }

  predicate Unlocked(q: Queue, k: nat) {
    k < |q.records| && q.records[k].status == Free
  }

  function Run(q: Queue, steps: seq<Step>): Queue {
    if steps == [] then q else Next(Run(q, steps[..|steps| - 1]), steps[|steps| - 1])
  }

  /** What has been put into the queue, in that order */
  function Puts(steps: seq<Step>): seq<Data> {
    if steps == [] then []
    else
      var step := steps[|steps| - 1];
      Puts(steps[..|steps| - 1]) + (if step.Put? then [step.data] else [])
  }

  // --------------------------------------------------------- where records are

  ghost predicate HeldBy(q: Queue, k: nat, c: Client) {
    c in q.calls && q.calls[c].Holding? && q.calls[c].key == k
  }

  ghost predicate GivenAs(q: Queue, k: nat, g: nat) {
    g < |q.gifts| && q.gifts[g].key == k
  }

  /** A record is unlocked, or held by one call in progress, or returned once, or lost. */
  ghost predicate Placed(q: Queue, k: nat) {
    && (Unlocked(q, k) || (exists c: Client :: HeldBy(q, k, c)) || (exists g: nat :: GivenAs(q, k, g)) || k in q.lost)
    && (Unlocked(q, k) ==>
          !(exists c: Client :: HeldBy(q, k, c)) && !(exists g: nat :: GivenAs(q, k, g)) && k !in q.lost)
    && (forall c: Client | HeldBy(q, k, c) :: !(exists g: nat :: GivenAs(q, k, g)) && k !in q.lost)
    && (forall c: Client, d: Client | HeldBy(q, k, c) && HeldBy(q, k, d) :: c == d)
    && (forall g: nat | GivenAs(q, k, g) :: k !in q.lost)
    && (forall g: nat, h: nat | GivenAs(q, k, g) && GivenAs(q, k, h) :: g == h)
  }

  ghost predicate CallIsTrue(q: Queue, call: Call) {
    !call.Idle? ==> call.key < |q.records| && q.records[call.key].data == call.data
  }

  ghost predicate GiftIsTrue(q: Queue, gift: Gift) {
    gift.key < |q.records| && q.records[gift.key].data == gift.data
  }

  ghost predicate Kept(q: Queue) {
    && (forall k: nat | k < |q.records| :: Placed(q, k))
    && (forall c | c in q.calls :: CallIsTrue(q, q.calls[c]))
    && (forall g | 0 <= g < |q.gifts| :: GiftIsTrue(q, q.gifts[g]))
    && (forall k | k in q.lost :: k < |q.records|)
  }

  // ------------------------------------------------------------ one step

  /** What a step does not touch stays where it is. */
  ghost predicate SamePlace(q: Queue, q': Queue, k: nat) {
    && (Unlocked(q', k) <==> Unlocked(q, k))
    && (forall c: Client :: HeldBy(q', k, c) <==> HeldBy(q, k, c))
    && (forall g: nat :: GivenAs(q', k, g) <==> GivenAs(q, k, g))
    && (k in q'.lost <==> k in q.lost)
  }

  lemma PlacedStays(q: Queue, q': Queue, k: nat)
    requires Placed(q, k) && SamePlace(q, q', k)
    ensures Placed(q', k)
  {
    hide HeldBy, GivenAs, Unlocked;
    if c: Client :| HeldBy(q, k, c) { assert HeldBy(q', k, c); }
    if g: nat :| GivenAs(q, k, g) { assert GivenAs(q', k, g); }
  }

  lemma NewRecordIsFree(q: Queue, data: Data)
    requires Kept(q)
    ensures Placed(Next(q, Put(data)), |q.records|)
  {
    var q', k := Next(q, Put(data)), |q.records|;
    assert Unlocked(q', k);
    forall c: Client ensures !HeldBy(q', k, c) { assert c in q.calls ==> CallIsTrue(q, q.calls[c]); }
    forall g: nat ensures !GivenAs(q', k, g) { assert g < |q.gifts| ==> GiftIsTrue(q, q.gifts[g]); }
  }

  /** The compare-and-set takes an unlocked record, which nobody else has. */
  lemma LockedIsHeld(q: Queue, c: Client)
    requires Kept(q) && q.CallOf(c).Selected? && Unlocked(q, q.CallOf(c).key)
    ensures Placed(Next(q, Lock(c)), q.CallOf(c).key)
  {
    var q', k := Next(q, Lock(c)), q.CallOf(c).key;
    assert Placed(q, k);
    assert HeldBy(q', k, c);
    forall d: Client | d != c ensures !HeldBy(q', k, d) { assert !HeldBy(q, k, d); }
    forall g: nat ensures !GivenAs(q', k, g) { assert !GivenAs(q, k, g); }
  }

  lemma DeletedIsGiven(q: Queue, c: Client)
    requires Kept(q) && q.CallOf(c).Holding?
    ensures Placed(Next(q, Delete(c)), q.CallOf(c).key)
  {
    assert CallIsTrue(q, q.calls[c]);
    var q', k := Next(q, Delete(c)), q.CallOf(c).key;
    assert Placed(q, k) && HeldBy(q, k, c);
    assert GivenAs(q', k, |q.gifts|);
    forall d: Client ensures !HeldBy(q', k, d) { assert HeldBy(q, k, d) ==> d == c; }
    forall g: nat | g < |q.gifts| ensures !GivenAs(q', k, g) { assert !GivenAs(q, k, g); }
  }

  /** An error leaves a record that was held, or unlocked, to nobody. */
  lemma FailureLoses(q: Queue, q': Queue, c: Client, k: nat)
    requires Kept(q) && Placed(q, k) && (Unlocked(q, k) || HeldBy(q, k, c))
    requires !Unlocked(q', k) && k in q'.lost && q'.gifts == q.gifts && q'.calls == q.calls[c := Idle]
    ensures Placed(q', k)
  {
    forall d: Client ensures !HeldBy(q', k, d) { assert HeldBy(q, k, d) ==> d == c; }
    forall g: nat ensures !GivenAs(q', k, g) { assert !GivenAs(q, k, g); }
  }

  /** The record a step is about; none for the rest. */
  function About(q: Queue, step: Step): nat {
    match step
    case Put(_) => |q.records|
    case Select(c, k) => k
    case Lock(c) => var call := q.CallOf(c); if call.Idle? then 0 else call.key
    case LockFails(c, _) => var call := q.CallOf(c); if call.Idle? then 0 else call.key
    case Delete(c) => var call := q.CallOf(c); if call.Idle? then 0 else call.key
    case DeleteFails(c, _) => var call := q.CallOf(c); if call.Idle? then 0 else call.key
    case GiveUp(c) => 0
  }

  lemma ElsewhereIsSame(q: Queue, step: Step, k: nat)
    requires Kept(q) && k != About(q, step)
    ensures SamePlace(q, Next(q, step), k)
  {
    var q' := Next(q, step);
    if step.Put? {
    } else {
      var c := step.client;
      if c in q.calls { assert CallIsTrue(q, q.calls[c]); }
      forall d: Client
        ensures HeldBy(q', k, d) <==> HeldBy(q, k, d)
      {
      }
    }
  }

  lemma HereIsPlaced(q: Queue, step: Step)
    requires Kept(q) && About(q, step) < |Next(q, step).records|
    ensures Placed(Next(q, step), About(q, step))
  {
    var q', k := Next(q, step), About(q, step);
    if step.Put? {
      NewRecordIsFree(q, step.data);
    } else {
      var c, call := step.client, q.CallOf(step.client);
      assert Placed(q, k);
      if step.Lock? && call.Selected? && Unlocked(q, k) {
        LockedIsHeld(q, c);
      } else if step.Delete? && call.Holding? {
        DeletedIsGiven(q, c);
      } else if step.LockFails? && call.Selected? && step.applied && Unlocked(q, k) {
        FailureLoses(q, q', c, k);
      } else if step.DeleteFails? && call.Holding? {
        FailureLoses(q, q', c, k);
      } else {
        NothingMoves(q, step, k);
        PlacedStays(q, q', k);
      }
    }
  }

  lemma NothingMoves(q: Queue, step: Step, k: nat)
    requires !step.Put?
    requires var call := q.CallOf(step.client);
             && !(step.Lock? && call.Selected? && Unlocked(q, call.key))
             && !(step.LockFails? && call.Selected? && step.applied && Unlocked(q, call.key))
             && !(step.Delete? && call.Holding?) && !(step.DeleteFails? && call.Holding?)
    ensures SamePlace(q, Next(q, step), k)
  {
  }

  lemma StepKeeps(q: Queue, step: Step)
    requires Kept(q)
    ensures Kept(Next(q, step))
  {
    var q' := Next(q, step);
    forall k: nat | k < |q'.records|
      ensures Placed(q', k)
    {
      hide Placed, SamePlace, Next;
      if k == About(q, step) {
        HereIsPlaced(q, step);
      } else {
        RecordsStay(q, step);
        ElsewhereIsSame(q, step, k);
        PlacedStays(q, q', k);
      }
    }
    ValuesStay(q, step);
  }

  lemma RecordsStay(q: Queue, step: Step)
    ensures |Next(q, step).records| == |q.records| + (if step.Put? then 1 else 0)
    ensures forall k | 0 <= k < |q.records| :: Next(q, step).records[k].data == q.records[k].data
    ensures step.Put? ==> Next(q, step).records[|q.records|].data == step.data
  {
  }

  lemma ValuesStay(q: Queue, step: Step)
    requires Kept(q)
    ensures var q' := Next(q, step);
            && (forall c | c in q'.calls :: CallIsTrue(q', q'.calls[c]))
            && (forall g | 0 <= g < |q'.gifts| :: GiftIsTrue(q', q'.gifts[g]))
            && (forall k | k in q'.lost :: k < |q'.records|)
  {
    hide Placed;
    var q' := Next(q, step);
    forall c | c in q'.calls
      ensures CallIsTrue(q', q'.calls[c])
    {
      if c in q.calls { assert CallIsTrue(q, q.calls[c]); }
    }
    forall g | 0 <= g < |q'.gifts|
      ensures GiftIsTrue(q', q'.gifts[g])
    {
      if g < |q.gifts| {
        assert GiftIsTrue(q, q.gifts[g]);
      } else {
        assert CallIsTrue(q, q.calls[step.client]);
      }
    }
    if !step.Put? && step.client in q.calls { assert CallIsTrue(q, q.calls[step.client]); }
  }

  // ------------------------------------------------------------- all runs

  lemma {:induction false} RunKeeps(steps: seq<Step>)
    ensures Kept(Run(Empty(), steps))
    ensures |Run(Empty(), steps).records| == |Puts(steps)|
    ensures forall k | 0 <= k < |Puts(steps)| :: Run(Empty(), steps).records[k].data == Puts(steps)[k]
  {
    if steps != [] {
      hide Next, Kept;
      var before, step := steps[..|steps| - 1], steps[|steps| - 1];
      RunKeeps(before);
      StepKeeps(Run(Empty(), before), step);
      RecordsStay(Run(Empty(), before), step);
    }
  }

  /** Under every interleaving, with outdated selects and failing calls, each record put
      into the queue is unlocked, or held by one call in progress, or returned to one
      caller once, or left by a failed call; and what is returned is what was put. */
  lemma EachRecordGoesOnce(steps: seq<Step>)
    ensures var q := Run(Empty(), steps);
            && |q.records| == |Puts(steps)|
            && (forall k | 0 <= k < |Puts(steps)| :: Placed(q, k))
            && (forall g | 0 <= g < |q.gifts| ::
                  q.gifts[g].key < |Puts(steps)| && q.gifts[g].data == Puts(steps)[q.gifts[g].key])
            && (forall g, h | 0 <= g < h < |q.gifts| :: q.gifts[g].key != q.gifts[h].key)
  {
    RunKeeps(steps);
    var q := Run(Empty(), steps);
    forall g | 0 <= g < |q.gifts|
      ensures q.gifts[g].key < |Puts(steps)| && q.gifts[g].data == Puts(steps)[q.gifts[g].key]
    {
      assert GiftIsTrue(q, q.gifts[g]);
    }
    forall g, h | 0 <= g < h < |q.gifts|
      ensures q.gifts[g].key != q.gifts[h].key
    {
      assert GiftIsTrue(q, q.gifts[g]);
      assert Placed(q, q.gifts[g].key) && GivenAs(q, q.gifts[g].key, g) && (GivenAs(q, q.gifts[g].key, h) ==> g == h);
    }
  }

  // ---------------------------------------------------------------- counts

  ghost function FreeKeys(q: Queue): set<nat> { set k | 0 <= k < |q.records| && Unlocked(q, k) }
  ghost function Holders(q: Queue): set<Client> { set c | c in q.calls && q.calls[c].Holding? }
  ghost function HeldKeys(q: Queue): map<Client, nat> { map c | c in Holders(q) :: q.calls[c].key }
  ghost function GivenKeys(q: Queue): map<nat, nat> { map g | 0 <= g < |q.gifts| :: q.gifts[g].key }

  lemma {:induction false} Injective(m: map<nat, nat>)
    requires forall a, b | a in m && b in m && m[a] == m[b] :: a == b
    ensures |m.Values| == |m|
  {
    if m.Keys == {} {
      assert m == map[] && m.Values == {};
    } else {
      var a :| a in m;
      var rest := m - {a};
      Injective(rest);
      assert m.Keys == rest.Keys + {a};
      assert m.Values == rest.Values + {m[a]} by {
        forall v | v in m.Values ensures v in rest.Values + {m[a]} {
          var b :| b in m && m[b] == v;
          if b != a { assert b in rest && rest[b] == v; }
        }
      }
    }
  }

  ghost function Upto(n: nat): (r: set<nat>)
    ensures |r| == n && forall k: nat :: k in r <==> k < n
  {
    if n == 0 then {} else Upto(n - 1) + {n - 1}
  }

  /** Records put = unlocked + held + returned + left by failed calls. */
  lemma CountsAddUp(steps: seq<Step>)
    ensures var q := Run(Empty(), steps);
            |Puts(steps)| == |FreeKeys(q)| + |Holders(q)| + |q.gifts| + |q.lost|
  {
    hide Next, Run, Puts, HeldBy, GivenAs;
    RunKeeps(steps);
    KeptAddsUp(Run(Empty(), steps));
  }

  lemma KeptAddsUp(q: Queue)
    requires Kept(q)
    ensures |q.records| == |FreeKeys(q)| + |Holders(q)| + |q.gifts| + |q.lost|
  {
    var free, held, given := FreeKeys(q), HeldKeys(q).Values, GivenKeys(q).Values;
    HeldOnce(q);
    GivenOnce(q);
    PlacesCover(q);
    PlacesAreApart(q);
    assert |free + held + given + q.lost| == |free| + |held| + |given| + |q.lost|;
  }

  lemma HeldOnce(q: Queue)
    requires Kept(q)
    ensures |HeldKeys(q).Values| == |Holders(q)|
  {
    forall c, d | c in HeldKeys(q) && d in HeldKeys(q) && HeldKeys(q)[c] == HeldKeys(q)[d]
      ensures c == d
    {
      assert CallIsTrue(q, q.calls[c]);
      var k := q.calls[c].key;
      assert Placed(q, k) && HeldBy(q, k, c) && HeldBy(q, k, d);
    }
    Injective(HeldKeys(q));
    assert HeldKeys(q).Keys == Holders(q);
  }

  lemma GivenOnce(q: Queue)
    requires Kept(q)
    ensures |GivenKeys(q).Values| == |q.gifts|
  {
    forall g, h | g in GivenKeys(q) && h in GivenKeys(q) && GivenKeys(q)[g] == GivenKeys(q)[h]
      ensures g == h
    {
      assert GiftIsTrue(q, q.gifts[g]);
      var k := q.gifts[g].key;
      assert Placed(q, k) && GivenAs(q, k, g) && GivenAs(q, k, h);
    }
    Injective(GivenKeys(q));
    assert GivenKeys(q).Keys == Upto(|q.gifts|);
  }

  lemma InPlaces(q: Queue, k: nat)
    ensures k in HeldKeys(q).Values <==> exists c: Client :: HeldBy(q, k, c)
    ensures k in GivenKeys(q).Values <==> exists g: nat :: GivenAs(q, k, g)
  {
    if c: Client :| HeldBy(q, k, c) { assert c in HeldKeys(q) && HeldKeys(q)[c] == k; }
    if g: nat :| GivenAs(q, k, g) { assert g in GivenKeys(q) && GivenKeys(q)[g] == k; }
    if k in HeldKeys(q).Values {
      var c :| c in HeldKeys(q) && HeldKeys(q)[c] == k;
      assert HeldBy(q, k, c);
    }
    if k in GivenKeys(q).Values {
      var g :| g in GivenKeys(q) && GivenKeys(q)[g] == k;
      assert GivenAs(q, k, g);
    }
  }

  lemma PlacedIsSomewhere(q: Queue, k: nat)
    requires k < |q.records| && Placed(q, k)
    ensures k in FreeKeys(q) + HeldKeys(q).Values + GivenKeys(q).Values + q.lost
  {
    hide HeldKeys, GivenKeys;
    InPlaces(q, k);
  }

  lemma PlacesCover(q: Queue)
    requires Kept(q)
    ensures FreeKeys(q) + HeldKeys(q).Values + GivenKeys(q).Values + q.lost == Upto(|q.records|)
  {
    hide Placed, HeldBy, GivenAs;
    forall c | c in q.calls && q.calls[c].Holding?
      ensures q.calls[c].key < |q.records|
    {
      assert CallIsTrue(q, q.calls[c]);
    }
    forall g | 0 <= g < |q.gifts|
      ensures q.gifts[g].key < |q.records|
    {
      assert GiftIsTrue(q, q.gifts[g]);
    }
    forall k: nat
      ensures k in FreeKeys(q) + HeldKeys(q).Values + GivenKeys(q).Values + q.lost <==> k < |q.records|
    {
      if k < |q.records| { PlacedIsSomewhere(q, k); }
    }
  }

  lemma PlacesAreApart(q: Queue)
    requires Kept(q)
    ensures FreeKeys(q) !! HeldKeys(q).Values !! GivenKeys(q).Values !! q.lost
  {
    PlacesCover(q);
    forall k: nat | k < |q.records|
      ensures k in FreeKeys(q) ==> k !in HeldKeys(q).Values && k !in GivenKeys(q).Values && k !in q.lost
      ensures k in HeldKeys(q).Values ==> k !in GivenKeys(q).Values && k !in q.lost
      ensures k in GivenKeys(q).Values ==> k !in q.lost
    {
      InPlaces(q, k);
      assert Placed(q, k);
    }
  }

  // -------------------------------------------------------------- failures

  /** An error is reported for a lock that took effect, or for a deletion. */
  predicate Strands(q: Queue, step: Step) {
    match step
    case LockFails(c, applied) => applied && q.CallOf(c).Selected? && Unlocked(q, q.CallOf(c).key)
    case DeleteFails(c, _) => q.CallOf(c).Holding?
    case _ => false
  }

  lemma StrandsLoses(q: Queue, step: Step)
    requires Kept(q)
    ensures q.lost <= Next(q, step).lost
    ensures Next(q, step).lost == q.lost <==> !Strands(q, step)
  {
    if !step.Put? && step.client in q.calls {
      var c, call := step.client, q.calls[step.client];
      assert CallIsTrue(q, call);
      if !call.Idle? { assert Placed(q, call.key); }
      if call.Holding? { assert HeldBy(q, call.key, c); }
    }
  }

  ghost predicate NeverStrands(steps: seq<Step>) {
    forall i | 0 <= i < |steps| :: !Strands(Run(Empty(), steps[..i]), steps[i])
  }

  lemma NeverStrandsStep(steps: seq<Step>)
    requires steps != []
    ensures var n := |steps| - 1;
            NeverStrands(steps) <==> NeverStrands(steps[..n]) && !Strands(Run(Empty(), steps[..n]), steps[n])
  {
    hide Run, Strands;
    var n := |steps| - 1;
    assert forall i | 0 <= i < n :: steps[..n][i] == steps[i] && steps[..n][..i] == steps[..i];
  }

  /** Nothing is lost exactly if no lock that took effect and no deletion is reported as
      an error. */
  lemma {:induction false} NothingIsLostIff(steps: seq<Step>)
    ensures Run(Empty(), steps).lost == {} <==> NeverStrands(steps)
  {
    if steps != [] {
      hide Next, Strands, Kept, NeverStrands;
      var n := |steps| - 1;
      NothingIsLostIff(steps[..n]);
      RunKeeps(steps[..n]);
      StrandsLoses(Run(Empty(), steps[..n]), steps[n]);
      NeverStrandsStep(steps);
    }
  }

  // ---------------------------------------------------------------- the code

  /** What a query comes back with: an error may come although the query took effect. */
  datatype Reply = Answered | Failed(applied: bool)

  /** One round of a call: what the others do before each of its queries, the key that the
      select returns, and how the other two are answered */
  datatype Round = Round(
    beforeSelect: seq<Step>, key: nat, beforeLock: seq<Step>, locking: Reply, beforeDelete: seq<Step>, deleting: Reply)

  ghost predicate Others(steps: seq<Step>, c: Client) {
    forall i | 0 <= i < |steps| :: steps[i].Put? || steps[i].client != c
  }

  ghost predicate OthersIn(rounds: seq<Round>, c: Client) {
    forall i | 0 <= i < |rounds| ::
      Others(rounds[i].beforeSelect, c) && Others(rounds[i].beforeLock, c) && Others(rounds[i].beforeDelete, c)
  }

  function LockStep(c: Client, reply: Reply): Step {
    if reply.Failed? then LockFails(c, reply.applied) else Lock(c)
  }

  function DeleteStep(c: Client, reply: Reply): Step {
    if reply.Failed? then DeleteFails(c, reply.applied) else Delete(c)
  }

  function Tried(q: Queue, c: Client, r: Round): Queue {
    Next(Run(Next(q, Select(c, r.key)), r.beforeLock), LockStep(c, r.locking))
  }

  /** All the queries that are made while c gets a value */
  function Trace(q: Queue, c: Client, rounds: seq<Round>): seq<Step>
    decreases |rounds|
  {
    if rounds == [] then []
    else
      var r, q0 := rounds[0], Run(q, rounds[0].beforeSelect);
      if r.key >= |q0.records| then r.beforeSelect
      else
        var first := r.beforeSelect + [Select(c, r.key)] + r.beforeLock + [LockStep(c, r.locking)];
        var q1 := Tried(q0, c, r);
        if q1.CallOf(c).Holding? then first + r.beforeDelete + [DeleteStep(c, r.deleting)]
        else if r.locking.Failed? then first
        else first + Trace(q1, c, rounds[1..])
  }

  class Teocdb {
    var queue: Queue

    constructor ()
      ensures queue == Empty()
    {
      queue := Empty();
    }

    method SetQueue(data: Data)
      modifies this
      ensures queue == Next(old(queue), Put(data))
      ensures queue.records == old(queue.records) + [Record(data, Free)]
    {
      queue := Next(queue, Put(data));
    }

    /** GetQueue of client c, with the rounds it has finished. What happens is a run of its
        queries and the others'. It comes back with a value exactly if it has been given
        one, which is that of a record it has locked and deleted; with nothing only when
        its select finds nothing, after any number of rounds in which others were faster;
        and with an error only for a query that fails. */
    method GetQueue(c: Client, rounds: seq<Round>) returns (data: Result, used: nat)
      requires Kept(queue) && queue.CallOf(c) == Idle && OthersIn(rounds, c)
      modifies this
      ensures queue == Run(old(queue), Trace(old(queue), c, rounds))
      ensures Kept(queue) && queue.CallOf(c) == Idle
      ensures GivenTo(queue.gifts, c) == GivenTo(old(queue.gifts), c) + (if data.Value? then [data.data] else [])
      ensures data.Value? ==> JustGiven(queue, c, data.data)
      ensures data.Value? ==> used < |rounds| && rounds[used].locking.Answered? && rounds[used].deleting.Answered?
      ensures data.Error? ==> used < |rounds| && (rounds[used].locking.Failed? || rounds[used].deleting.Failed?)
      ensures data.NothingFound? ==> used == |rounds| || (used < |rounds| && rounds[used].key >= |queue.records|)
      decreases |rounds|
    {
      hide Run, Next, JustGiven, Kept, Others, Trace, GivenTo;
      used := 0;
      TraceSteps(queue, c, rounds);
      if |rounds| == 0 {
        return NothingFound, used;
      }
      var r := rounds[0];
      OthersPass(queue, r.beforeSelect, c);
      queue := Run(queue, r.beforeSelect);
      if r.key >= |queue.records| {
        return NothingFound, used;
      }
      Trying(queue, c, r);
      queue := Tried(queue, c, r);
      if r.locking.Failed? {
        return Error, used;
      }
      if !queue.CallOf(c).Holding? {
        data, used := GetQueue(c, rounds[1..]);
        used := used + 1;
        return;
      }
      OthersPass(queue, r.beforeDelete, c);
      queue := Run(queue, r.beforeDelete);
      data := Value(queue.CallOf(c).data);
      DeletionGives(queue, c, r.deleting);
      StepKeeps(queue, DeleteStep(c, r.deleting));
      queue := Next(queue, DeleteStep(c, r.deleting));
      if r.deleting.Failed? {
        return Error, used;
      }
    }
  }

  datatype Result = NothingFound | Error | Value(data: Data)

  /** The values returned to a client, in order */
  function GivenTo(gifts: seq<Gift>, c: Client): seq<Data> {
    if gifts == [] then []
    else
      var g := gifts[|gifts| - 1];
      GivenTo(gifts[..|gifts| - 1], c) + (if g.client == c then [g.data] else [])
  }

  lemma GivenOneMore(gifts: seq<Gift>, g: Gift, c: Client)
    ensures GivenTo(gifts + [g], c) == GivenTo(gifts, c) + (if g.client == c then [g.data] else [])
  {
    assert (gifts + [g])[..|gifts|] == gifts;
  }

  /** Only its own deletion gives a client anything. */
  lemma StepGives(q: Queue, step: Step, c: Client)
    requires !(step.Delete? && step.client == c)
    ensures GivenTo(Next(q, step).gifts, c) == GivenTo(q.gifts, c)
  {
    hide GivenTo;
    if step.Delete? {
      var call := q.CallOf(step.client);
      if call.Holding? { GivenOneMore(q.gifts, Gift(step.client, call.key, call.data), c); }
    }
  }

  /** The last value returned went to c, from a record that is deleted now. */
  ghost predicate JustGiven(q: Queue, c: Client, data: Data) {
    q.gifts != [] &&
    var gift := q.gifts[|q.gifts| - 1];
    && gift.client == c && gift.data == data
    && gift.key < |q.records| && q.records[gift.key] == Record(data, Deleted)
  }

  lemma DeletionGives(q: Queue, c: Client, reply: Reply)
    requires Kept(q) && q.CallOf(c).Holding?
    ensures var q' := Next(q, DeleteStep(c, reply));
            && q'.CallOf(c) == Idle && (reply.Answered? ==> JustGiven(q', c, q.CallOf(c).data))
            && GivenTo(q'.gifts, c)
               == GivenTo(q.gifts, c) + (if reply.Answered? then [q.CallOf(c).data] else [])
  {
    hide GivenTo;
    var call := q.calls[c];
    assert CallIsTrue(q, call);
    GivenOneMore(q.gifts, Gift(c, call.key, call.data), c);
    if reply.Failed? { StepGives(q, DeleteStep(c, reply), c); }
    assert GivenTo(q.gifts, c) + [] == GivenTo(q.gifts, c);
  }

  lemma Trying(q: Queue, c: Client, r: Round)
    requires Kept(q) && q.CallOf(c).Idle? && r.key < |q.records| && Others(r.beforeLock, c)
    ensures var q' := Tried(q, c, r);
            && Kept(q') && (q'.CallOf(c).Holding? || q'.CallOf(c).Idle?)
            && (r.locking.Failed? ==> q'.CallOf(c).Idle?)
            && GivenTo(q'.gifts, c) == GivenTo(q.gifts, c)
  {
    hide Kept, Run, Others, GivenTo;
    var q1 := Next(q, Select(c, r.key));
    StepKeeps(q, Select(c, r.key));
    OthersPass(q1, r.beforeLock, c);
    StepKeeps(Run(q1, r.beforeLock), LockStep(c, r.locking));
    StepGives(q, Select(c, r.key), c);
    StepGives(Run(q1, r.beforeLock), LockStep(c, r.locking), c);
  }

  lemma OthersPass(q: Queue, steps: seq<Step>, c: Client)
    requires Kept(q) && Others(steps, c)
    ensures Kept(Run(q, steps)) && Run(q, steps).CallOf(c) == q.CallOf(c)
    ensures GivenTo(Run(q, steps).gifts, c) == GivenTo(q.gifts, c)
  {
    hide Kept, Run, Others, GivenTo;
    RunKeepsFrom(q, steps);
    OthersLeaveAlone(q, steps, c);
  }

  lemma {:induction false} RunKeepsFrom(q: Queue, steps: seq<Step>)
    requires Kept(q)
    ensures Kept(Run(q, steps))
  {
    if steps != [] {
      RunKeepsFrom(q, steps[..|steps| - 1]);
      StepKeeps(Run(q, steps[..|steps| - 1]), steps[|steps| - 1]);
    }
  }

  lemma StepLeavesCall(q: Queue, step: Step, c: Client)
    requires step.Put? || step.client != c
    ensures Next(q, step).CallOf(c) == q.CallOf(c)
  {
  }

  lemma {:induction false} OthersLeaveAlone(q: Queue, steps: seq<Step>, c: Client)
    requires Others(steps, c)
    ensures Run(q, steps).CallOf(c) == q.CallOf(c)
    ensures GivenTo(Run(q, steps).gifts, c) == GivenTo(q.gifts, c)
  {
    if steps != [] {
      hide GivenTo, Next;
      OthersLeaveAlone(q, steps[..|steps| - 1], c);
      StepLeavesCall(Run(q, steps[..|steps| - 1]), steps[|steps| - 1], c);
      StepGives(Run(q, steps[..|steps| - 1]), steps[|steps| - 1], c);
    }
  }

  /** A client that is alone gets what it selects: the record is locked, deleted and
      returned, and nothing else changes. */
  lemma AloneGets(q: Queue, c: Client, k: nat)
    requires Kept(q) && q.CallOf(c) == Idle && Unlocked(q, k)
    ensures var q' := Next(Next(Next(q, Select(c, k)), Lock(c)), Delete(c));
            && q'.gifts == q.gifts + [Gift(c, k, q.records[k].data)]
            && q'.records == q.records[k := Record(q.records[k].data, Deleted)]
            && q'.lost == q.lost && q'.CallOf(c) == Idle
  {
  }

  /** One that comes too late does not: the record is somebody else's. */
  lemma LateGetsNothing(q: Queue, c: Client)
    requires q.CallOf(c).Selected? && !Unlocked(q, q.CallOf(c).key)
    ensures var q' := Next(q, Lock(c));
            q'.records == q.records && q'.gifts == q.gifts && q'.lost == q.lost && q'.CallOf(c) == Idle
  {
  }

  lemma {:induction false} RunConcat(q: Queue, first: seq<Step>, second: seq<Step>)
    ensures Run(q, first + second) == Run(Run(q, first), second)
  {
    hide Next;
    if second == [] {
      assert first + second == first;
    } else {
      RunConcat(q, first, second[..|second| - 1]);
      assert (first + second)[..|first + second| - 1] == first + second[..|second| - 1];
    }
  }

  lemma RunOne(q: Queue, step: Step)
    ensures Run(q, [step]) == Next(q, step)
  {
    hide Next;
    assert [step][..0] == [];
  }

  lemma RunTried(q: Queue, c: Client, r: Round)
    ensures Run(q, r.beforeSelect + [Select(c, r.key)] + r.beforeLock + [LockStep(c, r.locking)])
            == Tried(Run(q, r.beforeSelect), c, r)
  {
    hide Next;
    var q0, select, lock := Run(q, r.beforeSelect), [Select(c, r.key)], LockStep(c, r.locking);
    RunConcat(q, r.beforeSelect, select);
    RunOne(q0, Select(c, r.key));
    RunConcat(q, r.beforeSelect + select, r.beforeLock);
    RunConcat(q, r.beforeSelect + select + r.beforeLock, [lock]);
    RunOne(Run(q, r.beforeSelect + select + r.beforeLock), lock);
  }

  lemma TraceSteps(q: Queue, c: Client, rounds: seq<Round>)
    ensures rounds == [] ==> Run(q, Trace(q, c, rounds)) == q
    ensures rounds != [] ==>
              var r, q0 := rounds[0], Run(q, rounds[0].beforeSelect);
              var q1 := Tried(q0, c, r);
              Run(q, Trace(q, c, rounds))
              == if r.key >= |q0.records| then q0
                 else if q1.CallOf(c).Holding? then Next(Run(q1, r.beforeDelete), DeleteStep(c, r.deleting))
                 else if r.locking.Failed? then q1
                 else Run(q1, Trace(q1, c, rounds[1..]))
  {
    hide Next, Tried;
    if rounds != [] {
      var r, q0 := rounds[0], Run(q, rounds[0].beforeSelect);
      var first := r.beforeSelect + [Select(c, r.key)] + r.beforeLock + [LockStep(c, r.locking)];
      var q1 := Tried(q0, c, r);
      RunTried(q, c, r);
      RunConcat(q, first, r.beforeDelete);
      RunConcat(q, first + r.beforeDelete, [DeleteStep(c, r.deleting)]);
      RunOne(Run(q1, r.beforeDelete), DeleteStep(c, r.deleting));
      RunConcat(q, first, Trace(q1, c, rounds[1..]));
    }
  }
}

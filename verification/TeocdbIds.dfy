/**
 GetID of the key-value service: many clients take numbers from one counter in the
 database, with a select that may be answered by an outdated replica and a
 compare-and-set that is atomic. Every step below is one query.
 */
module TeocdbIds {

  type Client = nat

  datatype Option = None | Some(value: int)

  datatype Call =
    | Idle
    | NotFound                                      // the select found no counter
    | Trying(nextID: int, tries: nat, since: nat)   // failed tries, and the count of updates when the call began

  /** One applied compare-and-set, and whether its client was told so. */
  datatype Update = Update(client: Client, id: int, told: bool)

  datatype Ids = Ids(
    history: seq<Option>,        // all the values of next_id, the current one last
    calls: map<Client, Call>,
    updates: seq<Update>)
  {
    function Counter(): Option
      requires history != []
    {
      history[|history| - 1]
    }

    function CallOf(c: Client): Call {
      if c in calls then calls[c] else Idle
    }
  }

  datatype Step =
    | Select(client: Client, at: nat)                  // sees the value the counter had then
    | SetFirst(client: Client)                         // SetID(key, 1)
    | SetFails(client: Client, applied: bool)          // an error, with or without effect
    | Try(client: Client)                              // the compare-and-set
    | TryFails(client: Client, applied: bool)
    | GiveUp(client: Client)

  /** Before any of the calls, the counter having had these values */
  function Start(history: seq<Option>): Ids { Ids(history, map[], []) }

  /** The counter exists, and no replica is left that has not got it yet. */
  predicate Known(history: seq<Option>) {
    history != [] && forall i | 0 <= i < |history| :: history[i].Some?
  }

  function Current(history: seq<Option>): int
    requires Known(history)
  {
    history[|history| - 1].value
  }

  function Set(s: Ids, c: Client, call: Call): Ids { s.(calls := s.calls[c := call]) }

  /** UPDATE ... IF next_id = nextID, when it applies */
  function Updated(s: Ids, c: Client, nextID: int, told: bool): Ids {
    Set(s, c, Idle).(history := s.history + [Some(nextID + 1)], updates := s.updates + [Update(c, nextID, told)])
  }

  /** A step of a client that is not there to take it changes nothing. */
  function Next(s: Ids, step: Step): (s': Ids)
    requires s.history != []
    ensures s'.history != []
  {
    var call := s.CallOf(step.client);
    match step
    case Select(c, at) =>
      if !call.Idle? || at >= |s.history| then s
      else Set(s, c, match s.history[at] case Some(v) => Trying(v, 0, |s.updates|) case None => NotFound)
    case SetFirst(c) =>
      if !call.NotFound? then s
      else Set(s, c, Trying(1, 0, |s.updates|)).(history := s.history + [Some(1)])
    case SetFails(c, applied) =>
      if !call.NotFound? then s
      else if applied then Set(s, c, Idle).(history := s.history + [Some(1)])
      else Set(s, c, Idle)
    case Try(c) =>
      if !call.Trying? then s
      else if s.Counter() == Some(call.nextID) then Updated(s, c, call.nextID, true)
      else Set(s, c, call.(nextID := Scanned(s), tries := call.tries + 1))
    case TryFails(c, applied) =>
      if !call.Trying? then s
      else if applied && s.Counter() == Some(call.nextID) then Updated(s, c, call.nextID, false)
      else Set(s, c, Idle)
    case GiveUp(c) =>
      Set(s, c, Idle)
  }

  /** The value a failed compare-and-set scans: no value reads as zero. */
  function Scanned(s: Ids): int
    requires s.history != []
  {
    match s.Counter() case Some(v) => v case None => 0
  }

  function Run(s: Ids, steps: seq<Step>): (s': Ids)
    requires s.history != []
    ensures s'.history != []
  {
    if steps == [] then s else Next(Run(s, steps[..|steps| - 1]), steps[|steps| - 1])
  }

  /** The numbers returned to the callers, in the order of their updates */
  function Returned(updates: seq<Update>): seq<int> {
    if updates == [] then []
    else
      var u := updates[|updates| - 1];
      Returned(updates[..|updates| - 1]) + (if u.told then [u.id] else [])
  }

  predicate Distinct(ids: seq<int>) {
    forall i, j | 0 <= i < j < |ids| :: ids[i] != ids[j]
  }

  predicate Increasing(ids: seq<int>) {
    forall i, j | 0 <= i < j < |ids| :: ids[i] < ids[j]
  }

  // ---------------------------------------------------- an existing counter

  /** After a known history, the counter has gone up by one with each update, and nobody
      who still tries has failed without somebody else's success, the first time apart. */
  ghost predicate Counting(s: Ids, history: seq<Option>)
    requires Known(history)
  {
    var first, n := Current(history), |history| - 1;
    && |s.history| == n + |s.updates| + 1 && s.history[..n] == history[..n]
    && (forall i | n <= i < |s.history| :: s.history[i] == Some(first + i - n))
    && (forall i | 0 <= i < |s.updates| :: s.updates[i].id == first + i)
    && forall c | c in s.calls :: Fair(s, s.calls[c], first)
  }

  ghost predicate Fair(s: Ids, call: Call, first: int) {
    && !call.NotFound?
    && (call.Trying? ==>
          && call.since <= |s.updates|
          && (call.tries > 0 ==> first + call.since + call.tries - 1 <= call.nextID <= first + |s.updates|))
  }

  lemma HistoryIsKnown(s: Ids, history: seq<Option>)
    requires Known(history) && Counting(s, history)
    ensures Known(s.history)
  {
    forall i | 0 <= i < |s.history|
      ensures s.history[i].Some?
    {
      if i < |history| - 1 { assert s.history[i] == s.history[..|history| - 1][i] == history[i]; }
    }
  }

  lemma StepCounts(s: Ids, step: Step, history: seq<Option>)
    requires Known(history) && Counting(s, history)
    ensures Counting(Next(s, step), history)
  {
    var s', c := Next(s, step), step.client;
    HistoryIsKnown(s, history);
    forall d | d in s'.calls
      ensures Fair(s', s'.calls[d], Current(history))
    {
      if d in s.calls { assert Fair(s, s.calls[d], Current(history)); }
    }
  }

  lemma {:induction false} RunCounts(history: seq<Option>, steps: seq<Step>)
    requires Known(history)
    ensures Counting(Run(Start(history), steps), history)
  {
    hide Next, Counting;
    if steps == [] {
      StartCounts(history);
    } else {
      RunCounts(history, steps[..|steps| - 1]);
      StepCounts(Run(Start(history), steps[..|steps| - 1]), steps[|steps| - 1], history);
    }
  }

  lemma StartCounts(history: seq<Option>)
    requires Known(history)
    ensures Counting(Start(history), history)
  {
  }

  /** Under every interleaving on a known counter, with outdated selects and failing
      clients, the k updates that were applied stand for the k numbers from its value on,
      one each, and the counter is the next one. */
  lemma UpdatesAreConsecutive(history: seq<Option>, steps: seq<Step>)
    requires Known(history)
    ensures var s, first := Run(Start(history), steps), Current(history);
            && s.Counter() == Some(first + |s.updates|)
            && (forall k | 0 <= k < |s.updates| :: s.updates[k].id == first + k)
            && Increasing(Returned(s.updates))
  {
    RunCounts(history, steps);
    ReturnedIncrease(Run(Start(history), steps).updates, Current(history));
  }

  lemma {:induction false} ReturnedIncrease(updates: seq<Update>, first: int)
    requires forall k | 0 <= k < |updates| :: updates[k].id == first + k
    ensures Increasing(Returned(updates))
    ensures forall k | 0 <= k < |Returned(updates)| :: Returned(updates)[k] < first + |updates|
  {
    if updates != [] {
      ReturnedIncrease(updates[..|updates| - 1], first);
    }
  }

  /** A client whose select was answered late fails once for that; every other failed
      try is somebody else's number. */
  lemma TriesAreBounded(history: seq<Option>, steps: seq<Step>, c: Client)
    requires Known(history)
    ensures var s := Run(Start(history), steps);
            s.CallOf(c).Trying? ==> s.CallOf(c).tries <= 1 + |s.updates| - s.CallOf(c).since
  {
    RunCounts(history, steps);
  }

  // ---------------------------------------------------- a counter not found

  lemma RunPrefix(s: Ids, steps: seq<Step>, k: nat)
    requires s.history != [] && k < |steps|
    ensures Run(s, steps[..k + 1]) == Next(Run(s, steps[..k]), steps[k])
  {
    hide Next;
    assert steps[..k + 1][..k] == steps[..k];
  }

  lemma RunEnds(s: Ids, steps: seq<Step>)
    requires s.history != []
    ensures Run(s, steps[..0]) == s && Run(s, steps[..|steps|]) == Run(s, steps)
  {
    hide Next;
    assert steps[..|steps|] == steps;
  }

  lemma RunFive(s: Ids, steps: seq<Step>)
    requires s.history != [] && |steps| == 5
    ensures Run(s, steps) == Next(Next(Next(Next(Next(s, steps[0]), steps[1]), steps[2]), steps[3]), steps[4])
  {
    hide Next, Run;
    RunEnds(s, steps);
    RunPrefix(s, steps, 0);
    RunPrefix(s, steps, 1);
    RunPrefix(s, steps, 2);
    RunPrefix(s, steps, 3);
    RunPrefix(s, steps, 4);
  }

  lemma RunSix(s: Ids, steps: seq<Step>)
    requires s.history != [] && |steps| == 6
    ensures Run(s, steps)
            == Next(Next(Next(Next(Next(Next(s, steps[0]), steps[1]), steps[2]), steps[3]), steps[4]), steps[5])
  {
    hide Next, Run;
    RunFive(s, steps[..5]);
    RunPrefix(s, steps, 5);
    RunEnds(s, steps);
  }

  lemma TwoReturned(c: Client, d: Client, id: int)
    ensures Returned([] + [Update(c, id, true)] + [Update(d, id, true)]) == [id, id]
  {
    assert Returned([Update(c, id, true)]) == [] + [id];
    assert ([Update(c, id, true)] + [Update(d, id, true)])[..1] == [Update(c, id, true)];
  }

  /** The call of one client goes on, those of the others and what was given out stay. */
  ghost predicate Only(s: Ids, s': Ids, c: Client) {
    forall d | d != c :: s'.CallOf(d) == s.CallOf(d)
  }

  lemma Misses(s: Ids, c: Client, at: nat)
    requires s.CallOf(c) == Idle && at < |s.history| && s.history[at] == None
    ensures var s' := Next(s, Select(c, at));
            && s'.CallOf(c) == NotFound && s'.history == s.history && s'.updates == s.updates && Only(s, s', c)
  {
  }

  lemma SetsAndTakes(s: Ids, c: Client)
    requires s.history != [] && s.CallOf(c) == NotFound
    ensures var s' := Next(Next(s, SetFirst(c)), Try(c));
            s'.updates == s.updates + [Update(c, 1, true)] && s'.CallOf(c) == Idle && Only(s, s', c)
  {
  }

  lemma FindsAndTakes(s: Ids, c: Client, at: nat)
    requires s.CallOf(c) == Idle && at + 1 == |s.history| && s.history[at].Some?
    ensures var s', id := Next(Next(s, Select(c, at)), Try(c)), s.history[at].value;
            && s'.updates == s.updates + [Update(c, id, true)] && s'.history == s.history + [Some(id + 1)]
            && s'.CallOf(c) == Idle && Only(s, s', c)
  {
  }

  /** Two clients whose selects find no counter both set it to 1, and both are given 1. */
  function Collision(at: nat): seq<Step> {
    [Select(0, at), Select(1, at), SetFirst(0), Try(0), SetFirst(1), Try(1)]
  }

  lemma MissedCounterCollides(history: seq<Option>, at: nat)
    requires at < |history| && history[at] == None
    ensures Returned(Run(Start(history), Collision(at)).updates) == [1, 1]
  {
    hide Next, Run;
    var s0 := Start(history);
    var s2 := Next(Next(s0, Select(0, at)), Select(1, at));
    var s4 := Next(Next(s2, SetFirst(0)), Try(0));
    Misses(s0, 0, at);
    Misses(Next(s0, Select(0, at)), 1, at);
    SetsAndTakes(s2, 0);
    SetsAndTakes(s4, 1);
    RunSix(s0, Collision(at));
    TwoReturned(0, 1, 1);
  }

  /** One is enough: the counter has just been made, and one replica has not got it yet. */
  lemma OneMissIsEnough()
    ensures var steps := [Select(0, 1), Try(0), Select(1, 0), SetFirst(1), Try(1)];
            Returned(Run(Start([None, Some(1)]), steps).updates) == [1, 1]
  {
    hide Next, Run;
    var s0 := Start([None, Some(1)]);
    var s2 := Next(Next(s0, Select(0, 1)), Try(0));
    FindsAndTakes(s0, 0, 1);
    Misses(s2, 1, 0);
    SetsAndTakes(Next(s2, Select(1, 0)), 1);
    RunFive(s0, [Select(0, 1), Try(0), Select(1, 0), SetFirst(1), Try(1)]);
    TwoReturned(0, 1, 1);
  }

  /** All interleavings give distinct numbers exactly if the counter exists at the start
      and no select can be answered with a time at which it did not. */
  lemma IdsAreDistinctIff(history: seq<Option>)
    requires history != []
    ensures (forall steps: seq<Step> :: Distinct(Returned(Run(Start(history), steps).updates))) <==> Known(history)
  {
    if Known(history) {
      forall steps: seq<Step>
        ensures Distinct(Returned(Run(Start(history), steps).updates))
      {
        UpdatesAreConsecutive(history, steps);
      }
    } else {
      var at: nat :| at < |history| && history[at].None?;
      MissedCounterCollides(history, at);
      var ids := Returned(Run(Start(history), Collision(at)).updates);
      assert ids[0] == ids[1];
      assert !Distinct(ids);
    }
  }

  // ---------------------------------------------------------------- the code

  ghost predicate Others(steps: seq<Step>, c: Client) {
    forall i | 0 <= i < |steps| :: steps[i].client != c
  }

  class Teocdb {
    var ids: Ids

    constructor (history: seq<Option>)
      requires history != []
      ensures ids == Start(history)
    {
      ids := Start(history);
    }

    /** One query, after what the others have done meanwhile */
    method Query(others: seq<Step>, step: Step)
      requires ids.history != []
      modifies this
      ensures ids.history != [] && ids == Next(Run(old(ids), others), step)
    {
      ids := Next(Run(ids, others), step);
    }

    /** UPDATE ... IF next_id = nextID, with what it scans */
    method CompareAndSet(c: Client, ghost nextID: int, others: seq<Step>) returns (ok: bool, scanned: int)
      requires ids.history != [] && Tries(ids, c, nextID) && Others(others, c)
      modifies this
      ensures ids.history != [] && ids == Next(Run(old(ids), others), Try(c))
      ensures ok ==> scanned == nextID && JustGiven(ids, c, nextID)
      ensures !ok ==> Tries(ids, c, scanned)
      ensures ToldTo(ids.updates, c) == ToldTo(old(ids.updates), c) + (if ok then [nextID] else [])
    {
      hide ToldTo;
      OthersLeaveAlone(ids, others, c);
      TryTells(Run(ids, others), c);
      Query(others, Try(c));
      ok := ids.CallOf(c).Idle?;
      var updates := ids.updates;
      scanned := if ok then updates[|updates| - 1].id else Scanned(ids);
    }

    /** GetID of client c, between whose queries the others take steps: early between the
        select that finds nothing and SetID, and those of each round before its
        compare-and-set. What happens is a run of those steps. It returns a number exactly
        if its own compare-and-set took one, and that one; it comes back with an error only
        for a query that fails. */
    method GetID(c: Client, at: nat, selectFails: bool, early: seq<Step>, setting: Reply, rounds: seq<Round>)
      returns (result: Result, used: nat)
      requires ids.history != [] && at < |ids.history| && ids.CallOf(c) == Idle
      requires Others(early, c) && forall i | 0 <= i < |rounds| :: Others(rounds[i].others, c)
      modifies this
      ensures ids.history != [] && used <= |rounds|
      ensures ids == if selectFails then old(ids)
                     else Run(old(ids), Trace(c, at, old(ids).history[at].None?, early, setting, rounds[..used]))
      ensures ToldTo(ids.updates, c) == ToldTo(old(ids.updates), c) + (if result.ID? then [result.value] else [])
      ensures result.ID? ==> JustGiven(ids, c, result.value)
      ensures result.Error? ==> selectFails || (old(ids).history[at].None? && setting.Failed?)
                                || (used > 0 && rounds[used - 1].reply.Failed?)
      ensures result.Error? ==> ids.CallOf(c) == Idle
      ensures result.StillTrying? ==> used == |rounds| && ids.CallOf(c).Trying?
    {
      hide Run, Trace, Others, ToldTo;
      used := 0;
      if selectFails {
        return Error, used;
      }
      ghost var was, missed := ids, ids.history[at].None?;
      TraceStarts(ids, c, at, early, setting);
      StepTells(ids, Select(c, at), c);
      ids := Next(ids, Select(c, at));
      var nextID: int;
      if ids.CallOf(c).NotFound? {
        OthersLeaveAlone(ids, early, c);
        SetTells(ids, early, c, setting);
        Query(early, SetStep(c, setting));
        if setting.Failed? {
          return Error, used;
        }
        nextID := 1;
      } else {
        nextID := ids.CallOf(c).nextID;
      }
      hide Next;
      assert rounds[..0] == [];
      while used < |rounds|
        invariant used <= |rounds|
        invariant ids.history != [] && Tries(ids, c, nextID)
        invariant ToldTo(ids.updates, c) == ToldTo(was.updates, c)
        invariant ids == Run(was, Trace(c, at, missed, early, setting, rounds[..used]))
      {
        var round := rounds[used];
        TraceGrows(was, c, at, missed, early, setting, rounds, used);
        used := used + 1;
        if round.reply.Failed? {
          FailingIsIdle(ids, round.others, c, round.reply.applied);
          Query(round.others, TryFails(c, round.reply.applied));
          return Error, used;
        }
        var ok;
        ok, nextID := CompareAndSet(c, nextID, round.others);
        if ok {
          return ID(nextID), used;
        }
      }
      assert rounds[..used] == rounds;
      result := StillTrying;
    }
  }

  datatype Result = ID(value: int) | Error | StillTrying

  /** The numbers a client was told, in order */
  function ToldTo(updates: seq<Update>, c: Client): seq<int> {
    if updates == [] then []
    else
      var u := updates[|updates| - 1];
      ToldTo(updates[..|updates| - 1], c) + (if u.client == c && u.told then [u.id] else [])
  }

  lemma ToldOneMore(updates: seq<Update>, u: Update, c: Client)
    ensures ToldTo(updates + [u], c) == ToldTo(updates, c) + (if u.client == c && u.told then [u.id] else [])
  {
    assert (updates + [u])[..|updates|] == updates;
  }

  /** Only its own compare-and-set tells a client anything. */
  lemma StepTells(s: Ids, step: Step, c: Client)
    requires s.history != [] && !(step.Try? && step.client == c)
    ensures ToldTo(Next(s, step).updates, c) == ToldTo(s.updates, c)
  {
    hide ToldTo;
    if step.Try? || step.TryFails? {
      var call := s.CallOf(step.client);
      if call.Trying? { ToldOneMore(s.updates, Update(step.client, call.nextID, step.Try?), c); }
      assert ToldTo(s.updates, c) + [] == ToldTo(s.updates, c);
    }
  }

  lemma TryTells(s: Ids, c: Client)
    requires s.history != [] && s.CallOf(c).Trying?
    ensures var s' := Next(s, Try(c));
            ToldTo(s'.updates, c) == ToldTo(s.updates, c) + (if s'.CallOf(c).Idle? then [s.CallOf(c).nextID] else [])
  {
    hide ToldTo;
    ToldOneMore(s.updates, Update(c, s.CallOf(c).nextID, true), c);
    assert ToldTo(s.updates, c) + [] == ToldTo(s.updates, c);
  }

  /** A client that is alone gets the counter's value, at the first try or, if its select
      was answered late, at the second. */
  lemma AloneGets(s: Ids, c: Client, at: nat)
    requires Known(s.history) && s.CallOf(c) == Idle && at < |s.history|
    ensures var s1 := Next(Next(s, Select(c, at)), Try(c));
            var s2 := if s1.CallOf(c).Idle? then s1 else Next(s1, Try(c));
            var id := Current(s.history);
            && (s1.CallOf(c).Idle? <==> s.history[at] == Some(id))
            && s2.updates == s.updates + [Update(c, id, true)] && s2.history == s.history + [Some(id + 1)]
            && s2.CallOf(c) == Idle
  {
  }

  /** Its SetID that fails and all that is not its own leaves a client untold. */
  lemma SetTells(s: Ids, others: seq<Step>, c: Client, reply: Reply)
    requires s.history != [] && Others(others, c)
    ensures ToldTo(Next(Run(s, others), SetStep(c, reply)).updates, c) == ToldTo(s.updates, c)
  {
    hide ToldTo, Next;
    OthersLeaveAlone(s, others, c);
    StepTells(Run(s, others), SetStep(c, reply), c);
  }

  /** What a query comes back with: an error may come although the query took effect. */
  datatype Reply = Answered | Failed(applied: bool)

  datatype Round = Round(others: seq<Step>, reply: Reply)

  function SetStep(c: Client, reply: Reply): Step {
    if reply.Failed? then SetFails(c, reply.applied) else SetFirst(c)
  }

  function TryStep(c: Client, reply: Reply): Step {
    if reply.Failed? then TryFails(c, reply.applied) else Try(c)
  }

  ghost predicate Tries(s: Ids, c: Client, nextID: int) {
    s.CallOf(c).Trying? && s.CallOf(c).nextID == nextID
  }

  /** The last update gave c this number, and the counter is the next one. */
  ghost predicate JustGiven(s: Ids, c: Client, id: int)
    requires s.history != []
  {
    && s.CallOf(c) == Idle && s.Counter() == Some(id + 1)
    && s.updates != [] && s.updates[|s.updates| - 1] == Update(c, id, true)
  }

  /** The whole run of one call of GetID whose select is answered */
  ghost function Trace(c: Client, at: nat, missed: bool, early: seq<Step>, setting: Reply, rounds: seq<Round>)
    : seq<Step>
  {
    if rounds == [] then [Select(c, at)] + (if missed then early + [SetStep(c, setting)] else [])
    else
      var last := rounds[|rounds| - 1];
      Trace(c, at, missed, early, setting, rounds[..|rounds| - 1]) + last.others + [TryStep(c, last.reply)]
  }

  lemma TraceStarts(s: Ids, c: Client, at: nat, early: seq<Step>, setting: Reply)
    requires s.history != [] && at < |s.history|
    ensures var first := Next(s, Select(c, at));
            && Run(s, Trace(c, at, false, early, setting, [])) == first
            && Run(s, Trace(c, at, true, early, setting, [])) == Next(Run(first, early), SetStep(c, setting))
  {
    hide Next;
    var select := [Select(c, at)];
    RunAppends(s, [], Select(c, at));
    assert [] + select == select && select + [] == select;
    RunConcat(s, select, early);
    RunAppends(s, select + early, SetStep(c, setting));
    assert select + (early + [SetStep(c, setting)]) == select + early + [SetStep(c, setting)];
  }

  lemma TraceGrows(s: Ids, c: Client, at: nat, missed: bool, early: seq<Step>, setting: Reply,
                   rounds: seq<Round>, k: nat)
    requires s.history != [] && k < |rounds|
    ensures Run(s, Trace(c, at, missed, early, setting, rounds[..k + 1]))
            == Next(Run(Run(s, Trace(c, at, missed, early, setting, rounds[..k])), rounds[k].others),
                    TryStep(c, rounds[k].reply))
  {
    hide Next;
    var before := Trace(c, at, missed, early, setting, rounds[..k]);
    assert rounds[..k + 1][..k] == rounds[..k];
    RunConcat(s, before, rounds[k].others);
    RunAppends(s, before + rounds[k].others, TryStep(c, rounds[k].reply));
  }

  lemma FailingIsIdle(s: Ids, others: seq<Step>, c: Client, applied: bool)
    requires s.history != [] && s.CallOf(c).Trying? && Others(others, c)
    ensures Next(Run(s, others), TryFails(c, applied)).CallOf(c) == Idle
    ensures ToldTo(Next(Run(s, others), TryFails(c, applied)).updates, c) == ToldTo(s.updates, c)
  {
    hide ToldTo;
    OthersLeaveAlone(s, others, c);
    StepTells(Run(s, others), TryFails(c, applied), c);
  }

  lemma RunAppends(s: Ids, steps: seq<Step>, step: Step)
    requires s.history != []
    ensures Run(s, steps + [step]) == Next(Run(s, steps), step)
  {
    assert (steps + [step])[..|steps|] == steps;
  }

  lemma {:induction false} RunConcat(s: Ids, first: seq<Step>, second: seq<Step>)
    requires s.history != []
    ensures Run(s, first + second) == Run(Run(s, first), second)
  {
    if second == [] {
      assert first + second == first;
    } else {
      var most := second[..|second| - 1];
      RunConcat(s, first, most);
      assert (first + second)[..|first + second| - 1] == first + most;
    }
  }

  lemma StepLeavesCall(s: Ids, step: Step, c: Client)
    requires s.history != [] && step.client != c
    ensures Next(s, step).CallOf(c) == s.CallOf(c)
  {
  }

  lemma {:induction false} OthersLeaveAlone(s: Ids, steps: seq<Step>, c: Client)
    requires s.history != [] && Others(steps, c)
    ensures Run(s, steps).CallOf(c) == s.CallOf(c)
    ensures ToldTo(Run(s, steps).updates, c) == ToldTo(s.updates, c)
  {
    if steps != [] {
      hide ToldTo, Next;
      OthersLeaveAlone(s, steps[..|steps| - 1], c);
      StepLeavesCall(Run(s, steps[..|steps| - 1]), steps[|steps| - 1], c);
      StepTells(Run(s, steps[..|steps| - 1]), steps[|steps| - 1], c);
    }
  }
}

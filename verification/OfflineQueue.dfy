/** The bounded per-user list of messages waiting for a reconnect. */
module OfflineQueues {
  import opened Types

  datatype QueuedMessage = QueuedMessage(id: Uuid, message: string)

  /** Redis LTRIM: negative indexes count from the end, `stop` is inclusive. */
  function LTrim<T>(list: seq<T>, start: int, stop: int): seq<T> {
    var from := if start < 0 then Max(0, |list| + start) else start;
    var to := if stop < 0 then |list| + stop + 1 else Min(stop + 1, |list|);
    if from < to then list[from..to] else []
  }

  /** `LTRIM key -n -1`: the last `n`, except that `-0` is index 0 and trims nothing. */
  lemma TrimKeepsLast<T>(list: seq<T>, n: nat)
    ensures LTrim(list, -(n as int), -1) == if n == 0 then list else LastN(list, n)
  {
  }

  class OfflineQueue {
    const redis: bool
    const maxMessagesPerUser: nat
    var lists: map<Uuid, seq<QueuedMessage>>

    constructor (redis: bool, maxMessagesPerUser: nat)
      ensures this.redis == redis && this.maxMessagesPerUser == maxMessagesPerUser && lists == map[]
    {
      this.redis, this.maxMessagesPerUser := redis, maxMessagesPerUser;
      lists := map[];
    }

    method QueueMessage(user: Uuid, queued: QueuedMessage)
      modifies this
      ensures !redis ==> lists == old(lists)
      ensures redis ==>
        lists == old(lists)[user := var all := Entries(old(lists), user) + [queued];
                                    if maxMessagesPerUser == 0 then all else LastN(all, maxMessagesPerUser)]
    {
      if redis {
        lists := lists[user := Entries(lists, user) + [queued]];
        TrimKeepsLast(lists[user], maxMessagesPerUser);
        lists := lists[user := LTrim(lists[user], -(maxMessagesPerUser as int), -1)];
      }
    }

    method DrainMessages(user: Uuid) returns (drained: seq<QueuedMessage>)
      modifies this
      ensures drained == if redis then Entries(old(lists), user) else []
      ensures lists == if redis then old(lists) - {user} else old(lists)
    {
      drained := [];
      if redis {
        drained := Entries(lists, user);
        lists := lists - {user};
      }
    }
  }
}

/**
 One user's list under concurrent pushers. Each pusher runs RPUSH and then LTRIM as two separate
 steps; a pusher that dies in between stays in between. A drain is LRANGE and then DEL.
 */
module OfflineQueueRaces {
  import opened Types
  import opened OfflineQueues

  datatype State = State(
    list: seq<Uuid>,
    pushed: seq<Uuid>,            // history: everything pushed since the last DEL
    between: nat,                 // pushers that have pushed and not trimmed
    read: Option<seq<Uuid>>,      // what the drain under way has read
    late: seq<Uuid>,              // history: pushed since that read
    drained: seq<Uuid>            // what the last drain has handed over
  )

  const INITIAL := State([], [], 0, None, [], [])

  datatype Step = Push(message: Uuid) | Trim | Read | Delete

  function Apply(n: nat, s: State, step: Step): State {
    match step
    case Push(m) =>
      s.(list := s.list + [m], pushed := s.pushed + [m], between := s.between + 1,
         late := if s.read.Some? then s.late + [m] else [])
    case Trim => if s.between == 0 then s else s.(list := LTrim(s.list, -(n as int), -1), between := s.between - 1)
    case Read => s.(read := Some(s.list), late := [])
    case Delete =>
      if s.read.None? then s else s.(list := [], pushed := [], read := None, late := [], drained := s.read.value)
  }

  function Run(n: nat, steps: seq<Step>): State {
    if steps == [] then INITIAL else Apply(n, Run(n, steps[..|steps| - 1]), steps[|steps| - 1])
  }

  ghost predicate IsSuffix<T>(a: seq<T>, b: seq<T>) {
    |a| <= |b| && a == b[|b| - |a|..]
  }

  ghost predicate KeepsTheLast(n: nat, s: State) {
    IsSuffix(s.list, s.pushed) && Min(|s.pushed|, n) <= |s.list| <= n + s.between
  }

  /** `kept` is the end of `pushed`, and as much of it as the bound asks for. */
  ghost predicate EndOf(n: nat, kept: seq<Uuid>, pushed: seq<Uuid>) {
    IsSuffix(kept, pushed) && |kept| >= Min(|pushed|, n)
  }

  /** The drain under way has read the end of what was pushed before `late`. */
  ghost predicate ReadInTime(n: nat, s: State) {
    && IsSuffix(s.late, s.pushed)
    && (s.read.Some? ==> EndOf(n, s.read.value, s.pushed[..|s.pushed| - |s.late|]))
  }

  lemma ApplyKeepsTheLast(n: nat, s: State, step: Step)
    requires n >= 1 && KeepsTheLast(n, s)
    ensures KeepsTheLast(n, Apply(n, s, step))
  {
    if step.Trim? {
      TrimKeepsLast(s.list, n);
    }
  }

  lemma ApplyReadsInTime(n: nat, s: State, step: Step)
    requires n >= 1 && KeepsTheLast(n, s) && ReadInTime(n, s)
    ensures ReadInTime(n, Apply(n, s, step))
  {
    if step.Push? && s.read.Some? {
      var s' := Apply(n, s, step);
      assert s'.pushed[..|s'.pushed| - |s'.late|] == s.pushed[..|s.pushed| - |s.late|];
    }
  }

  lemma SettledQueue(n: nat, s: State)
    requires KeepsTheLast(n, s)
    ensures s.between == 0 ==> s.list == LastN(s.pushed, n)
  {
  }

  /**
   The list is always a suffix of what was pushed since the last drain, never shorter than
   the bound asks and never longer than the bound plus the pushers between their two steps;
   once those have trimmed it is exactly the last `n`.
   */
  lemma {:induction false} QueueHoldsTheLast(n: nat, steps: seq<Step>)
    requires n >= 1
    ensures KeepsTheLast(n, Run(n, steps))
    ensures Run(n, steps).between == 0 ==> Run(n, steps).list == LastN(Run(n, steps).pushed, n)
  {
    if steps != [] {
      QueueHoldsTheLast(n, steps[..|steps| - 1]);
      ApplyKeepsTheLast(n, Run(n, steps[..|steps| - 1]), steps[|steps| - 1]);
    }
    SettledQueue(n, Run(n, steps));
  }

  lemma {:induction false} RunReadsInTime(n: nat, steps: seq<Step>)
    requires n >= 1
    ensures ReadInTime(n, Run(n, steps))
  {
    if steps != [] {
      QueueHoldsTheLast(n, steps[..|steps| - 1]);
      RunReadsInTime(n, steps[..|steps| - 1]);
      ApplyReadsInTime(n, Run(n, steps[..|steps| - 1]), steps[|steps| - 1]);
    }
  }

  /**
   A drain hands over, in push order, at least the last `n` messages pushed between the DEL of the
   drain before and its own LRANGE; what is pushed between its LRANGE and its DEL is gone.
   */
  lemma DrainInPushOrder(n: nat, steps: seq<Step>)
    requires n >= 1 && Run(n, steps).read.Some?
    ensures
      var before, after := Run(n, steps), Run(n, steps + [Delete]);
      && IsSuffix(before.late, before.pushed)
      && EndOf(n, after.drained, before.pushed[..|before.pushed| - |before.late|])
      && after.list == after.pushed == []
  {
    RunReadsInTime(n, steps);
    assert (steps + [Delete])[..|steps|] == steps;
  }

  lemma LastIsLate(late: seq<Uuid>, pushed: seq<Uuid>)
    requires IsSuffix(late, pushed) && late != [] && NoDuplicates(pushed)
    ensures pushed[|pushed| - 1] !in pushed[..|pushed| - |late|]
  {
  }

  lemma MissesTheLast(n: nat, kept: seq<Uuid>, inTime: seq<Uuid>, pushed: seq<Uuid>)
    requires n >= 1 && EndOf(n, kept, inTime) && pushed != [] && pushed[|pushed| - 1] !in inTime
    ensures !EndOf(n, kept, pushed)
  {
    if kept != [] {
      assert kept[|kept| - 1] == inTime[|inTime| - 1];
    }
  }

  /**
   When no message is pushed twice, a drain hands over the end of everything pushed since the drain
   before, if and only if nothing was pushed between its LRANGE and its DEL.
   */
  lemma DrainsEverythingExactlyWhen(n: nat, steps: seq<Step>)
    requires n >= 1 && Run(n, steps).read.Some? && NoDuplicates(Run(n, steps).pushed)
    ensures EndOf(n, Run(n, steps + [Delete]).drained, Run(n, steps).pushed) <==> Run(n, steps).late == []
  {
    var before, drained := Run(n, steps), Run(n, steps + [Delete]).drained;
    DrainInPushOrder(n, steps);
    var inTime := before.pushed[..|before.pushed| - |before.late|];
    if before.late == [] {
      assert inTime == before.pushed;
    } else {
      LastIsLate(before.late, before.pushed);
      MissesTheLast(n, drained, inTime, before.pushed);
    }
  }

  /** A push between the two commands of a drain: message 2 is in no queue and was handed to nobody. */
  lemma PushedTooLate(n: nat)
    requires n >= 1
    ensures
      var s := Run(n, [Push(1)] + [Read] + [Push(2)] + [Delete]);
      s.list == [] && s.drained == [1]
  {
    assert [] + [Push(1)] == [Push(1)];
    OneMore(n, [], Push(1));
    OneMore(n, [Push(1)], Read);
    OneMore(n, [Push(1)] + [Read], Push(2));
    OneMore(n, [Push(1)] + [Read] + [Push(2)], Delete);
  }

  lemma OneMore(n: nat, steps: seq<Step>, step: Step)
    ensures Run(n, steps + [step]) == Apply(n, Run(n, steps), step)
  {
    assert (steps + [step])[..|steps|] == steps;
  }

  ghost predicate BoundHolds(n: nat) {
    forall steps :: KeepsTheLast(n, Run(n, steps))
  }

  lemma PositiveBoundHolds(n: nat)
    requires n >= 1
    ensures BoundHolds(n)
  {
    forall steps ensures KeepsTheLast(n, Run(n, steps)) {
      QueueHoldsTheLast(n, steps);
    }
  }

  lemma ZeroBoundFails()
    ensures !BoundHolds(0)
  {
    ZeroBoundOverflows();
  }

  /** The bound holds in every run exactly when it is at least 1: a bound of 0 keeps what it should trim. */
  lemma BoundHoldsExactlyWhen(n: nat)
    ensures BoundHolds(n) <==> n >= 1
  {
    if n >= 1 {
      PositiveBoundHolds(n);
    } else {
      ZeroBoundFails();
    }
  }

  /** One message pushed and trimmed with a bound of 0: it is still there. */
  lemma ZeroBoundOverflows()
    ensures Run(0, [Push(1), Trim]).list == [1] && !KeepsTheLast(0, Run(0, [Push(1), Trim]))
  {
    ZeroBoundKeepsEverything([Push(1), Trim]);
    assert [Push(1), Trim][..1] == [Push(1)] && [Push(1)][..0] == [];
    assert Run(0, [Push(1)]) == State([1], [1], 1, None, [], []);
  }

  /** With a bound of 0 nothing is ever trimmed. */
  lemma {:induction false} ZeroBoundKeepsEverything(steps: seq<Step>)
    ensures Run(0, steps).list == Run(0, steps).pushed
  {
    if steps != [] {
      ZeroBoundKeepsEverything(steps[..|steps| - 1]);
      TrimKeepsLast(Run(0, steps[..|steps| - 1]).list, 0);
    }
  }
}

/** Presence subscriptions: two mirrored families of Redis sets, changed by atomic pipes. */
module PresenceStore {
  import opened Types

  datatype Key = SubscribersOf(user: Uuid) | SubscriptionsOf(user: Uuid)

  type Store = map<Key, set<Uuid>>

  datatype Command = SAdd(key: Key, member: Uuid) | SRem(key: Key, member: Uuid) | Del(key: Key) | Expire(key: Key)

  function Execute(db: Store, c: Command): Store {
    match c
    case SAdd(key, member) => db[key := Members(db, key) + {member}]
    case SRem(key, member) => db[key := Members(db, key) - {member}]
    case Del(key) => db - {key}
    case Expire(_) => db
  }

  /** An atomic pipe. */
  function ExecuteAll(db: Store, pipe: seq<Command>): Store {
    if pipe == [] then db else Execute(ExecuteAll(db, pipe[..|pipe| - 1]), pipe[|pipe| - 1])
  }

  function SubscribePipe(s: Uuid, targets: seq<Uuid>): seq<Command> {
    if targets == [] then []
    else
      var t := targets[|targets| - 1];
      SubscribePipe(s, targets[..|targets| - 1])
      + if t == s then [] else [SAdd(SubscribersOf(t), s), Expire(SubscribersOf(t)), SAdd(SubscriptionsOf(s), t)]
  }

  function UnsubscribePipe(s: Uuid, targets: seq<Uuid>): seq<Command> {
    if targets == [] then []
    else
      var t := targets[|targets| - 1];
      UnsubscribePipe(s, targets[..|targets| - 1]) + [SRem(SubscribersOf(t), s), SRem(SubscriptionsOf(s), t)]
  }

  function ForgetPipe(s: Uuid, targets: seq<Uuid>): seq<Command> {
    if targets == [] then []
    else ForgetPipe(s, targets[..|targets| - 1]) + [SRem(SubscribersOf(targets[|targets| - 1]), s)]
  }

  function ClearPipe(s: Uuid, targets: seq<Uuid>): seq<Command> {
    ForgetPipe(s, targets) + [Del(SubscriptionsOf(s))]
  }

  /** `s` subscribes to `t`, as its own list says. */
  predicate Follows(db: Store, s: Uuid, t: Uuid) {
    t in Members(db, SubscriptionsOf(s))
  }

  /** `s` hears about `t`, as the list of `t` says. */
  predicate Hears(db: Store, s: Uuid, t: Uuid) {
    s in Members(db, SubscribersOf(t))
  }

  // ---- What the pipes do to the two relations.

  lemma {:induction false} ExecuteAppend(db: Store, a: seq<Command>, b: seq<Command>)
    ensures ExecuteAll(db, a + b) == ExecuteAll(ExecuteAll(db, a), b)
  {
    if b == [] {
      assert a + b == a;
    } else {
      assert (a + b)[..|a + b| - 1] == a + b[..|b| - 1];
      ExecuteAppend(db, a, b[..|b| - 1]);
    }
  }

  lemma ExecuteOne(db: Store, c: Command)
    ensures ExecuteAll(db, [c]) == Execute(db, c)
  {
    assert [c][..0] == [];
    assert ExecuteAll(db, []) == db;
  }

  lemma ExecuteTwo(db: Store, a: Command, b: Command)
    ensures ExecuteAll(db, [a, b]) == Execute(Execute(db, a), b)
  {
    ExecuteOne(db, a);
    assert [a, b][..1] == [a];
  }

  lemma ExecuteThree(db: Store, a: Command, b: Command, c: Command)
    ensures ExecuteAll(db, [a, b, c]) == Execute(Execute(Execute(db, a), b), c)
  {
    ExecuteTwo(db, a, b);
    assert [a, b, c][..2] == [a, b];
  }

  lemma {:induction false} SubscribeMeans(db: Store, s: Uuid, targets: seq<Uuid>, a: Uuid, b: Uuid)
    ensures
      var db' := ExecuteAll(db, SubscribePipe(s, targets));
      && (Follows(db', a, b) <==> Follows(db, a, b) || (a == s && b != s && b in targets))
      && (Hears(db', a, b) <==> Hears(db, a, b) || (a == s && b != s && b in targets))
  {
    if targets != [] {
      var init, t := targets[..|targets| - 1], targets[|targets| - 1];
      SubscribeMeans(db, s, init, a, b);
      assert targets == init + [t];
      var mid := ExecuteAll(db, SubscribePipe(s, init));
      if t != s {
        ExecuteAppend(db, SubscribePipe(s, init),
                      [SAdd(SubscribersOf(t), s), Expire(SubscribersOf(t)), SAdd(SubscriptionsOf(s), t)]);
        ExecuteThree(mid, SAdd(SubscribersOf(t), s), Expire(SubscribersOf(t)), SAdd(SubscriptionsOf(s), t));
      } else {
        assert SubscribePipe(s, targets) == SubscribePipe(s, init);
      }
    }
  }

  lemma {:induction false} UnsubscribeMeans(db: Store, s: Uuid, targets: seq<Uuid>, a: Uuid, b: Uuid)
    ensures
      var db' := ExecuteAll(db, UnsubscribePipe(s, targets));
      && (Follows(db', a, b) <==> Follows(db, a, b) && !(a == s && b in targets))
      && (Hears(db', a, b) <==> Hears(db, a, b) && !(a == s && b in targets))
  {
    if targets != [] {
      var init, t := targets[..|targets| - 1], targets[|targets| - 1];
      UnsubscribeMeans(db, s, init, a, b);
      assert targets == init + [t];
      ExecuteAppend(db, UnsubscribePipe(s, init), [SRem(SubscribersOf(t), s), SRem(SubscriptionsOf(s), t)]);
      ExecuteTwo(ExecuteAll(db, UnsubscribePipe(s, init)), SRem(SubscribersOf(t), s), SRem(SubscriptionsOf(s), t));
    }
  }

  lemma {:induction false} ForgetMeans(db: Store, s: Uuid, targets: seq<Uuid>, a: Uuid, b: Uuid)
    ensures
      var db' := ExecuteAll(db, ForgetPipe(s, targets));
      && (Follows(db', a, b) <==> Follows(db, a, b))
      && (Hears(db', a, b) <==> Hears(db, a, b) && !(a == s && b in targets))
  {
    if targets != [] {
      var init, t := targets[..|targets| - 1], targets[|targets| - 1];
      ForgetMeans(db, s, init, a, b);
      assert targets == init + [t];
      ExecuteAppend(db, ForgetPipe(s, init), [SRem(SubscribersOf(t), s)]);
      ExecuteOne(ExecuteAll(db, ForgetPipe(s, init)), SRem(SubscribersOf(t), s));
    }
  }

  /** The clearing pipe empties the subscriber's own list, but only the lists of the targets it was built from. */
  lemma ClearMeans(db: Store, s: Uuid, targets: seq<Uuid>, a: Uuid, b: Uuid)
    ensures
      var db' := ExecuteAll(db, ClearPipe(s, targets));
      && (Follows(db', a, b) <==> Follows(db, a, b) && a != s)
      && (Hears(db', a, b) <==> Hears(db, a, b) && !(a == s && b in targets))
  {
    ForgetMeans(db, s, targets, a, b);
    ExecuteAppend(db, ForgetPipe(s, targets), [Del(SubscriptionsOf(s))]);
    ExecuteOne(ExecuteAll(db, ForgetPipe(s, targets)), Del(SubscriptionsOf(s)));
  }
}

/**
 Runs of subscribe, unsubscribe and clear by any number of callers. A clear reads the
 subscriber's list and deletes in a later, separate pipe; `ClearAtOnce` is a clear nobody interrupts.
 */
module PresenceRuns {
  import opened Types
  import opened PresenceStore

  datatype Clearing = Clearing(subscriber: Uuid, targets: seq<Uuid>)

  datatype State = State(db: Store, clears: map<nat, Clearing>)

  const INITIAL := State(map[], map[])

  datatype Step =
    | Subscribe(subscriber: Uuid, targets: seq<Uuid>)
    | Unsubscribe(subscriber: Uuid, targets: seq<Uuid>)
    | ClearRead(call: nat, subscriber: Uuid, targets: seq<Uuid>)
    | ClearWrite(call: nat)
    | Drop(call: nat)
    | ClearAtOnce(subscriber: Uuid, targets: seq<Uuid>)

  /** `targets` lists the subscriber's set, in whatever order, and there is something to clear. */
  predicate Lists(db: Store, subscriber: Uuid, targets: seq<Uuid>) {
    targets != [] && Elems(targets) == Members(db, SubscriptionsOf(subscriber))
  }

  function Apply(st: State, step: Step): State {
    match step
    case Subscribe(s, targets) => st.(db := ExecuteAll(st.db, SubscribePipe(s, targets)))
    case Unsubscribe(s, targets) => st.(db := ExecuteAll(st.db, UnsubscribePipe(s, targets)))
    case ClearRead(call, s, targets) =>
      if call !in st.clears && Lists(st.db, s, targets) then st.(clears := st.clears[call := Clearing(s, targets)])
      else st
    case ClearWrite(call) =>
      if call in st.clears then
        State(ExecuteAll(st.db, ClearPipe(st.clears[call].subscriber, st.clears[call].targets)), st.clears - {call})
      else st
    case Drop(call) => st.(clears := st.clears - {call})
    case ClearAtOnce(s, targets) =>
      if Lists(st.db, s, targets) then st.(db := ExecuteAll(st.db, ClearPipe(s, targets))) else st
  }

  function Run(steps: seq<Step>): State {
    if steps == [] then INITIAL else Apply(Run(steps[..|steps| - 1]), steps[|steps| - 1])
  }

  ghost predicate OneWay(db: Store) {
    && (forall s, t :: Follows(db, s, t) ==> Hears(db, s, t))
    && (forall s, t :: Follows(db, s, t) || Hears(db, s, t) ==> s != t)
  }

  ghost predicate Mirrored(db: Store) {
    forall s, t :: Follows(db, s, t) <==> Hears(db, s, t)
  }

  /** What a step means for one pair of users. */
  lemma ApplyMeans(st: State, step: Step, a: Uuid, b: Uuid)
    ensures
      var db' := Apply(st, step).db;
      match step
      case Subscribe(s, targets) =>
        && (Follows(db', a, b) <==> Follows(st.db, a, b) || (a == s && b != s && b in targets))
        && (Hears(db', a, b) <==> Hears(st.db, a, b) || (a == s && b != s && b in targets))
      case Unsubscribe(s, targets) =>
        && (Follows(db', a, b) <==> Follows(st.db, a, b) && !(a == s && b in targets))
        && (Hears(db', a, b) <==> Hears(st.db, a, b) && !(a == s && b in targets))
      case ClearWrite(call) =>
        call in st.clears ==>
          && (Follows(db', a, b) <==> Follows(st.db, a, b) && a != st.clears[call].subscriber)
          && (Hears(db', a, b) <==>
              Hears(st.db, a, b)
              && !(a == st.clears[call].subscriber && b in st.clears[call].targets))
      case ClearAtOnce(s, targets) =>
        Lists(st.db, s, targets) ==>
          && (Follows(db', a, b) <==> Follows(st.db, a, b) && a != s)
          && (Hears(db', a, b) <==> Hears(st.db, a, b) && !(a == s && b in targets))
      case _ => db' == st.db
  {
    match step {
      case Subscribe(s, targets) => SubscribeMeans(st.db, s, targets, a, b);
      case Unsubscribe(s, targets) => UnsubscribeMeans(st.db, s, targets, a, b);
      case ClearWrite(call) =>
        if call in st.clears { ClearMeans(st.db, st.clears[call].subscriber, st.clears[call].targets, a, b); }
      case ClearAtOnce(s, targets) => ClearMeans(st.db, s, targets, a, b);
      case _ =>
    }
  }

  /**
   In every interleaving, whoever lists a target is on the target's list, so no update is
   missed; and nobody is subscribed to themselves.
   */
  lemma {:induction false} SubscribersAreHeard(steps: seq<Step>)
    ensures OneWay(Run(steps).db)
  {
    if steps != [] {
      var st, last := Run(steps[..|steps| - 1]), steps[|steps| - 1];
      SubscribersAreHeard(steps[..|steps| - 1]);
      forall a, b ensures Follows(Run(steps).db, a, b) ==> Hears(Run(steps).db, a, b) {
        ApplyMeans(st, last, a, b);
      }
      forall a, b ensures Follows(Run(steps).db, a, b) || Hears(Run(steps).db, a, b) ==> a != b {
        ApplyMeans(st, last, a, b);
      }
    }
  }

  /** When every clear is one step, the two families of sets are exact inverses. */
  lemma {:induction false} UninterruptedClearsKeepTheMirror(steps: seq<Step>)
    requires forall i :: 0 <= i < |steps| ==> !steps[i].ClearRead?
    ensures Mirrored(Run(steps).db) && Run(steps).clears == map[]
  {
    if steps != [] {
      var init, last := steps[..|steps| - 1], steps[|steps| - 1];
      var st := Run(init);
      UninterruptedClearsKeepTheMirror(init);
      assert !steps[|steps| - 1].ClearRead?;
      forall a, b ensures Follows(Run(steps).db, a, b) <==> Hears(Run(steps).db, a, b) {
        ApplyMeans(st, last, a, b);
        assert last.ClearAtOnce? ==> (b in last.targets <==> b in Elems(last.targets));
      }
    }
  }

  /**
   A clear's write keeps the mirror if and only if the subscriber has not subscribed to anyone
   since the read that is not on the list that was read.
   */
  lemma WriteKeepsTheMirrorExactlyWhen(st: State, call: nat)
    requires Mirrored(st.db) && call in st.clears
    ensures
      var c := st.clears[call];
      Mirrored(Apply(st, ClearWrite(call)).db) <==> Members(st.db, SubscriptionsOf(c.subscriber)) <= Elems(c.targets)
  {
    var c, db' := st.clears[call], Apply(st, ClearWrite(call)).db;
    if Members(st.db, SubscriptionsOf(c.subscriber)) <= Elems(c.targets) {
      forall a, b ensures Follows(db', a, b) <==> Hears(db', a, b) {
        ApplyMeans(st, ClearWrite(call), a, b);
        assert Follows(st.db, c.subscriber, b) ==> b in Elems(c.targets);
      }
    } else {
      var t :| t in Members(st.db, SubscriptionsOf(c.subscriber)) && t !in Elems(c.targets);
      assert Follows(st.db, c.subscriber, t);
      ApplyMeans(st, ClearWrite(call), c.subscriber, t);
      assert Hears(db', c.subscriber, t) && !Follows(db', c.subscriber, t);
    }
  }

  /** `s` is on the list of `t` without following it, and no clear under way will take it off. */
  ghost predicate Leaked(st: State, s: Uuid, t: Uuid) {
    && Hears(st.db, s, t) && !Follows(st.db, s, t)
    && forall call :: call in st.clears && st.clears[call].subscriber == s ==> t !in st.clears[call].targets
  }

  /** A subscribe or unsubscribe request of `s` that names `t`. */
  predicate Names(step: Step, s: Uuid, t: Uuid) {
    (step.Subscribe? || step.Unsubscribe?) && step.subscriber == s && t in step.targets
  }

  /**
   A leaked pair stays leaked until, and only until, its subscriber subscribes to or unsubscribes from that
   target itself.
   */
  lemma LeakEndsExactlyWhen(st: State, step: Step, s: Uuid, t: Uuid)
    requires Leaked(st, s, t) && s != t
    ensures Leaked(Apply(st, step), s, t) <==> !Names(step, s, t)
  {
    ApplyMeans(st, step, s, t);
    match step {
      case ClearRead(_, u, targets) => ListsAll(st.db, u, targets, t);
      case ClearAtOnce(u, targets) => ListsAll(st.db, u, targets, t);
      case _ =>
    }
  }

  lemma ListsAll(db: Store, s: Uuid, targets: seq<Uuid>, t: Uuid)
    ensures Lists(db, s, targets) ==> (t in targets <==> Follows(db, s, t))
  {
    assert t in targets <==> t in Elems(targets);
  }

  /** No later clear repairs a leak, nor anything else but the subscriber's own requests about that target. */
  lemma {:induction false} LeakSurvives(steps: seq<Step>, more: seq<Step>, s: Uuid, t: Uuid)
    requires Leaked(Run(steps), s, t) && s != t
    requires forall i :: 0 <= i < |more| ==> !Names(more[i], s, t)
    ensures Leaked(Run(steps + more), s, t)
  {
    if more == [] {
      assert steps + more == steps;
    } else {
      var init, last := more[..|more| - 1], more[|more| - 1];
      assert !Names(more[|more| - 1], s, t);
      assert (steps + more)[..|steps + more| - 1] == steps + init;
      LeakSurvives(steps, init, s, t);
      LeakEndsExactlyWhen(Run(steps + init), last, s, t);
    }
  }

  /**
   A clear's write leaves a pair leaked whenever its subscriber has come to follow a target
   that the read did not list and no other clear under way lists.
   */
  lemma ClearLeaks(st: State, call: nat, t: Uuid)
    requires call in st.clears && Follows(st.db, st.clears[call].subscriber, t)
      && Hears(st.db, st.clears[call].subscriber, t)
    requires forall c :: c in st.clears && st.clears[c].subscriber == st.clears[call].subscriber ==>
      t !in st.clears[c].targets
    ensures Leaked(Apply(st, ClearWrite(call)), st.clears[call].subscriber, t)
  {
    ApplyMeans(st, ClearWrite(call), st.clears[call].subscriber, t);
  }

  /** A subscription between the two halves of a clear leaks. */
  lemma SubscriptionLeaks()
    ensures
      var st := Run([Subscribe(1, [2]), ClearRead(0, 1, [2]), Subscribe(1, [3]), ClearWrite(0)]);
      Leaked(st, 1, 3) && !Mirrored(st.db)
  {
    var s1 := Apply(INITIAL, Subscribe(1, [2]));
    var s2 := Apply(s1, ClearRead(0, 1, [2]));
    var s3 := Apply(s2, Subscribe(1, [3]));
    forall b ensures b in Members(s1.db, SubscriptionsOf(1)) <==> b in Elems([2]) {
      ApplyMeans(INITIAL, Subscribe(1, [2]), 1, b);
    }
    assert Lists(s1.db, 1, [2]);
    ApplyMeans(s2, Subscribe(1, [3]), 1, 3);
    ClearLeaks(s3, 0, 3);
    RunFour(Subscribe(1, [2]), ClearRead(0, 1, [2]), Subscribe(1, [3]), ClearWrite(0));
  }

  lemma RunFour(a: Step, b: Step, c: Step, d: Step)
    ensures Run([a, b, c, d]) == Apply(Apply(Apply(Apply(INITIAL, a), b), c), d)
  {
    assert [a, b, c, d][..3] == [a, b, c] && [a, b, c][..2] == [a, b] && [a, b][..1] == [a] && [a][..0] == [];
    assert Run([a]) == Apply(INITIAL, a);
    assert Run([a, b]) == Apply(Run([a]), b);
    assert Run([a, b, c]) == Apply(Run([a, b]), c);
  }

  lemma OneMore(trace: seq<Step>, step: Step)
    ensures Run(trace + [step]) == Apply(Run(trace), step)
  {
    assert (trace + [step])[..|trace|] == trace;
  }
}

/** The tracker's methods, with other callers running between the two halves of a clear. */
module PresenceTracking {
  import opened Types
  import opened PresenceStore
  import opened PresenceRuns

  predicate Foreign(step: Step, call: nat) {
    match step
    case ClearWrite(c) => c != call
    case Drop(c) => c != call
    case _ => true
  }

  class PresenceTracker {
    const redis: bool
    var state: State
    ghost var trace: seq<Step>

    ghost predicate Traced()
      reads this
    {
      state == Run(trace)
    }

    constructor (redis: bool)
      ensures this.redis == redis && Traced() && trace == []
    {
      this.redis := redis;
      state, trace := INITIAL, [];
    }

    method Interfere(call: nat)
      requires Traced() && call in state.clears
      modifies this
      ensures Traced() && old(trace) <= trace
      ensures call in state.clears && state.clears[call] == old(state).clears[call]
    {
      var n: nat := *;
      while n > 0
        invariant Traced() && old(trace) <= trace
        invariant call in state.clears && state.clears[call] == old(state).clears[call]
      {
        var step: Step := *;
        if Foreign(step, call) {
          OneMore(trace, step);
          state := Apply(state, step);
          trace := trace + [step];
        }
        n := n - 1;
      }
    }

    method SubscribeTo(subscriber: Uuid, targets: seq<Uuid>)
      requires Traced()
      modifies this
      ensures Traced() && old(trace) <= trace
      ensures forall a, b :: Follows(state.db, a, b) <==>
                Follows(old(state).db, a, b) || (redis && a == subscriber && b != subscriber && b in targets)
      ensures forall a, b :: Hears(state.db, a, b) <==>
                Hears(old(state).db, a, b) || (redis && a == subscriber && b != subscriber && b in targets)
      ensures OneWay(state.db)
    {
      SubscribersAreHeard(trace);
      if targets == [] || !redis {
        return;
      }
      var pipe: seq<Command> := [];
      for i := 0 to |targets|
        invariant pipe == SubscribePipe(subscriber, targets[..i])
      {
        assert targets[..i + 1][..i] == targets[..i];
        var target := targets[i];
        if target == subscriber {
          continue;
        }
        pipe := pipe + [SAdd(SubscribersOf(target), subscriber), Expire(SubscribersOf(target)),
                        SAdd(SubscriptionsOf(subscriber), target)];
      }
      assert targets[..|targets|] == targets;
      var step := Subscribe(subscriber, targets);
      forall a, b {
        ApplyMeans(state, step, a, b);
      }
      OneMore(trace, step);
      ExecuteAppend(state.db, pipe, [Expire(SubscriptionsOf(subscriber))]);
      ExecuteOne(ExecuteAll(state.db, pipe), Expire(SubscriptionsOf(subscriber)));
      state := state.(db := ExecuteAll(state.db, pipe + [Expire(SubscriptionsOf(subscriber))]));
      trace := trace + [step];
      SubscribersAreHeard(trace);
    }

    method UnsubscribeFrom(subscriber: Uuid, targets: seq<Uuid>)
      requires Traced()
      modifies this
      ensures Traced() && old(trace) <= trace
      ensures forall a, b :: Follows(state.db, a, b) <==>
                Follows(old(state).db, a, b) && !(redis && a == subscriber && b in targets)
      ensures forall a, b :: Hears(state.db, a, b) <==>
                Hears(old(state).db, a, b) && !(redis && a == subscriber && b in targets)
    {
      if targets == [] || !redis {
        return;
      }
      var pipe: seq<Command> := [];
      for i := 0 to |targets|
        invariant pipe == UnsubscribePipe(subscriber, targets[..i])
      {
        assert targets[..i + 1][..i] == targets[..i];
        pipe := pipe + [SRem(SubscribersOf(targets[i]), subscriber), SRem(SubscriptionsOf(subscriber), targets[i])];
      }
      assert targets[..|targets|] == targets;
      var step := Unsubscribe(subscriber, targets);
      forall a, b {
        ApplyMeans(state, step, a, b);
      }
      OneMore(trace, step);
      state := state.(db := ExecuteAll(state.db, pipe));
      trace := trace + [step];
    }

    method MembersOf(key: Key) returns (members: seq<Uuid>)
      ensures Elems(members) == Members(state.db, key)
    {
      var left := Members(state.db, key);
      members := [];
      while left != {}
        invariant Elems(members) + left == Members(state.db, key)
      {
        var next :| next in left;
        ElemsAppend(members, next);
        members, left := members + [next], left - {next};
      }
    }

    /** After a clear the subscriber's own list is empty, whatever happened while it ran. */
    method ClearSubscriptions(call: nat, subscriber: Uuid)
      requires Traced() && call !in state.clears
      modifies this
      ensures Traced() && old(trace) <= trace && OneWay(state.db)
      ensures redis ==> forall b :: !Follows(state.db, subscriber, b)
    {
      SubscribersAreHeard(trace);
      if !redis {
        return;
      }
      var targets := MembersOf(SubscriptionsOf(subscriber));
      if targets == [] {
        assert Members(state.db, SubscriptionsOf(subscriber)) == Elems(targets);
        return;
      }
      OneMore(trace, ClearRead(call, subscriber, targets));
      state := state.(clears := state.clears[call := Clearing(subscriber, targets)]);
      trace := trace + [ClearRead(call, subscriber, targets)];
      Interfere(call);
      Erase(call, subscriber, targets);
      SubscribersAreHeard(trace);
    }

    method Erase(call: nat, subscriber: Uuid, targets: seq<Uuid>)
      requires Traced() && call in state.clears && state.clears[call] == Clearing(subscriber, targets)
      modifies this
      ensures Traced() && trace == old(trace) + [ClearWrite(call)]
      ensures forall b :: !Follows(state.db, subscriber, b)
    {
      var pipe: seq<Command> := [];
      for i := 0 to |targets|
        invariant pipe == ForgetPipe(subscriber, targets[..i])
      {
        assert targets[..i + 1][..i] == targets[..i];
        pipe := pipe + [SRem(SubscribersOf(targets[i]), subscriber)];
      }
      assert targets[..|targets|] == targets;
      pipe := pipe + [Del(SubscriptionsOf(subscriber))];
      forall b {
        ApplyMeans(state, ClearWrite(call), subscriber, b);
      }
      OneMore(trace, ClearWrite(call));
      state := State(ExecuteAll(state.db, pipe), state.clears - {call});
      trace := trace + [ClearWrite(call)];
    }
  }
}

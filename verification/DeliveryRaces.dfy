/** Two drains of one user on one server at once: what at-most-once delivery hangs on. */
module DeliveryRaces {
  import opened Types
  import opened Subscriptions
  import opened DeliveryProtocol
  import opened DeliverySafety
  import opened DeliveryAccounting
  import opened DeliveryCoverage

  /** Where further steps lead from a state. */
  function Continue(cfg: Config, st: State, more: seq<Step>): State
    decreases |more|
  {
    if more == [] then st else Continue(cfg, Apply(cfg, st, more[0]), more[1..])
  }

  lemma {:induction false} RunContinues(cfg: Config, steps: seq<Step>, more: seq<Step>)
    ensures Run(cfg, steps + more) == Continue(cfg, Run(cfg, steps), more)
    decreases |more|
  {
    if more == [] {
      assert steps + more == steps;
    } else {
      var step, rest := more[0], more[1..];
      RunThen(cfg, steps, step);
      RunContinues(cfg, steps + [step], rest);
      SplitFirst(steps, more);
    }
  }

  lemma ContinueOne(cfg: Config, st: State, step: Step, rest: seq<Step>)
    ensures Continue(cfg, st, [step] + rest) == Continue(cfg, Apply(cfg, st, step), rest)
  {
    assert ([step] + rest)[1..] == rest;
  }

  /** What the drains at `at` have taken out of the queue, or are about to. */
  function Taken(st: State, at: Home, m: Uuid): nat {
    InReads(Entries(st.fetched, at), m) + Count(Entries(st.draining, at), m)
  }

  ghost predicate NoReads(steps: seq<Step>) {
    forall k :: 0 <= k < |steps| ==> !steps[k].ReadQueue?
  }

  lemma DeletingHandsOver(cfg: Config, st: State, at: Home, conn: Uuid, m: Uuid)
    requires LivesAt(st, conn, at) && Entries(st.fetched, at) != []
    ensures
      var st' := Apply(cfg, st, DeleteQueue(at, 0));
      && LivesAt(st', conn, at) && Received(st', conn, m) == Received(st, conn, m)
        && Taken(st', at, m) == Taken(st, at, m)
      && |Entries(st'.fetched, at)| < |Entries(st.fetched, at)|
  {
    DeletedQueue(cfg, st, at, 0, at, m);
  }

  lemma SendingHandsOver(cfg: Config, st: State, at: Home, conn: Uuid, m: Uuid)
    requires LivesAt(st, conn, at) && Entries(st.draining, at) != []
    ensures
      var st' := Apply(cfg, st, SendDrained(at));
      && LivesAt(st', conn, at)
      && Received(st', conn, m) + Taken(st', at, m) == Received(st, conn, m) + Taken(st, at, m)
      && Entries(st'.fetched, at) == Entries(st.fetched, at)
      && |Entries(st'.draining, at)| < |Entries(st.draining, at)|
  {
    var batch := Entries(st.draining, at);
    TailCounts(batch, m);
    SendCounts(st.(draining := st.draining[at := batch[1..]]), Everyone(st, at), batch[0], conn, m);
  }

  /** The drains under way finish, and a connection there receives all they have taken. */
  lemma {:induction false} DrainsFinish(cfg: Config, st: State, at: Home, conn: Uuid, m: Uuid) returns (more: seq<Step>)
    requires LivesAt(st, conn, at)
    ensures NoReads(more)
    ensures
      var st' := Continue(cfg, st, more);
      LivesAt(st', conn, at) && Received(st', conn, m) == Received(st, conn, m) + Taken(st, at, m)
    decreases |Entries(st.fetched, at)|, |Entries(st.draining, at)|
  {
    if Entries(st.fetched, at) == [] && Entries(st.draining, at) == [] {
      more := [];
    } else {
      var step := if Entries(st.fetched, at) != [] then DeleteQueue(at, 0) else SendDrained(at);
      if Entries(st.fetched, at) != [] {
        DeletingHandsOver(cfg, st, at, conn, m);
      } else {
        SendingHandsOver(cfg, st, at, conn, m);
      }
      var rest := DrainsFinish(cfg, Apply(cfg, st, step), at, conn, m);
      more := [step] + rest;
      ContinueOne(cfg, st, step, rest);
    }
  }

  lemma {:induction false} NewId(ids: set<Uuid>) returns (other: Uuid)
    ensures forall id :: id in ids ==> id < other
    decreases ids
  {
    other := 0;
    if ids != {} {
      var id :| id in ids;
      var above := NewId(ids - {id});
      other := Max(above, id + 1);
      forall x | x in ids ensures x < other {
        assert x == id || x in ids - {id};
      }
    }
  }

  ghost predicate ReceivesTwice(st: State, at: Home, m: Uuid) {
    exists conn :: conn in st.home && st.home[conn] == at && Received(st, conn, m) >= 2
  }

  /** After a read that overlaps with another one of the message, some continuation delivers it twice. */
  lemma OverlapDelivers(cfg: Config, st: State, at: Home, m: Uuid) returns (more: seq<Step>)
    requires Overlaps(st, ReadQueue(at), at, m)
    ensures NoReads(more) && ReceivesTwice(Continue(cfg, Apply(cfg, st, ReadQueue(at)), more), at, m)
  {
    var read := Apply(cfg, st, ReadQueue(at));
    InReadsAppend(Entries(st.fetched, at), Entries(st.queues, at.user), m);
    assert m in multiset(Entries(st.queues, at.user));
    var conn := NewId(read.home.Keys);
    var connected := Apply(cfg, read, Connect(conn, at));
    assert LivesAt(connected, conn, at) && Taken(connected, at, m) >= 2;
    var rest := DrainsFinish(cfg, connected, at, conn, m);
    more := [Connect(conn, at)] + rest;
    ContinueOne(cfg, read, Connect(conn, at), rest);
    assert Received(Continue(cfg, read, more), conn, m) >= 2;
  }

  /** From step `n` on, no drain for the user on that server reads the message while another one has read it. */
  ghost predicate ApartFrom(cfg: Config, steps: seq<Step>, n: nat, at: Home, m: Uuid) {
    forall k :: n <= k < |steps| ==> !OverlapsAt(cfg, steps, k, at, m)
  }

  ghost predicate MayBeReceivedTwice(cfg: Config, steps: seq<Step>, at: Home, m: Uuid) {
    exists more :: ApartFrom(cfg, steps + more, |steps|, at, m) && ReceivesTwice(Run(cfg, steps + more), at, m)
  }

  lemma ApartThroughout(cfg: Config, steps: seq<Step>, more: seq<Step>, at: Home, m: Uuid)
    requires DrainsApart(cfg, steps, at, m) && ApartFrom(cfg, steps + more, |steps|, at, m)
    ensures DrainsApart(cfg, steps + more, at, m)
  {
    var all := steps + more;
    forall k | 0 <= k < |all| ensures !OverlapsAt(cfg, all, k, at, m) {
      if k < |steps| {
        assert all[..k] == steps[..k];
        assert !OverlapsAt(cfg, steps, k, at, m);
      }
    }
  }

  lemma NeverTwice(cfg: Config, steps: seq<Step>, at: Home, m: Uuid)
    requires DrainsApart(cfg, steps, at, m)
    ensures !ReceivesTwice(Run(cfg, steps), at, m)
  {
    RunKeepsBudget(cfg, steps, at, m);
  }

  /** The read at the end of the run, taken apart. */
  lemma ReadApart(cfg: Config, steps: seq<Step>, at: Home, m: Uuid)
    requires DrainsApart(cfg, steps, at, m) && !Overlaps(Run(cfg, steps), ReadQueue(at), at, m)
    ensures DrainsApart(cfg, steps + [ReadQueue(at)], at, m)
  {
    var all := steps + [ReadQueue(at)];
    forall k | |steps| <= k < |all| ensures !OverlapsAt(cfg, all, k, at, m) {
      assert all[..k] == steps;
    }
    ApartThroughout(cfg, steps, [ReadQueue(at)], at, m);
  }

  /**
   When a drain reads the queue in a run whose drains have been apart so far, the message may come to be
   received twice there, without any further overlap, if and only if it is still queued and another drain
   there has read it and not deleted it.
   */
  lemma TwiceExactlyWhen(cfg: Config, steps: seq<Step>, at: Home, m: Uuid)
    requires DrainsApart(cfg, steps, at, m)
    ensures MayBeReceivedTwice(cfg, steps + [ReadQueue(at)], at, m) <==> Overlaps(Run(cfg, steps), ReadQueue(at), at, m)
  {
    var read := steps + [ReadQueue(at)];
    RunThen(cfg, steps, ReadQueue(at));
    if Overlaps(Run(cfg, steps), ReadQueue(at), at, m) {
      var more := OverlapDelivers(cfg, Run(cfg, steps), at, m);
      RunContinues(cfg, read, more);
      forall k | |read| <= k < |read + more| ensures !OverlapsAt(cfg, read + more, k, at, m) {
        assert (read + more)[k] == more[k - |read|];
      }
    } else {
      ReadApart(cfg, steps, at, m);
      forall more | ApartFrom(cfg, read + more, |read|, at, m) ensures !ReceivesTwice(Run(cfg, read + more), at, m) {
        ApartThroughout(cfg, read, more, at, m);
        NeverTwice(cfg, read + more, at, m);
      }
    }
  }

  // ---- Which configurations deliver at most once.

  lemma PushedAt(cfg: Config, st: State, t: Task)
    requires t.message.id in st.tasks && st.tasks[t.message.id] == t
    requires t.rest != [] && t.phase == Enqueue && Entries(st.queues, t.rest[0]) == []
    ensures
      var st' := AdvanceTask(cfg, st, t, []);
      Entries(st'.queues, t.rest[0]) == [t.message.id] && st'.fetched == st.fetched
  {
    var pushed := Perform(st, Push, Payload(t.rest[0], t.message.id));
    assert ActionOf(st, t) == Push;
    assert Entries(pushed.queues, t.rest[0]) == [] + [t.message.id] && pushed.fetched == st.fetched;
    assert AdvanceTask(cfg, st, t, []) == WithTask(pushed, TaskAfter(cfg, st, t, []));
  }

  /** The run of the lost message, had its push succeeded. */
  lemma PushSucceeds(cfg: Config) returns (steps: seq<Step>)
    requires cfg.clustered && cfg.queueing
    ensures Entries(Run(cfg, steps).queues, 7) == [5] && Run(cfg, steps).fetched == map[]
  {
    var before := LostAtThePush(cfg);
    RunThen(cfg, before, Advance(5, []));
    steps := before + [Advance(5, [])];
    PushedAt(cfg, Run(cfg, before), LOST_CALL.(phase := Enqueue));
  }

  /** A message in the queue, and a drain on server 2 that has read it. */
  lemma QueuedAndRead(cfg: Config) returns (steps: seq<Step>)
    requires cfg.clustered && cfg.queueing
    ensures Overlaps(Run(cfg, steps), ReadQueue(Home(2, 7)), Home(2, 7), 5)
  {
    var queued := PushSucceeds(cfg);
    RunThen(cfg, queued, ReadQueue(Home(2, 7)));
    steps := queued + [ReadQueue(Home(2, 7))];
    InReadsAppend([], [5], 5);
    assert [] + [[5]] == [[5]];
  }

  /** A run in which a connection receives a message twice: two reconnects drain the queue at once. */
  lemma OverlappingDrainsDeliverTwice(cfg: Config) returns (steps: seq<Step>)
    requires cfg.clustered && cfg.queueing
    ensures ReceivesTwice(Run(cfg, steps), Home(2, 7), 5)
  {
    var before := QueuedAndRead(cfg);
    var more := OverlapDelivers(cfg, Run(cfg, before), Home(2, 7), 5);
    RunThen(cfg, before, ReadQueue(Home(2, 7)));
    steps := before + [ReadQueue(Home(2, 7))] + more;
    RunContinues(cfg, before + [ReadQueue(Home(2, 7))], more);
  }

  /** Without a cluster router or without a queue the loop never gets to a push. */
  ghost predicate NeverPushes(cfg: Config, t: Task) {
    t.phase != Enqueue && (!cfg.clustered ==> t.phase.Filtering? || t.phase.LocalSend?)
  }

  ghost predicate NothingQueued(cfg: Config, st: State) {
    st.queuedFor == {} && forall id :: id in st.tasks ==> NeverPushes(cfg, st.tasks[id])
  }

  lemma AdvancePushesNothing(cfg: Config, st: State, t: Task, order: seq<Uuid>)
    requires !(cfg.clustered && cfg.queueing) && NeverPushes(cfg, t) && t.rest != []
    ensures NeverPushes(cfg, TaskAfter(cfg, st, t, order)) && ActionOf(st, t) != Push
  {
  }

  lemma PerformQueuesNothing(st: State, action: Action, payload: Payload)
    requires action != Push
    ensures Perform(st, action, payload).queuedFor == st.queuedFor && Perform(st, action, payload).tasks == st.tasks
  {
  }

  lemma AdvanceQueuesNothing(cfg: Config, st: State, t: Task, order: seq<Uuid>)
    requires !(cfg.clustered && cfg.queueing) && NothingQueued(cfg, st) && NeverPushes(cfg, t)
    ensures NothingQueued(cfg, AdvanceTask(cfg, st, t, order))
  {
    if t.rest != [] {
      AdvancePushesNothing(cfg, st, t, order);
      PerformQueuesNothing(st, ActionOf(st, t), Payload(t.rest[0], t.message.id));
    }
  }

  lemma OthersQueueNothing(cfg: Config, st: State, step: Step)
    requires NothingQueued(cfg, st) && !step.Advance? && !step.Route?
    ensures NothingQueued(cfg, Apply(cfg, st, step))
  {
    if step.FailPush? {
      assert !Pushing(st, step.id);
    } else {
      OthersLogNothing(cfg, st, step);
      OthersKeepTasks(cfg, st, step);
    }
  }

  lemma OthersKeepTasks(cfg: Config, st: State, step: Step)
    requires !step.Advance? && !step.Route? && !step.FailPush?
    ensures forall id :: id in Apply(cfg, st, step).tasks ==>
      id in st.tasks && Apply(cfg, st, step).tasks[id] == st.tasks[id]
  {
  }

  lemma RouteQueuesNothing(cfg: Config, st: State, step: Step)
    requires NothingQueued(cfg, st) && step.Route?
    ensures NothingQueued(cfg, Apply(cfg, st, step))
  {
  }

  lemma {:induction false} RunQueuesNothing(cfg: Config, steps: seq<Step>)
    requires !(cfg.clustered && cfg.queueing)
    ensures NothingQueued(cfg, Run(cfg, steps))
  {
    if steps == [] {
    } else {
      var init, last := steps[..|steps| - 1], steps[|steps| - 1];
      RunQueuesNothing(cfg, init);
      RunIsOrderly(cfg, init);
      match last {
        case Advance(id, order) =>
          if id in Run(cfg, init).tasks { AdvanceQueuesNothing(cfg, Run(cfg, init), Run(cfg, init).tasks[id], order); }
        case Route(_, _, _, _) => RouteQueuesNothing(cfg, Run(cfg, init), last);
        case _ => OthersQueueNothing(cfg, Run(cfg, init), last);
      }
    }
  }

  /** Nothing is ever in a queue, so no two drains read the same message. */
  lemma EmptyQueuesAreApart(cfg: Config, steps: seq<Step>, at: Home, m: Uuid)
    requires !(cfg.clustered && cfg.queueing)
    ensures DrainsApart(cfg, steps, at, m)
  {
    forall k | 0 <= k < |steps| ensures !OverlapsAt(cfg, steps, k, at, m) {
      RunQueuesNothing(cfg, steps[..k]);
      RunKeepsAccounts(cfg, steps[..k]);
      assert Payload(at.user, m) !in Run(cfg, steps[..k]).queuedFor;
    }
  }

  /**
   At-most-once delivery holds in every run if and only if there is no cluster router or no offline queue:
   with both, nothing keeps two reconnects of one user from draining the queue at once.
   */
  lemma AtMostOnceExactlyWhen(cfg: Config)
    ensures (forall steps, conn, m :: ReceivesOnce(Run(cfg, steps), conn, m)) <==> !(cfg.clustered && cfg.queueing)
  {
    if cfg.clustered && cfg.queueing {
      var steps := OverlappingDrainsDeliverTwice(cfg);
      var st := Run(cfg, steps);
      var conn :| conn in st.home && st.home[conn] == Home(2, 7) && Received(st, conn, 5) >= 2;
      assert !ReceivesOnce(Run(cfg, steps), conn, 5);
    } else {
      forall steps, conn, m ensures ReceivesOnce(Run(cfg, steps), conn, m) {
        if conn in Run(cfg, steps).home {
          EmptyQueuesAreApart(cfg, steps, Run(cfg, steps).home[conn], m);
        }
        AtMostOnce(cfg, steps, conn, m);
      }
    }
  }
}

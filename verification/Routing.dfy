/**
 The routing code itself: the participant loop of the message router and the server loop of
 the cluster router, run while every other component keeps stepping. Between any two atomic
 operations of a routing call the rest of the system may take any number of steps
 (`Interfere`), and the calls are proved to take the steps of the delivery protocol, so what
 is proved of every run of the protocol holds of this code under every interleaving.
 */
module Routing {
  import opened Types
  import opened Subscriptions
  import opened DeliveryProtocol
  import opened DeliverySafety
  import opened DeliveryAccounting
  import opened DeliveryCoverage
  import opened DeliveryReceipts

  /** A step of anything but the routing call of message `id`. */
  predicate Foreign(step: Step, id: Uuid) {
    match step
    case Advance(other, _) => other != id
    case FailPush(other) => other != id
    case Abort(other) => other != id
    case _ => true
  }

  lemma AdvanceKeepsOthers(cfg: Config, st: State, t: Task, order: seq<Uuid>, id: Uuid)
    requires id in st.tasks && id != t.message.id
    ensures id in AdvanceTask(cfg, st, t, order).tasks && AdvanceTask(cfg, st, t, order).tasks[id] == st.tasks[id]
  {
    if t.rest != [] {
      PerformKeepsTasks(st, ActionOf(st, t), Payload(t.rest[0], t.message.id));
      assert TaskAfter(cfg, st, t, order).message == t.message;
    }
  }

  lemma SkipPushKeepsOthers(st: State, t: Task, id: Uuid)
    requires id in st.tasks && id != t.message.id && t.rest != []
    ensures id in SkipPush(st, t).tasks && SkipPush(st, t).tasks[id] == st.tasks[id]
  {
  }

  lemma ForeignKeepsTask(cfg: Config, st: State, step: Step, id: Uuid)
    requires TasksKeyed(st) && id in st.tasks && id in st.routed && Foreign(step, id)
    ensures id in Apply(cfg, st, step).tasks && Apply(cfg, st, step).tasks[id] == st.tasks[id]
  {
    if step.Advance? && step.id in st.tasks {
      AdvanceKeepsOthers(cfg, st, st.tasks[step.id], step.order, id);
    } else if step.FailPush? && Pushing(st, step.id) {
      SkipPushKeepsOthers(st, st.tasks[step.id], id);
    }
  }

  lemma OneMore(cfg: Config, trace: seq<Step>, step: Step)
    ensures Run(cfg, trace + [step]) == Apply(cfg, Run(cfg, trace), step)
  {
    assert (trace + [step])[..|trace|] == trace;
  }

  /** At some moment since `from`, `has_user` would have answered `answer`. */
  ghost predicate Answered(cfg: Config, trace: seq<Step>, from: nat, at: Home, answer: bool) {
    exists i :: from <= i <= |trace| && HasUser(Run(cfg, trace[..i]), at) == answer
  }

  lemma StillAnswered(cfg: Config, before: seq<Step>, trace: seq<Step>, from: nat, at: Home, answer: bool)
    requires before <= trace && Answered(cfg, before, from, at, answer)
    ensures Answered(cfg, trace, from, at, answer)
  {
    var i :| from <= i <= |before| && HasUser(Run(cfg, before[..i]), at) == answer;
    assert trace[..i] == before[..i];
  }

  /** The routing step that performs an action, put together. */
  lemma Performed(cfg: Config, st: State, t: Task, t': Task, order: seq<Uuid>)
    requires t.message.id in st.tasks && st.tasks[t.message.id] == t && t.rest != []
    requires t' == TaskAfter(cfg, st, t, order)
    ensures Apply(cfg, st, Advance(t.message.id, order))
            == WithTask(Perform(st, ActionOf(st, t), Payload(t.rest[0], t.message.id)), t')
  {
  }

  lemma {:induction false} RunGrowsLogs(cfg: Config, before: seq<Step>, trace: seq<Step>)
    requires before <= trace
    ensures LogsGrow(Run(cfg, before), Run(cfg, trace))
    decreases |trace|
  {
    if |before| == |trace| {
      assert before == trace;
    } else {
      var init := trace[..|trace| - 1];
      RunGrowsLogs(cfg, before, init);
      ApplyGrowsLogs(cfg, Run(cfg, init), trace[|trace| - 1]);
    }
  }

  /** Step `k` of the trace is the routing call's own, taken from `t`: by `AdvanceTask` that says what it did. */
  ghost predicate TookFrom(cfg: Config, trace: seq<Step>, k: nat, t: Task) {
    && k < |trace| && trace[k].Advance? && trace[k].id == t.message.id
    && var st := Run(cfg, trace[..k]); t.message.id in st.tasks && st.tasks[t.message.id] == t
  }

  lemma StillTook(cfg: Config, before: seq<Step>, trace: seq<Step>, k: nat, t: Task)
    requires before <= trace && TookFrom(cfg, before, k, t)
    ensures TookFrom(cfg, trace, k, t)
  {
    assert trace[..k] == before[..k];
  }

  /**
   The first `|at|` of the listed servers were taken one after the other, each by the step at its position
   of `at`.
   */
  ghost predicate ServedInOrder(cfg: Config, trace: seq<Step>, from: nat, t: Task, servers: seq<Uuid>, at: seq<nat>) {
    at == []
    || (var n := |at| - 1;
        && n < |servers| && (if n == 0 then from else at[n - 1] + 1) <= at[n]
        && TookFrom(cfg, trace, at[n], t.(phase := Fanout(servers[n..])))
        && ServedInOrder(cfg, trace, from, t, servers, at[..n]))
  }

  lemma {:induction false} StillServed(cfg: Config, before: seq<Step>, trace: seq<Step>, from: nat, t: Task,
                                       servers: seq<Uuid>, at: seq<nat>)
    requires before <= trace && ServedInOrder(cfg, before, from, t, servers, at)
    ensures ServedInOrder(cfg, trace, from, t, servers, at)
  {
    if at != [] {
      var n := |at| - 1;
      StillTook(cfg, before, trace, at[n], t.(phase := Fanout(servers[n..])));
      StillServed(cfg, before, trace, from, t, servers, at[..n]);
    }
  }

  lemma LastServedBefore(cfg: Config, trace: seq<Step>, from: nat, t: Task, servers: seq<Uuid>, at: seq<nat>)
    requires ServedInOrder(cfg, trace, from, t, servers, at) && at != []
    ensures at[|at| - 1] < |trace|
  {
  }

  lemma AppendServed(cfg: Config, trace: seq<Step>, from: nat, t: Task, servers: seq<Uuid>, at: seq<nat>, k: nat)
    requires ServedInOrder(cfg, trace, from, t, servers, at) && |at| < |servers|
    requires (if at == [] then from else at[|at| - 1] + 1) <= k
      && TookFrom(cfg, trace, k, t.(phase := Fanout(servers[|at|..])))
    ensures ServedInOrder(cfg, trace, from, t, servers, at + [k])
  {
    assert (at + [k])[..|at|] == at;
  }

  lemma ServedSoFar(cfg: Config, before: seq<Step>, trace: seq<Step>, from: nat, t: Task, servers: seq<Uuid>,
                    at: seq<nat>, k: nat, ok: bool)
      returns (at': seq<nat>)
    requires from <= |before| <= k && before <= trace && ServedInOrder(cfg, before, from, t, servers, at)
    requires |at| < |servers|
    requires ok ==> TookFrom(cfg, trace, k, t.(phase := Fanout(servers[|at|..])))
    ensures ServedInOrder(cfg, trace, from, t, servers, at') && |at'| == if ok then |at| + 1 else |at|
  {
    StillServed(cfg, before, trace, from, t, servers, at);
    at' := at;
    if ok {
      if at != [] {
        LastServedBefore(cfg, before, from, t, servers, at);
      }
      AppendServed(cfg, trace, from, t, servers, at, k);
      at' := at + [k];
    }
  }

  /** Step `k` served the first listed server: every open connection of the user here, or one payload on its channel. */
  ghost predicate ServedBy(cfg: Config, trace: seq<Step>, k: nat, t: Task)
    requires k < |trace| && t.rest != [] && t.phase.Fanout? && t.phase.servers != []
  {
    var target := t.phase.servers[0];
    if target == t.server then SentAt(cfg, trace, k, Home(t.server, t.rest[0]), t.message, false)
    else
      Entries(Run(cfg, trace[..k + 1]).channels, target)
      == Entries(Run(cfg, trace[..k]).channels, target) + [Payload(t.rest[0], t.message.id)]
  }

  lemma PublishServes(cfg: Config, st: State, t: Task, order: seq<Uuid>)
    requires t.rest != [] && t.phase.Fanout? && t.phase.servers != [] && t.phase.servers[0] != t.server
    requires t.message.id in st.tasks && st.tasks[t.message.id] == t
    ensures
      var target := t.phase.servers[0];
      Entries(Apply(cfg, st, Advance(t.message.id, order)).channels, target)
      == Entries(st.channels, target) + [Payload(t.rest[0], t.message.id)]
  {
    Performed(cfg, st, t, TaskAfter(cfg, st, t, order), order);
  }

  lemma LocalSendServes(cfg: Config, st: State, t: Task, order: seq<Uuid>)
    requires t.rest != [] && t.phase.Fanout? && t.phase.servers != [] && t.phase.servers[0] == t.server
    requires t.message.id in st.tasks && st.tasks[t.message.id] == t
    ensures GivenTo(st, Apply(cfg, st, Advance(t.message.id, order)), Home(t.server, t.rest[0]), t.message, false)
  {
    var performed := Perform(st, ActionOf(st, t), Payload(t.rest[0], t.message.id));
    Performed(cfg, st, t, TaskAfter(cfg, st, t, order), order);
    SendToGives(st, performed, t, false);
    assert Apply(cfg, st, Advance(t.message.id, order)).delivered == performed.delivered;
  }

  /** A step the server loop takes serves the server at the head of its list. */
  lemma TookServes(cfg: Config, trace: seq<Step>, k: nat, t: Task)
    requires TookFrom(cfg, trace, k, t) && t.rest != [] && t.phase.Fanout? && t.phase.servers != []
    ensures ServedBy(cfg, trace, k, t)
  {
    assert trace[..k + 1] == trace[..k] + [trace[k]];
    OneMore(cfg, trace[..k], trace[k]);
    if t.phase.servers[0] == t.server {
      LocalSendServes(cfg, Run(cfg, trace[..k]), t, trace[k].order);
    } else {
      PublishServes(cfg, Run(cfg, trace[..k]), t, trace[k].order);
    }
  }

  lemma TookLast(cfg: Config, before: seq<Step>, t: Task)
    requires t.message.id in Run(cfg, before).tasks && Run(cfg, before).tasks[t.message.id] == t
    requires t.rest != [] && t.phase.Fanout? && t.phase.servers != []
    ensures
      var trace := before + [Advance(t.message.id, [])];
      TookFrom(cfg, trace, |before|, t) && ServedBy(cfg, trace, |before|, t)
  {
    var trace := before + [Advance(t.message.id, [])];
    assert trace[..|before|] == before;
    TookServes(cfg, trace, |before|, t);
  }

  lemma NextServer(servers: seq<Uuid>, i: nat)
    requires i < |servers|
    ensures servers[i..] != [] && servers[i..][0] == servers[i] && servers[i..][1..] == servers[i + 1..]
  {
  }

  /** A step of the server loop sends or publishes. */
  lemma FanoutIsSent(cfg: Config, st: State, t: Task, order: seq<Uuid>)
    requires t.message.id in st.tasks && st.tasks[t.message.id] == t && t.rest != []
    requires t.phase.Fanout? && t.phase.servers != []
    ensures Payload(t.rest[0], t.message.id) in Apply(cfg, st, Advance(t.message.id, order)).sentFor
  {
    PerformGrowsLogs(st, ActionOf(st, t), Payload(t.rest[0], t.message.id));
  }

  lemma ServedIsSent(cfg: Config, trace: seq<Step>, from: nat, t: Task, servers: seq<Uuid>, at: seq<nat>)
    requires ServedInOrder(cfg, trace, from, t, servers, at) && t.rest != []
    ensures at != [] ==> Payload(t.rest[0], t.message.id) in Run(cfg, trace).sentFor
  {
    if at != [] {
      var k, now := at[|at| - 1], t.(phase := Fanout(servers[|at| - 1..]));
      assert TookFrom(cfg, trace, k, now);
      FanoutIsSent(cfg, Run(cfg, trace[..k]), now, trace[k].order);
      assert trace[..k + 1] == trace[..k] + [trace[k]];
      OneMore(cfg, trace[..k], trace[k]);
      RunGrowsLogs(cfg, trace[..k + 1], trace);
    }
  }

  lemma SendToGives(before: State, performed: State, t: Task, filtered: bool)
    requires t.rest != [] && performed == Perform(before, ActionOf(before, t), Payload(t.rest[0], t.message.id))
    requires ActionOf(before, t) == SendTo(Home(t.server, t.rest[0]),
               if filtered then Interested(before, Home(t.server, t.rest[0]), t.message.conv)
               else Everyone(before, Home(t.server, t.rest[0])))
    ensures GivenTo(before, performed, Home(t.server, t.rest[0]), t.message, filtered)
  {
    forall conn, m
      ensures
        performed.delivered[Delivery(conn, m)]
        == before.delivered[Delivery(conn, m)]
           + if && m == t.message.id && Open(before, conn, Home(t.server, t.rest[0]))
                && (filtered ==> Wants(before, conn, t.message.conv)) then 1 else 0
    {
      EveryoneIsOpen(before, Home(t.server, t.rest[0]), t.message.conv, conn);
      PerformGives(before, ActionOf(before, t), Payload(t.rest[0], t.message.id), conn, m);
      assert Received(performed, conn, m) == performed.delivered[Delivery(conn, m)];
      assert Received(before, conn, m) == before.delivered[Delivery(conn, m)];
    }
  }

  /** The participant's copy has been sent, is in the offline queue, or was lost to a failed push. */
  ghost predicate HeadSettled(st: State, t: Task)
    requires t.rest != []
  {
    Settled(st, Payload(t.rest[0], t.message.id))
  }

  /** The push of the participant's copy has been tried: it is in the queue or was lost. */
  ghost predicate TriedToQueue(st: State, t: Task)
    requires t.rest != []
  {
    Payload(t.rest[0], t.message.id) in st.queuedFor || Payload(t.rest[0], t.message.id) in st.unqueued
  }

  /** The participant has been sent the message here, by a filtered send of its own since `from`. */
  ghost predicate SentHere(cfg: Config, trace: seq<Step>, from: nat, call: Task, user: Uuid) {
    && Payload(user, call.message.id) in Run(cfg, trace).sentFor
    && SentSince(cfg, trace, from, Home(call.server, user), call.message, true)
  }

  /** Whoever was found here has been sent the message. */
  ghost predicate SentToPresent(cfg: Config, trace: seq<Step>, from: nat, call: Task, users: seq<Uuid>,
                                absent: set<Uuid>)
  {
    forall user :: user in users && !Skipped(call.message, call.blocked, user) && user !in absent ==>
      SentHere(cfg, trace, from, call, user)
  }

  lemma StillSentHere(cfg: Config, before: seq<Step>, trace: seq<Step>, from: nat, call: Task, user: Uuid)
    requires before <= trace && SentHere(cfg, before, from, call, user)
    ensures SentHere(cfg, trace, from, call, user)
  {
    RunGrowsLogs(cfg, before, trace);
    StillSent(cfg, before, trace, from, Home(call.server, user), call.message, true);
  }

  lemma StillSentToPresent(cfg: Config, before: seq<Step>, trace: seq<Step>, from: nat, call: Task, users: seq<Uuid>,
                           absent: set<Uuid>)
    requires before <= trace && SentToPresent(cfg, before, from, call, users, absent)
    ensures SentToPresent(cfg, trace, from, call, users, absent)
  {
    forall user | user in users && !Skipped(call.message, call.blocked, user) && user !in absent
      ensures SentHere(cfg, trace, from, call, user)
    {
      StillSentHere(cfg, before, trace, from, call, user);
    }
  }

  lemma SentOneMore(cfg: Config, before: seq<Step>, trace: seq<Step>, from: nat, call: Task, i: nat, absent: set<Uuid>,
                    present: bool)
    requires i < |call.rest| && before <= trace && from <= |before|
    requires SentToPresent(cfg, before, from, call, call.rest[..i], absent)
    requires !Skipped(call.message, call.blocked, call.rest[i]) && present ==>
      SentHere(cfg, trace, |before|, call, call.rest[i])
    ensures SentToPresent(cfg, trace, from, call, call.rest[..i + 1],
                          if present then absent else absent + {call.rest[i]})
  {
    StillSentToPresent(cfg, before, trace, from, call, call.rest[..i], absent);
    assert call.rest[..i + 1] == call.rest[..i] + [call.rest[i]];
  }

  /** Every connection here that is open and wants the conversation throughout the call has received the message. */
  ghost predicate ReachesOpen(cfg: Config, trace: seq<Step>, from: nat, call: Task) {
    forall conn, user ::
      user in call.rest && user != call.message.sender && user !in call.blocked
      && OpenThroughout(cfg, trace, from, conn, Home(call.server, user), call.message.conv) ==>
        Run(cfg, trace).delivered[Delivery(conn, call.message.id)] >= 1
  }

  /** A user with such a connection is found whenever it is asked about. */
  lemma OpenIsFound(cfg: Config, trace: seq<Step>, from: nat, conn: Uuid, at: Home, conv: Uuid)
    requires OpenThroughout(cfg, trace, from, conn, at, conv)
    ensures !Answered(cfg, trace, from, at, false)
  {
    forall i | from <= i <= |trace| ensures HasUser(Run(cfg, trace[..i]), at) {
      assert Open(Run(cfg, trace[..i]), conn, at);
      EveryoneIsOpen(Run(cfg, trace[..i]), at, conv, conn);
    }
  }

  lemma PresentAreReached(cfg: Config, trace: seq<Step>, from: nat, call: Task, absent: set<Uuid>)
    requires Asked(cfg, trace, from, call, call.rest, absent)
    requires SentToPresent(cfg, trace, from, call, call.rest, absent)
    ensures ReachesOpen(cfg, trace, from, call)
  {
    forall conn, user |
      user in call.rest && user != call.message.sender && user !in call.blocked
      && OpenThroughout(cfg, trace, from, conn, Home(call.server, user), call.message.conv)
      ensures Run(cfg, trace).delivered[Delivery(conn, call.message.id)] >= 1
    {
      OpenIsFound(cfg, trace, from, conn, Home(call.server, user), call.message.conv);
      assert Answered(cfg, trace, from, Home(call.server, user), user !in absent);
      assert SentHere(cfg, trace, from, call, user);
      SentReachesOpen(cfg, trace, from, Home(call.server, user), call.message, true, conn);
    }
  }

  predicate Skipped(message: ChatMessage, blocked: set<Uuid>, user: Uuid) {
    user == message.sender || user in blocked
  }

  /** The push notification list: who was absent, is not muted, and is a recipient, in participant order. */
  function PushList(participants: seq<Uuid>, message: ChatMessage, blocked: set<Uuid>, muted: set<Uuid>,
                    absent: set<Uuid>): seq<Uuid> {
    if participants == [] then []
    else
      var user := participants[|participants| - 1];
      PushList(participants[..|participants| - 1], message, blocked, muted, absent)
      + if !Skipped(message, blocked, user) && user in absent && user !in muted then [user] else []
  }

  lemma {:induction false} PushListIgnores(participants: seq<Uuid>, message: ChatMessage, blocked: set<Uuid>,
                                           muted: set<Uuid>, absent: set<Uuid>, user: Uuid)
    requires user !in participants
    ensures PushList(participants, message, blocked, muted, absent + {user})
      == PushList(participants, message, blocked, muted, absent)
  {
    if participants != [] {
      PushListIgnores(participants[..|participants| - 1], message, blocked, muted, absent, user);
    }
  }

  /** Whoever is to be notified is a recipient that was absent and has not muted the conversation, and conversely. */
  lemma {:induction false} PushListHolds(participants: seq<Uuid>, message: ChatMessage, blocked: set<Uuid>,
                                         muted: set<Uuid>, absent: set<Uuid>, user: Uuid)
    ensures
      user in PushList(participants, message, blocked, muted, absent) <==>
        && user in participants && user != message.sender && user !in blocked
        && user in absent && user !in muted
  {
    if participants != [] {
      var n := |participants| - 1;
      assert participants == participants[..n] + [participants[n]];
      PushListHolds(participants[..n], message, blocked, muted, absent, user);
    }
  }

  /** `x` stands somewhere before `y`. */
  ghost predicate Before(all: seq<Uuid>, x: Uuid, y: Uuid) {
    exists a, b :: 0 <= a < b < |all| && all[a] == x && all[b] == y
  }

  /** `some` are members of `all`, in the order they have there. */
  ghost predicate KeepsOrder(some: seq<Uuid>, all: seq<Uuid>) {
    forall i, j :: 0 <= i < j < |some| ==> Before(all, some[i], some[j])
  }

  lemma StillBefore(all: seq<Uuid>, last: Uuid, x: Uuid, y: Uuid)
    requires Before(all, x, y) || (x in all && y == last)
    ensures Before(all + [last], x, y)
  {
    if Before(all, x, y) {
      var a, b :| 0 <= a < b < |all| && all[a] == x && all[b] == y;
      assert (all + [last])[a] == x && (all + [last])[b] == y;
    } else {
      var a :| 0 <= a < |all| && all[a] == x;
      assert (all + [last])[a] == x && (all + [last])[|all|] == y;
    }
  }

  lemma {:induction false} PushListKeepsOrder(participants: seq<Uuid>, message: ChatMessage, blocked: set<Uuid>,
                                              muted: set<Uuid>, absent: set<Uuid>)
    ensures KeepsOrder(PushList(participants, message, blocked, muted, absent), participants)
  {
    if participants != [] {
      var n := |participants| - 1;
      var init, last := participants[..n], participants[n];
      var list, shorter := PushList(participants, message, blocked, muted, absent),
        PushList(init, message, blocked, muted, absent);
      assert participants == init + [last];
      PushListKeepsOrder(init, message, blocked, muted, absent);
      forall i, j | 0 <= i < j < |list| ensures Before(participants, list[i], list[j]) {
        PushListHolds(init, message, blocked, muted, absent, list[i]);
        assert list[i] == shorter[i] && list[i] in shorter;
        assert j < |shorter| ==> Before(init, shorter[i], shorter[j]);
        StillBefore(init, last, list[i], list[j]);
      }
    }
  }

  /** The push notification list, read off the participants. */
  ghost predicate Notifies(offline: seq<Uuid>, participants: seq<Uuid>, message: ChatMessage, blocked: set<Uuid>,
                           muted: set<Uuid>, absent: set<Uuid>)
  {
    && KeepsOrder(offline, participants)
    && forall user ::
         user in offline <==>
           && user in participants && user != message.sender && user !in blocked
           && user in absent && user !in muted
  }

  lemma PushListNotifies(participants: seq<Uuid>, message: ChatMessage, blocked: set<Uuid>, muted: set<Uuid>,
                         absent: set<Uuid>)
    ensures
      Notifies(PushList(participants, message, blocked, muted, absent), participants, message, blocked, muted, absent)
  {
    PushListKeepsOrder(participants, message, blocked, muted, absent);
    forall user
      ensures
        user in PushList(participants, message, blocked, muted, absent) <==>
          && user in participants && user != message.sender && user !in blocked
          && user in absent && user !in muted
    {
      PushListHolds(participants, message, blocked, muted, absent, user);
    }
  }

  /** Every listed recipient was asked about since `from`, and `absent` are those for whom the answer was no. */
  ghost predicate Asked(cfg: Config, trace: seq<Step>, from: nat, call: Task, users: seq<Uuid>, absent: set<Uuid>) {
    forall user :: user in users && !Skipped(call.message, call.blocked, user) ==>
      Answered(cfg, trace, from, Home(call.server, user), user !in absent)
  }

  lemma StillAsked(cfg: Config, before: seq<Step>, trace: seq<Step>, from: nat, call: Task, users: seq<Uuid>,
                   absent: set<Uuid>)
    requires before <= trace && Asked(cfg, before, from, call, users, absent)
    ensures Asked(cfg, trace, from, call, users, absent)
  {
    forall user | user in users && !Skipped(call.message, call.blocked, user)
      ensures Answered(cfg, trace, from, Home(call.server, user), user !in absent)
    {
      StillAnswered(cfg, before, trace, from, Home(call.server, user), user !in absent);
    }
  }

  lemma AskedOneMore(cfg: Config, before: seq<Step>, trace: seq<Step>, from: nat, call: Task, i: nat, absent: set<Uuid>,
                     present: bool)
    requires i < |call.rest| && Distinct(call.rest)
    requires from <= |before| && before <= trace && Asked(cfg, before, from, call, call.rest[..i], absent)
    requires absent <= Elems(call.rest[..i])
    requires !Skipped(call.message, call.blocked, call.rest[i]) ==>
               Answered(cfg, trace, |before|, Home(call.server, call.rest[i]), present)
    ensures Asked(cfg, trace, from, call, call.rest[..i + 1], if present then absent else absent + {call.rest[i]})
  {
    StillAsked(cfg, before, trace, from, call, call.rest[..i], absent);
    FreshParticipant(call.rest, i);
    assert call.rest[..i + 1] == call.rest[..i] + [call.rest[i]];
    assert call.rest[i] !in absent;
  }

  lemma PushOneMore(call: Task, muted: set<Uuid>, absent: set<Uuid>, i: nat, present: bool)
    requires i < |call.rest| && Distinct(call.rest) && absent <= Elems(call.rest[..i])
    ensures
      var user := call.rest[i];
      PushList(call.rest[..i + 1], call.message, call.blocked, muted, if present then absent else absent + {user})
      == PushList(call.rest[..i], call.message, call.blocked, muted, absent)
         + if !Skipped(call.message, call.blocked, user) && !present && user !in muted then [user] else []
  {
    FreshParticipant(call.rest, i);
    assert call.rest[..i + 1][..i] == call.rest[..i];
    assert call.rest[i] !in absent;
    PushListIgnores(call.rest[..i], call.message, call.blocked, muted, absent, call.rest[i]);
  }

  /** The push list grows by an absent recipient that is not muted, when there is no cluster router. */
  function Grown(cfg: Config, call: Task, muted: set<Uuid>, i: nat, offline: seq<Uuid>, present: bool): seq<Uuid>
    requires i < |call.rest|
  {
    if !present && !cfg.clustered && call.rest[i] !in muted then offline + [call.rest[i]] else offline
  }

  /** What the participant loop has done after `i` participants. */
  ghost predicate Progress(cfg: Config, trace: seq<Step>, from: nat, call: Task, muted: set<Uuid>,
                           i: nat, offline: seq<Uuid>, absent: set<Uuid>) {
    && i <= |call.rest|
    && absent <= Elems(call.rest[..i])
    && SentToPresent(cfg, trace, from, call, call.rest[..i], absent)
    && Asked(cfg, trace, from, call, call.rest[..i], absent)
    && offline == if cfg.clustered then [] else PushList(call.rest[..i], call.message, call.blocked, muted, absent)
  }

  lemma AbsentOneMore(users: seq<Uuid>, i: nat, absent: set<Uuid>)
    requires i < |users| && absent <= Elems(users[..i])
    ensures absent + {users[i]} <= Elems(users[..i + 1])
  {
    assert users[..i + 1] == users[..i] + [users[i]];
  }

  lemma ProgressOneMore(cfg: Config, before: seq<Step>, trace: seq<Step>, from: nat, call: Task, muted: set<Uuid>,
                        i: nat, offline: seq<Uuid>, absent: set<Uuid>, present: bool)
    requires i < |call.rest| && Distinct(call.rest)
    requires from <= |before| && before <= trace && Progress(cfg, before, from, call, muted, i, offline, absent)
    requires if Skipped(call.message, call.blocked, call.rest[i]) then present
             else Answered(cfg, trace, |before|, Home(call.server, call.rest[i]), present)
    requires present && !Skipped(call.message, call.blocked, call.rest[i]) ==>
               SentHere(cfg, trace, |before|, call, call.rest[i])
    ensures Progress(cfg, trace, from, call, muted, i + 1, Grown(cfg, call, muted, i, offline, present),
                     if present then absent else absent + {call.rest[i]})
  {
    AbsentOneMore(call.rest, i, absent);
    AskedOneMore(cfg, before, trace, from, call, i, absent, present);
    PushOneMore(call, muted, absent, i, present);
    SentOneMore(cfg, before, trace, from, call, i, absent, present);
  }

  lemma FreshParticipant(participants: seq<Uuid>, i: nat)
    requires Distinct(participants) && i < |participants|
    ensures participants[i] !in participants[..i]
  {
    var before, after := participants[..i], participants[i..];
    assert participants == before + after;
    assert participants[i] in after;
    assert multiset(participants)[participants[i]]
      == multiset(before)[participants[i]] + multiset(after)[participants[i]];
  }

  /**
   Each recipient has met exactly one of three fates: sent to, queued for, or lost to a push that failed;
   so it is served if and only if no push for it failed.
   */
  ghost predicate EveryoneSettled(cfg: Config, trace: seq<Step>, message: ChatMessage, blocked: set<Uuid>,
                                  participants: seq<Uuid>) {
    forall user :: user in participants && user != message.sender && user !in blocked ==>
      && OneFate(Run(cfg, trace), Payload(user, message.id))
      && (Logged(Run(cfg, trace), Payload(user, message.id)) <==> !SomePushFails(cfg, trace, Payload(user, message.id)))
  }

  class RoutingServer {
    const cfg: Config
    const server: Uuid
    const redis: bool
    /** Everything the servers share; its task table and logs only record how far the calls are. */
    var net: State
    ghost var trace: seq<Step>

    /** The state is what the steps taken so far lead to. */
    ghost predicate Traced()
      reads this
    {
      net == Run(cfg, trace)
    }

    /** This server's routing call is at `t`. */
    ghost predicate Calling(t: Task)
      reads this
    {
      Traced() && t.message.id in net.tasks && net.tasks[t.message.id] == t && t.server == server
    }

    constructor (cfg: Config, server: Uuid, redis: bool)
      ensures this.cfg == cfg && this.server == server && this.redis == redis
      ensures Traced() && trace == []
    {
      this.cfg, this.server, this.redis := cfg, server, redis;
      net, trace := INITIAL, [];
    }

    /** Any number of steps of the rest of the system. */
    method Interfere(t: Task)
      requires Calling(t)
      modifies this
      ensures Calling(t) && old(trace) <= trace
    {
      var n: nat := *;
      while n > 0
        invariant Calling(t) && old(trace) <= trace
      {
        var step: Step := *;
        if Foreign(step, t.message.id) {
          RunIsOrderly(cfg, trace);
          ForeignKeepsTask(cfg, net, step, t.message.id);
          OneMore(cfg, trace, step);
          net := Apply(cfg, net, step);
          trace := trace + [step];
        }
        n := n - 1;
      }
    }

    method HasUserHere(user: Uuid) returns (answer: bool)
      requires Traced()
      ensures answer == HasUser(net, Home(server, user))
      ensures answer <==> exists conn :: conn in net.live && conn in net.home && net.home[conn] == Home(server, user)
      ensures Answered(cfg, trace, |trace|, Home(server, user), answer)
    {
      answer := exists conn :: conn in net.live && LivesAt(net, conn, Home(server, user));
      assert answer ==> exists conn :: LivesAt(net, conn, Home(server, user));
      assert forall conn :: conn in net.live && conn in net.home && net.home[conn] == Home(server, user) ==>
        LivesAt(net, conn, Home(server, user));
      assert trace[..|trace|] == trace;
    }

    method SendToUser(user: Uuid, message: Uuid)
      modifies this`net
      ensures net == Send(old(net), Everyone(old(net), Home(server, user)), message)
    {
      var to := set conn | conn in net.live && LivesAt(net, conn, Home(server, user));
      net := net.(delivered := net.delivered + multiset(Receipts(to, message)));
    }

    method SendToUserFiltered(user: Uuid, message: ChatMessage)
      modifies this`net
      ensures net == Send(old(net), Interested(old(net), Home(server, user), message.conv), message.id)
    {
      var to := set conn | conn in net.live && LivesAt(net, conn, Home(server, user))
                           && ShouldReceive(net.live[conn], message.conv, false);
      net := net.(delivered := net.delivered + multiset(Receipts(to, message.id)));
    }

    /** SMEMBERS: the session set, in whatever order, unless the session store cannot be read. */
    method FindUserServers(user: Uuid) returns (found: Option<seq<Uuid>>)
      ensures found.Some? ==> multiset(found.value) == multiset(Members(net.sessions, user))
    {
      var readable: bool := *;
      if !readable {
        return None;
      }
      var servers;
      var left := Members(net.sessions, user);
      servers := [];
      while left != {}
        invariant left <= Members(net.sessions, user)
        invariant multiset(servers) + multiset(left) == multiset(Members(net.sessions, user))
      {
        var next :| next in left;
        assert multiset(left) == multiset(left - {next}) + multiset{next};
        servers, left := servers + [next], left - {next};
      }
      found := Some(servers);
    }

    /** RPUSH: pushes nothing without a Redis pool, and may fail with one. */
    method QueueMessage(user: Uuid, message: Uuid) returns (pushed: bool)
      modifies this`net
      ensures !redis ==> !pushed
      ensures
        net == if pushed
               then old(net).(queues := old(net).queues[user := Entries(old(net).queues, user) + [message]])
               else old(net)
    {
      pushed := *;
      pushed := pushed && redis;
      if pushed {
        net := net.(queues := net.queues[user := Entries(net.queues, user) + [message]]);
      }
    }

    /** The cluster router answers with an error, which ends the whole routing call. */
    method GiveUp(t: Task)
      requires Traced()
      modifies this
      ensures Traced() && trace == old(trace) + [Abort(t.message.id)]
      ensures net == old(net).(tasks := old(net).tasks - {t.message.id})
    {
      OneMore(cfg, trace, Abort(t.message.id));
      net := net.(tasks := net.tasks - {t.message.id});
      trace := trace + [Abort(t.message.id)];
    }

    /** Fails without a Redis pool, and may fail with one. */
    method PublishToServer(target: Uuid, payload: Payload) returns (ok: bool)
      modifies this`net
      ensures !redis ==> !ok
      ensures
        net == if ok
               then old(net).(channels := old(net).channels[target := Entries(old(net).channels, target) + [payload]])
               else old(net)
    {
      ok := *;
      ok := ok && redis;
      if ok {
        net := net.(channels := net.channels[target := Entries(net.channels, target) + [payload]]);
      }
    }

    /** Records how far the call is. */
    method Note(t: Task)
      modifies this`net
      ensures net == WithTask(old(net), t)
    {
      net := net.(tasks := net.tasks[t.message.id := t]);
    }

    /** The call takes a decision and touches nothing else. */
    method Decide(t: Task, t': Task, order: seq<Uuid>)
      requires Calling(t) && t.rest != [] && ActionOf(net, t) == Nothing && t' == TaskAfter(cfg, net, t, order)
      modifies this
      ensures Calling(t') && old(trace) <= trace
      ensures net == WithTask(old(net), t')
    {
      ghost var step := Advance(t.message.id, order);
      OneMore(cfg, trace, step);
      trace := trace + [step];
      Note(t');
    }

    /** A local send to connections of the participant, and on to `t'`. */
    method Deliver(t: Task, t': Task, filtered: bool)
      requires Calling(t) && t.rest != [] && t' == TaskAfter(cfg, net, t, [])
      requires ActionOf(net, t) == SendTo(Home(server, t.rest[0]),
                 if filtered then Interested(net, Home(server, t.rest[0]), t.message.conv)
                 else Everyone(net, Home(server, t.rest[0])))
      modifies this
      ensures Calling(t') && trace == old(trace) + [Advance(t.message.id, [])]
      ensures SentAt(cfg, trace, |old(trace)|, Home(server, t.rest[0]), t.message, filtered)
      ensures GivenTo(old(net), net, Home(server, t.rest[0]), t.message, filtered)
      ensures Payload(t.rest[0], t.message.id) in net.sentFor
    {
      ghost var before, start := net, trace;
      ghost var step, sent := Advance(t.message.id, []),
        Perform(net, ActionOf(net, t), Payload(t.rest[0], t.message.id));
      OneMore(cfg, trace, step);
      Performed(cfg, net, t, t', []);
      trace := trace + [step];
      if filtered {
        SendToUserFiltered(t.rest[0], t.message);
      } else {
        SendToUser(t.rest[0], t.message.id);
      }
      net := net.(sentFor := net.sentFor + {Payload(t.rest[0], t.message.id)});
      assert net == sent;
      Note(t');
      DeliveredAt(start, before, t, filtered);
    }

    /** The local send, read off the connections. */
    lemma DeliveredAt(start: seq<Step>, before: State, t: Task, filtered: bool)
      requires trace == start + [Advance(t.message.id, [])] && before == Run(cfg, start) && net == Run(cfg, trace)
      requires t.message.id in before.tasks && before.tasks[t.message.id] == t && t.rest != [] && t.server == server
      requires ActionOf(before, t) == SendTo(Home(server, t.rest[0]),
                 if filtered then Interested(before, Home(server, t.rest[0]), t.message.conv)
                 else Everyone(before, Home(server, t.rest[0])))
      ensures SentAt(cfg, trace, |start|, Home(server, t.rest[0]), t.message, filtered)
      ensures GivenTo(before, net, Home(server, t.rest[0]), t.message, filtered)
    {
      assert trace[..|start|] == start && trace[..|start| + 1] == trace;
      OneMore(cfg, start, Advance(t.message.id, []));
      var performed := Perform(before, ActionOf(before, t), Payload(t.rest[0], t.message.id));
      Performed(cfg, before, t, TaskAfter(cfg, before, t, []), []);
      assert net.delivered == performed.delivered;
      SendToGives(before, performed, t, filtered);
    }

    /** The push to the offline queue; one that fails is only logged, and the call moves on all the same. */
    method Store(t: Task) returns (pushed: bool)
      requires Calling(t) && t.rest != [] && t.phase == Enqueue
      modifies this
      ensures Calling(NextParticipant(t)) && old(trace) <= trace
      ensures pushed ==> redis && Payload(t.rest[0], t.message.id) in net.queuedFor
      ensures !pushed ==> Payload(t.rest[0], t.message.id) in net.unqueued
      ensures
        Entries(net.queues, t.rest[0])
        == Entries(old(net).queues, t.rest[0]) + if pushed then [t.message.id] else []
    {
      ghost var before := net;
      pushed := QueueMessage(t.rest[0], t.message.id);
      if pushed {
        net := net.(queuedFor := net.queuedFor + {Payload(t.rest[0], t.message.id)});
        assert net == Perform(before, Push, Payload(t.rest[0], t.message.id));
      } else {
        net := net.(unqueued := net.unqueued + {Payload(t.rest[0], t.message.id)});
      }
      Note(NextParticipant(t));
      PushRecorded(before, t, pushed);
      trace := trace + [if pushed then Advance(t.message.id, []) else FailPush(t.message.id)];
    }

    /** Both ends of a push are steps of the protocol. */
    lemma PushRecorded(before: State, t: Task, pushed: bool)
      requires before == Run(cfg, trace) && t.message.id in before.tasks && before.tasks[t.message.id] == t
      requires t.rest != [] && t.phase == Enqueue
      requires net == if pushed
                      then WithTask(Perform(before, Push, Payload(t.rest[0], t.message.id)), NextParticipant(t))
                      else SkipPush(before, t)
      ensures net == Run(cfg, trace + [if pushed then Advance(t.message.id, []) else FailPush(t.message.id)])
    {
      if pushed {
        OneMore(cfg, trace, Advance(t.message.id, []));
        Performed(cfg, before, t, NextParticipant(t), []);
      } else {
        OneMore(cfg, trace, FailPush(t.message.id));
      }
    }

    /** A publish to the next listed server. When it fails, the routing call is over and nothing was published. */
    method Forward(t: Task) returns (ok: bool)
      requires Calling(t) && t.rest != [] && t.phase.Fanout? && t.phase.servers != [] && t.phase.servers[0] != server
      modifies this
      ensures Traced() && |trace| == |old(trace)| + 1 && old(trace) <= trace
      ensures ok ==>
        redis && Calling(t.(phase := Fanout(t.phase.servers[1..])))
        && trace == old(trace) + [Advance(t.message.id, [])]
      ensures ok ==> Payload(t.rest[0], t.message.id) in net.sentFor
      ensures
        var target := t.phase.servers[0];
        Entries(net.channels, target)
        == Entries(old(net).channels, target) + if ok then [Payload(t.rest[0], t.message.id)] else []
      ensures !ok ==> net == old(net).(tasks := old(net).tasks - {t.message.id})
    {
      var payload, later := Payload(t.rest[0], t.message.id), t.(phase := Fanout(t.phase.servers[1..]));
      ghost var sent := Perform(net, Publish(t.phase.servers[0]), payload);
      Performed(cfg, net, t, later, []);
      OneMore(cfg, trace, Advance(t.message.id, []));
      ok := PublishToServer(t.phase.servers[0], payload);
      if ok {
        net := net.(sentFor := net.sentFor + {payload});
        assert net == sent;
        Note(later);
        trace := trace + [Advance(t.message.id, [])];
      } else {
        GiveUp(t);
      }
    }

    /** `route_to_user_internal`, for the participant the call is at. */
    method RouteToUser(t: Task) returns (ok: bool, ghost present: bool)
      requires Calling(t) && t.rest != [] && t.phase == ClusterCheck
      modifies this
      ensures old(trace) <= trace && Traced()
      ensures if ok then Calling(NextParticipant(t)) else t.message.id !in net.tasks && !present
      ensures Answered(cfg, trace, |old(trace)|, Home(server, t.rest[0]), present)
      ensures present ==> Payload(t.rest[0], t.message.id) in net.sentFor
      ensures present ==> SentSince(cfg, trace, |old(trace)|, Home(server, t.rest[0]), t.message, false)
      ensures ok && cfg.queueing ==> HeadSettled(net, t)
    {
      Interfere(t);
      var here := HasUserHere(t.rest[0]);
      present := here;
      ghost var asked := trace;
      if here {
        Decide(t, t.(phase := ClusterSend), []);
        SendHere(t.(phase := ClusterSend), false);
        ok := true;
      } else {
        Decide(t, t.(phase := Lookup), []);
        ghost var k, found;
        ok, k, found := RouteRemotely(t.(phase := Lookup));
      }
      StillAnswered(cfg, asked, trace, |old(trace)|, Home(server, t.rest[0]), present);
    }

    /**
     From the session set on. `found` is the list read at step `k`, or `None` when it could not be read,
     which ends the call. When the list is empty the push to the queue is tried, if there is a queue;
     otherwise the message is sent to the servers listed.
     */
    method RouteRemotely(t: Task) returns (ok: bool, ghost k: nat, ghost found: Option<seq<Uuid>>)
      requires Calling(t) && t.rest != [] && t.phase == Lookup
      modifies this
      ensures |old(trace)| <= k <= |trace| && old(trace) <= trace && Traced()
      ensures found.Some? ==> multiset(found.value) == multiset(Members(Run(cfg, trace[..k]).sessions, t.rest[0]))
      ensures if ok then Calling(NextParticipant(t)) else t.message.id !in net.tasks
      ensures found == None ==> !ok && trace[k..] == [Abort(t.message.id)]
      ensures found == Some([]) ==> ok
      ensures found == Some([]) && cfg.queueing ==> TriedToQueue(net, t)
      ensures found.Some? && found.value != [] && ok ==> Payload(t.rest[0], t.message.id) in net.sentFor
    {
      Interfere(t);
      var list := FindUserServers(t.rest[0]);
      k, found := |trace|, list;
      ghost var before := trace;
      ok := false;
      match list {
        case None => GiveUp(t);
        case Some(servers) => ok := ServeListed(t, servers);
      }
      assert trace[..k] == before;
    }

    method ServeListed(t: Task, servers: seq<Uuid>) returns (ok: bool)
      requires Calling(t) && t.rest != [] && t.phase == Lookup
      requires multiset(servers) == multiset(Members(net.sessions, t.rest[0]))
      modifies this
      ensures old(trace) <= trace && Traced()
      ensures if ok then Calling(NextParticipant(t)) else t.message.id !in net.tasks && servers != []
      ensures servers == [] && cfg.queueing ==> TriedToQueue(net, t)
      ensures servers != [] && ok ==> Payload(t.rest[0], t.message.id) in net.sentFor
    {
      NothingFound(servers, Members(net.sessions, t.rest[0]));
      if servers == [] {
        var pushed := QueueForLater(t);
        ok := true;
      } else {
        Decide(t, t.(phase := Fanout(servers)), servers);
        ghost var at;
        ok, at := ServeServers(t, servers);
      }
    }

    /** A user on no server: the push to the queue, if there is one; whether or not it succeeds, the call goes on. */
    method QueueForLater(t: Task) returns (pushed: bool)
      requires Calling(t) && t.rest != [] && t.phase == Lookup && Members(net.sessions, t.rest[0]) == {}
      modifies this
      ensures Calling(NextParticipant(t)) && old(trace) <= trace
      ensures pushed ==> cfg.queueing && redis && Payload(t.rest[0], t.message.id) in net.queuedFor
      ensures !pushed && cfg.queueing ==> Payload(t.rest[0], t.message.id) in net.unqueued
      ensures !cfg.queueing ==> net == WithTask(old(net), NextParticipant(t))
    {
      pushed := false;
      if cfg.queueing {
        Decide(t, t.(phase := Enqueue), []);
        Interfere(t.(phase := Enqueue));
        pushed := Store(t.(phase := Enqueue));
      } else {
        Decide(t, NextParticipant(t), []);
      }
    }

    /** The loop over the listed servers; the step at `at[i]` served server `i`. */
    method ServeServers(t: Task, servers: seq<Uuid>) returns (ok: bool, ghost at: seq<nat>)
      requires Calling(t.(phase := Fanout(servers))) && t.rest != []
      modifies this
      ensures old(trace) <= trace && Traced()
      ensures if ok then Calling(NextParticipant(t)) else t.message.id !in net.tasks
      ensures ServedInOrder(cfg, trace, |old(trace)|, t, servers, at) && (ok <==> |at| == |servers|)
      ensures at != [] ==> Payload(t.rest[0], t.message.id) in net.sentFor
    {
      ghost var start := trace;
      var i := 0;
      at, ok := [], true;
      assert servers[0..] == servers;
      while ok && i < |servers|
        invariant 0 <= i <= |servers| && Traced() && start <= trace
        invariant if ok then i == |at| && Calling(t.(phase := Fanout(servers[i..])))
                  else t.message.id !in net.tasks && |at| < |servers|
        invariant ServedInOrder(cfg, trace, |start|, t, servers, at)
        decreases ok, |servers| - i
      {
        ghost var before := trace;
        NextServer(servers, i);
        ghost var k;
        ok, k := ServeOne(t.(phase := Fanout(servers[i..])));
        at := ServedSoFar(cfg, before, trace, |start|, t, servers, at, k, ok);
        i := if ok then i + 1 else i;
      }
      if ok {
        assert servers[i..] == [];
        MoveOn(t, servers, at, |start|);
      }
      ServedIsSent(cfg, trace, |start|, t, servers, at);
    }

    method MoveOn(t: Task, ghost servers: seq<Uuid>, ghost at: seq<nat>, ghost from: nat)
      requires Calling(t.(phase := Fanout([]))) && t.rest != [] && ServedInOrder(cfg, trace, from, t, servers, at)
      modifies this
      ensures Calling(NextParticipant(t)) && old(trace) <= trace
      ensures ServedInOrder(cfg, trace, from, t, servers, at)
    {
      ghost var before := trace;
      Decide(t.(phase := Fanout([])), NextParticipant(t), []);
      StillServed(cfg, before, trace, from, t, servers, at);
    }

    /** The next listed server: a local send if it is this one, a publish otherwise. On success that is step `k`. */
    method ServeOne(t: Task) returns (ok: bool, ghost k: nat)
      requires Calling(t) && t.rest != [] && t.phase.Fanout? && t.phase.servers != []
      modifies this
      ensures old(trace) <= trace && Traced() && |old(trace)| <= k && |trace| == k + 1
      ensures if ok then Calling(t.(phase := Fanout(t.phase.servers[1..]))) else t.message.id !in net.tasks
      ensures ok ==> TookFrom(cfg, trace, k, t) && ServedBy(cfg, trace, k, t)
      ensures ok ==> Payload(t.rest[0], t.message.id) in net.sentFor
      ensures !redis ==> (ok <==> t.phase.servers[0] == server)
    {
      Interfere(t);
      ghost var before := trace;
      k := |before|;
      ok := ServeHead(t);
      if ok {
        TookLast(cfg, before, t);
      }
    }

    method ServeHead(t: Task) returns (ok: bool)
      requires Calling(t) && t.rest != [] && t.phase.Fanout? && t.phase.servers != []
      modifies this
      ensures Traced() && old(trace) <= trace && |trace| == |old(trace)| + 1
      ensures ok ==> trace == old(trace) + [Advance(t.message.id, [])]
      ensures if ok then Calling(t.(phase := Fanout(t.phase.servers[1..]))) else t.message.id !in net.tasks
      ensures ok ==> Payload(t.rest[0], t.message.id) in net.sentFor
      ensures !redis ==> (ok <==> t.phase.servers[0] == server)
    {
      if t.phase.servers[0] == server {
        Deliver(t, t.(phase := Fanout(t.phase.servers[1..])), false);
        ok := true;
      } else {
        ok := Forward(t);
      }
    }

    /** The body of the participant loop, for one that is neither the sender nor blocked. */
    method RouteParticipant(t: Task) returns (ok: bool, present: bool)
      requires Calling(t) && t.rest != [] && t.phase == Filtering && !Skipped(t.message, t.blocked, t.rest[0])
      modifies this
      ensures old(trace) <= trace && Traced()
      ensures if ok then Calling(NextParticipant(t)) else t.message.id !in net.tasks && cfg.clustered && !present
      ensures Answered(cfg, trace, |old(trace)|, Home(server, t.rest[0]), present)
      ensures present ==> SentHere(cfg, trace, |old(trace)|, t, t.rest[0])
      ensures ok && cfg.clustered && cfg.queueing ==> HeadSettled(net, t)
    {
      Interfere(t);
      present := HasUserHere(t.rest[0]);
      ghost var asked := trace;
      ok := true;
      if present {
        Decide(t, t.(phase := LocalSend), []);
        SendHere(t.(phase := LocalSend), true);
      } else if cfg.clustered {
        Decide(t, t.(phase := ClusterCheck), []);
        ghost var found;
        ok, found := RouteToUser(t.(phase := ClusterCheck));
      } else {
        Decide(t, NextParticipant(t), []);
      }
      StillAnswered(cfg, asked, trace, |old(trace)|, Home(server, t.rest[0]), present);
    }

    /** The local send that `has_user` has called for; by now others may have connected or left. */
    method SendHere(t: Task, filtered: bool)
      requires Calling(t) && t.rest != [] && t.phase == if filtered then LocalSend else ClusterSend
      modifies this
      ensures old(trace) <= trace && Calling(NextParticipant(t))
      ensures Payload(t.rest[0], t.message.id) in net.sentFor
      ensures SentSince(cfg, trace, |old(trace)|, Home(server, t.rest[0]), t.message, filtered)
    {
      Interfere(t);
      Deliver(t, NextParticipant(t), filtered);
    }

    method Skip(t: Task)
      requires Calling(t) && t.rest != [] && t.phase == Filtering && Skipped(t.message, t.blocked, t.rest[0])
      modifies this
      ensures old(trace) <= trace && Calling(NextParticipant(t))
    {
      Decide(t, NextParticipant(t), []);
    }

    method Serve(call: Task, i: nat) returns (ok: bool, present: bool)
      requires i < |call.rest| && call.phase == Filtering && Calling(call.(rest := call.rest[i..]))
      modifies this
      ensures Traced() && old(trace) <= trace
      ensures if ok then Calling(call.(rest := call.rest[i + 1..])) else call.message.id !in net.tasks && cfg.clustered
      ensures if Skipped(call.message, call.blocked, call.rest[i]) then present
              else Answered(cfg, trace, |old(trace)|, Home(call.server, call.rest[i]), present)
      ensures present && !Skipped(call.message, call.blocked, call.rest[i]) ==>
        SentHere(cfg, trace, |old(trace)|, call, call.rest[i])
    {
      var t := call.(rest := call.rest[i..]);
      assert call.rest[i..][1..] == call.rest[i + 1..];
      if Skipped(call.message, call.blocked, call.rest[i]) {
        Skip(t);
        ok, present := true, true;
      } else {
        ok, present := RouteParticipant(t);
      }
    }

    /** The participant loop. `absent` are those for whom `has_user` said no. */
    method RouteParticipants(call: Task, muted: set<Uuid>)
      returns (ok: bool, offline: seq<Uuid>, ghost absent: set<Uuid>)
      requires Calling(call) && call.phase == Filtering && Distinct(call.rest)
      modifies this
      ensures Traced() && old(trace) <= trace
      ensures if ok then Calling(call.(rest := [])) else call.message.id !in net.tasks && cfg.clustered
      ensures cfg.clustered ==> offline == []
      ensures ok ==> Progress(cfg, trace, |old(trace)|, call, muted, |call.rest|, offline, absent)
      ensures ok ==> SentToPresent(cfg, trace, |old(trace)|, call, call.rest, absent)
    {
      ok, offline, absent := true, [], {};
      ghost var before := trace;
      var i := 0;
      assert call.rest[0..] == call.rest && call.rest[..0] == [];
      while ok && i < |call.rest|
        invariant 0 <= i <= |call.rest| && before <= trace
        invariant Looping(call, muted, ok, i, offline, absent, |before|)
        decreases ok, |call.rest| - i
      {
        ok, offline, absent := RouteNext(call, muted, i, offline, absent, |before|);
        i := i + 1;
      }
      assert ok ==> call.rest[..i] == call.rest && call.rest[i..] == [];
    }

    /** Where the participant loop is. */
    ghost predicate Looping(call: Task, muted: set<Uuid>, ok: bool, i: nat, offline: seq<Uuid>, absent: set<Uuid>,
                            from: nat)
      requires i <= |call.rest|
      reads this
    {
      && Traced() && Progress(cfg, trace, from, call, muted, i, offline, absent)
      && if ok then Calling(call.(rest := call.rest[i..])) else call.message.id !in net.tasks && cfg.clustered
    }

    method RouteNext(call: Task, muted: set<Uuid>, i: nat, offline: seq<Uuid>, ghost absent: set<Uuid>, ghost from: nat)
      returns (ok: bool, offline': seq<Uuid>, ghost absent': set<Uuid>)
      requires i < |call.rest| && call.phase == Filtering && Distinct(call.rest) && from <= |trace|
      requires Looping(call, muted, true, i, offline, absent, from)
      modifies this
      ensures old(trace) <= trace && Looping(call, muted, ok, i + 1, offline', absent', from)
    {
      ghost var earlier := trace;
      var present;
      ok, present := Serve(call, i);
      ProgressOneMore(cfg, earlier, trace, from, call, muted, i, offline, absent, present);
      offline' := offline;
      if !present && !cfg.clustered && call.rest[i] !in muted {
        offline' := offline + [call.rest[i]];
      }
      absent' := if present then absent else absent + {call.rest[i]};
    }

    /** `route_message`: `offline` is the list for push notifications. */
    method RouteMessage(message: ChatMessage, participants: seq<Uuid>, blocked: set<Uuid>, muted: set<Uuid>)
      returns (ok: bool, offline: seq<Uuid>, ghost absent: set<Uuid>)
      requires Traced() && message.id !in net.routed
      requires Distinct(participants)
      modifies this
      ensures Traced() && old(trace) + [Route(message, server, participants, blocked)] <= trace
      ensures message.id !in net.tasks && (ok || cfg.clustered)
      ensures forall conn :: DrainedApart(cfg, trace, conn, message.id) ==>
        net.delivered[Delivery(conn, message.id)] <= 1
      ensures cfg.clustered ==> offline == []
      ensures !cfg.clustered ==> offline == PushList(participants, message, blocked, muted, absent)
      ensures !cfg.clustered ==> Notifies(offline, participants, message, blocked, muted, absent)
      ensures ok ==>
        Asked(cfg, trace, |old(trace)| + 1, Task(server, message, blocked, participants, Filtering), participants,
              absent)
      ensures ok ==>
        SentToPresent(cfg, trace, |old(trace)| + 1, Task(server, message, blocked, participants, Filtering),
                      participants, absent)
      ensures ok ==>
        ReachesOpen(cfg, trace, |old(trace)| + 1, Task(server, message, blocked, participants, Filtering))
      ensures ok && cfg.clustered && cfg.queueing ==> EveryoneSettled(cfg, trace, message, blocked, participants)
    {
      var call := Task(server, message, blocked, participants, Filtering);
      ghost var step := Route(message, server, participants, blocked);
      OneMore(cfg, trace, step);
      net := net.(routed := net.routed[message.id := call], tasks := net.tasks[message.id := call]);
      trace := trace + [step];
      ghost var started := trace;
      ok, offline, absent := RouteParticipants(call, muted);
      ghost var served := trace;
      if ok {
        assert participants[..|participants|] == participants;
        if cfg.clustered && cfg.queueing {
          NobodyLeftOut(started, call);
        }
        Finish(call.(rest := []));
        if cfg.clustered && cfg.queueing {
          FinishingSettlesNobody(served, call);
        }
        StillAsked(cfg, served, trace, |started|, call, participants, absent);
        StillSentToPresent(cfg, served, trace, |started|, call, participants, absent);
        PresentAreReached(cfg, trace, |started|, call, absent);
      }
      PushListNotifies(participants, message, blocked, muted, absent);
      forall conn | DrainedApart(cfg, trace, conn, message.id) ensures net.delivered[Delivery(conn, message.id)] <= 1 {
        AtMostOnce(cfg, trace, conn, message.id);
      }
    }

    /** At the end of the participant list every recipient has met its fate, with a cluster router and a queue. */
    lemma NobodyLeftOut(started: seq<Step>, call: Task)
      requires Calling(call.(rest := [])) && started <= trace && cfg.clustered && cfg.queueing
      requires call.message.id in Run(cfg, started).routed && Run(cfg, started).routed[call.message.id] == call
      ensures EveryoneSettled(cfg, trace, call.message, call.blocked, call.rest)
    {
      RunGrowsLogs(cfg, started, trace);
      forall user | user in call.rest && !Skipped(call.message, call.blocked, user)
        ensures OneFate(net, Payload(user, call.message.id))
        ensures Logged(net, Payload(user, call.message.id)) <==>
          !SomePushFails(cfg, trace, Payload(user, call.message.id))
      {
        NoRecipientLeftBehind(cfg, trace, call.message.id, user);
        UnqueuedExactlyWhen(cfg, trace, Payload(user, call.message.id));
      }
    }

    /** The end of the call is no push, so it changes nobody's fate. */
    lemma FinishingSettlesNobody(before: seq<Step>, call: Task)
      requires Traced() && trace == before + [Advance(call.message.id, [])]
      requires net.sentFor == Run(cfg, before).sentFor && net.queuedFor == Run(cfg, before).queuedFor
      requires net.unqueued == Run(cfg, before).unqueued
      requires EveryoneSettled(cfg, before, call.message, call.blocked, call.rest)
      ensures EveryoneSettled(cfg, trace, call.message, call.blocked, call.rest)
    {
      forall user | user in call.rest && !Skipped(call.message, call.blocked, user)
        ensures OneFate(net, Payload(user, call.message.id))
        ensures Logged(net, Payload(user, call.message.id)) <==>
          !SomePushFails(cfg, trace, Payload(user, call.message.id))
      {
        assert OneFate(Run(cfg, before), Payload(user, call.message.id));
        UnqueuedExactlyWhen(cfg, trace, Payload(user, call.message.id));
      }
    }

    method Finish(t: Task)
      requires Calling(t) && t.rest == []
      modifies this
      ensures Traced() && trace == old(trace) + [Advance(t.message.id, [])] && t.message.id !in net.tasks
      ensures net == old(net).(tasks := net.tasks)
    {
      net := net.(tasks := net.tasks - {t.message.id});
      OneMore(cfg, trace, Advance(t.message.id, []));
      trace := trace + [Advance(t.message.id, [])];
    }
  }
}

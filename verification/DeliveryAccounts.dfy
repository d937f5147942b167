/** Who may receive a message at all, and by which of the two ways. */
module DeliveryAccounting {
  import opened Types
  import opened Subscriptions
  import opened DeliveryProtocol
  import opened DeliverySafety

  /** A participant of the conversation that is neither the sender nor in the sender's block list. */
  ghost predicate Recipient(st: State, user: Uuid, message: Uuid) {
    && message in st.routed
    && var call := st.routed[message];
       user in call.rest && user != call.message.sender && user !in call.blocked
  }

  ghost predicate Logged(st: State, p: Payload) {
    p in st.sentFor || p in st.queuedFor
  }

  /** Sent, queued, or lost to a failed push. */
  ghost predicate Settled(st: State, p: Payload) {
    Logged(st, p) || p in st.unqueued
  }

  /** A participant still to be served has been neither sent to nor queued, unless its fan-out is under way. */
  ghost predicate Untouched(st: State, t: Task, user: Uuid) {
    && Payload(user, t.message.id) !in st.queuedFor
    && Payload(user, t.message.id) !in st.unqueued
    && (Payload(user, t.message.id) in st.sentFor ==> t.phase.Fanout? && t.rest != [] && user == t.rest[0])
  }

  ghost predicate TaskAccounted(st: State, t: Task) {
    && t.message.id in st.routed
    && t.message == st.routed[t.message.id].message
    && t.blocked == st.routed[t.message.id].blocked
    && (forall user :: user in t.rest ==> user in st.routed[t.message.id].rest && Untouched(st, t, user))
    && (forall user :: Count(t.rest, user) <= 1)
    && (t.rest != [] && !t.phase.Filtering? ==> t.rest[0] != t.message.sender && t.rest[0] !in t.blocked)
  }

  ghost predicate TasksAccounted(st: State) {
    forall m :: m in st.tasks ==> st.tasks[m].message.id == m && TaskAccounted(st, st.tasks[m])
  }

  /** What waits in a channel was sent; what waits in a queue or a drained batch was queued. */
  ghost predicate StoresAccounted(st: State) {
    && (forall s, p :: p in Entries(st.channels, s) ==> p in st.sentFor)
    && (forall u, m :: m in Entries(st.queues, u) ==> Payload(u, m) in st.queuedFor)
    && (forall at, i, m :: 0 <= i < |Entries(st.fetched, at)| && m in Entries(st.fetched, at)[i] ==>
          Payload(at.user, m) in st.queuedFor)
    && (forall at, m :: m in Entries(st.draining, at) ==> Payload(at.user, m) in st.queuedFor)
  }

  ghost predicate ReceiptsAccounted(st: State) {
    forall d :: d in st.delivered ==> d.conn in st.home && Logged(st, Payload(st.home[d.conn].user, d.message))
  }

  ghost predicate LogsAccounted(st: State) {
    && (forall p :: Settled(st, p) ==> Recipient(st, p.user, p.message))
    && st.sentFor !! st.queuedFor
    && st.sentFor + st.queuedFor !! st.unqueued
  }

  ghost predicate Accounted(st: State) {
    TasksAccounted(st) && StoresAccounted(st) && ReceiptsAccounted(st) && LogsAccounted(st)
  }

  // ---- The routing loop.

  lemma ActionNeedsRecipient(st: State, t: Task)
    requires TaskAccounted(st, t) && t.rest != []
    ensures !ActionOf(st, t).Nothing? ==> Recipient(st, t.rest[0], t.message.id)
    ensures ActionOf(st, t).SendTo? ==> ActionOf(st, t).conns <= Everyone(st, Home(t.server, t.rest[0]))
    ensures ActionOf(st, t).Push? ==> Payload(t.rest[0], t.message.id) !in st.sentFor
    ensures Payload(t.rest[0], t.message.id) !in st.queuedFor && Payload(t.rest[0], t.message.id) !in st.unqueued
  {
    assert t.rest[0] in t.rest;
    assert Untouched(st, t, t.rest[0]);
  }

  lemma PerformKeepsStores(st: State, action: Action, payload: Payload)
    requires StoresAccounted(st)
    ensures StoresAccounted(Perform(st, action, payload))
  {
    var st' := Perform(st, action, payload);
    if action.Publish? {
      forall s, p | p in Entries(st'.channels, s) ensures p in st'.sentFor {
        assert p in Entries(st.channels, s) || p == payload;
      }
    }
  }

  lemma SendReceipts(st: State, conns: set<Uuid>, message: Uuid, d: Delivery)
    ensures d in Send(st, conns, message).delivered <==> d in st.delivered || (d.conn in conns && d.message == message)
  {
    assert d in Receipts(conns, message) <==> d.conn in conns && d.message == message;
  }

  /** Sending a logged payload to connections of its user. */
  lemma SendKeepsReceipts(st: State, st': State, conns: set<Uuid>, payload: Payload, server: Uuid)
    requires ReceiptsAccounted(st) && conns <= Everyone(st, Home(server, payload.user))
    requires st'.home == st.home && st.sentFor <= st'.sentFor && st.queuedFor <= st'.queuedFor && Logged(st', payload)
    requires st'.delivered == Send(st, conns, payload.message).delivered
    ensures ReceiptsAccounted(st')
  {
    forall d | d in st'.delivered ensures d.conn in st'.home && Logged(st', Payload(st'.home[d.conn].user, d.message)) {
      SendReceipts(st, conns, payload.message, d);
      if d !in st.delivered {
        assert Payload(st'.home[d.conn].user, d.message) == payload;
      }
    }
  }

  lemma PerformKeepsReceipts(st: State, action: Action, payload: Payload, server: Uuid)
    requires ReceiptsAccounted(st)
    requires action.SendTo? ==> action.conns <= Everyone(st, Home(server, payload.user))
    ensures ReceiptsAccounted(Perform(st, action, payload))
  {
    if action.SendTo? {
      SendKeepsReceipts(st, Perform(st, action, payload), action.conns, payload, server);
    }
  }

  lemma PerformKeepsLogs(st: State, action: Action, payload: Payload)
    requires LogsAccounted(st)
    requires !action.Nothing? ==> Recipient(st, payload.user, payload.message)
    requires payload !in st.queuedFor && payload !in st.unqueued && (action.Push? ==> payload !in st.sentFor)
    ensures LogsAccounted(Perform(st, action, payload))
  {
    var st' := Perform(st, action, payload);
    forall p | Settled(st', p) ensures Recipient(st', p.user, p.message) {
      assert p == payload || Settled(st, p);
    }
  }

  /** What the action logs concerns this call's message and this participant only. */
  lemma PerformLogsOne(st: State, action: Action, payload: Payload, p: Payload)
    ensures p in Perform(st, action, payload).sentFor ==>
              p in st.sentFor || (p == payload && (action.SendTo? || action.Publish?))
    ensures p in Perform(st, action, payload).queuedFor ==> p in st.queuedFor || (p == payload && action.Push?)
    ensures Perform(st, action, payload).unqueued == st.unqueued
    ensures Perform(st, action, payload).routed == st.routed
  {
  }

  lemma OtherTask(st: State, action: Action, payload: Payload, t: Task)
    requires TaskAccounted(st, t) && t.message.id != payload.message
    ensures TaskAccounted(Perform(st, action, payload), t)
  {
    var st' := Perform(st, action, payload);
    PerformLogsOne(st, action, payload, payload);
    forall user | user in t.rest ensures Untouched(st', t, user) {
      assert Untouched(st, t, user);
      PerformLogsOne(st, action, payload, Payload(user, t.message.id));
    }
  }

  /** Where the loop goes next: on to the next participant, or on with this one. */
  lemma TaskMoves(cfg: Config, st: State, t: Task, order: seq<Uuid>)
    requires t.rest != []
    ensures
      var t' := TaskAfter(cfg, st, t, order);
      && t'.message == t.message && t'.blocked == t.blocked
      && (t' == NextParticipant(t)
          || (t'.rest == t.rest && !t'.phase.Filtering?
              && (t.phase.Filtering? ==> t.rest[0] != t.message.sender && t.rest[0] !in t.blocked)
              && (ActionOf(st, t) != Nothing || t.phase.Fanout? ==>
                  t.phase.Fanout? && t'.phase.Fanout? && ActionOf(st, t) != Push)))
  {
  }

  lemma OwnTask(cfg: Config, st: State, t: Task, order: seq<Uuid>)
    requires TaskAccounted(st, t) && t.rest != []
    ensures TaskAccounted(Perform(st, ActionOf(st, t), Payload(t.rest[0], t.message.id)), TaskAfter(cfg, st, t, order))
  {
    var action, payload := ActionOf(st, t), Payload(t.rest[0], t.message.id);
    var st', t' := Perform(st, action, payload), TaskAfter(cfg, st, t, order);
    TaskMoves(cfg, st, t, order);
    PerformLogsOne(st, action, payload, payload);
    forall user ensures Count(t'.rest, user) <= 1 {
      TailCounts(t.rest, user);
      assert Count(t.rest, user) <= 1;
    }
    forall user | user in t'.rest ensures user in t.rest && Untouched(st', t', user) {
      assert user in t.rest;
      assert Untouched(st, t, user);
      PerformLogsOne(st, action, payload, Payload(user, t.message.id));
      if t' == NextParticipant(t) {
        HeadIsGone(t.rest, user);
      }
    }
  }

  lemma HeadIsGone(s: seq<Uuid>, x: Uuid)
    requires s != [] && Count(s, x) <= 1 && x in s[1..]
    ensures x != s[0]
  {
    TailCounts(s, x);
    assert x in multiset(s[1..]);
  }

  lemma AdvanceKeepsAccounts(cfg: Config, st: State, t: Task, order: seq<Uuid>)
    requires Accounted(st) && t.message.id in st.tasks && st.tasks[t.message.id] == t
    ensures Accounted(AdvanceTask(cfg, st, t, order))
  {
    if t.rest != [] {
      var action, payload := ActionOf(st, t), Payload(t.rest[0], t.message.id);
      var done := Perform(st, action, payload);
      ActionNeedsRecipient(st, t);
      PerformKeepsTasks(st, action, payload);
      PerformKeepsStores(st, action, payload);
      PerformKeepsReceipts(st, action, payload, t.server);
      PerformKeepsLogs(st, action, payload);
      OwnTask(cfg, st, t, order);
      TaskMoves(cfg, st, t, order);
      forall m | m in st.tasks && m != t.message.id ensures TaskAccounted(done, st.tasks[m]) {
        OtherTask(st, action, payload, st.tasks[m]);
      }
      ReplacingTask(done, TaskAfter(cfg, st, t, order));
    } else {
      var st' := AdvanceTask(cfg, st, t, order);
      SameTasksSameLogs(st, st');
    }
  }

  lemma ReplacingTask(st: State, t: Task)
    requires StoresAccounted(st) && ReceiptsAccounted(st) && LogsAccounted(st) && TaskAccounted(st, t)
    requires forall m :: m in st.tasks && m != t.message.id ==>
               st.tasks[m].message.id == m && TaskAccounted(st, st.tasks[m])
    ensures Accounted(WithTask(st, t))
  {
    var st' := WithTask(st, t);
    forall m | m in st'.tasks ensures st'.tasks[m].message.id == m && TaskAccounted(st', st'.tasks[m]) {
      assert TaskAccounted(st, st'.tasks[m]);
      SameLogs(st, st', st'.tasks[m]);
    }
    forall p | Settled(st', p) ensures Recipient(st', p.user, p.message) {
      assert Settled(st, p);
    }
  }

  lemma SameLogs(st: State, st': State, t: Task)
    requires TaskAccounted(st, t)
    requires t.message.id in st'.routed && st'.routed[t.message.id] == st.routed[t.message.id]
    requires st'.sentFor == st.sentFor && st'.queuedFor == st.queuedFor && st'.unqueued == st.unqueued
    ensures TaskAccounted(st', t)
  {
    forall user | user in t.rest ensures Untouched(st', t, user) {
      assert Untouched(st, t, user);
    }
  }

  lemma SameTasksSameLogs(st: State, st': State)
    requires TasksAccounted(st) && LogsAccounted(st)
    requires forall m :: m in st'.tasks ==> m in st.tasks && st'.tasks[m] == st.tasks[m]
    requires st'.routed == st.routed && st'.sentFor == st.sentFor && st'.queuedFor == st.queuedFor
      && st'.unqueued == st.unqueued
    ensures TasksAccounted(st') && LogsAccounted(st')
  {
    forall m | m in st'.tasks ensures st'.tasks[m].message.id == m && TaskAccounted(st', st'.tasks[m]) {
      SameLogs(st, st', st.tasks[m]);
    }
    forall p | Settled(st', p) ensures Recipient(st', p.user, p.message) {
      assert Settled(st, p);
    }
  }

  // ---- Everything else.

  lemma RouteKeepsAccounts(cfg: Config, st: State, step: Step)
    requires Accounted(st) && step.Route?
    ensures Accounted(Apply(cfg, st, step))
  {
    var id := step.message.id;
    if id !in st.routed && Distinct(step.participants) {
      var t := Task(step.server, step.message, step.blocked, step.participants, Filtering);
      var started := st.(routed := st.routed[id := t]);
      forall p | Settled(started, p) ensures Recipient(started, p.user, p.message) && p.message != id {
        assert Settled(st, p) && Recipient(st, p.user, p.message);
      }
      forall user | user in t.rest ensures Untouched(started, t, user) {
        assert !Settled(started, Payload(user, id));
      }
      forall m | m in st.tasks ensures st.tasks[m].message.id == m && TaskAccounted(started, st.tasks[m]) {
        SameLogs(st, started, st.tasks[m]);
      }
      forall user ensures Count(t.rest, user) <= 1 {
        OrderCounts(t.rest, Elems(t.rest), user);
      }
      ReplacingTask(started, t);
    }
  }

  lemma ConnectKeepsAccounts(cfg: Config, st: State, conn: Uuid, at: Home)
    requires Accounted(st)
    ensures Accounted(Apply(cfg, st, Connect(conn, at)))
  {
    SameTasksSameLogs(st, Apply(cfg, st, Connect(conn, at)));
  }

  /** Channels, queues and batches that have only lost entries. */
  lemma DroppingKeepsAccounts(st: State, st': State)
    requires Accounted(st)
    requires st' == st.(channels := st'.channels, draining := st'.draining)
    requires forall s, p :: p in Entries(st'.channels, s) ==> p in Entries(st.channels, s)
    requires forall at, m :: m in Entries(st'.draining, at) ==> m in Entries(st.draining, at)
    ensures Accounted(st')
  {
    SameTasksSameLogs(st, st');
  }

  lemma SendingKeepsAccounts(st: State, conns: set<Uuid>, payload: Payload, server: Uuid)
    requires Accounted(st) && Logged(st, payload) && conns <= Everyone(st, Home(server, payload.user))
    ensures Accounted(Send(st, conns, payload.message))
  {
    var st' := Send(st, conns, payload.message);
    SameTasksSameLogs(st, st');
    SendKeepsReceipts(st, st', conns, payload, server);
  }

  lemma SameEveryone(st: State, st': State, at: Home)
    requires st'.home == st.home && st'.live == st.live
    ensures Everyone(st', at) == Everyone(st, at)
  {
  }

  lemma LoseKeepsAccounts(cfg: Config, st: State, server: Uuid)
    requires Accounted(st)
    ensures Accounted(Apply(cfg, st, Lose(server)))
  {
    DroppingKeepsAccounts(st, Apply(cfg, st, Lose(server)));
  }

  lemma HandleKeepsAccounts(cfg: Config, st: State, server: Uuid)
    requires Accounted(st)
    ensures Accounted(Apply(cfg, st, Handle(server)))
  {
    var channel := Entries(st.channels, server);
    if channel != [] {
      var lost, here := Apply(cfg, st, Lose(server)), Home(server, channel[0].user);
      LoseKeepsAccounts(cfg, st, server);
      assert channel[0] in channel;
      SameEveryone(st, lost, here);
      SendingKeepsAccounts(lost, Everyone(st, here), channel[0], server);
    }
  }

  lemma SendDrainedKeepsAccounts(cfg: Config, st: State, at: Home)
    requires Accounted(st)
    ensures Accounted(Apply(cfg, st, SendDrained(at)))
  {
    var batch := Entries(st.draining, at);
    if batch != [] {
      var dropped := st.(draining := st.draining[at := batch[1..]]);
      DroppingKeepsAccounts(st, dropped);
      assert batch[0] in batch;
      SameEveryone(st, dropped, at);
      SendingKeepsAccounts(dropped, Everyone(st, at), Payload(at.user, batch[0]), at.server);
    }
  }

  lemma ReadQueueKeepsAccounts(cfg: Config, st: State, at: Home)
    requires Accounted(st)
    ensures Accounted(Apply(cfg, st, ReadQueue(at)))
  {
    var st' := Apply(cfg, st, ReadQueue(at));
    SameTasksSameLogs(st, st');
    forall there, i, m | 0 <= i < |Entries(st'.fetched, there)| && m in Entries(st'.fetched, there)[i]
      ensures Payload(there.user, m) in st'.queuedFor
    {
      assert if there == at && i == |Entries(st.fetched, at)| then m in Entries(st.queues, at.user)
             else Entries(st'.fetched, there)[i] == Entries(st.fetched, there)[i];
    }
  }

  lemma ForgetReadKeepsAccounts(st: State, at: Home, i: nat)
    requires Accounted(st) && i < |Entries(st.fetched, at)|
    ensures Accounted(WithoutRead(st, at, i))
  {
    var st' := WithoutRead(st, at, i);
    SameTasksSameLogs(st, st');
    forall there, j, m | 0 <= j < |Entries(st'.fetched, there)| && m in Entries(st'.fetched, there)[j]
      ensures Payload(there.user, m) in st'.queuedFor
    {
      var k := if there == at && j >= i then j + 1 else j;
      assert Entries(st'.fetched, there)[j] == Entries(st.fetched, there)[k];
    }
  }

  /** The read at `i` is handed over to be sent. */
  lemma HandingOverKeepsAccounts(st: State, at: Home, i: nat)
    requires Accounted(st) && i < |Entries(st.fetched, at)|
    ensures Accounted(st.(queues := st.queues[at.user := []],
                          draining := st.draining[at := Entries(st.draining, at) + Entries(st.fetched, at)[i]]))
  {
    var st' := st.(queues := st.queues[at.user := []],
                   draining := st.draining[at := Entries(st.draining, at) + Entries(st.fetched, at)[i]]);
    SameTasksSameLogs(st, st');
    forall there, m | m in Entries(st'.draining, there) ensures Payload(there.user, m) in st'.queuedFor {
      assert m in Entries(st.draining, there) || (there == at && m in Entries(st.fetched, at)[i]);
    }
  }

  lemma DrainsKeepAccounts(cfg: Config, st: State, step: Step)
    requires Accounted(st) && (step.DeleteQueue? || step.ForgetRead?)
    ensures Accounted(Apply(cfg, st, step))
  {
    if step.i < |Entries(st.fetched, step.at)| {
      if step.ForgetRead? {
        ForgetReadKeepsAccounts(st, step.at, step.i);
      } else {
        HandingOverKeepsAccounts(st, step.at, step.i);
        ForgetReadKeepsAccounts(st.(queues := st.queues[step.at.user := []],
          draining := st.draining[step.at := Entries(st.draining, step.at) + Entries(st.fetched, step.at)[step.i]]),
            step.at, step.i);
      }
    }
  }

  lemma TrimQueueKeepsAccounts(cfg: Config, st: State, user: Uuid, keep: nat)
    requires Accounted(st)
    ensures Accounted(Apply(cfg, st, TrimQueue(user, keep)))
  {
    SameTasksSameLogs(st, Apply(cfg, st, TrimQueue(user, keep)));
  }

  lemma TablesKeepAccounts(cfg: Config, st: State, step: Step)
    requires Accounted(st)
    requires step.Disconnect? || step.SetFilter? || step.JoinSession? || step.LeaveSession? || step.Abort?
    ensures Accounted(Apply(cfg, st, step))
  {
    var st' := Apply(cfg, st, step);
    assert st' == st.(live := st'.live, sessions := st'.sessions, tasks := st'.tasks);
    SameTasksSameLogs(st, st');
  }

  // ---- A push that fails.

  lemma SkippedTask(st: State, t: Task)
    requires TaskAccounted(st, t) && t.rest != [] && t.phase == Enqueue
    ensures TaskAccounted(st.(unqueued := st.unqueued + {Payload(t.rest[0], t.message.id)}), NextParticipant(t))
  {
    var st' := st.(unqueued := st.unqueued + {Payload(t.rest[0], t.message.id)});
    forall user ensures Count(t.rest[1..], user) <= 1 {
      TailCounts(t.rest, user);
      assert Count(t.rest, user) <= 1;
    }
    forall user | user in t.rest[1..] ensures user in t.rest && Untouched(st', NextParticipant(t), user) {
      assert user in t.rest;
      assert Untouched(st, t, user);
      HeadIsGone(t.rest, user);
    }
  }

  lemma BesideSkippedTask(st: State, payload: Payload, t: Task)
    requires TaskAccounted(st, t) && t.message.id != payload.message
    ensures TaskAccounted(st.(unqueued := st.unqueued + {payload}), t)
  {
    forall user | user in t.rest ensures Untouched(st.(unqueued := st.unqueued + {payload}), t, user) {
      assert Untouched(st, t, user);
    }
  }

  lemma SkippingKeepsLogs(st: State, payload: Payload)
    requires LogsAccounted(st) && Recipient(st, payload.user, payload.message) && !Logged(st, payload)
    ensures LogsAccounted(st.(unqueued := st.unqueued + {payload}))
  {
    var st' := st.(unqueued := st.unqueued + {payload});
    forall p | Settled(st', p) ensures Recipient(st', p.user, p.message) {
      assert p == payload || Settled(st, p);
    }
  }

  lemma SkipPushKeepsAccounts(st: State, t: Task)
    requires Accounted(st) && t.message.id in st.tasks && st.tasks[t.message.id] == t && t.rest != []
      && t.phase == Enqueue
    ensures Accounted(SkipPush(st, t))
  {
    var payload := Payload(t.rest[0], t.message.id);
    var skipped := st.(unqueued := st.unqueued + {payload});
    assert t.rest[0] in t.rest && Untouched(st, t, t.rest[0]);
    SkippingKeepsLogs(st, payload);
    SkippedTask(st, t);
    forall m | m in st.tasks && m != t.message.id ensures TaskAccounted(skipped, st.tasks[m]) {
      BesideSkippedTask(st, payload, st.tasks[m]);
    }
    ReplacingTask(skipped, NextParticipant(t));
  }

  lemma FailPushKeepsAccounts(cfg: Config, st: State, id: Uuid)
    requires Accounted(st)
    ensures Accounted(Apply(cfg, st, FailPush(id)))
  {
    if Pushing(st, id) {
      SkipPushKeepsAccounts(st, st.tasks[id]);
    }
  }

  lemma ApplyKeepsAccounts(cfg: Config, st: State, step: Step)
    requires Accounted(st)
    ensures Accounted(Apply(cfg, st, step))
  {
    match step {
      case Connect(conn, at) => ConnectKeepsAccounts(cfg, st, conn, at);
      case Route(_, _, _, _) => RouteKeepsAccounts(cfg, st, step);
      case Advance(id, order) => if id in st.tasks { AdvanceKeepsAccounts(cfg, st, st.tasks[id], order); }
      case FailPush(id) => FailPushKeepsAccounts(cfg, st, id);
      case Handle(server) => HandleKeepsAccounts(cfg, st, server);
      case Lose(server) => LoseKeepsAccounts(cfg, st, server);
      case SendDrained(at) => SendDrainedKeepsAccounts(cfg, st, at);
      case TrimQueue(user, keep) => TrimQueueKeepsAccounts(cfg, st, user, keep);
      case ReadQueue(at) => ReadQueueKeepsAccounts(cfg, st, at);
      case DeleteQueue(_, _) => DrainsKeepAccounts(cfg, st, step);
      case ForgetRead(_, _) => DrainsKeepAccounts(cfg, st, step);
      case _ => TablesKeepAccounts(cfg, st, step);
    }
  }

  lemma {:induction false} RunKeepsAccounts(cfg: Config, steps: seq<Step>)
    ensures Accounted(Run(cfg, steps))
  {
    if steps == [] {
    } else {
      RunKeepsAccounts(cfg, steps[..|steps| - 1]);
      ApplyKeepsAccounts(cfg, Run(cfg, steps[..|steps| - 1]), steps[|steps| - 1]);
    }
  }

  ghost predicate ReceivedByRecipient(st: State, conn: Uuid, message: Uuid) {
    Delivery(conn, message) in st.delivered ==> conn in st.home && Recipient(st, st.home[conn].user, message)
  }

  ghost predicate ServedOneWay(st: State, user: Uuid, message: Uuid) {
    && !(Payload(user, message) in st.sentFor && Payload(user, message) in st.queuedFor)
    && (forall server, at: Home :: at.user == user && Payload(user, message) in Entries(st.channels, server) ==>
          message !in Entries(st.queues, user) && message !in Entries(st.draining, at))
  }

  /**
   In every run, a connection that receives a message belongs to a participant that is neither
   the sender nor blocked, and a participant is served in one way only: a message queued for a
   user is in no channel, and one sent to servers is in none of the user's queues or batches.
   */
  lemma OnlyRecipientsAndOnlyOneWay(cfg: Config, steps: seq<Step>, conn: Uuid, user: Uuid, message: Uuid)
    ensures ReceivedByRecipient(Run(cfg, steps), conn, message)
    ensures ServedOneWay(Run(cfg, steps), user, message)
  {
    RunKeepsAccounts(cfg, steps);
    var st := Run(cfg, steps);
    if Delivery(conn, message) in st.delivered {
      assert Logged(st, Payload(st.home[conn].user, message));
    }
  }
}

/**
 What becomes of a recipient: with a cluster router and an offline queue, each one a routing call
 is done with has been sent the message, has it in the offline queue, or was lost to a push that failed.
 */
module DeliveryCoverage {
  import opened Types
  import opened Subscriptions
  import opened DeliveryProtocol
  import opened DeliverySafety
  import opened DeliveryAccounting

  ghost predicate TaskCovered(st: State, t: Task) {
    && (forall user :: Recipient(st, user, t.message.id) && user !in t.rest ==>
        Settled(st, Payload(user, t.message.id)))
    && (t.rest != [] && t.phase == Fanout([]) ==> Payload(t.rest[0], t.message.id) in st.sentFor)
  }

  ghost predicate Covered(st: State) {
    forall m :: m in st.tasks ==> TaskCovered(st, st.tasks[m])
  }

  /** What has been routed, sent or queued stays so. */
  ghost predicate LogsGrow(st: State, st': State) {
    && st.sentFor <= st'.sentFor && st.queuedFor <= st'.queuedFor && st.unqueued <= st'.unqueued
    && forall m :: m in st.routed ==> m in st'.routed && st'.routed[m] == st.routed[m]
  }

  lemma PerformGrowsLogs(st: State, action: Action, payload: Payload)
    ensures LogsGrow(st, Perform(st, action, payload))
    ensures action != Nothing ==> Logged(Perform(st, action, payload), payload)
    ensures action.SendTo? || action.Publish? ==> payload in Perform(st, action, payload).sentFor
  {
  }

  lemma AdvanceGrowsLogs(cfg: Config, st: State, t: Task, order: seq<Uuid>)
    ensures LogsGrow(st, AdvanceTask(cfg, st, t, order))
  {
    if t.rest != [] {
      PerformGrowsLogs(st, ActionOf(st, t), Payload(t.rest[0], t.message.id));
    }
  }

  ghost predicate SameLogged(st: State, st': State) {
    st'.sentFor == st.sentFor && st'.queuedFor == st.queuedFor && st'.unqueued == st.unqueued && st'.routed == st.routed
  }

  lemma TablesLogNothing(cfg: Config, st: State, step: Step)
    requires step.Connect? || step.Disconnect? || step.SetFilter? || step.JoinSession? || step.LeaveSession?
      || step.Abort?
    ensures SameLogged(st, Apply(cfg, st, step))
  {
  }

  lemma SendLogsNothing(st: State, to: set<Uuid>, message: Uuid)
    ensures SameLogged(st, Send(st, to, message))
  {
  }

  lemma HandleLogsNothing(cfg: Config, st: State, server: Uuid)
    ensures SameLogged(st, Apply(cfg, st, Handle(server)))
  {
    var channel := Entries(st.channels, server);
    if channel != [] {
      SendLogsNothing(st.(channels := st.channels[server := channel[1..]]), Everyone(st, Home(server, channel[0].user)),
                      channel[0].message);
    }
  }

  lemma LoseLogsNothing(cfg: Config, st: State, server: Uuid)
    ensures SameLogged(st, Apply(cfg, st, Lose(server)))
  {
    var st' := Apply(cfg, st, Lose(server));
    assert st' == st.(channels := st'.channels);
  }

  lemma QueueLogsNothing(cfg: Config, st: State, step: Step)
    requires step.TrimQueue? || step.ReadQueue? || step.DeleteQueue? || step.ForgetRead?
    ensures SameLogged(st, Apply(cfg, st, step))
  {
  }

  lemma SendDrainedLogsNothing(cfg: Config, st: State, at: Home)
    ensures SameLogged(st, Apply(cfg, st, SendDrained(at)))
  {
    var batch := Entries(st.draining, at);
    if batch != [] {
      SendLogsNothing(st.(draining := st.draining[at := batch[1..]]), Everyone(st, at), batch[0]);
    }
  }

  lemma RouteGrowsLogs(cfg: Config, st: State, step: Step)
    requires step.Route?
    ensures LogsGrow(st, Apply(cfg, st, step))
  {
    var st' := Apply(cfg, st, step);
    assert st' == st.(routed := st'.routed, tasks := st'.tasks);
    assert step.message.id in st.routed ==> st' == st;
  }

  lemma OthersLogNothing(cfg: Config, st: State, step: Step)
    requires !step.Advance? && !step.FailPush? && !step.Route?
    ensures SameLogged(st, Apply(cfg, st, step))
  {
    match step {
      case Handle(server) => HandleLogsNothing(cfg, st, server);
      case Lose(server) => LoseLogsNothing(cfg, st, server);
      case TrimQueue(_, _) => QueueLogsNothing(cfg, st, step);
      case ReadQueue(_) => QueueLogsNothing(cfg, st, step);
      case DeleteQueue(_, _) => QueueLogsNothing(cfg, st, step);
      case ForgetRead(_, _) => QueueLogsNothing(cfg, st, step);
      case SendDrained(at) => SendDrainedLogsNothing(cfg, st, at);
      case _ => TablesLogNothing(cfg, st, step);
    }
  }

  lemma OthersGrowLogs(cfg: Config, st: State, step: Step)
    requires !step.Advance?
    ensures LogsGrow(st, Apply(cfg, st, step))
  {
    match step {
      case Route(_, _, _, _) => RouteGrowsLogs(cfg, st, step);
      case FailPush(id) => FailPushGrowsLogs(cfg, st, id);
      case _ => OthersLogNothing(cfg, st, step);
    }
  }

  lemma ApplyGrowsLogs(cfg: Config, st: State, step: Step)
    ensures LogsGrow(st, Apply(cfg, st, step))
  {
    if !step.Advance? {
      OthersGrowLogs(cfg, st, step);
    } else if step.id in st.tasks {
      AdvanceGrowsLogs(cfg, st, st.tasks[step.id], step.order);
    }
  }

  lemma StaysCovered(st: State, st': State, t: Task)
    requires TaskCovered(st, t) && LogsGrow(st, st') && t.message.id in st.routed
    ensures TaskCovered(st', t)
  {
    forall user | Recipient(st', user, t.message.id) && user !in t.rest
      ensures Settled(st', Payload(user, t.message.id))
    {
      assert Recipient(st, user, t.message.id);
    }
  }

  lemma NothingFound(servers: seq<Uuid>, found: set<Uuid>)
    requires multiset(servers) == multiset(found)
    ensures servers == [] <==> found == {}
  {
    assert |multiset(servers)| == |servers|;
  }

  /** The loop moves on from a recipient only when it is served. */
  lemma MovesOnWhenServed(cfg: Config, st: State, t: Task, order: seq<Uuid>)
    requires cfg.clustered && cfg.queueing && t.rest != [] && TaskCovered(st, t)
    ensures
      var t' := TaskAfter(cfg, st, t, order);
      t'.rest != t.rest ==>
        || t.rest[0] == t.message.sender || t.rest[0] in t.blocked
        || ActionOf(st, t) != Nothing || Payload(t.rest[0], t.message.id) in st.sentFor
    ensures
      var t' := TaskAfter(cfg, st, t, order);
      t'.rest == t.rest && t'.phase == Fanout([]) ==> ActionOf(st, t).SendTo? || ActionOf(st, t).Publish?
  {
    if t.phase.Lookup? && multiset(order) == multiset(Members(st.sessions, t.rest[0])) {
      NothingFound(order, Members(st.sessions, t.rest[0]));
    }
  }

  lemma OwnTaskCovered(cfg: Config, st: State, t: Task, order: seq<Uuid>)
    requires cfg.clustered && cfg.queueing && t.rest != [] && TaskCovered(st, t) && TaskAccounted(st, t)
    ensures TaskCovered(Perform(st, ActionOf(st, t), Payload(t.rest[0], t.message.id)), TaskAfter(cfg, st, t, order))
  {
    var payload := Payload(t.rest[0], t.message.id);
    var st', t' := Perform(st, ActionOf(st, t), payload), TaskAfter(cfg, st, t, order);
    MovesOnWhenServed(cfg, st, t, order);
    PerformGrowsLogs(st, ActionOf(st, t), payload);
    TaskMoves(cfg, st, t, order);
    forall user | Recipient(st', user, t.message.id) && user !in t'.rest
      ensures Settled(st', Payload(user, t.message.id))
    {
      assert Recipient(st, user, t.message.id);
      assert t.rest == [t.rest[0]] + t.rest[1..];
      if user in t.rest {
        assert user == t.rest[0] && t'.rest != t.rest;
      }
    }
  }

  /** A call's new state, put in the place of its old one. */
  lemma ReplacingCovered(st: State, done: State, t': Task)
    requires Covered(st) && TasksAccounted(st) && LogsGrow(st, done) && done.tasks == st.tasks && TaskCovered(done, t')
    requires t'.message.id in done.routed
    ensures Covered(WithTask(done, t'))
  {
    var st' := WithTask(done, t');
    forall m | m in st'.tasks ensures TaskCovered(st', st'.tasks[m]) {
      if m == t'.message.id {
        StaysCovered(done, st', t');
      } else {
        assert TaskAccounted(st, st.tasks[m]);
        StaysCovered(st, st', st.tasks[m]);
      }
    }
  }

  lemma EndingKeepsCovered(st: State, id: Uuid)
    requires Covered(st) && TasksAccounted(st)
    ensures Covered(st.(tasks := st.tasks - {id}))
  {
    var st' := st.(tasks := st.tasks - {id});
    forall m | m in st'.tasks ensures TaskCovered(st', st'.tasks[m]) {
      assert TaskAccounted(st, st.tasks[m]);
      StaysCovered(st, st', st.tasks[m]);
    }
  }

  lemma AdvanceKeepsCovered(cfg: Config, st: State, t: Task, order: seq<Uuid>)
    requires cfg.clustered && cfg.queueing && Covered(st) && TasksAccounted(st)
    requires t.message.id in st.tasks && st.tasks[t.message.id] == t
    ensures Covered(AdvanceTask(cfg, st, t, order))
  {
    assert TaskAccounted(st, st.tasks[t.message.id]);
    if t.rest == [] {
      EndingKeepsCovered(st, t.message.id);
    } else {
      var action, payload := ActionOf(st, t), Payload(t.rest[0], t.message.id);
      OwnTaskCovered(cfg, st, t, order);
      PerformKeepsTasks(st, action, payload);
      PerformGrowsLogs(st, action, payload);
      TaskMoves(cfg, st, t, order);
      ReplacingCovered(st, Perform(st, action, payload), TaskAfter(cfg, st, t, order));
    }
  }

  lemma SameTasksCovered(st: State, st': State)
    requires Covered(st) && TasksAccounted(st) && LogsGrow(st, st')
    requires forall m :: m in st'.tasks ==> m in st.tasks && st'.tasks[m] == st.tasks[m]
    ensures Covered(st')
  {
    forall m | m in st'.tasks ensures TaskCovered(st', st'.tasks[m]) {
      assert TaskAccounted(st, st.tasks[m]);
      StaysCovered(st, st', st.tasks[m]);
    }
  }

  lemma RouteKeepsCovered(cfg: Config, st: State, step: Step)
    requires Covered(st) && TasksAccounted(st) && step.Route?
    ensures Covered(Apply(cfg, st, step))
  {
    if step.message.id !in st.routed && Distinct(step.participants) {
      var t := Task(step.server, step.message, step.blocked, step.participants, Filtering);
      var started := st.(routed := st.routed[step.message.id := t]);
      ReplacingCovered(st, started, t);
    }
  }

  lemma OthersKeepCovered(cfg: Config, st: State, step: Step)
    requires Covered(st) && TasksAccounted(st) && !step.Advance?
    ensures Covered(Apply(cfg, st, step))
  {
    if step.Route? {
      RouteKeepsCovered(cfg, st, step);
    } else if step.FailPush? {
      FailPushKeepsCovered(cfg, st, step.id);
    } else {
      OthersGrowLogs(cfg, st, step);
      SameTasksCovered(st, Apply(cfg, st, step));
    }
  }

  lemma ApplyKeepsCovered(cfg: Config, st: State, step: Step)
    requires cfg.clustered && cfg.queueing && Covered(st) && TasksAccounted(st)
    ensures Covered(Apply(cfg, st, step))
  {
    if !step.Advance? {
      OthersKeepCovered(cfg, st, step);
    } else if step.id in st.tasks {
      AdvanceKeepsCovered(cfg, st, st.tasks[step.id], step.order);
    }
  }

  lemma {:induction false} RunKeepsCovered(cfg: Config, steps: seq<Step>)
    requires cfg.clustered && cfg.queueing
    ensures Covered(Run(cfg, steps))
  {
    if steps == [] {
    } else {
      var init := steps[..|steps| - 1];
      RunKeepsCovered(cfg, init);
      RunKeepsAccounts(cfg, init);
      ApplyKeepsCovered(cfg, Run(cfg, init), steps[|steps| - 1]);
    }
  }

  // ---- The pushes that fail.

  lemma SkipPushGrowsLogs(st: State, t: Task)
    requires t.rest != []
    ensures LogsGrow(st, SkipPush(st, t)) && Payload(t.rest[0], t.message.id) in SkipPush(st, t).unqueued
  {
  }

  lemma FailPushGrowsLogs(cfg: Config, st: State, id: Uuid)
    ensures LogsGrow(st, Apply(cfg, st, FailPush(id)))
  {
    if Pushing(st, id) {
      SkipPushGrowsLogs(st, st.tasks[id]);
    }
  }

  lemma SkippedCovered(st: State, t: Task)
    requires TaskCovered(st, t) && t.rest != [] && t.message.id in st.routed
    ensures TaskCovered(st.(unqueued := st.unqueued + {Payload(t.rest[0], t.message.id)}), NextParticipant(t))
  {
    var st' := st.(unqueued := st.unqueued + {Payload(t.rest[0], t.message.id)});
    forall user | Recipient(st', user, t.message.id) && user !in t.rest[1..]
      ensures Settled(st', Payload(user, t.message.id))
    {
      assert Recipient(st, user, t.message.id);
      assert t.rest == [t.rest[0]] + t.rest[1..];
    }
  }

  lemma SkipPushKeepsCovered(st: State, t: Task)
    requires Covered(st) && TasksAccounted(st) && t.rest != []
    requires t.message.id in st.tasks && st.tasks[t.message.id] == t
    ensures Covered(SkipPush(st, t))
  {
    assert TaskAccounted(st, st.tasks[t.message.id]);
    SkippedCovered(st, t);
    ReplacingCovered(st, st.(unqueued := st.unqueued + {Payload(t.rest[0], t.message.id)}), NextParticipant(t));
  }

  lemma FailPushKeepsCovered(cfg: Config, st: State, id: Uuid)
    requires Covered(st) && TasksAccounted(st)
    ensures Covered(Apply(cfg, st, FailPush(id)))
  {
    if Pushing(st, id) {
      SkipPushKeepsCovered(st, st.tasks[id]);
    }
  }

  /** Step `k` is a failed push of this payload. */
  ghost predicate PushFails(cfg: Config, steps: seq<Step>, k: nat, p: Payload)
    requires k < |steps|
  {
    && steps[k] == FailPush(p.message)
    && Pushing(Run(cfg, steps[..k]), p.message)
    && Run(cfg, steps[..k]).tasks[p.message].rest[0] == p.user
  }

  ghost predicate SomePushFails(cfg: Config, steps: seq<Step>, p: Payload) {
    exists k :: 0 <= k < |steps| && PushFails(cfg, steps, k, p)
  }

  lemma AdvanceFailsNoPush(cfg: Config, st: State, t: Task, order: seq<Uuid>)
    ensures AdvanceTask(cfg, st, t, order).unqueued == st.unqueued
  {
    if t.rest != [] {
      PerformLogsOne(st, ActionOf(st, t), Payload(t.rest[0], t.message.id), Payload(t.rest[0], t.message.id));
    }
  }

  lemma RouteLosesNothing(cfg: Config, st: State, step: Step)
    requires step.Route?
    ensures Apply(cfg, st, step).unqueued == st.unqueued
  {
  }

  lemma FailPushLoses(cfg: Config, st: State, id: Uuid, p: Payload)
    requires TasksKeyed(st)
    ensures
      p in Apply(cfg, st, FailPush(id)).unqueued <==>
        p in st.unqueued || (id == p.message && Pushing(st, id) && st.tasks[id].rest[0] == p.user)
  {
    if Pushing(st, id) {
      assert SkipPush(st, st.tasks[id]).unqueued == st.unqueued + {Payload(st.tasks[id].rest[0], id)};
    }
  }

  /** A step loses a payload exactly when it is the failed push of it. */
  lemma StepLoses(cfg: Config, st: State, step: Step, p: Payload)
    requires TasksKeyed(st)
    ensures
      p in Apply(cfg, st, step).unqueued <==>
        || p in st.unqueued
        || (step == FailPush(p.message) && Pushing(st, p.message) && st.tasks[p.message].rest[0] == p.user)
  {
    match step {
      case Advance(id, order) => if id in st.tasks { AdvanceFailsNoPush(cfg, st, st.tasks[id], order); }
      case FailPush(id) => FailPushLoses(cfg, st, id, p);
      case Route(_, _, _, _) => RouteLosesNothing(cfg, st, step);
      case _ => OthersLogNothing(cfg, st, step);
    }
  }

  lemma SomePushFailsStep(cfg: Config, steps: seq<Step>, p: Payload)
    requires steps != []
    ensures
      var n := |steps| - 1;
      SomePushFails(cfg, steps, p) <==> SomePushFails(cfg, steps[..n], p) || PushFails(cfg, steps, n, p)
  {
    var n := |steps| - 1;
    forall k | 0 <= k < n ensures PushFails(cfg, steps[..n], k, p) <==> PushFails(cfg, steps, k, p) {
      assert steps[..n][..k] == steps[..k];
    }
  }

  /** The history set records exactly the failed pushes of the run. */
  lemma {:induction false} UnqueuedExactlyWhen(cfg: Config, steps: seq<Step>, p: Payload)
    ensures p in Run(cfg, steps).unqueued <==> SomePushFails(cfg, steps, p)
  {
    if steps != [] {
      var n := |steps| - 1;
      UnqueuedExactlyWhen(cfg, steps[..n], p);
      SomePushFailsStep(cfg, steps, p);
      RunIsOrderly(cfg, steps[..n]);
      StepLoses(cfg, Run(cfg, steps[..n]), steps[n], p);
    }
  }

  /** Exactly one of: sent, queued, lost to a failed push. */
  ghost predicate OneFate(st: State, p: Payload) {
    && Settled(st, p)
    && !(p in st.sentFor && p in st.queuedFor)
    && !(Logged(st, p) && p in st.unqueued)
  }

  /**
   In every run with a cluster router and an offline queue, a routing call that has worked through
   its participants has sent to, queued for or failed to queue for every recipient: exactly one of these.
   */
  lemma NoRecipientLeftBehind(cfg: Config, steps: seq<Step>, message: Uuid, user: Uuid)
    requires cfg.clustered && cfg.queueing
    requires message in Run(cfg, steps).tasks && Run(cfg, steps).tasks[message].rest == []
    ensures Recipient(Run(cfg, steps), user, message) ==> OneFate(Run(cfg, steps), Payload(user, message))
  {
    RunKeepsCovered(cfg, steps);
    RunKeepsAccounts(cfg, steps);
    var st := Run(cfg, steps);
    assert TaskCovered(st, st.tasks[message]);
  }

  /** Every recipient is served at the end of the call if and only if no push for one of them failed. */
  lemma EveryoneServedExactlyWhen(cfg: Config, steps: seq<Step>, message: Uuid)
    requires cfg.clustered && cfg.queueing
    requires message in Run(cfg, steps).tasks && Run(cfg, steps).tasks[message].rest == []
    ensures
      (forall user :: Recipient(Run(cfg, steps), user, message) ==> Logged(Run(cfg, steps), Payload(user, message)))
      <==> (forall user :: !SomePushFails(cfg, steps, Payload(user, message)))
  {
    RunKeepsAccounts(cfg, steps);
    var st := Run(cfg, steps);
    forall user ensures SomePushFails(cfg, steps, Payload(user, message))
                        <==> Recipient(st, user, message) && !Logged(st, Payload(user, message)) {
      UnqueuedExactlyWhen(cfg, steps, Payload(user, message));
      if Recipient(st, user, message) {
        NoRecipientLeftBehind(cfg, steps, message, user);
      }
      if Payload(user, message) in st.unqueued {
        assert Settled(st, Payload(user, message));
      }
    }
  }

  lemma RunThen(cfg: Config, steps: seq<Step>, step: Step)
    ensures Run(cfg, steps + [step]) == Apply(cfg, Run(cfg, steps), step)
  {
    assert (steps + [step])[..|steps|] == steps;
  }

  function AbsentPhase(phase: Phase): Phase {
    match phase
    case Filtering => ClusterCheck
    case ClusterCheck => Lookup
    case _ => Enqueue
  }

  /** The way of a participant that nobody has. */
  lemma AbsentAdvances(cfg: Config, st: State, t: Task)
    requires cfg.clustered && cfg.queueing && st.live == map[] && st.sessions == map[] && t.rest != []
    requires t.rest[0] != t.message.sender && t.rest[0] !in t.blocked
    requires t.phase.Filtering? || t.phase.ClusterCheck? || t.phase.Lookup?
    ensures AdvanceTask(cfg, st, t, []) == WithTask(st, t.(phase := AbsentPhase(t.phase)))
  {
    assert !HasUser(st, Home(t.server, t.rest[0]));
    assert ActionOf(st, t) == Nothing;
    assert TaskAfter(cfg, st, t, []) == t.(phase := AbsentPhase(t.phase));
  }

  lemma AbsentStep(cfg: Config, steps: seq<Step>, st: State, t: Task)
    requires cfg.clustered && cfg.queueing && st.live == map[] && st.sessions == map[] && t.rest != []
    requires t.rest[0] != t.message.sender && t.rest[0] !in t.blocked
    requires t.phase.Filtering? || t.phase.ClusterCheck? || t.phase.Lookup?
    requires Run(cfg, steps) == WithTask(st, t)
    ensures Run(cfg, steps + [Advance(t.message.id, [])]) == WithTask(st, t.(phase := AbsentPhase(t.phase)))
  {
    RunThen(cfg, steps, Advance(t.message.id, []));
    AbsentAdvances(cfg, WithTask(st, t), t);
    WithTaskTwice(st, t, t.(phase := AbsentPhase(t.phase)));
  }

  lemma WithTaskTwice(st: State, t: Task, t': Task)
    requires t.message == t'.message
    ensures WithTask(WithTask(st, t), t') == WithTask(st, t')
  {
    assert st.tasks[t.message.id := t][t.message.id := t'] == st.tasks[t.message.id := t'];
  }

  const LOST_MESSAGE := ChatMessage(5, 3, 1)
  const LOST_CALL := Task(2, LOST_MESSAGE, {}, [7], Filtering)

  lemma LostAfterRouting(cfg: Config)
    ensures Run(cfg, [Route(LOST_MESSAGE, 2, [7], {})]) == WithTask(INITIAL.(routed := map[5 := LOST_CALL]), LOST_CALL)
  {
    assert [] + [Route(LOST_MESSAGE, 2, [7], {})] == [Route(LOST_MESSAGE, 2, [7], {})];
    RunThen(cfg, [], Route(LOST_MESSAGE, 2, [7], {}));
    assert Distinct([7]);
  }

  lemma LostAtThePush(cfg: Config) returns (steps: seq<Step>)
    requires cfg.clustered && cfg.queueing
    ensures Run(cfg, steps) == WithTask(INITIAL.(routed := map[5 := LOST_CALL]), LOST_CALL.(phase := Enqueue))
  {
    var started := INITIAL.(routed := map[5 := LOST_CALL]);
    steps := [Route(LOST_MESSAGE, 2, [7], {})];
    LostAfterRouting(cfg);
    AbsentStep(cfg, steps, started, LOST_CALL);
    AbsentStep(cfg, steps + [Advance(5, [])], started, LOST_CALL.(phase := ClusterCheck));
    AbsentStep(cfg, steps + [Advance(5, [])] + [Advance(5, [])], started, LOST_CALL.(phase := Lookup));
    steps := steps + [Advance(5, [])] + [Advance(5, [])] + [Advance(5, [])];
  }

  /** A run that loses a message: the one recipient is nowhere connected, and the push to the queue fails. */
  lemma FailedPushLosesTheMessage(cfg: Config) returns (steps: seq<Step>)
    requires cfg.clustered && cfg.queueing
    ensures
      var st := Run(cfg, steps);
      && 5 in st.tasks && st.tasks[5].rest == []
      && Recipient(st, 7, 5) && !Logged(st, Payload(7, 5)) && Entries(st.queues, 7) == [] && st.delivered == multiset{}
  {
    steps := LostAtThePush(cfg);
    RunThen(cfg, steps, FailPush(5));
    steps := steps + [FailPush(5)];
  }
}

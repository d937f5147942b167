/**
 Message delivery across servers, as the atomic steps of every component that takes part:
 the routing loop of the sending server, the session sets, the per-server channels, the
 offline queues, remote delivery, and connections coming and going everywhere.
 A step that is not enabled leaves the state alone, so every sequence of steps is a run.
 */
module DeliveryProtocol {
  import opened Types
  import opened Subscriptions

  /** Whether a cluster router and an offline queue are configured. */
  datatype Config = Config(clustered: bool, queueing: bool)

  datatype ChatMessage = ChatMessage(id: Uuid, conv: Uuid, sender: Uuid)

  /** A user on a server: where a connection lives. */
  datatype Home = Home(server: Uuid, user: Uuid)

  /** A routed payload: this message for this user. */
  datatype Payload = Payload(user: Uuid, message: Uuid)

  datatype Delivery = Delivery(conn: Uuid, message: Uuid)

  /** How far the routing loop is with the participant at the head of `rest`. */
  datatype Phase =
    | Filtering                     // sender, block list and has_user not looked at yet
    | LocalSend                     // has_user said yes: filtered local send
    | ClusterCheck                  // has_user said no: the cluster router asks again
    | ClusterSend                   // it said yes this time: unfiltered local send
    | Lookup                        // it said no: read the session set
    | Enqueue                       // no server has the user: push to the offline queue
    | Fanout(servers: seq<Uuid>)    // servers of the session set still to be served

  /** One call of `route_message`. */
  datatype Task = Task(server: Uuid, message: ChatMessage, blocked: set<Uuid>, rest: seq<Uuid>, phase: Phase)

  datatype State = State(
    home: map<Uuid, Home>,               // every connection ever opened
    live: map<Uuid, Filter>,             // the open ones, with their filters
    sessions: map<Uuid, set<Uuid>>,      // user -> servers, in Redis
    tasks: map<Uuid, Task>,              // routing calls in progress, by message
    channels: map<Uuid, seq<Payload>>,   // server -> payloads published and not handled
    queues: map<Uuid, seq<Uuid>>,        // user -> offline queue, in Redis
    fetched: map<Home, seq<seq<Uuid>>>,    // reconnects that have read their queue and not deleted it yet
    draining: map<Home, seq<Uuid>>,      // drained messages a reconnect has still to send
    delivered: multiset<Delivery>,       // everything connections have received
    routed: map<Uuid, Task>,             // history: the routing calls as they started
    queuedFor: set<Payload>,             // history: pushed to an offline queue
    sentFor: set<Payload>,               // history: sent to connections or servers
    unqueued: set<Payload>               // history: the push failed and the call went on
  )

  const INITIAL := State(map[], map[], map[], map[], map[], map[], map[], map[], multiset{}, map[], {}, {}, {})

  datatype Step =
    | Connect(conn: Uuid, at: Home)
    | Disconnect(conn: Uuid)
    | SetFilter(conn: Uuid, filter: Filter)
    | JoinSession(at: Home)
    | LeaveSession(at: Home)
    | Route(message: ChatMessage, server: Uuid, participants: seq<Uuid>, blocked: set<Uuid>)
    | Advance(id: Uuid, order: seq<Uuid>)       // `order`: how SMEMBERS happens to list the servers
    | FailPush(id: Uuid)                        // the push to the offline queue fails and is only logged
    | Abort(id: Uuid)                           // a session store or publish error, or the server dies
    | Handle(server: Uuid)
    | Lose(server: Uuid)                        // nobody was subscribed
    | TrimQueue(user: Uuid, keep: nat)
    | ReadQueue(at: Home)                       // LRANGE, the first half of a drain
    | DeleteQueue(at: Home, i: nat)             // DEL, the second half of the drain that made read `i`
    | ForgetRead(at: Home, i: nat)              // the DEL fails, or the server dies
    | SendDrained(at: Home)

  predicate LivesAt(st: State, conn: Uuid, at: Home) {
    conn in st.live && conn in st.home && st.home[conn] == at
  }

  predicate HasUser(st: State, at: Home) {
    exists conn :: conn in st.live && LivesAt(st, conn, at)
  }

  /** `send_to_user`: every open connection of the user on that server. */
  function Everyone(st: State, at: Home): set<Uuid> {
    set conn | conn in st.live && LivesAt(st, conn, at)
  }

  /** `send_to_user_filtered`, for a message that is not a system message. */
  function Interested(st: State, at: Home, conv: Uuid): set<Uuid> {
    set conn | conn in st.live && LivesAt(st, conn, at) && ShouldReceive(st.live[conn], conv, false)
  }

  function Receipts(to: set<Uuid>, message: Uuid): set<Delivery> {
    set conn | conn in to :: Delivery(conn, message)
  }

  function Send(st: State, to: set<Uuid>, message: Uuid): State {
    st.(delivered := st.delivered + multiset(Receipts(to, message)))
  }

  function WithTask(st: State, t: Task): State {
    st.(tasks := st.tasks[t.message.id := t])
  }

  /** A list that names nobody twice. */
  predicate Distinct(users: seq<Uuid>) {
    multiset(users) == multiset(Elems(users))
  }

  function NextParticipant(t: Task): Task
    requires t.rest != []
  {
    t.(rest := t.rest[1..], phase := Filtering)
  }

  /** Where one atomic step of the routing loop takes the call. */
  function TaskAfter(cfg: Config, st: State, t: Task, order: seq<Uuid>): Task
    requires t.rest != []
  {
    var user := t.rest[0];
    var next := NextParticipant(t);
    match t.phase
    case Filtering =>
      if user == t.message.sender || user in t.blocked then next
      else if HasUser(st, Home(t.server, user)) then t.(phase := LocalSend)
      else if cfg.clustered then t.(phase := ClusterCheck)
      else next
    case LocalSend => next
    case ClusterCheck => t.(phase := if HasUser(st, Home(t.server, user)) then ClusterSend else Lookup)
    case ClusterSend => next
    case Lookup =>
      var servers := Members(st.sessions, user);
      if servers == {} then (if cfg.queueing then t.(phase := Enqueue) else next)
      else if multiset(order) == multiset(servers) then t.(phase := Fanout(order))
      else t
    case Enqueue => next
    case Fanout(servers) => if servers == [] then next else t.(phase := Fanout(servers[1..]))
  }

  /** What that step does to everything but the call itself. */
  datatype Action =
    | Nothing
    | SendTo(at: Home, conns: set<Uuid>)
    | Push
    | Publish(server: Uuid)

  function ActionOf(st: State, t: Task): Action
    requires t.rest != []
  {
    var here := Home(t.server, t.rest[0]);
    match t.phase
    case LocalSend => SendTo(here, Interested(st, here, t.message.conv))
    case ClusterSend => SendTo(here, Everyone(st, here))
    case Enqueue => Push
    case Fanout(servers) =>
      if servers == [] then Nothing
      else if servers[0] == t.server then SendTo(here, Everyone(st, here))
      else Publish(servers[0])
    case _ => Nothing
  }

  function Perform(st: State, action: Action, payload: Payload): State {
    match action
    case Nothing => st
    case SendTo(_, conns) => Send(st, conns, payload.message).(sentFor := st.sentFor + {payload})
    case Push =>
      st.(queues := st.queues[payload.user := Entries(st.queues, payload.user) + [payload.message]],
          queuedFor := st.queuedFor + {payload})
    case Publish(server) =>
      st.(channels := st.channels[server := Entries(st.channels, server) + [payload]],
          sentFor := st.sentFor + {payload})
  }

  /** One atomic step of the routing loop. */
  function AdvanceTask(cfg: Config, st: State, t: Task, order: seq<Uuid>): State {
    if t.rest == [] then st.(tasks := st.tasks - {t.message.id})
    else WithTask(Perform(st, ActionOf(st, t), Payload(t.rest[0], t.message.id)), TaskAfter(cfg, st, t, order))
  }

  function WithoutRead(st: State, at: Home, i: nat): State
    requires i < |Entries(st.fetched, at)|
  {
    st.(fetched := st.fetched[at := Entries(st.fetched, at)[..i] + Entries(st.fetched, at)[i + 1..]])
  }

  predicate Pushing(st: State, id: Uuid) {
    id in st.tasks && st.tasks[id].rest != [] && st.tasks[id].phase == Enqueue
  }

  /** Without a queue entry the call moves on all the same. */
  function SkipPush(st: State, t: Task): State
    requires t.rest != []
  {
    WithTask(st.(unqueued := st.unqueued + {Payload(t.rest[0], t.message.id)}), NextParticipant(t))
  }

  function Apply(cfg: Config, st: State, step: Step): State {
    match step
    case Connect(conn, at) =>
      if conn in st.home then st else st.(home := st.home[conn := at], live := st.live[conn := LEGACY])
    case Disconnect(conn) => st.(live := st.live - {conn})
    case SetFilter(conn, filter) => if conn in st.live then st.(live := st.live[conn := filter]) else st
    case JoinSession(at) => st.(sessions := st.sessions[at.user := Members(st.sessions, at.user) + {at.server}])
    case LeaveSession(at) => st.(sessions := st.sessions[at.user := Members(st.sessions, at.user) - {at.server}])
    case Route(message, server, participants, blocked) =>
      if message.id in st.routed || !Distinct(participants) then st
      else
        var t := Task(server, message, blocked, participants, Filtering);
        WithTask(st.(routed := st.routed[message.id := t]), t)
    case Advance(id, order) => if id in st.tasks then AdvanceTask(cfg, st, st.tasks[id], order) else st
    case FailPush(id) => if Pushing(st, id) then SkipPush(st, st.tasks[id]) else st
    case Abort(id) => st.(tasks := st.tasks - {id})
    case Handle(server) =>
      var channel := Entries(st.channels, server);
      if channel == [] then st
      else Send(st.(channels := st.channels[server := channel[1..]]),
                Everyone(st, Home(server, channel[0].user)), channel[0].message)
    case Lose(server) =>
      var channel := Entries(st.channels, server);
      if channel == [] then st else st.(channels := st.channels[server := channel[1..]])
    case TrimQueue(user, keep) => st.(queues := st.queues[user := LastN(Entries(st.queues, user), keep)])
    case ReadQueue(at) => st.(fetched := st.fetched[at := Entries(st.fetched, at) + [Entries(st.queues, at.user)]])
    case DeleteQueue(at, i) =>
      var fetched := Entries(st.fetched, at);
      if i >= |fetched| then st
      else WithoutRead(st.(queues := st.queues[at.user := []],
                           draining := st.draining[at := Entries(st.draining, at) + fetched[i]]), at, i)
    case ForgetRead(at, i) => if i < |Entries(st.fetched, at)| then WithoutRead(st, at, i) else st
    case SendDrained(at) =>
      var batch := Entries(st.draining, at);
      if batch == [] then st
      else Send(st.(draining := st.draining[at := batch[1..]]), Everyone(st, at), batch[0])
  }

  ghost function Run(cfg: Config, steps: seq<Step>): State {
    if steps == [] then INITIAL else Apply(cfg, Run(cfg, steps[..|steps| - 1]), steps[|steps| - 1])
  }
}

/** Why nothing is delivered twice: the number of sends still owed never grows. */
module DeliverySafety {
  import opened Types
  import opened Subscriptions
  import opened DeliveryProtocol

  function Count<T(==)>(s: seq<T>, x: T): nat {
    multiset(s)[x]
  }

  /** Sends of a call's message to `user` on `server` that the routing loop may still start. */
  function TaskOwes(t: Task, server: Uuid, user: Uuid): nat {
    if t.rest == [] || !t.phase.Fanout? then Count(t.rest, user)
    else Count(t.rest[1..], user) + if user == t.rest[0] then Count(t.phase.servers, server) else 0
  }

  /** How often `message` is in the answers that drains have read and not deleted. */
  function InReads(fetched: seq<seq<Uuid>>, message: Uuid): nat {
    if fetched == [] then 0 else InReads(fetched[..|fetched| - 1], message) + Count(fetched[|fetched| - 1], message)
  }

  /** What the queue and the drains under way may still send: what is read will be sent or is still queued. */
  function Stored(st: State, at: Home, message: Uuid): nat {
    Max(Count(Entries(st.queues, at.user), message), InReads(Entries(st.fetched, at), message))
  }

  /** Sends of `message` to `at` that channels, queues and drains may still make. */
  function Pending(st: State, at: Home, message: Uuid): nat {
    Count(Entries(st.channels, at.server), Payload(at.user, message))
    + Stored(st, at, message)
    + Count(Entries(st.draining, at), message)
  }

  /** Sends of `message` to `at` that any component may still make. */
  function Owed(st: State, at: Home, message: Uuid): nat {
    (if message in st.tasks then TaskOwes(st.tasks[message], at.server, at.user) else 0) + Pending(st, at, message)
  }

  /** How much of that an action of the routing loop uses up. */
  function Uses(action: Action, payload: Payload, at: Home, message: Uuid): nat {
    if message != payload.message || at.user != payload.user then 0
    else
      match action
      case Nothing => 0
      case SendTo(there, _) => if at == there then 1 else 0
      case Push => 1
      case Publish(server) => if at.server == server then 1 else 0
  }

  function Received(st: State, conn: Uuid, message: Uuid): nat {
    st.delivered[Delivery(conn, message)]
  }

  ghost predicate TasksKeyed(st: State) {
    forall m :: m in st.tasks ==> st.tasks[m].message.id == m
  }

  lemma SendCounts(st: State, to: set<Uuid>, message: Uuid, conn: Uuid, m: Uuid)
    ensures
      Received(Send(st, to, message), conn, m)
      == Received(st, conn, m) + if conn in to && m == message then 1 else 0
  {
  }

  lemma TailCounts<T>(s: seq<T>, x: T)
    requires s != []
    ensures Count(s, x) == Count(s[1..], x) + if x == s[0] then 1 else 0
  {
    assert s == [s[0]] + s[1..];
  }

  lemma AppendCounts<T>(a: seq<T>, b: seq<T>, x: T)
    ensures Count(a + b, x) == Count(a, x) + Count(b, x)
  {
  }

  /** What a step means for one user on one server and one message. */
  ghost predicate AddsNothingAt(st: State, st': State, at: Home, m: Uuid) {
    && Owed(st', at, m) <= Owed(st, at, m)
    && (forall conn :: conn in st.home && st.home[conn] == at ==>
          Received(st', conn, m) + Owed(st', at, m) <= Received(st, conn, m) + Owed(st, at, m))
    && (forall conn :: conn !in st.home ==> Received(st', conn, m) == Received(st, conn, m))
  }

  /** From `st` to `st'`, at most `used` more sends to `at` were made or left to be made. */
  ghost predicate AddsAtMost(st: State, st': State, used: nat, at: Home, m: Uuid) {
    && Pending(st', at, m) <= Pending(st, at, m) + used
    && (forall conn :: conn in st.home && st.home[conn] == at ==>
          Received(st', conn, m) + Pending(st', at, m) <= Received(st, conn, m) + Pending(st, at, m) + used)
    && (forall conn :: conn !in st.home ==> Received(st', conn, m) == Received(st, conn, m))
  }

  lemma SendToAt(st: State, there: Home, conns: set<Uuid>, payload: Payload, at: Home, m: Uuid)
    requires conns <= Everyone(st, there) && there.user == payload.user
    ensures
      var action := SendTo(there, conns);
      AddsAtMost(st, Perform(st, action, payload), Uses(action, payload, at, m), at, m)
  {
    forall conn ensures Received(Perform(st, SendTo(there, conns), payload), conn, m)
                        == Received(st, conn, m) + if conn in conns && m == payload.message then 1 else 0 {
      SendCounts(st, conns, payload.message, conn, m);
    }
  }

  lemma PushAt(st: State, payload: Payload, at: Home, m: Uuid)
    ensures AddsAtMost(st, Perform(st, Push, payload), Uses(Push, payload, at, m), at, m)
  {
    AppendCounts(Entries(st.queues, payload.user), [payload.message], m);
  }

  lemma PublishAt(st: State, server: Uuid, payload: Payload, at: Home, m: Uuid)
    ensures AddsAtMost(st, Perform(st, Publish(server), payload), Uses(Publish(server), payload, at, m), at, m)
  {
    AppendCounts(Entries(st.channels, server), [payload], Payload(at.user, m));
  }

  /** An action sends, or leaves to be sent, no more than it uses up. */
  lemma PerformAt(st: State, action: Action, payload: Payload, at: Home, m: Uuid)
    requires action.SendTo? ==> action.conns <= Everyone(st, action.at) && action.at.user == payload.user
    ensures AddsAtMost(st, Perform(st, action, payload), Uses(action, payload, at, m), at, m)
  {
    match action {
      case Nothing =>
      case SendTo(there, conns) => SendToAt(st, there, conns, payload, at, m);
      case Push => PushAt(st, payload, at, m);
      case Publish(server) => PublishAt(st, server, payload, at, m);
    }
  }

  lemma ActionIsLocal(st: State, t: Task)
    requires t.rest != []
    ensures
      var action := ActionOf(st, t);
      action.SendTo? ==> action.conns <= Everyone(st, action.at) && action.at.user == t.rest[0]
  {
  }

  /** The routing loop pays for every action out of what it owes. */
  lemma TaskPays(cfg: Config, st: State, t: Task, order: seq<Uuid>, at: Home)
    requires t.rest != []
    ensures
      TaskOwes(TaskAfter(cfg, st, t, order), at.server, at.user)
      + Uses(ActionOf(st, t), Payload(t.rest[0], t.message.id), at, t.message.id)
      <= TaskOwes(t, at.server, at.user)
  {
    TailCounts(t.rest, at.user);
    match t.phase {
      case Lookup => OrderCounts(order, Members(st.sessions, t.rest[0]), at.server);
      case Fanout(servers) => if servers != [] { TailCounts(servers, at.server); }
      case _ =>
    }
  }

  lemma OrderCounts(order: seq<Uuid>, servers: set<Uuid>, server: Uuid)
    ensures multiset(order) == multiset(servers) ==> Count(order, server) <= 1
  {
  }

  lemma PerformKeepsTasks(st: State, action: Action, payload: Payload)
    ensures
      var st' := Perform(st, action, payload);
      st'.home == st.home && st'.routed == st.routed && st'.tasks == st.tasks
  {
  }

  lemma EndingAt(st: State, id: Uuid, at: Home, m: Uuid)
    ensures AddsNothingAt(st, st.(tasks := st.tasks - {id}), at, m)
  {
  }

  lemma AdvanceAt(cfg: Config, st: State, t: Task, order: seq<Uuid>, at: Home, m: Uuid)
    requires t.message.id in st.tasks && st.tasks[t.message.id] == t
    ensures AddsNothingAt(st, AdvanceTask(cfg, st, t, order), at, m)
  {
    if t.rest == [] {
      EndingAt(st, t.message.id, at, m);
    } else {
      ActionIsLocal(st, t);
      TaskPays(cfg, st, t, order, at);
      PayingAt(st, t, ActionOf(st, t), TaskAfter(cfg, st, t, order), at, m);
    }
  }

  lemma PayingAt(st: State, t: Task, action: Action, t': Task, at: Home, m: Uuid)
    requires t.message.id in st.tasks && st.tasks[t.message.id] == t && t.rest != [] && t'.message == t.message
    requires action.SendTo? ==> action.conns <= Everyone(st, action.at) && action.at.user == t.rest[0]
    requires
      TaskOwes(t', at.server, at.user) + Uses(action, Payload(t.rest[0], t.message.id), at, t.message.id)
      <= TaskOwes(t, at.server, at.user)
    ensures AddsNothingAt(st, WithTask(Perform(st, action, Payload(t.rest[0], t.message.id)), t'), at, m)
  {
    var payload := Payload(t.rest[0], t.message.id);
    PerformAt(st, action, payload, at, m);
    PerformKeepsTasks(st, action, payload);
    SwappingAt(st, Perform(st, action, payload), t', Uses(action, payload, at, m), at, m);
  }

  /** A call that owes less by what its action used adds nothing. */
  lemma SwappingAt(st: State, st': State, t': Task, used: nat, at: Home, m: Uuid)
    requires t'.message.id in st.tasks && st'.tasks == st.tasks
    requires if m == t'.message.id
      then TaskOwes(t', at.server, at.user) + used <= TaskOwes(st.tasks[m], at.server, at.user)
             else used == 0
    requires AddsAtMost(st, st', used, at, m)
    ensures AddsNothingAt(st, WithTask(st', t'), at, m)
  {
    forall conn ensures Received(WithTask(st', t'), conn, m) == Received(st', conn, m) {}
  }

  lemma HandleAt(st: State, server: Uuid, at: Home, m: Uuid)
    requires Entries(st.channels, server) != []
    ensures
      var channel := Entries(st.channels, server);
      var st' := st.(channels := st.channels[server := channel[1..]]);
      && AddsNothingAt(st, st', at, m)
      && AddsNothingAt(st, Send(st', Everyone(st, Home(server, channel[0].user)), channel[0].message), at, m)
  {
    var channel := Entries(st.channels, server);
    var st' := st.(channels := st.channels[server := channel[1..]]);
    TailCounts(channel, Payload(at.user, m));
    var to := Everyone(st, Home(server, channel[0].user));
    forall conn ensures Received(Send(st', to, channel[0].message), conn, m)
                        == Received(st, conn, m) + if conn in to && m == channel[0].message then 1 else 0 {
      SendCounts(st', to, channel[0].message, conn, m);
    }
  }

  lemma SendDrainedAt(st: State, from: Home, at: Home, m: Uuid)
    requires Entries(st.draining, from) != []
    ensures
      var batch := Entries(st.draining, from);
      AddsNothingAt(st, Send(st.(draining := st.draining[from := batch[1..]]), Everyone(st, from), batch[0]), at, m)
  {
    var batch := Entries(st.draining, from);
    var st' := st.(draining := st.draining[from := batch[1..]]);
    TailCounts(batch, m);
    forall conn ensures Received(Send(st', Everyone(st, from), batch[0]), conn, m)
                        == Received(st, conn, m) + if conn in Everyone(st, from) && m == batch[0] then 1 else 0 {
      SendCounts(st', Everyone(st, from), batch[0], conn, m);
    }
  }

  lemma TrimQueueAt(st: State, user: Uuid, keep: nat, at: Home, m: Uuid)
    ensures AddsNothingAt(st, st.(queues := st.queues[user := LastN(Entries(st.queues, user), keep)]), at, m)
  {
    var q := Entries(st.queues, user);
    if keep <= |q| {
      assert q == q[..|q| - keep] + q[|q| - keep..];
      AppendCounts(q[..|q| - keep], q[|q| - keep..], m);
    }
  }

  lemma InReadsAppend(fetched: seq<seq<Uuid>>, read: seq<Uuid>, m: Uuid)
    ensures InReads(fetched + [read], m) == InReads(fetched, m) + Count(read, m)
  {
    assert (fetched + [read])[..|fetched|] == fetched;
  }

  lemma {:induction false} InReadsWithout(fetched: seq<seq<Uuid>>, i: nat, m: Uuid)
    requires i < |fetched|
    ensures InReads(fetched, m) == InReads(fetched[..i] + fetched[i + 1..], m) + Count(fetched[i], m)
  {
    var n := |fetched| - 1;
    if i == n {
      assert fetched[..i] + fetched[i + 1..] == fetched[..n];
    } else {
      InReadsWithout(fetched[..n], i, m);
      assert fetched[..i] + fetched[i + 1..] == (fetched[..n][..i] + fetched[..n][i + 1..]) + [fetched[n]];
      InReadsAppend(fetched[..n][..i] + fetched[..n][i + 1..], fetched[n], m);
    }
  }

  /**
   The first half of a drain: this user's queue is read on this server while a drain there that has read `m`
   goes on.
   */
  predicate Overlaps(st: State, step: Step, at: Home, m: Uuid) {
    step == ReadQueue(at) && m in Entries(st.queues, at.user) && InReads(Entries(st.fetched, at), m) > 0
  }

  /** Reading a queue owes nothing new, unless another drain has read the same message. */
  lemma ReadQueueAt(cfg: Config, st: State, from: Home, at: Home, m: Uuid)
    requires !Overlaps(st, ReadQueue(from), at, m)
    ensures AddsNothingAt(st, Apply(cfg, st, ReadQueue(from)), at, m)
  {
    InReadsAppend(Entries(st.fetched, from), Entries(st.queues, from.user), m);
  }

  lemma DeletedQueue(cfg: Config, st: State, from: Home, i: nat, at: Home, m: Uuid)
    requires i < |Entries(st.fetched, from)|
    ensures
      var st' := Apply(cfg, st, DeleteQueue(from, i));
      && Count(Entries(st'.queues, at.user), m)
        == (if at.user == from.user then 0 else Count(Entries(st.queues, at.user), m))
      && InReads(Entries(st'.fetched, at), m) + Count(Entries(st'.draining, at), m)
         == InReads(Entries(st.fetched, at), m) + Count(Entries(st.draining, at), m)
      && Count(Entries(st'.draining, at), m) >= Count(Entries(st.draining, at), m)
      && (at != from ==>
          Entries(st'.fetched, at) == Entries(st.fetched, at)
          && Entries(st'.draining, at) == Entries(st.draining, at))
      && st' == st.(queues := st'.queues, fetched := st'.fetched, draining := st'.draining)
  {
    InReadsWithout(Entries(st.fetched, from), i, m);
    AppendCounts(Entries(st.draining, from), Entries(st.fetched, from)[i], m);
  }

  /** Deleting it hands the answer over to be sent; what was pushed in between is gone. */
  lemma DeleteQueueAt(cfg: Config, st: State, from: Home, i: nat, at: Home, m: Uuid)
    ensures AddsNothingAt(st, Apply(cfg, st, DeleteQueue(from, i)), at, m)
  {
    if i < |Entries(st.fetched, from)| {
      DeletedQueue(cfg, st, from, i, at, m);
      SmallerStoresAddNothing(st, Apply(cfg, st, DeleteQueue(from, i)), at, m);
    }
  }

  lemma SmallerStoresAddNothing(st: State, st': State, at: Home, m: Uuid)
    requires st' == st.(queues := st'.queues, fetched := st'.fetched, draining := st'.draining)
    requires Stored(st', at, m) + Count(Entries(st'.draining, at), m)
      <= Stored(st, at, m) + Count(Entries(st.draining, at), m)
    ensures AddsNothingAt(st, st', at, m)
  {
  }

  lemma ForgetReadAt(cfg: Config, st: State, from: Home, i: nat, at: Home, m: Uuid)
    ensures AddsNothingAt(st, Apply(cfg, st, ForgetRead(from, i)), at, m)
  {
    if i < |Entries(st.fetched, from)| {
      InReadsWithout(Entries(st.fetched, from), i, m);
      SmallerStoresAddNothing(st, WithoutRead(st, from, i), at, m);
    }
  }

  lemma AbortAt(cfg: Config, st: State, id: Uuid, at: Home, m: Uuid)
    ensures AddsNothingAt(st, Apply(cfg, st, Abort(id)), at, m)
  {
    EndingAt(st, id, at, m);
  }

  lemma SkipPushAt(st: State, t: Task, at: Home, m: Uuid)
    requires t.message.id in st.tasks && st.tasks[t.message.id] == t && t.rest != [] && t.phase == Enqueue
    ensures AddsNothingAt(st, SkipPush(st, t), at, m)
  {
    TailCounts(t.rest, at.user);
    SwappingAt(st, st.(unqueued := st.unqueued + {Payload(t.rest[0], t.message.id)}), NextParticipant(t), 0, at, m);
  }

  lemma FailPushAt(cfg: Config, st: State, id: Uuid, at: Home, m: Uuid)
    requires TasksKeyed(st)
    ensures AddsNothingAt(st, Apply(cfg, st, FailPush(id)), at, m)
  {
    if Pushing(st, id) {
      SkipPushAt(st, st.tasks[id], at, m);
    }
  }

  lemma AdvanceStepAt(cfg: Config, st: State, id: Uuid, order: seq<Uuid>, at: Home, m: Uuid)
    requires TasksKeyed(st)
    ensures AddsNothingAt(st, Apply(cfg, st, Advance(id, order)), at, m)
  {
    if id in st.tasks {
      AdvanceAt(cfg, st, st.tasks[id], order, at, m);
    }
  }

  lemma HandleStepAt(cfg: Config, st: State, server: Uuid, at: Home, m: Uuid)
    ensures AddsNothingAt(st, Apply(cfg, st, Handle(server)), at, m)
  {
    if Entries(st.channels, server) != [] {
      HandleAt(st, server, at, m);
    }
  }

  lemma LoseStepAt(cfg: Config, st: State, server: Uuid, at: Home, m: Uuid)
    ensures AddsNothingAt(st, Apply(cfg, st, Lose(server)), at, m)
  {
    if Entries(st.channels, server) != [] {
      HandleAt(st, server, at, m);
    }
  }

  lemma QueueStepAt(cfg: Config, st: State, step: Step, at: Home, m: Uuid)
    requires step.TrimQueue? || step.SendDrained?
    ensures AddsNothingAt(st, Apply(cfg, st, step), at, m)
  {
    match step {
      case TrimQueue(user, keep) => TrimQueueAt(st, user, keep, at, m);
      case SendDrained(from) => if Entries(st.draining, from) != [] { SendDrainedAt(st, from, at, m); }
    }
  }

  /** Every step but opening a connection and starting a route. */
  lemma ApplyAt(cfg: Config, st: State, step: Step, at: Home, m: Uuid)
    requires TasksKeyed(st) && !step.Route? && !step.Connect? && !Overlaps(st, step, at, m)
    ensures AddsNothingAt(st, Apply(cfg, st, step), at, m)
  {
    match step {
      case Abort(id) => AbortAt(cfg, st, id, at, m);
      case FailPush(id) => FailPushAt(cfg, st, id, at, m);
      case Advance(id, order) => AdvanceStepAt(cfg, st, id, order, at, m);
      case Handle(server) => HandleStepAt(cfg, st, server, at, m);
      case Lose(server) => LoseStepAt(cfg, st, server, at, m);
      case TrimQueue(_, _) => QueueStepAt(cfg, st, step, at, m);
      case ReadQueue(from) => ReadQueueAt(cfg, st, from, at, m);
      case DeleteQueue(from, i) => DeleteQueueAt(cfg, st, from, i, at, m);
      case ForgetRead(from, i) => ForgetReadAt(cfg, st, from, i, at, m);
      case SendDrained(_) => QueueStepAt(cfg, st, step, at, m);
      case _ => TablesAt(cfg, st, step, at, m);
    }
  }

  lemma TablesAt(cfg: Config, st: State, step: Step, at: Home, m: Uuid)
    requires step.Disconnect? || step.SetFilter? || step.JoinSession? || step.LeaveSession?
    ensures AddsNothingAt(st, Apply(cfg, st, step), at, m)
  {
    var st' := Apply(cfg, st, step);
    SameStoresAddNothing(st, st', at, m);
  }

  lemma SameStoresAddNothing(st: State, st': State, at: Home, m: Uuid)
    requires st'.tasks == st.tasks && st'.channels == st.channels && st'.queues == st.queues
    requires st'.fetched == st.fetched && st'.draining == st.draining && st'.delivered == st.delivered
    ensures AddsNothingAt(st, st', at, m)
  {
    assert Owed(st', at, m) == Owed(st, at, m);
    forall conn ensures Received(st', conn, m) == Received(st, conn, m) {}
  }

  /** Calls are in the table under their message, and a connection that does not exist has received nothing. */
  ghost predicate Orderly(st: State) {
    && TasksKeyed(st)
    && (forall m :: m in st.tasks ==> m in st.routed)
    && (forall conn, m :: conn !in st.home ==> Received(st, conn, m) == 0)
  }

  /** What connections at `at` have received of `m` and are owed of it is at most one copy. */
  ghost predicate Budget(st: State, at: Home, m: Uuid) {
    && Owed(st, at, m) <= (if m in st.routed then 1 else 0)
    && (forall conn :: conn in st.home && st.home[conn] == at ==>
          Received(st, conn, m) + Owed(st, at, m) <= if m in st.routed then 1 else 0)
  }

  /** No step but a connect or a new route touches the history of connections and routes. */
  ghost predicate SameHistory(st: State, st': State) {
    && st'.home == st.home && st'.routed == st.routed
    && forall m :: m in st'.tasks ==> m in st.tasks && st'.tasks[m].message.id == m
  }

  lemma AdvanceKeepsHistory(cfg: Config, st: State, t: Task, order: seq<Uuid>)
    requires TasksKeyed(st) && t.message.id in st.tasks
    ensures SameHistory(st, AdvanceTask(cfg, st, t, order))
  {
    if t.rest != [] {
      PerformKeepsTasks(st, ActionOf(st, t), Payload(t.rest[0], t.message.id));
      assert TaskAfter(cfg, st, t, order).message == t.message;
    }
  }

  lemma SkipPushKeepsHistory(st: State, t: Task)
    requires TasksKeyed(st) && t.message.id in st.tasks && t.rest != []
    ensures SameHistory(st, SkipPush(st, t))
  {
  }

  lemma FailPushKeepsHistory(cfg: Config, st: State, id: Uuid)
    requires TasksKeyed(st)
    ensures SameHistory(st, Apply(cfg, st, FailPush(id)))
  {
    if Pushing(st, id) {
      SkipPushKeepsHistory(st, st.tasks[id]);
    }
  }

  /** Channels, queues and batches are not part of the history. */
  lemma StoresKeepHistory(cfg: Config, st: State, step: Step)
    requires TasksKeyed(st) && (step.Lose? || step.TrimQueue? || step.ReadQueue?)
    ensures SameHistory(st, Apply(cfg, st, step))
  {
    var st' := Apply(cfg, st, step);
    assert st' == st.(channels := st'.channels, queues := st'.queues, fetched := st'.fetched);
  }

  lemma DrainsKeepHistory(cfg: Config, st: State, step: Step)
    requires TasksKeyed(st) && (step.DeleteQueue? || step.ForgetRead?)
    ensures SameHistory(st, Apply(cfg, st, step))
  {
  }

  lemma HandleKeepsHistory(cfg: Config, st: State, server: Uuid)
    requires TasksKeyed(st)
    ensures SameHistory(st, Apply(cfg, st, Handle(server)))
  {
    var st' := Apply(cfg, st, Handle(server));
    assert st' == st.(channels := st'.channels, delivered := st'.delivered);
  }

  lemma SendDrainedKeepsHistory(cfg: Config, st: State, at: Home)
    requires TasksKeyed(st)
    ensures SameHistory(st, Apply(cfg, st, SendDrained(at)))
  {
  }

  lemma TablesKeepHistory(cfg: Config, st: State, step: Step)
    requires TasksKeyed(st)
    requires step.Disconnect? || step.SetFilter? || step.JoinSession? || step.LeaveSession? || step.Abort?
    ensures SameHistory(st, Apply(cfg, st, step))
  {
  }

  lemma ApplyKeepsHistory(cfg: Config, st: State, step: Step)
    requires TasksKeyed(st) && !step.Route? && !step.Connect?
    ensures SameHistory(st, Apply(cfg, st, step))
  {
    match step {
      case Advance(id, order) => if id in st.tasks { AdvanceKeepsHistory(cfg, st, st.tasks[id], order); }
      case FailPush(id) => FailPushKeepsHistory(cfg, st, id);
      case Handle(server) => HandleKeepsHistory(cfg, st, server);
      case Lose(_) => StoresKeepHistory(cfg, st, step);
      case TrimQueue(_, _) => StoresKeepHistory(cfg, st, step);
      case ReadQueue(_) => StoresKeepHistory(cfg, st, step);
      case DeleteQueue(_, _) => DrainsKeepHistory(cfg, st, step);
      case ForgetRead(_, _) => DrainsKeepHistory(cfg, st, step);
      case SendDrained(at) => SendDrainedKeepsHistory(cfg, st, at);
      case _ => TablesKeepHistory(cfg, st, step);
    }
  }

  lemma ReadQueueDeliversNothing(cfg: Config, st: State, at: Home)
    ensures Apply(cfg, st, ReadQueue(at)).delivered == st.delivered
  {
  }

  lemma StrangersReceiveNothing(cfg: Config, st: State, step: Step, conn: Uuid, m: Uuid)
    requires Orderly(st) && !step.Route? && !step.Connect? && conn !in st.home
    ensures Received(Apply(cfg, st, step), conn, m) == 0
  {
    assert Received(st, conn, m) == 0;
    if step.ReadQueue? {
      ReadQueueDeliversNothing(cfg, st, step.at);
    } else {
      ApplyAt(cfg, st, step, Home(0, 0), m);
    }
  }

  lemma ApplyKeepsOrder(cfg: Config, st: State, step: Step)
    requires Orderly(st) && !step.Route? && !step.Connect?
    ensures Orderly(Apply(cfg, st, step))
  {
    var st' := Apply(cfg, st, step);
    ApplyKeepsHistory(cfg, st, step);
    forall conn, m | conn !in st.home ensures Received(st', conn, m) == 0 {
      StrangersReceiveNothing(cfg, st, step, conn, m);
    }
  }

  lemma ConnectKeepsOrder(cfg: Config, st: State, conn: Uuid, at: Home)
    requires Orderly(st)
    ensures Orderly(Apply(cfg, st, Connect(conn, at)))
  {
    var st' := Apply(cfg, st, Connect(conn, at));
    forall c, m ensures Received(st', c, m) == Received(st, c, m) {}
  }

  lemma RouteKeepsOrder(cfg: Config, st: State, step: Step)
    requires Orderly(st) && step.Route?
    ensures Orderly(Apply(cfg, st, step))
  {
    var st' := Apply(cfg, st, step);
    forall c, m ensures Received(st', c, m) == Received(st, c, m) {}
  }

  lemma {:induction false} RunIsOrderly(cfg: Config, steps: seq<Step>)
    ensures Orderly(Run(cfg, steps))
  {
    if steps == [] {
    } else {
      var init, last := steps[..|steps| - 1], steps[|steps| - 1];
      RunIsOrderly(cfg, init);
      match last {
        case Connect(conn, at) => ConnectKeepsOrder(cfg, Run(cfg, init), conn, at);
        case Route(_, _, _, _) => RouteKeepsOrder(cfg, Run(cfg, init), last);
        case _ => ApplyKeepsOrder(cfg, Run(cfg, init), last);
      }
    }
  }

  lemma ApplyKeepsBudget(cfg: Config, st: State, step: Step, at: Home, m: Uuid)
    requires Orderly(st) && Budget(st, at, m) && !step.Route? && !step.Connect? && !Overlaps(st, step, at, m)
    ensures Budget(Apply(cfg, st, step), at, m)
  {
    ApplyKeepsHistory(cfg, st, step);
    ApplyAt(cfg, st, step, at, m);
  }

  lemma ConnectKeepsBudget(cfg: Config, st: State, conn: Uuid, there: Home, at: Home, m: Uuid)
    requires Orderly(st) && Budget(st, at, m)
    ensures Budget(Apply(cfg, st, Connect(conn, there)), at, m)
  {
    var st' := Apply(cfg, st, Connect(conn, there));
    assert Owed(st', at, m) == Owed(st, at, m);
    forall c ensures Received(st', c, m) == Received(st, c, m) {}
  }

  /** A new call owes its message once to each participant; nothing else is owed differently. */
  lemma RouteOwes(st: State, t: Task, routed: map<Uuid, Task>, at: Home, m: Uuid)
    requires t.phase == Filtering && Distinct(t.rest) && (m == t.message.id ==> Owed(st, at, m) == 0)
    ensures Owed(WithTask(st.(routed := routed), t), at, m) <= if m == t.message.id then 1 else Owed(st, at, m)
  {
    OrderCounts(t.rest, Elems(t.rest), at.user);
  }

  lemma RouteKeepsBudget(cfg: Config, st: State, step: Step, at: Home, m: Uuid)
    requires Orderly(st) && Budget(st, at, m) && step.Route?
    ensures Budget(Apply(cfg, st, step), at, m)
  {
    var st', id := Apply(cfg, st, step), step.message.id;
    if id !in st.routed && Distinct(step.participants) {
      var t := Task(step.server, step.message, step.blocked, step.participants, Filtering);
      RouteOwes(st, t, st'.routed, at, m);
      forall c ensures Received(st', c, m) == Received(st, c, m) {}
    }
  }

  ghost predicate OverlapsAt(cfg: Config, steps: seq<Step>, k: nat, at: Home, m: Uuid)
    requires k < |steps|
  {
    Overlaps(Run(cfg, steps[..k]), steps[k], at, m)
  }

  /** No drain for the user on that server reads the message while another one there has read it. */
  ghost predicate DrainsApart(cfg: Config, steps: seq<Step>, at: Home, m: Uuid) {
    forall k :: 0 <= k < |steps| ==> !OverlapsAt(cfg, steps, k, at, m)
  }

  lemma OverlapsBefore(cfg: Config, steps: seq<Step>, k: nat, at: Home, m: Uuid)
    requires k < |steps| - 1
    ensures OverlapsAt(cfg, steps[..|steps| - 1], k, at, m) <==> OverlapsAt(cfg, steps, k, at, m)
  {
    assert steps[..|steps| - 1][..k] == steps[..k];
  }

  lemma ApartBefore(cfg: Config, steps: seq<Step>, at: Home, m: Uuid)
    requires steps != [] && DrainsApart(cfg, steps, at, m)
    ensures DrainsApart(cfg, steps[..|steps| - 1], at, m) && !OverlapsAt(cfg, steps, |steps| - 1, at, m)
  {
    var init := steps[..|steps| - 1];
    forall k | 0 <= k < |init| ensures !OverlapsAt(cfg, init, k, at, m) {
      OverlapsBefore(cfg, steps, k, at, m);
      assert !OverlapsAt(cfg, steps, k, at, m);
    }
  }

  lemma BudgetOneMore(cfg: Config, st: State, step: Step, at: Home, m: Uuid)
    requires Orderly(st) && Budget(st, at, m) && !Overlaps(st, step, at, m)
    ensures Budget(Apply(cfg, st, step), at, m)
  {
    match step {
      case Connect(conn, there) => ConnectKeepsBudget(cfg, st, conn, there, at, m);
      case Route(_, _, _, _) => RouteKeepsBudget(cfg, st, step, at, m);
      case _ => ApplyKeepsBudget(cfg, st, step, at, m);
    }
  }

  lemma {:induction false} RunKeepsBudget(cfg: Config, steps: seq<Step>, at: Home, m: Uuid)
    requires DrainsApart(cfg, steps, at, m)
    ensures Budget(Run(cfg, steps), at, m)
  {
    if steps == [] {
    } else {
      var init := steps[..|steps| - 1];
      ApartBefore(cfg, steps, at, m);
      RunKeepsBudget(cfg, init, at, m);
      RunIsOrderly(cfg, init);
      BudgetOneMore(cfg, Run(cfg, init), steps[|steps| - 1], at, m);
    }
  }

  ghost predicate ReceivesOnce(st: State, conn: Uuid, message: Uuid) {
    && st.delivered[Delivery(conn, message)] <= 1
    && (Delivery(conn, message) in st.delivered ==> conn in st.home && Owed(st, st.home[conn], message) == 0)
  }

  /** No two drains for the connection's user on its server have read the message at the same time. */
  ghost predicate DrainedApart(cfg: Config, steps: seq<Step>, conn: Uuid, message: Uuid) {
    conn in Run(cfg, steps).home ==> DrainsApart(cfg, steps, Run(cfg, steps).home[conn], message)
  }

  /**
   In every run of any number of servers, no connection receives a routed message more than once,
   and one that has received it is owed no further copy by any component, as long as no two
   overlapping drains for its user on its server read the message.
   */
  lemma AtMostOnce(cfg: Config, steps: seq<Step>, conn: Uuid, message: Uuid)
    requires DrainedApart(cfg, steps, conn, message)
    ensures ReceivesOnce(Run(cfg, steps), conn, message)
  {
    RunIsOrderly(cfg, steps);
    var st := Run(cfg, steps);
    assert Received(st, conn, message) == st.delivered[Delivery(conn, message)];
    if conn in st.home {
      RunKeepsBudget(cfg, steps, st.home[conn], message);
    }
  }
}

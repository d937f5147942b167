/** Which connections a step of the protocol gives a message to, read off the connections and their filters. */
module DeliveryReceipts {
  import opened Types
  import opened Subscriptions
  import opened DeliveryProtocol
  import opened DeliverySafety

  /** An open connection of this user on this server. */
  ghost predicate Open(st: State, conn: Uuid, at: Home) {
    conn in st.live && conn in st.home && st.home[conn] == at
  }

  /** It has never subscribed to anything, or it has subscribed to this conversation. */
  ghost predicate Wants(st: State, conn: Uuid, conv: Uuid) {
    conn in st.live && (!st.live[conn].explicit || conv in st.live[conn].convs)
  }

  /** The routing call `t` sends to connections of its participant here: all of them, or those that want it. */
  ghost predicate SendsTo(st: State, t: Task, conn: Uuid) {
    && t.rest != [] && Open(st, conn, Home(t.server, t.rest[0]))
    && match t.phase
       case LocalSend => Wants(st, conn, t.message.conv)
       case ClusterSend => true
       case Fanout(servers) => servers != [] && servers[0] == t.server
       case _ => false
  }

  /** What `step` gives to connection `conn` is message `m`. */
  ghost predicate Gives(st: State, step: Step, conn: Uuid, m: Uuid) {
    match step
    case Advance(id, _) => id in st.tasks && m == id && SendsTo(st, st.tasks[id], conn)
    case Handle(server) =>
      var channel := Entries(st.channels, server);
      channel != [] && m == channel[0].message && Open(st, conn, Home(server, channel[0].user))
    case SendDrained(at) =>
      var batch := Entries(st.draining, at);
      batch != [] && m == batch[0] && Open(st, conn, at)
    case _ => false
  }

  lemma EveryoneIsOpen(st: State, at: Home, conv: Uuid, conn: Uuid)
    ensures conn in Everyone(st, at) <==> Open(st, conn, at)
    ensures conn in Interested(st, at, conv) <==> Open(st, conn, at) && Wants(st, conn, conv)
    ensures HasUser(st, at) <==> exists c :: Open(st, c, at)
  {
    if HasUser(st, at) {
      var c :| c in st.live && LivesAt(st, c, at);
      assert Open(st, c, at);
    }
    if c :| Open(st, c, at) {
      assert LivesAt(st, c, at);
    }
  }

  lemma PerformGives(st: State, action: Action, payload: Payload, conn: Uuid, m: Uuid)
    ensures
      Received(Perform(st, action, payload), conn, m)
      == Received(st, conn, m) + if action.SendTo? && conn in action.conns && m == payload.message then 1 else 0
  {
    if action.SendTo? {
      SendCounts(st, action.conns, payload.message, conn, m);
    }
  }

  /** A step of the routing call itself. */
  lemma AdvanceGives(cfg: Config, st: State, t: Task, order: seq<Uuid>, conn: Uuid, m: Uuid)
    ensures
      Received(AdvanceTask(cfg, st, t, order), conn, m)
      == Received(st, conn, m) + if m == t.message.id && SendsTo(st, t, conn) then 1 else 0
  {
    if t.rest != [] {
      var payload := Payload(t.rest[0], t.message.id);
      PerformGives(st, ActionOf(st, t), payload, conn, m);
      EveryoneIsOpen(st, Home(t.server, t.rest[0]), t.message.conv, conn);
      assert Received(AdvanceTask(cfg, st, t, order), conn, m)
        == Received(Perform(st, ActionOf(st, t), payload), conn, m);
    }
  }

  lemma HandleGives(cfg: Config, st: State, server: Uuid, conn: Uuid, m: Uuid)
    ensures
      Received(Apply(cfg, st, Handle(server)), conn, m)
      == Received(st, conn, m) + if Gives(st, Handle(server), conn, m) then 1 else 0
  {
    var channel := Entries(st.channels, server);
    if channel != [] {
      var to := Everyone(st, Home(server, channel[0].user));
      EveryoneIsOpen(st, Home(server, channel[0].user), 0, conn);
      SendCounts(st.(channels := st.channels[server := channel[1..]]), to, channel[0].message, conn, m);
    }
  }

  lemma SendDrainedGives(cfg: Config, st: State, at: Home, conn: Uuid, m: Uuid)
    ensures
      Received(Apply(cfg, st, SendDrained(at)), conn, m)
      == Received(st, conn, m) + if Gives(st, SendDrained(at), conn, m) then 1 else 0
  {
    var batch := Entries(st.draining, at);
    if batch != [] {
      EveryoneIsOpen(st, at, 0, conn);
      SendCounts(st.(draining := st.draining[at := batch[1..]]), Everyone(st, at), batch[0], conn, m);
    }
  }

  lemma OthersGiveNothing(cfg: Config, st: State, step: Step)
    requires !step.Advance? && !step.Handle? && !step.SendDrained?
    ensures Apply(cfg, st, step).delivered == st.delivered
  {
  }

  /**
   A step gives a connection a message exactly when it is a local send of the routing call to an open
   connection of the participant, which the filtered one wants; the first payload of a channel, to every open
   connection of its user there; or the first drained message, to every open connection of the user there.
   */
  lemma ReceivesExactlyWhen(cfg: Config, st: State, step: Step, conn: Uuid, m: Uuid)
    requires TasksKeyed(st)
    ensures
      Received(Apply(cfg, st, step), conn, m)
      == Received(st, conn, m) + if Gives(st, step, conn, m) then 1 else 0
  {
    match step {
      case Advance(id, order) => if id in st.tasks { AdvanceGives(cfg, st, st.tasks[id], order, conn, m); }
      case Handle(server) => HandleGives(cfg, st, server, conn, m);
      case SendDrained(at) => SendDrainedGives(cfg, st, at, conn, m);
      case _ => OthersGiveNothing(cfg, st, step);
    }
  }

  /** How many steps of a run have given the message to the connection. */
  ghost function Givings(cfg: Config, steps: seq<Step>, conn: Uuid, m: Uuid): nat {
    if steps == [] then 0
    else
      var n := |steps| - 1;
      Givings(cfg, steps[..n], conn, m) + if Gives(Run(cfg, steps[..n]), steps[n], conn, m) then 1 else 0
  }

  /** In every run a connection has received a message once for each step that gave it, and not otherwise. */
  lemma {:induction false} ReceiptsAreGivings(cfg: Config, steps: seq<Step>, conn: Uuid, m: Uuid)
    ensures Run(cfg, steps).delivered[Delivery(conn, m)] == Givings(cfg, steps, conn, m)
  {
    if steps != [] {
      var n := |steps| - 1;
      ReceiptsAreGivings(cfg, steps[..n], conn, m);
      RunIsOrderly(cfg, steps[..n]);
      ReceivesExactlyWhen(cfg, Run(cfg, steps[..n]), steps[n], conn, m);
    }
  }

  lemma LastStepTakesNothing(cfg: Config, steps: seq<Step>, conn: Uuid, m: Uuid)
    requires steps != []
    ensures
      Run(cfg, steps[..|steps| - 1]).delivered[Delivery(conn, m)] <= Run(cfg, steps).delivered[Delivery(conn, m)]
  {
    var init := steps[..|steps| - 1];
    RunIsOrderly(cfg, init);
    ReceivesExactlyWhen(cfg, Run(cfg, init), steps[|steps| - 1], conn, m);
  }

  lemma {:induction false} ReceiptsStay(cfg: Config, before: seq<Step>, steps: seq<Step>, conn: Uuid, m: Uuid)
    requires before <= steps
    ensures Run(cfg, before).delivered[Delivery(conn, m)] <= Run(cfg, steps).delivered[Delivery(conn, m)]
    decreases |steps|
  {
    if |before| == |steps| {
      assert before == steps;
    } else {
      var init := steps[..|steps| - 1];
      LastStepTakesNothing(cfg, steps, conn, m);
      ReceiptsStay(cfg, before, init, conn, m);
    }
  }

  /** The open connections at `at` got the message once, all of them or those that want it, and nobody else. */
  ghost predicate GivenTo(st: State, st': State, at: Home, message: ChatMessage, filtered: bool) {
    forall conn, m ::
      st'.delivered[Delivery(conn, m)]
      == st.delivered[Delivery(conn, m)]
         + if m == message.id && Open(st, conn, at) && (filtered ==> Wants(st, conn, message.conv)) then 1 else 0
  }

  /** Step `k` is such a send. */
  ghost predicate SentAt(cfg: Config, steps: seq<Step>, k: nat, at: Home, message: ChatMessage, filtered: bool)
    requires k < |steps|
  {
    GivenTo(Run(cfg, steps[..k]), Run(cfg, steps[..k + 1]), at, message, filtered)
  }

  ghost predicate SentSince(cfg: Config, steps: seq<Step>, from: nat, at: Home, message: ChatMessage, filtered: bool) {
    exists k :: from <= k < |steps| && SentAt(cfg, steps, k, at, message, filtered)
  }

  lemma StillSent(cfg: Config, before: seq<Step>, steps: seq<Step>, from: nat, at: Home, message: ChatMessage,
                  filtered: bool)
    requires before <= steps && SentSince(cfg, before, from, at, message, filtered)
    ensures SentSince(cfg, steps, from, at, message, filtered)
  {
    var k :| from <= k < |before| && SentAt(cfg, before, k, at, message, filtered);
    assert steps[..k] == before[..k] && steps[..k + 1] == before[..k + 1];
    assert SentAt(cfg, steps, k, at, message, filtered);
  }

  /** Open at `at`, and wanting the conversation, at every moment since `from`. */
  ghost predicate OpenThroughout(cfg: Config, steps: seq<Step>, from: nat, conn: Uuid, at: Home, conv: Uuid) {
    forall i :: from <= i <= |steps| ==> Open(Run(cfg, steps[..i]), conn, at) && Wants(Run(cfg, steps[..i]), conn, conv)
  }

  lemma OpenIsGiven(st: State, st': State, at: Home, message: ChatMessage, filtered: bool, conn: Uuid)
    requires GivenTo(st, st', at, message, filtered) && Open(st, conn, at) && Wants(st, conn, message.conv)
    ensures st'.delivered[Delivery(conn, message.id)] >= 1
  {
  }

  /** Such a connection has received what was sent there since. */
  lemma SentReachesOpen(cfg: Config, steps: seq<Step>, from: nat, at: Home, message: ChatMessage, filtered: bool,
                        conn: Uuid)
    requires SentSince(cfg, steps, from, at, message, filtered)
    requires OpenThroughout(cfg, steps, from, conn, at, message.conv)
    ensures Run(cfg, steps).delivered[Delivery(conn, message.id)] >= 1
  {
    var k :| from <= k < |steps| && SentAt(cfg, steps, k, at, message, filtered);
    var st, st' := Run(cfg, steps[..k]), Run(cfg, steps[..k + 1]);
    assert Open(st, conn, at) && Wants(st, conn, message.conv);
    OpenIsGiven(st, st', at, message, filtered, conn);
    ReceiptsStay(cfg, steps[..k + 1], steps, conn, message.id);
  }

  // ---- What the steps of everybody else do to connections and session sets.

  /** A new connection is open where it was opened, with a filter that wants everything; others stay where they are. */
  lemma ConnectMeans(cfg: Config, st: State, conn: Uuid, there: Home, c: Uuid, at: Home, conv: Uuid)
    requires conn !in st.home
    ensures
      var st' := Apply(cfg, st, Connect(conn, there));
      && (Open(st', c, at) <==> if c == conn then at == there else Open(st, c, at))
      && (Open(st', c, at) ==> (Wants(st', c, conv) <==> c == conn || Wants(st, c, conv)))
  {
  }

  /** After a disconnect it is open nowhere. */
  lemma DisconnectMeans(cfg: Config, st: State, conn: Uuid, c: Uuid, at: Home, conv: Uuid)
    ensures
      var st' := Apply(cfg, st, Disconnect(conn));
      && (Open(st', c, at) <==> c != conn && Open(st, c, at))
      && (Open(st', c, at) ==> (Wants(st', c, conv) <==> Wants(st, c, conv)))
  {
  }

  /** A session joins or leaves one user's set, and no other set changes. */
  lemma SessionsMean(cfg: Config, st: State, at: Home, user: Uuid, server: Uuid)
    ensures
      server in Members(Apply(cfg, st, JoinSession(at)).sessions, user) <==>
        server in Members(st.sessions, user) || (user == at.user && server == at.server)
    ensures
      server in Members(Apply(cfg, st, LeaveSession(at)).sessions, user) <==>
        server in Members(st.sessions, user) && !(user == at.user && server == at.server)
  {
  }
}

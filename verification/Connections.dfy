/** The connection table on values: the primary map, the per-user index and the counter. */
module ConnectionTable {
  import opened Types

  datatype Limits = Limits(maxConnections: nat, maxConnectionsPerUser: nat)

  datatype ConnectionError = TotalLimitExceeded | UserLimitExceeded

  datatype Outcome = Ok | Err(error: ConnectionError)

  /** `owner` is the primary map reduced to each connection's user. */
  datatype Table = Table(owner: map<Uuid, Uuid>, index: map<Uuid, seq<Uuid>>, total: int)

  const EMPTY := Table(map[], map[], 0)

  /** `list` holds exactly the connections of `user`, each once. */
  ghost predicate ListsExactly(owner: map<Uuid, Uuid>, user: Uuid, list: seq<Uuid>) {
    NoDuplicates(list) && forall c :: c in list <==> c in owner && owner[c] == user
  }

  /** The three structures tell the same story. */
  ghost predicate Agrees(t: Table) {
    && t.total == |t.owner|
    && (forall u :: u in t.index ==> t.index[u] != [] && ListsExactly(t.owner, u, t.index[u]))
    && (forall c :: c in t.owner ==> t.owner[c] in t.index)
  }

  /** The per-user limit is only compared with users who already have a connection, so 0 acts like 1. */
  ghost predicate WithinLimits(t: Table, limits: Limits) {
    && |t.owner| <= limits.maxConnections
    && forall u :: u in t.index ==> |t.index[u]| <= Max(1, limits.maxConnectionsPerUser)
  }

  function RegisterOutcome(t: Table, limits: Limits, user: Uuid): Outcome {
    if t.total >= limits.maxConnections then Err(TotalLimitExceeded)
    else if user in t.index && |t.index[user]| >= limits.maxConnectionsPerUser then Err(UserLimitExceeded)
    else Ok
  }

  /** The connections of `user` in the table. */
  ghost function OwnedBy(owner: map<Uuid, Uuid>, user: Uuid): set<Uuid> {
    set c | c in owner && owner[c] == user
  }

  /** A list of the index is as long as its user has connections. */
  lemma ListCounts(t: Table, user: Uuid)
    requires Agrees(t)
    ensures user in t.index <==> OwnedBy(t.owner, user) != {}
    ensures user in t.index ==> |t.index[user]| == |OwnedBy(t.owner, user)|
  {
    if user in t.index {
      ElemsOfDistinct(t.index[user]);
      assert Elems(t.index[user]) == OwnedBy(t.owner, user);
      assert t.index[user][0] in OwnedBy(t.owner, user);
    }
    forall c | c in OwnedBy(t.owner, user) ensures user in t.index {}
  }

  /** The answer to a caller, in numbers of connections. */
  lemma LetsInExactlyWhen(t: Table, limits: Limits, user: Uuid)
    requires Agrees(t)
    ensures RegisterOutcome(t, limits, user) == Err(TotalLimitExceeded) <==> |t.owner| >= limits.maxConnections
    ensures RegisterOutcome(t, limits, user) == Ok <==>
      && |t.owner| < limits.maxConnections
      && (OwnedBy(t.owner, user) == {} || |OwnedBy(t.owner, user)| < limits.maxConnectionsPerUser)
  {
    ListCounts(t, user);
  }

  function Registered(t: Table, id: Uuid, user: Uuid): Table {
    Table(t.owner[id := user], t.index[user := Entries(t.index, user) + [id]], t.total + 1)
  }

  /** The table without the connections `gone`. */
  function Evict(t: Table, gone: set<Uuid>): Table
  {
    Table(t.owner - gone,
          EvictFromIndex(t.index, gone),
          t.total - |t.owner.Keys * gone|)
  }

  lemma {:induction false} WithoutMembers(s: seq<Uuid>, gone: set<Uuid>)
    ensures forall x :: x in Without(s, gone) <==> x in s && x !in gone
    ensures NoDuplicates(s) ==> NoDuplicates(Without(s, gone))
    ensures |Without(s, gone)| <= |s|
    ensures (forall x :: x in s ==> x !in gone) ==> Without(s, gone) == s
  {
    if s != [] {
      WithoutMembers(s[1..], gone);
      assert s == [s[0]] + s[1..];
    }
  }

  lemma {:induction false} WithoutTwice(s: seq<Uuid>, a: set<Uuid>, b: set<Uuid>)
    ensures Without(Without(s, a), b) == Without(s, a + b)
  {
    if s != [] {
      WithoutTwice(s[1..], a, b);
      if s[0] !in a {
        assert ([s[0]] + Without(s[1..], a))[1..] == Without(s[1..], a);
      }
    }
  }

  lemma OverlapIsBounded(t: Table, gone: set<Uuid>)
    requires t.total == |t.owner|
    ensures t.total - |t.owner.Keys * gone| == |t.owner.Keys - gone|
  {
    assert t.owner.Keys == t.owner.Keys * gone + (t.owner.Keys - gone);
  }

  lemma EvictFromList(owner: map<Uuid, Uuid>, user: Uuid, list: seq<Uuid>, gone: set<Uuid>)
    requires ListsExactly(owner, user, list)
    ensures ListsExactly(owner - gone, user, Without(list, gone))
    ensures |Without(list, gone)| <= |list|
  {
    WithoutMembers(list, gone);
  }

  lemma EvictKeepsAgreement(t: Table, gone: set<Uuid>)
    requires Agrees(t)
    ensures Agrees(Evict(t, gone))
    ensures forall u :: u in Evict(t, gone).index ==> u in t.index && |Evict(t, gone).index[u]| <= |t.index[u]|
    ensures |Evict(t, gone).owner| <= |t.owner|
  {
    OverlapIsBounded(t, gone);
    var t' := Evict(t, gone);
    assert t'.owner.Keys == t.owner.Keys - gone;
    forall u | u in t'.index
      ensures ListsExactly(t'.owner, u, t'.index[u]) && |t'.index[u]| <= |t.index[u]|
    {
      EvictFromList(t.owner, u, t.index[u], gone);
    }
    forall c | c in t'.owner ensures t'.owner[c] in t'.index {
      EvictFromList(t.owner, t.owner[c], t.index[t.owner[c]], gone);
    }
  }

  lemma EvictKeepsTable(t: Table, gone: set<Uuid>, limits: Limits)
    requires Agrees(t) && WithinLimits(t, limits)
    ensures Agrees(Evict(t, gone)) && WithinLimits(Evict(t, gone), limits)
  {
    EvictKeepsAgreement(t, gone);
  }

  function EvictFromIndex(index: map<Uuid, seq<Uuid>>, gone: set<Uuid>): map<Uuid, seq<Uuid>> {
    map u | u in index && Without(index[u], gone) != [] :: Without(index[u], gone)
  }

  lemma EvictFromIndexTwice(index: map<Uuid, seq<Uuid>>, a: set<Uuid>, b: set<Uuid>)
    ensures EvictFromIndex(EvictFromIndex(index, a), b) == EvictFromIndex(index, a + b)
  {
    forall u | u in index ensures Without(Without(index[u], a), b) == Without(index[u], a + b) {
      WithoutTwice(index[u], a, b);
    }
  }

  /** Evicting in two steps is evicting at once: cleanup may take its victims in any order. */
  lemma EvictTwice(t: Table, a: set<Uuid>, b: set<Uuid>)
    requires Agrees(t)
    ensures Evict(Evict(t, a), b) == Evict(t, a + b)
  {
    EvictKeepsAgreement(t, a);
    EvictKeepsAgreement(Evict(t, a), b);
    EvictKeepsAgreement(t, a + b);
    EvictFromIndexTwice(t.index, a, b);
    SubtractTwice(t.owner, a, b);
  }

  lemma SubtractTwice<K, V>(m: map<K, V>, a: set<K>, b: set<K>)
    ensures (m - a) - b == m - (a + b)
  {
  }

  lemma SplitOff<T>(s: set<T>, x: T)
    requires x in s
    ensures {x} + (s - {x}) == s
  {
  }

  lemma SubtractNothing<K, V>(m: map<K, V>)
    ensures m - {} == m
  {
  }

  lemma RegisterOnLists(owner: map<Uuid, Uuid>, user: Uuid, list: seq<Uuid>, id: Uuid, newUser: Uuid)
    requires ListsExactly(owner, user, list) && id !in owner
    ensures ListsExactly(owner[id := newUser], user, if user == newUser then list + [id] else list)
  {
  }

  lemma RegisterKeepsLists(t: Table, id: Uuid, user: Uuid, u: Uuid)
    requires Agrees(t) && id !in t.owner && u in Registered(t, id, user).index
    ensures
      var t' := Registered(t, id, user);
      t'.index[u] != [] && ListsExactly(t'.owner, u, t'.index[u])
  {
    RegisterOnLists(t.owner, u, Entries(t.index, u), id, user);
  }

  lemma RegisterKeepsOwners(t: Table, id: Uuid, user: Uuid)
    requires Agrees(t) && id !in t.owner
    ensures
      var t' := Registered(t, id, user);
      t'.total == |t'.owner| && forall c :: c in t'.owner ==> t'.owner[c] in t'.index
  {
    assert Registered(t, id, user).owner.Keys == t.owner.Keys + {id};
  }

  lemma RegisterKeepsAgreement(t: Table, limits: Limits, id: Uuid, user: Uuid)
    requires Agrees(t) && id !in t.owner && RegisterOutcome(t, limits, user) == Ok
    ensures Agrees(Registered(t, id, user))
    ensures WithinLimits(t, limits) ==> WithinLimits(Registered(t, id, user), limits)
  {
    var t' := Registered(t, id, user);
    RegisterKeepsOwners(t, id, user);
    forall u | u in t'.index ensures t'.index[u] != [] && ListsExactly(t'.owner, u, t'.index[u]) {
      RegisterKeepsLists(t, id, user, u);
    }
    RegisterKeepsLimits(t, limits, id, user);
  }

  lemma RegisterKeepsLimits(t: Table, limits: Limits, id: Uuid, user: Uuid)
    requires t.total == |t.owner| && id !in t.owner && RegisterOutcome(t, limits, user) == Ok
    ensures WithinLimits(t, limits) ==> WithinLimits(Registered(t, id, user), limits)
  {
    assert Registered(t, id, user).owner.Keys == t.owner.Keys + {id};
  }

  /** Evicting one connection touches only its user's list, which disappears when it becomes empty. */
  function EvictOne(t: Table, id: Uuid): Table {
    if id !in t.owner then t
    else Table(t.owner - {id}, RemoveFromIndex(t.index, t.owner[id], id), t.total - 1)
  }

  lemma EvictNothing(t: Table)
    requires Agrees(t)
    ensures Evict(t, {}) == t
  {
    OverlapIsBounded(t, {});
    assert t.owner - {} == t.owner;
    assert t.owner.Keys * {} == {};
    NothingFromIndex(t.index);
  }

  lemma NothingFromIndex(index: map<Uuid, seq<Uuid>>)
    requires forall u :: u in index ==> index[u] != []
    ensures EvictFromIndex(index, {}) == index
  {
    forall u | u in index ensures Without(index[u], {}) == index[u] {
      WithoutMembers(index[u], {});
    }
  }

  function RemoveFromIndex(index: map<Uuid, seq<Uuid>>, user: Uuid, id: Uuid): map<Uuid, seq<Uuid>> {
    if user !in index then index
    else
      var rest := Without(index[user], {id});
      if rest == [] then index - {user} else index[user := rest]
  }

  lemma RemoveFromIndexIsEviction(owner: map<Uuid, Uuid>, index: map<Uuid, seq<Uuid>>, id: Uuid)
    requires forall u :: u in index ==> index[u] != [] && ListsExactly(owner, u, index[u])
    ensures EvictFromIndex(index, {id}) == if id in owner then RemoveFromIndex(index, owner[id], id) else index
  {
    forall u | u in index && (id !in owner || u != owner[id]) ensures Without(index[u], {id}) == index[u] {
      WithoutMembers(index[u], {id});
    }
  }

  lemma EvictOneFromOwner(owner: map<Uuid, Uuid>, id: Uuid)
    ensures |owner.Keys * {id}| == if id in owner then 1 else 0
    ensures id !in owner ==> owner - {id} == owner
  {
    if id in owner {
      assert owner.Keys * {id} == {id};
    } else {
      assert owner.Keys * {id} == {};
    }
  }

  lemma EvictOneIsEvict(t: Table, id: Uuid)
    requires Agrees(t)
    ensures EvictOne(t, id) == Evict(t, {id})
  {
    RemoveFromIndexIsEviction(t.owner, t.index, id);
    EvictOneFromOwner(t.owner, id);
  }

  // ---- Whole runs.

  datatype Op =
    | Register(id: Uuid, user: Uuid)
    | Unregister(id: Uuid)
    | CleanupStale(dead: set<Uuid>)

  /** One operation; connection ids are random v4 UUIDs, so an id in use is never registered again. */
  function Apply(t: Table, limits: Limits, op: Op): Table {
    match op
    case Register(id, user) =>
      if id !in t.owner && RegisterOutcome(t, limits, user) == Ok then Registered(t, id, user) else t
    case Unregister(id) => Evict(t, {id})
    case CleanupStale(dead) => Evict(t, dead)
  }

  function Run(limits: Limits, ops: seq<Op>): (t: Table)
    ensures Agrees(t) && WithinLimits(t, limits)
  {
    if ops == [] then EMPTY
    else
      var t := Run(limits, ops[..|ops| - 1]);
      var op := ops[|ops| - 1];
      ApplyKeepsAgreement(t, limits, op);
      Apply(t, limits, op)
  }

  lemma ApplyKeepsAgreement(t: Table, limits: Limits, op: Op)
    requires Agrees(t) && WithinLimits(t, limits)
    ensures Agrees(Apply(t, limits, op)) && WithinLimits(Apply(t, limits, op), limits)
  {
    match op {
      case Register(id, user) =>
        if id !in t.owner && RegisterOutcome(t, limits, user) == Ok {
          RegisterKeepsAgreement(t, limits, id, user);
        }
      case Unregister(id) => EvictKeepsAgreement(t, {id});
      case CleanupStale(dead) => EvictKeepsAgreement(t, dead);
    }
  }

  /** The sum of the index's list lengths. */
  ghost function SumLengths(index: map<Uuid, seq<Uuid>>): nat {
    if index == map[] then 0
    else
      var u :| u in index;
      |index[u]| + SumLengths(index - {u})
  }

  lemma {:induction false} DistinctCount(s: seq<Uuid>)
    requires NoDuplicates(s)
    ensures |Elems(s)| == |s|
  {
    if s != [] {
      var init := s[..|s| - 1];
      assert s == init + [s[|s| - 1]];
      ElemsAppend(init, s[|s| - 1]);
      DistinctCount(init);
    }
  }

  lemma {:induction false} ListsPartitionTable(owner: map<Uuid, Uuid>, index: map<Uuid, seq<Uuid>>)
    requires forall u :: u in index ==> ListsExactly(owner, u, index[u])
    requires forall c :: c in owner ==> owner[c] in index
    ensures |owner| == SumLengths(index)
    decreases index.Keys
  {
    if index == map[] {
      assert owner.Keys == {};
    } else {
      var u :| u in index && SumLengths(index) == |index[u]| + SumLengths(index - {u});
      var gone := Elems(index[u]);
      var owner', index' := owner - gone, index - {u};
      DistinctCount(index[u]);
      assert owner.Keys == owner'.Keys + gone;
      assert |owner'.Keys| + |gone| == |owner.Keys|;
      forall v | v in index' ensures ListsExactly(owner', v, index'[v]) {
        assert ListsExactly(owner, v, index[v]) && ListsExactly(owner, u, index[u]);
      }
      ListsPartitionTable(owner', index');
    }
  }

  /** After any sequence of operations the index, the counter and the limits are right. */
  lemma IndexAgreesWithTable(limits: Limits, ops: seq<Op>)
    ensures
      var t := Run(limits, ops);
      && (forall u :: u in t.index ==> t.index[u] != [] && ListsExactly(t.owner, u, t.index[u]))
      && (forall u :: u in t.index <==> exists c :: c in t.owner && t.owner[c] == u)
      && t.total == |t.owner| == SumLengths(t.index) <= limits.maxConnections
  {
    var t := Run(limits, ops);
    ListsPartitionTable(t.owner, t.index);
    forall u | u in t.index ensures exists c :: c in t.owner && t.owner[c] == u {
      var c := t.index[u][0];
      assert c in t.index[u];
      assert c in t.owner && t.owner[c] == u;
    }
  }

  ghost predicate UserIsWithin(limits: Limits, ops: seq<Op>, u: Uuid, most: nat) {
    u in Run(limits, ops).index ==> |Run(limits, ops).index[u]| <= most
  }

  lemma ZeroLetsOneIn(limits: Limits)
    requires limits.maxConnectionsPerUser == 0 && limits.maxConnections > 0
    ensures !UserIsWithin(limits, [Register(1, 7)], 7, 0)
  {
    assert [Register(1, 7)][..0] == [];
    assert Run(limits, [Register(1, 7)]) == Registered(EMPTY, 1, 7);
  }

  /** The per-user limit holds in every run exactly when it is not 0, unless nobody may connect at all. */
  lemma UserLimitHoldsExactlyWhen(limits: Limits)
    ensures (forall ops, u :: UserIsWithin(limits, ops, u, limits.maxConnectionsPerUser))
            <==> limits.maxConnectionsPerUser >= 1 || limits.maxConnections == 0
  {
    if limits.maxConnectionsPerUser == 0 && limits.maxConnections > 0 {
      ZeroLetsOneIn(limits);
    } else {
      forall ops, u ensures UserIsWithin(limits, ops, u, limits.maxConnectionsPerUser) {
        UserIsWithinLimits(limits, ops, u);
      }
    }
  }

  lemma UserIsWithinLimits(limits: Limits, ops: seq<Op>, u: Uuid)
    ensures u in Run(limits, ops).index ==>
              limits.maxConnections > 0 && |Run(limits, ops).index[u]| <= Max(1, limits.maxConnectionsPerUser)
  {
    var t := Run(limits, ops);
    if u in t.index {
      assert WithinLimits(t, limits) && Agrees(t);
      var c := t.index[u][0];
      assert c in t.index[u] && c in t.owner;
    }
  }
}

/** The connection manager object. */
module ConnectionManagement {
  import opened Types
  import opened Subscriptions
  import opened ConnectionTable

  datatype OutboundMessage = OutboundMessage(json: string)

  /** A WebSocket connection: `inbox` is what the receiving end of its channel has been given. */
  class Connection {
    const id: Uuid
    const user: Uuid
    const subscriptions: ConnectionSubscriptions
    var alive: bool
    var inbox: seq<OutboundMessage>

    constructor (id: Uuid, user: Uuid, maxSubscriptions: nat)
      ensures this.id == id && this.user == user && alive && inbox == []
      ensures fresh(subscriptions) && subscriptions.View() == LEGACY
      ensures subscriptions.history == [] && subscriptions.Recorded()
    {
      this.id, this.user := id, user;
      subscriptions := new ConnectionSubscriptions(maxSubscriptions);
      alive, inbox := true, [];
    }

    /** Still open, and the filter lets the message through. */
    ghost predicate Takes(conv: Uuid, isSystemMessage: bool)
      reads this`alive, subscriptions
    {
      alive && ShouldReceive(subscriptions.View(), conv, isSystemMessage)
    }

    /** The user's own connection, still open, for a system message or a conversation its filter does not shut out. */
    ghost predicate ReceivesFor(user: Uuid, conv: Uuid, isSystemMessage: bool)
      reads this`alive, subscriptions
    {
      && this.user == user && alive
      && (isSystemMessage || !subscriptions.explicit || conv in subscriptions.subscriptions)
    }

    method Send(message: OutboundMessage) returns (ok: bool)
      modifies this`inbox
      ensures ok == alive
      ensures inbox == if alive then old(inbox) + [message] else old(inbox)
    {
      if alive {
        inbox := inbox + [message];
      }
      ok := alive;
    }
  }

  class ConnectionManager {
    var connections: map<Uuid, Connection>
    var userConnections: map<Uuid, seq<Uuid>>
    var totalConnections: int
    const limits: Limits

    ghost function View(): Table
      reads this
    {
      Table(map c | c in connections :: connections[c].user, userConnections, totalConnections)
    }

    ghost predicate Valid()
      reads this, FilterObjects()
    {
      && Agrees(View())
      && WithinLimits(View(), limits)
      && IdsMatch()
      && FiltersRecorded()
      && FiltersApart()
    }

    ghost function FilterObjects(): set<ConnectionSubscriptions>
      reads this
    {
      set c | c in connections :: connections[c].subscriptions
    }

    /** Every connection's filter is what its requests add up to. */
    ghost predicate FiltersRecorded()
      reads this, FilterObjects()
    {
      forall c :: c in connections ==> connections[c].subscriptions.Recorded()
    }

    /** No two connections share a filter. */
    ghost predicate FiltersApart()
      reads this
    {
      forall c, d :: c in connections && d in connections && c != d ==>
        connections[c].subscriptions != connections[d].subscriptions
    }

    /** The filter of one connection, which is all that a request on it touches. */
    ghost function FilterOf(id: Uuid): set<ConnectionSubscriptions>
      reads this
    {
      if id in connections then {connections[id].subscriptions} else {}
    }

    ghost predicate IdsMatch()
      reads this
    {
      forall c :: c in connections ==> connections[c].id == c
    }

    constructor (limits: Limits)
      ensures Valid() && connections == map[] && View() == EMPTY && this.limits == limits
    {
      this.limits := limits;
      connections, userConnections, totalConnections := map[], map[], 0;
    }

    ghost function ConnectionsOf(user: Uuid): set<Uuid>
      reads this
    {
      set c | c in connections && connections[c].user == user
    }

    /** Below the total limit, and the user has no connection yet or fewer than the user's limit. */
    ghost predicate HasRoomFor(user: Uuid)
      reads this
    {
      && |connections| < limits.maxConnections
      && (ConnectionsOf(user) == {} || |ConnectionsOf(user)| < limits.maxConnectionsPerUser)
    }

    method Register(connection: Connection) returns (r: Outcome)
      requires Valid() && connection.id !in connections
      requires connection.subscriptions.Recorded() && connection.subscriptions !in FilterObjects()
      modifies this
      ensures Valid()
      ensures r == RegisterOutcome(old(View()), limits, connection.user)
      ensures r == Err(TotalLimitExceeded) <==> |old(connections)| >= limits.maxConnections
      ensures r == Ok <==> old(HasRoomFor(connection.user))
      ensures r.Ok? ==> View() == Registered(old(View()), connection.id, connection.user)
      ensures r.Ok? ==> connections == old(connections)[connection.id := connection]
      ensures r.Err? ==> View() == old(View()) && connections == old(connections)
    {
      r := CheckLimits(connection.user);
      if r.Ok? {
        RegisterKeepsAgreement(View(), limits, connection.id, connection.user);
        Insert(connection);
      }
    }

    /** The two checks of `register`. */
    method CheckLimits(user: Uuid) returns (r: Outcome)
      requires Agrees(View())
      ensures r == RegisterOutcome(View(), limits, user)
      ensures r == Err(TotalLimitExceeded) <==> |connections| >= limits.maxConnections
      ensures r == Ok <==> HasRoomFor(user)
    {
      AnswersByRoom(user);
      if totalConnections >= limits.maxConnections {
        return Err(TotalLimitExceeded);
      }
      if user in userConnections {
        if |userConnections[user]| >= limits.maxConnectionsPerUser {
          return Err(UserLimitExceeded);
        }
      }
      return Ok;
    }

    lemma AnswersByRoom(user: Uuid)
      requires Agrees(View())
      ensures RegisterOutcome(View(), limits, user) == Err(TotalLimitExceeded) <==>
        |connections| >= limits.maxConnections
      ensures RegisterOutcome(View(), limits, user) == Ok <==> HasRoomFor(user)
    {
      assert View().owner.Keys == connections.Keys;
      assert OwnedBy(View().owner, user) == ConnectionsOf(user);
      LetsInExactlyWhen(View(), limits, user);
    }

    /** The three writes of `register`. */
    method Insert(connection: Connection)
      requires IdsMatch() && FiltersRecorded() && FiltersApart() && connection.id !in connections
      requires connection.subscriptions.Recorded() && connection.subscriptions !in FilterObjects()
      modifies this
      ensures IdsMatch() && FiltersRecorded() && FiltersApart()
      ensures connections == old(connections)[connection.id := connection]
      ensures View() == Registered(old(View()), connection.id, connection.user)
    {
      connections := connections[connection.id := connection];
      userConnections :=
        userConnections[connection.user := Entries(userConnections, connection.user) + [connection.id]];
      totalConnections := totalConnections + 1;
    }

    method Unregister(id: Uuid) returns (r: Option<Connection>)
      requires Valid()
      modifies this
      ensures Valid()
      ensures r == if id in old(connections) then Some(old(connections)[id]) else None
      ensures connections == old(connections) - {id}
      ensures View() == Evict(old(View()), {id})
    {
      EvictKeepsTable(View(), {id}, limits);
      EvictOneIsEvict(View(), id);
      r := Remove(id);
    }

    /** The three writes of `unregister`. */
    method Remove(id: Uuid) returns (r: Option<Connection>)
      modifies this
      ensures r == if id in old(connections) then Some(old(connections)[id]) else None
      ensures connections == old(connections) - {id}
      ensures View() == EvictOne(old(View()), id)
    {
      if id !in connections {
        return None;
      }
      var connection := connections[id];
      connections := connections - {id};
      if connection.user in userConnections {
        var rest := Without(userConnections[connection.user], {id});
        if rest == [] {
          userConnections := userConnections - {connection.user};
        } else {
          userConnections := userConnections[connection.user := rest];
        }
      }
      totalConnections := totalConnections - 1;
      return Some(connection);
    }

    function StaleIds(): set<Uuid>
      reads this, connections.Values
    {
      set c | c in connections && !connections[c].alive
    }

    /** Unregister every connection whose receiver is gone; the map is visited in no particular order. */
    method CleanupStaleConnections() returns (count: nat)
      requires Valid()
      modifies this
      ensures Valid()
      ensures count == |old(StaleIds())|
      ensures connections == old(connections) - old(StaleIds())
      ensures View() == Evict(old(View()), old(StaleIds()))
      ensures forall c :: c in connections <==> c in old(connections) && old(connections[c].alive)
      ensures |connections| == |old(connections)| - count
    {
      var stale := StaleIds();
      count := |stale|;
      assert connections.Keys == stale + (connections - stale).Keys;
      UnregisterAll(stale);
    }

    method UnregisterAll(ids: set<Uuid>)
      requires Valid()
      modifies this
      ensures Valid()
      ensures connections == old(connections) - ids
      ensures View() == Evict(old(View()), ids)
    {
      var todo := ids;
      while todo != {}
        invariant Valid()
        invariant connections - todo == old(connections) - ids
        invariant Evict(View(), todo) == Evict(old(View()), ids)
        decreases todo
      {
        var id :| id in todo;
        SplitOff(todo, id);
        todo := todo - {id};
        UnregisterNext(id, todo, old(View()), ids);
      }
      EvictNothing(View());
      SubtractNothing(connections);
    }

    /** One round of the cleanup loop, with `rest` still to go. */
    method UnregisterNext(id: Uuid, ghost rest: set<Uuid>, ghost before: Table, ghost ids: set<Uuid>)
      requires Valid()
      requires Evict(View(), {id} + rest) == Evict(before, ids)
      modifies this
      ensures Valid()
      ensures connections - rest == old(connections) - ({id} + rest)
      ensures Evict(View(), rest) == Evict(before, ids)
    {
      EvictTwice(View(), {id}, rest);
      SubtractTwice(connections, {id}, rest);
      var _ := Unregister(id);
    }

    function HasUser(user: Uuid): bool
      reads this
    {
      user in userConnections
    }

    ghost predicate ConnectedAs(c: Uuid, user: Uuid)
      reads this
    {
      c in connections && connections[c].user == user
    }

    /** The connections a filtered send reaches: the user's own, still open, whose filter lets the message through. */
    ghost function Reached(user: Uuid, conv: Uuid, isSystemMessage: bool): set<Uuid>
      reads this, connections.Values, FilterObjects()
    {
      set c | c in connections && ConnectedAs(c, user) && connections[c].Takes(conv, isSystemMessage)
    }

    /** The user's open connections that never subscribed or whose last effective change for `conv` was a subscribe. */
    ghost function Subscribed(user: Uuid, conv: Uuid): set<Uuid>
      reads this, connections.Values, FilterObjects()
    {
      set c | c in connections && ConnectedAs(c, user) && connections[c].alive
        && WantsByHistory(connections[c].subscriptions, conv)
    }

    /** A non-system message reaches exactly the connections whose request history asks for it. */
    lemma ReachedByHistory(user: Uuid, conv: Uuid)
      requires Valid()
      ensures Reached(user, conv, false) == Subscribed(user, conv)
    {
      forall c | c in connections ensures c in Reached(user, conv, false) <==> c in Subscribed(user, conv) {
        ReceivesByHistory(connections[c].subscriptions.maxSubscriptions, connections[c].subscriptions.history, conv);
      }
    }

    /** A system message, and every unfiltered send, reaches exactly the user's open connections. */
    lemma SystemMessageReaches(user: Uuid, conv: Uuid)
      ensures Reached(user, conv, true) == set c | c in connections && connections[c].user == user
        && connections[c].alive
    {
    }

    /** The filter of a connection, for its own subscribe and unsubscribe requests. */
    method GetSubscriptions(id: Uuid) returns (r: Option<ConnectionSubscriptions>)
      ensures r == if id in connections then Some(connections[id].subscriptions) else None
    {
      r := if id in connections then Some(connections[id].subscriptions) else None;
    }

    /** The answer to a subscribe request: the ids that are new and fit, or nothing for an unknown connection. */
    ghost function SubscribeAnswer(id: Uuid, ids: seq<Uuid>): Option<SubscriptionResult>
      reads this, FilterObjects()
    {
      if id !in connections then None
      else Some(SubscriptionResult(Added(connections[id].subscriptions.View(),
                                         connections[id].subscriptions.maxSubscriptions, ids), []))
    }

    /** The answer to an unsubscribe request: the ids that were subscribed. */
    ghost function UnsubscribeAnswer(id: Uuid, ids: seq<Uuid>): Option<SubscriptionResult>
      reads this, FilterObjects()
    {
      if id !in connections then None
      else Some(SubscriptionResult([], DistinctKnown(connections[id].subscriptions.View().convs, ids)))
    }

    /** A client's subscribe request, as the WebSocket handler passes it on: one more entry of its own history. */
    method SubscribeConnection(id: Uuid, ids: seq<Uuid>) returns (r: Option<SubscriptionResult>)
      requires Valid()
      modifies FilterOf(id)
      ensures Valid() && View() == old(View())
      ensures r.Some? <==> id in connections
      ensures r.Some? ==>
        connections[id].subscriptions.history
        == old(connections[id].subscriptions.history) + [SubscribeTo(ids)]
      ensures r == old(SubscribeAnswer(id, ids))
      ensures forall c :: c in connections && c != id ==>
        && connections[c].subscriptions.history == old(connections[c].subscriptions.history)
        && connections[c].subscriptions.View() == old(connections[c].subscriptions.View())
    {
      var subscriptions := GetSubscriptions(id);
      r := None;
      if subscriptions.Some? {
        var result := subscriptions.value.Subscribe(ids);
        r := Some(result);
      }
    }

    method UnsubscribeConnection(id: Uuid, ids: seq<Uuid>) returns (r: Option<SubscriptionResult>)
      requires Valid()
      modifies FilterOf(id)
      ensures Valid() && View() == old(View())
      ensures r.Some? <==> id in connections
      ensures r.Some? ==>
        connections[id].subscriptions.history
        == old(connections[id].subscriptions.history) + [UnsubscribeFrom(ids)]
      ensures r == old(UnsubscribeAnswer(id, ids))
      ensures forall c :: c in connections && c != id ==>
        && connections[c].subscriptions.history == old(connections[c].subscriptions.history)
        && connections[c].subscriptions.View() == old(connections[c].subscriptions.View())
    {
      var subscriptions := GetSubscriptions(id);
      r := None;
      if subscriptions.Some? {
        var result := subscriptions.value.Unsubscribe(ids);
        r := Some(result);
      }
    }

    lemma HasUserMeansConnected(user: Uuid)
      requires Valid()
      ensures HasUser(user) <==> exists c :: ConnectedAs(c, user)
    {
      if user in userConnections {
        var c := userConnections[user][0];
        assert c in View().owner && View().owner[c] == user;
        assert ConnectedAs(c, user);
      }
      forall c | ConnectedAs(c, user) ensures HasUser(user) {
        assert c in View().owner;
      }
    }

    /** What the receiving end of each connection has been given. */
    ghost function Inboxes(): map<Uuid, seq<OutboundMessage>>
      reads this, connections.Values
    {
      map c | c in connections :: connections[c].inbox
    }

    /** The filter and the send for one connection of the user's list. */
    method TrySend(conn: Connection, conv: Uuid, message: OutboundMessage, isSystemMessage: bool) returns (ok: bool)
      requires IdsMatch() && conn.id in connections && connections[conn.id] == conn
      modifies conn`inbox
      ensures ok <==> old(conn.Takes(conv, isSystemMessage))
      ensures Inboxes() == if ok then Delivered(old(Inboxes()), {conn.id}, message) else old(Inboxes())
    {
      var accepted := conn.subscriptions.Accepts(conv, isSystemMessage);
      ok := false;
      if accepted {
        ok := conn.Send(message);
      }
    }

    /** Every reached connection gets the message once, nobody else does, and the count returned is theirs. */
    method SendToUserFiltered(user: Uuid, conv: Uuid, message: OutboundMessage, isSystemMessage: bool)
      returns (delivered: nat)
      requires Valid()
      modifies connections.Values`inbox
      ensures delivered == |old(Reached(user, conv, isSystemMessage))|
      ensures Inboxes() == Delivered(old(Inboxes()), old(Reached(user, conv, isSystemMessage)), message)
      ensures !isSystemMessage ==>
        && delivered == |old(Subscribed(user, conv))|
        && Inboxes() == Delivered(old(Inboxes()), old(Subscribed(user, conv)), message)
    {
      ReachedByHistory(user, conv);
      ListHoldsReached(user, conv, isSystemMessage);
      DeliveredToNobody(Inboxes(), message);
      delivered := 0;
      if user in userConnections {
        delivered := SendToList(userConnections[user], conv, message, isSystemMessage,
                                Reached(user, conv, isSystemMessage));
      }
    }

    /** The unfiltered send: every open connection of the user. */
    method SendToUser(user: Uuid, message: OutboundMessage)
      requires Valid()
      modifies connections.Values`inbox
      ensures Inboxes() == Delivered(old(Inboxes()), old(Reached(user, 0, true)), message)
    {
      ListHoldsReached(user, 0, true);
      DeliveredToNobody(Inboxes(), message);
      if user in userConnections {
        var _ := SendToList(userConnections[user], 0, message, true, Reached(user, 0, true));
      }
    }

    /** Who is reached, read off the connection: the user's own, open, and not shut out by its filter. */
    lemma ReachedMeans(user: Uuid, conv: Uuid, isSystemMessage: bool, c: Uuid)
      requires c in connections
      ensures c in Reached(user, conv, isSystemMessage) <==> connections[c].ReceivesFor(user, conv, isSystemMessage)
    {
    }

    /** The loop over the user's list. */
    method SendToList(ids: seq<Uuid>, conv: Uuid, message: OutboundMessage, isSystemMessage: bool,
                      ghost reached: set<Uuid>)
        returns (delivered: nat)
      requires IdsMatch() && NoDuplicates(ids) && reached <= Elems(ids)
      requires forall c :: c in ids ==>
        c in connections && (c in reached <==> connections[c].Takes(conv, isSystemMessage))
      modifies connections.Values`inbox
      ensures delivered == |reached|
      ensures Inboxes() == Delivered(old(Inboxes()), reached, message)
    {
      ghost var inboxes := Inboxes();
      DeliveredToNobody(inboxes, message);
      HitAll(reached, ids);
      delivered := 0;
      var i := 0;
      while i < |ids|
        invariant 0 <= i <= |ids|
        invariant delivered == |Hit(reached, ids, i)|
        invariant Inboxes() == Delivered(inboxes, Hit(reached, ids, i), message)
      {
        HitNext(reached, ids, i);
        if ids[i] in connections {
          var conn := connections[ids[i]];
          assert conn.Takes(conv, isSystemMessage) <==> ids[i] in reached by {
            assert old(conn.Takes(conv, isSystemMessage)) <==> ids[i] in reached;
          }
          var ok := TrySend(conn, conv, message, isSystemMessage);
          if ok {
            DeliveredAlso(inboxes, Hit(reached, ids, i), {ids[i]}, message);
            delivered := delivered + 1;
          }
        }
        i := i + 1;
      }
    }

    lemma ListHoldsReached(user: Uuid, conv: Uuid, isSystemMessage: bool)
      requires Valid()
      ensures user !in userConnections ==> Reached(user, conv, isSystemMessage) == {}
      ensures user in userConnections ==>
        && NoDuplicates(userConnections[user])
        && Reached(user, conv, isSystemMessage) <= Elems(userConnections[user])
        && forall c :: c in userConnections[user] ==> ConnectedAs(c, user)
    {
      if user in userConnections {
        assert ListsExactly(View().owner, user, userConnections[user]);
      }
      forall c | c in Reached(user, conv, isSystemMessage) ensures user in userConnections {
        assert c in View().owner;
      }
    }
  }

  /** Inboxes after `message` has been sent once to each connection of `to`. */
  function Delivered(inboxes: map<Uuid, seq<OutboundMessage>>, to: set<Uuid>, message: OutboundMessage)
    : map<Uuid, seq<OutboundMessage>>
  {
    map c | c in inboxes :: if c in to then inboxes[c] + [message] else inboxes[c]
  }

  /** One more message at the end for each of those, and nothing for anybody else. */
  lemma DeliveredMeans(inboxes: map<Uuid, seq<OutboundMessage>>, to: set<Uuid>, message: OutboundMessage, c: Uuid)
    requires c in inboxes
    ensures
      var after := Delivered(inboxes, to, message);
      c in after && if c in to then |after[c]| == |inboxes[c]| + 1 && after[c][..|inboxes[c]|] == inboxes[c]
                                    && after[c][|inboxes[c]|] == message
                    else after[c] == inboxes[c]
  {
  }

  lemma DeliveredToNobody(inboxes: map<Uuid, seq<OutboundMessage>>, message: OutboundMessage)
    ensures Delivered(inboxes, {}, message) == inboxes
  {
  }

  lemma DeliveredAlso(inboxes: map<Uuid, seq<OutboundMessage>>, a: set<Uuid>, b: set<Uuid>, message: OutboundMessage)
    requires a !! b
    ensures Delivered(Delivered(inboxes, a, message), b, message) == Delivered(inboxes, a + b, message)
  {
  }

  /** Which of `reached` are among the first `i` of `s`. */
  ghost function Hit(reached: set<Uuid>, s: seq<Uuid>, i: nat): set<Uuid>
    requires i <= |s|
  {
    if i == 0 then {}
    else if s[i - 1] in reached then Hit(reached, s, i - 1) + {s[i - 1]}
    else Hit(reached, s, i - 1)
  }

  lemma {:induction false} HitMembers(reached: set<Uuid>, s: seq<Uuid>, i: nat)
    requires NoDuplicates(s) && i <= |s|
    ensures forall x :: x in Hit(reached, s, i) <==> x in reached && x in s[..i]
    ensures i < |s| ==> s[i] !in Hit(reached, s, i)
  {
    if i > 0 {
      HitMembers(reached, s, i - 1);
      assert s[..i] == s[..i - 1] + [s[i - 1]];
    }
  }

  lemma HitAll(reached: set<Uuid>, s: seq<Uuid>)
    requires NoDuplicates(s) && reached <= Elems(s)
    ensures Hit(reached, s, |s|) == reached
  {
    HitMembers(reached, s, |s|);
    assert s[..|s|] == s;
  }

  lemma HitNext(reached: set<Uuid>, s: seq<Uuid>, i: nat)
    requires NoDuplicates(s) && i < |s|
    ensures s[i] in reached ==> s[i] !in Hit(reached, s, i) && |Hit(reached, s, i + 1)| == |Hit(reached, s, i)| + 1
  {
    HitMembers(reached, s, i);
  }
}

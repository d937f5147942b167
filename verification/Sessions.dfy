/** The cluster's session sets: which servers have a user, and which users a server has. */
module Sessions {
  import opened Types

  type Relation = map<Uuid, set<Uuid>>

  /** The two families of sets are the two directions of one relation. */
  ghost predicate Inverse(userServers: Relation, serverUsers: Relation) {
    forall u, s :: s in Members(userServers, u) <==> u in Members(serverUsers, s)
  }

  function Pairs(m: Relation): set<(Uuid, Uuid)> {
    set k, v | k in m && v in m[k] :: (k, v)
  }

  function Row(k: Uuid, values: set<Uuid>): set<(Uuid, Uuid)> {
    set v | v in values :: (k, v)
  }

  lemma {:induction false} RowSize(k: Uuid, values: set<Uuid>)
    ensures |Row(k, values)| == |values|
  {
    if values != {} {
      var v :| v in values;
      RowSize(k, values - {v});
      assert Row(k, values) == Row(k, values - {v}) + {(k, v)};
    }
  }

  /** The pairs of a relation are one key's pairs and the others'. */
  lemma PairsWithout(m: Relation, k: Uuid)
    requires k in m
    ensures |Pairs(m)| == |m[k]| + |Pairs(m - {k})|
  {
    RowSize(k, m[k]);
    assert Pairs(m) == Row(k, m[k]) + Pairs(m - {k});
    assert Row(k, m[k]) !! Pairs(m - {k});
  }

  function Flip(pairs: set<(Uuid, Uuid)>): set<(Uuid, Uuid)> {
    set p | p in pairs :: (p.1, p.0)
  }

  lemma {:induction false} FlipSize(pairs: set<(Uuid, Uuid)>)
    ensures |Flip(pairs)| == |pairs|
  {
    if pairs != {} {
      var p :| p in pairs;
      FlipSize(pairs - {p});
      assert Flip(pairs) == Flip(pairs - {p}) + {(p.1, p.0)};
      assert (p.1, p.0) !in Flip(pairs - {p});
    }
  }

  lemma InPairs(m: Relation, k: Uuid, v: Uuid)
    ensures (k, v) in Pairs(m) <==> v in Members(m, k)
  {
  }

  lemma InFlip(pairs: set<(Uuid, Uuid)>, a: Uuid, b: Uuid)
    ensures (b, a) in Flip(pairs) <==> (a, b) in pairs
  {
    if (a, b) in pairs {
      assert ((a, b).1, (a, b).0) in Flip(pairs);
    }
  }

  lemma InverseSizes(userServers: Relation, serverUsers: Relation)
    requires Inverse(userServers, serverUsers)
    ensures |Pairs(serverUsers)| == |Pairs(userServers)|
  {
    FlipSize(Pairs(userServers));
    forall s: Uuid, u: Uuid ensures (s, u) in Pairs(serverUsers) <==> (s, u) in Flip(Pairs(userServers)) {
      InPairs(serverUsers, s, u);
      InPairs(userServers, u, s);
      InFlip(Pairs(userServers), u, s);
    }
    assert Pairs(serverUsers) == Flip(Pairs(userServers));
  }

  /** Users with a session somewhere. */
  function Online(userServers: Relation): set<Uuid> {
    set u | u in userServers && userServers[u] != {}
  }

  ghost predicate OnOneServerEach(userServers: Relation) {
    forall u :: u in userServers ==> |userServers[u]| <= 1
  }

  lemma OneServerEachWithout(userServers: Relation, u: Uuid)
    requires u in userServers
    ensures OnOneServerEach(userServers) <==> OnOneServerEach(userServers - {u}) && |userServers[u]| <= 1
  {
    var rest := userServers - {u};
    if OnOneServerEach(rest) && |userServers[u]| <= 1 {
      forall v | v in userServers ensures |userServers[v]| <= 1 {
        assert v == u || v in rest;
      }
    }
    if OnOneServerEach(userServers) {
      forall v | v in rest ensures |rest[v]| <= 1 {
        assert v in userServers;
      }
    }
  }

  lemma {:induction false} PairsAndUsers(userServers: Relation)
    ensures |Pairs(userServers)| >= |Online(userServers)|
    ensures |Pairs(userServers)| == |Online(userServers)| <==> OnOneServerEach(userServers)
    decreases |userServers|
  {
    if userServers.Keys == {} {
    } else {
      var u :| u in userServers;
      var rest := userServers - {u};
      PairsAndUsers(rest);
      PairsWithout(userServers, u);
      assert Online(userServers) == Online(rest) + if userServers[u] != {} then {u} else {};
      assert u !in Online(rest);
      OneServerEachWithout(userServers, u);
    }
  }

  /**
   The cluster's user count adds up the servers' sets, so it is the number of users if and
   only if nobody is connected to two servers; otherwise it is larger.
   */
  lemma CountIsUsersExactlyWhen(userServers: Relation, serverUsers: Relation)
    requires Inverse(userServers, serverUsers)
    ensures |Pairs(serverUsers)| >= |Online(userServers)|
    ensures |Pairs(serverUsers)| == |Online(userServers)| <==> OnOneServerEach(userServers)
  {
    InverseSizes(userServers, serverUsers);
    PairsAndUsers(userServers);
  }

  // ---- Runs of registrations by every server of the cluster.

  datatype Sets = Sets(userServers: Relation, serverUsers: Relation)

  const INITIAL := Sets(map[], map[])

  datatype Step = Join(server: Uuid, user: Uuid) | Leave(server: Uuid, user: Uuid)

  /** Each is one atomic pipe over both sets. */
  function Apply(sets: Sets, step: Step): Sets {
    match step
    case Join(server, user) =>
      Sets(sets.userServers[user := Members(sets.userServers, user) + {server}],
           sets.serverUsers[server := Members(sets.serverUsers, server) + {user}])
    case Leave(server, user) =>
      Sets(sets.userServers[user := Members(sets.userServers, user) - {server}],
           sets.serverUsers[server := Members(sets.serverUsers, server) - {user}])
  }

  function Run(steps: seq<Step>): Sets {
    if steps == [] then INITIAL else Apply(Run(steps[..|steps| - 1]), steps[|steps| - 1])
  }

  lemma ApplyKeepsInverse(sets: Sets, step: Step)
    requires Inverse(sets.userServers, sets.serverUsers)
    ensures Inverse(Apply(sets, step).userServers, Apply(sets, step).serverUsers)
  {
    var sets' := Apply(sets, step);
    forall u: Uuid, s: Uuid ensures s in Members(sets'.userServers, u) <==> u in Members(sets'.serverUsers, s) {
      assert s in Members(sets.userServers, u) <==> u in Members(sets.serverUsers, s);
    }
  }

  /** A registration adds one server to one user's set; an unregistration takes it out. */
  lemma StepMeans(sets: Sets, step: Step, user: Uuid, server: Uuid)
    ensures server in Members(Apply(sets, step).userServers, user) <==>
      if user == step.user && server == step.server then step.Join?
      else server in Members(sets.userServers, user)
  {
  }

  lemma {:induction false} RunIsInverse(steps: seq<Step>)
    ensures Inverse(Run(steps).userServers, Run(steps).serverUsers)
  {
    if steps == [] {
    } else {
      RunIsInverse(steps[..|steps| - 1]);
      ApplyKeepsInverse(Run(steps[..|steps| - 1]), steps[|steps| - 1]);
    }
  }

  /** A user with sessions on servers 1 and 2 is counted twice. */
  lemma TwoServersCountTwice()
    ensures
      var sets := Run([Join(1, 7)] + [Join(2, 7)]);
      |Pairs(sets.serverUsers)| == 2 && |Online(sets.userServers)| == 1
  {
    OneMore([], Join(1, 7));
    OneMore([Join(1, 7)], Join(2, 7));
    assert [] + [Join(1, 7)] == [Join(1, 7)];
    var sets := Run([Join(1, 7)] + [Join(2, 7)]);
    assert sets.userServers == map[7 := {} + {1} + {2}];
    assert sets.serverUsers == map[1 := {} + {7}, 2 := {} + {7}];
    assert Pairs(sets.serverUsers) == {(1, 7), (2, 7)};
    assert Online(sets.userServers) == {7};
  }

  lemma OneMore(trace: seq<Step>, step: Step)
    ensures Run(trace + [step]) == Apply(Run(trace), step)
  {
    assert (trace + [step])[..|trace|] == trace;
  }

  // ---- Sizes read one after the other.

  function Only(m: Relation, keys: set<Uuid>): Relation {
    map k | k in m && k in keys :: m[k]
  }

  /** The i-th set was read after `moments[i]` steps, later than the one before. */
  ghost predicate ReadInTurn(from: nat, trace: seq<Step>, keys: seq<Uuid>, moments: seq<nat>) {
    && |keys| == |moments| && (forall i :: 0 <= i < |moments| ==> from <= moments[i] <= |trace|)
    && forall i, j :: 0 <= i < j < |moments| ==> moments[i] <= moments[j]
  }

  /** The sizes of the listed servers' sets, each at its own moment, added up. */
  ghost function SumOfReads(trace: seq<Step>, keys: seq<Uuid>, moments: seq<nat>): nat
    requires |keys| == |moments| && forall i :: 0 <= i < |moments| ==> moments[i] <= |trace|
  {
    if keys == [] then 0
    else
      var n := |keys| - 1;
      SumOfReads(trace, keys[..n], moments[..n]) + |Members(Run(trace[..moments[n]]).serverUsers, keys[n])|
  }

  lemma {:induction false} StillRead(from: nat, before: seq<Step>, trace: seq<Step>, keys: seq<Uuid>, moments: seq<nat>)
    requires before <= trace && ReadInTurn(from, before, keys, moments)
    ensures ReadInTurn(from, trace, keys, moments)
    ensures SumOfReads(trace, keys, moments) == SumOfReads(before, keys, moments)
  {
    if keys != [] {
      var n := |keys| - 1;
      StillRead(from, before, trace, keys[..n], moments[..n]);
      assert trace[..moments[n]] == before[..moments[n]];
    }
  }

  lemma ReadOneMore(from: nat, trace: seq<Step>, keys: seq<Uuid>, moments: seq<nat>, key: Uuid)
    requires from <= |trace| && ReadInTurn(from, trace, keys, moments)
    ensures ReadInTurn(from, trace, keys + [key], moments + [|trace|])
    ensures
      SumOfReads(trace, keys + [key], moments + [|trace|])
      == SumOfReads(trace, keys, moments) + |Members(Run(trace).serverUsers, key)|
  {
    assert (keys + [key])[..|keys|] == keys && (moments + [|trace|])[..|moments|] == moments;
    assert trace[..|trace|] == trace;
  }

  /** `keys` have been read and `left` have not. */
  ghost predicate Splits(all: Relation, left: set<Uuid>, keys: seq<Uuid>) {
    NoDuplicates(keys) && Elems(keys) + left == all.Keys && Elems(keys) !! left
  }

  lemma KeysOneMore(all: Relation, left: set<Uuid>, keys: seq<Uuid>, key: Uuid)
    requires Splits(all, left, keys) && key in left
    ensures Splits(all, left - {key}, keys + [key])
  {
    ElemsAppend(keys, key);
    assert key !in Elems(keys);
  }

  lemma OneFewer(m: Relation, left: set<Uuid>, key: Uuid)
    requires key in left && left <= m.Keys
    ensures |Pairs(Only(m, left))| == |m[key]| + |Pairs(Only(m, left - {key}))|
  {
    PairsWithout(Only(m, left), key);
    assert Only(m, left) - {key} == Only(m, left - {key});
  }

  /** Where a count that began after `start`, with the servers of `all`, is. */
  ghost predicate Counting(trace: seq<Step>, start: seq<Step>, all: Relation, left: set<Uuid>,
                           keys: seq<Uuid>, moments: seq<nat>, total: nat)
  {
    && start <= trace && Splits(all, left, keys)
    && ReadInTurn(|start|, trace, keys, moments) && total == SumOfReads(trace, keys, moments)
    && (trace == start ==> Run(trace).serverUsers == all && total + |Pairs(Only(all, left))| == |Pairs(all)|)
  }

  lemma CountedOneMore(before: seq<Step>, trace: seq<Step>, start: seq<Step>, all: Relation, left: set<Uuid>,
                       keys: seq<Uuid>, moments: seq<nat>, total: nat, key: Uuid)
    requires before <= trace && key in left && Counting(before, start, all, left, keys, moments, total)
    ensures Counting(trace, start, all, left - {key}, keys + [key], moments + [|trace|],
                     total + |Members(Run(trace).serverUsers, key)|)
  {
    StillRead(|start|, before, trace, keys, moments);
    OneFewer(all, left, key);
    KeysOneMore(all, left, keys, key);
    ReadOneMore(|start|, trace, keys, moments, key);
    if trace == start {
      assert before == trace;
    }
  }

  /** One server's handle on the sets all servers share. */
  class RedisSessionStore {
    const server: Uuid
    var sets: Sets
    ghost var trace: seq<Step>

    ghost predicate Traced()
      reads this
    {
      sets == Run(trace)
    }

    constructor (server: Uuid)
      ensures Traced() && this.server == server && trace == []
    {
      this.server := server;
      sets, trace := INITIAL, [];
    }

    /** Any number of registrations of the other servers. */
    method Interfere()
      requires Traced()
      modifies this
      ensures Traced() && old(trace) <= trace
      ensures forall u :: server in Members(sets.userServers, u) <==> server in Members(old(sets).userServers, u)
    {
      var n: nat := *;
      while n > 0
        invariant Traced() && old(trace) <= trace
        invariant forall u :: server in Members(sets.userServers, u) <==> server in Members(old(sets).userServers, u)
      {
        var step: Step := *;
        if step.server != server {
          OneMore(trace, step);
          sets := Apply(sets, step);
          trace := trace + [step];
        }
        n := n - 1;
      }
    }

    method RegisterSession(user: Uuid)
      requires Traced()
      modifies this
      ensures Traced() && trace == old(trace) + [Join(server, user)]
      ensures forall u, s :: s in Members(sets.userServers, u) <==>
                s in Members(old(sets).userServers, u) || (u == user && s == server)
      ensures Inverse(sets.userServers, sets.serverUsers)
    {
      ghost var before := sets;
      OneMore(trace, Join(server, user));
      sets := Sets(sets.userServers[user := Members(sets.userServers, user) + {server}],
                   sets.serverUsers[server := Members(sets.serverUsers, server) + {user}]);
      trace := trace + [Join(server, user)];
      RunIsInverse(trace);
      forall u, s
        ensures s in Members(sets.userServers, u) <==>
          s in Members(before.userServers, u) || (u == user && s == server)
      {
        StepMeans(before, Join(server, user), u, s);
      }
    }

    /** The user is gone from this server, however many of its connections registered the session. */
    method UnregisterSession(user: Uuid)
      requires Traced()
      modifies this
      ensures Traced() && trace == old(trace) + [Leave(server, user)]
      ensures forall u, s :: s in Members(sets.userServers, u) <==>
                s in Members(old(sets).userServers, u) && !(u == user && s == server)
      ensures Inverse(sets.userServers, sets.serverUsers)
    {
      ghost var before := sets;
      OneMore(trace, Leave(server, user));
      sets := Sets(sets.userServers[user := Members(sets.userServers, user) - {server}],
                   sets.serverUsers[server := Members(sets.serverUsers, server) - {user}]);
      trace := trace + [Leave(server, user)];
      RunIsInverse(trace);
      forall u, s
        ensures s in Members(sets.userServers, u) <==>
          s in Members(before.userServers, u) && !(u == user && s == server)
      {
        StepMeans(before, Leave(server, user), u, s);
      }
    }

    method FindUserServers(user: Uuid) returns (servers: seq<Uuid>)
      requires Traced()
      ensures NoDuplicates(servers)
      ensures forall s :: s in servers <==> user in Members(sets.serverUsers, s)
    {
      RunIsInverse(trace);
      var left := Members(sets.userServers, user);
      servers := [];
      while left != {}
        invariant NoDuplicates(servers) && left <= Members(sets.userServers, user)
        invariant forall s :: s in servers <==> s in Members(sets.userServers, user) && s !in left
      {
        var next :| next in left;
        servers, left := servers + [next], left - {next};
      }
    }

    /** Any number of registrations of any server, this one's other calls included. */
    method Elapse()
      requires Traced()
      modifies this
      ensures Traced() && old(trace) <= trace
    {
      var n: nat := *;
      while n > 0
        invariant Traced() && old(trace) <= trace
      {
        var step: Step := *;
        OneMore(trace, step);
        sets := Apply(sets, step);
        trace := trace + [step];
        n := n - 1;
      }
    }

    /**
     KEYS, then one SCARD after the other: `keys` are the servers found, and the size of `keys[i]`'s set
     is read after `moments[i]` steps. When nothing runs in between, the total is the number of sessions.
     */
    method ClusterUserCount() returns (total: nat, ghost keys: seq<Uuid>, ghost moments: seq<nat>)
      requires Traced()
      modifies this
      ensures Traced() && old(trace) <= trace
      ensures NoDuplicates(keys) && Elems(keys) == old(sets).serverUsers.Keys
      ensures ReadInTurn(|old(trace)|, trace, keys, moments) && total == SumOfReads(trace, keys, moments)
      ensures trace == old(trace) ==> total == |Pairs(sets.serverUsers)| >= |Online(sets.userServers)|
      ensures trace == old(trace) ==> (total == |Online(sets.userServers)| <==> OnOneServerEach(sets.userServers))
    {
      total, keys, moments := 0, [], [];
      var left := sets.serverUsers.Keys;
      assert Only(sets.serverUsers, left) == sets.serverUsers;
      while left != {}
        invariant Traced() && Counting(trace, old(trace), old(sets).serverUsers, left, keys, moments, total)
        decreases left
      {
        var key :| key in left;
        var size := CountNext(key, old(trace), old(sets).serverUsers, left, keys, moments, total);
        total, left := total + size, left - {key};
        keys, moments := keys + [key], moments + [|trace|];
      }
      assert Pairs(Only(sets.serverUsers, {})) == {};
      RunIsInverse(trace);
      CountIsUsersExactlyWhen(sets.userServers, sets.serverUsers);
    }

    /** SCARD of the next server's set. */
    method CountNext(key: Uuid, ghost start: seq<Step>, ghost all: Relation, ghost left: set<Uuid>,
                     ghost keys: seq<Uuid>, ghost moments: seq<nat>, ghost total: nat) returns (size: nat)
      requires Traced() && key in left && Counting(trace, start, all, left, keys, moments, total)
      modifies this
      ensures Traced() && Counting(trace, start, all, left - {key}, keys + [key], moments + [|trace|], total + size)
    {
      ghost var before := trace;
      Elapse();
      CountedOneMore(before, trace, start, all, left, keys, moments, total, key);
      size := |Members(sets.serverUsers, key)|;
    }
  }
}

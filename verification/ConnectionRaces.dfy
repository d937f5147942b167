/**
 `register` and `unregister` running at the same time. Each call is split at its atomic
 operations: the load of the counter, the table insert or removal, the counter update.
 The per-user index is not part of this model; its limit check appears as a free choice.
 A step that is not enabled leaves the state alone, so every sequence of steps is a run.
 */
module ConnectionRaces {
  import opened Types

  /** At most `registers` calls of register and `unregisters` of unregister are ever in flight at once. */
  datatype Config = Config(maxConnections: nat, registers: nat, unregisters: nat) {
    ghost predicate Realistic() {
      registers >= 1 && maxConnections + registers + unregisters < TWO_TO_64
    }
  }

  datatype State = State(
    table: set<Uuid>,     // connections in the table
    counter: int,         // total_connections, an AtomicUsize
    arriving: set<Uuid>,  // register called, counter not read yet
    passed: set<Uuid>,    // total limit checked, not inserted yet
    inserted: set<Uuid>,  // inserted, not counted yet
    removed: set<Uuid>,   // removed, not discounted yet
    used: set<Uuid>       // every id ever registered: ids are fresh
  )

  const INITIAL := State({}, 0, {}, {}, {}, {}, {})

  datatype Step =
    | Arrive(id: Uuid)
    | CheckTotal(id: Uuid)
    | RejectForUser(id: Uuid)
    | Insert(id: Uuid)
    | Count(id: Uuid)
    | Remove(id: Uuid)
    | Discount(id: Uuid)

  function Wrap(n: int): int {
    n % TWO_TO_64
  }

  function InFlight(s: State): int {
    |s.arriving| + |s.passed| + |s.inserted|
  }

  function Apply(cfg: Config, s: State, step: Step): State {
    match step
    case Arrive(id) =>
      if id !in s.used && InFlight(s) < cfg.registers
      then s.(arriving := s.arriving + {id}, used := s.used + {id})
      else s
    case CheckTotal(id) =>
      if id !in s.arriving then s
      else if s.counter >= cfg.maxConnections then s.(arriving := s.arriving - {id})
      else s.(arriving := s.arriving - {id}, passed := s.passed + {id})
    case RejectForUser(id) => s.(passed := s.passed - {id})
    case Insert(id) =>
      if id !in s.passed then s
      else s.(passed := s.passed - {id}, table := s.table + {id}, inserted := s.inserted + {id})
    case Count(id) =>
      if id !in s.inserted then s
      else s.(inserted := s.inserted - {id}, counter := Wrap(s.counter + 1))
    case Remove(id) =>
      if id !in s.table || |s.removed| >= cfg.unregisters then s
      else s.(table := s.table - {id}, removed := s.removed + {id})
    case Discount(id) =>
      if id !in s.removed then s
      else s.(removed := s.removed - {id}, counter := Wrap(s.counter - 1))
  }

  function Run(cfg: Config, steps: seq<Step>): State {
    if steps == [] then INITIAL else Apply(cfg, Run(cfg, steps[..|steps| - 1]), steps[|steps| - 1])
  }

  /** Each id is in one stage of its life at a time; counting and discounting may be outstanding together. */
  ghost predicate Staged(s: State) {
    && s.arriving !! s.passed !! s.table !! s.removed
    && s.inserted !! s.arriving && s.inserted !! s.passed
    && s.arriving + s.passed + s.table + s.removed + s.inserted <= s.used
  }

  /** What the counter would be if it had no width. */
  function Balance(s: State): int {
    |s.table| - |s.inserted| + |s.removed|
  }

  ghost predicate Numbers(cfg: Config, s: State) {
    s.counter == Wrap(Balance(s)) && WithinBounds(cfg, s)
  }

  ghost predicate Invariant(cfg: Config, s: State) {
    Staged(s) && Numbers(cfg, s)
  }

  /** A reader sees the balance itself unless it is negative. */
  lemma CounterReading(cfg: Config, s: State)
    requires cfg.Realistic() && Numbers(cfg, s)
    ensures Balance(s) >= 0 ==> s.counter == Balance(s)
    ensures Balance(s) < 0 ==> s.counter == Balance(s) + TWO_TO_64 > cfg.maxConnections
  {
  }

  lemma WrapAdds(n: int, d: int)
    ensures Wrap(Wrap(n) + d) == Wrap(n + d)
  {
  }

  lemma Resized(a: set<Uuid>, id: Uuid)
    ensures |a - {id}| == |a| - if id in a then 1 else 0
    ensures |a + {id}| == |a| + if id in a then 0 else 1
  {
    if id in a {
      assert a + {id} == a;
    } else {
      assert a - {id} == a;
    }
  }

  lemma ArrivalKeepsStages(cfg: Config, s: State, step: Step)
    requires Staged(s) && (step.Arrive? || step.CheckTotal? || step.RejectForUser?)
    ensures Staged(Apply(cfg, s, step))
  {
  }

  lemma TableKeepsStages(cfg: Config, s: State, step: Step)
    requires Staged(s) && (step.Insert? || step.Count?)
    ensures Staged(Apply(cfg, s, step))
  {
  }

  lemma RemovalKeepsStages(cfg: Config, s: State, step: Step)
    requires Staged(s) && (step.Remove? || step.Discount?)
    ensures Staged(Apply(cfg, s, step))
  {
  }

  lemma ApplyKeepsStages(cfg: Config, s: State, step: Step)
    requires Staged(s)
    ensures Staged(Apply(cfg, s, step))
  {
    match step {
      case Insert(_) => TableKeepsStages(cfg, s, step);
      case Count(_) => TableKeepsStages(cfg, s, step);
      case Remove(_) => RemovalKeepsStages(cfg, s, step);
      case Discount(_) => RemovalKeepsStages(cfg, s, step);
      case _ => ArrivalKeepsStages(cfg, s, step);
    }
  }

  /** How the numbers may change in one step. */
  ghost predicate CountsMove(cfg: Config, s: State, s': State) {
    CounterFollows(s, s') && WithinBounds(cfg, s')
  }

  ghost predicate CounterFollows(s: State, s': State) {
    || (Balance(s') == Balance(s) && s'.counter == s.counter)
    || (Balance(s') == Balance(s) + 1 && s'.counter == Wrap(s.counter + 1))
    || (Balance(s') == Balance(s) - 1 && s'.counter == Wrap(s.counter - 1))
  }

  ghost predicate WithinBounds(cfg: Config, s: State) {
    && InFlight(s) <= cfg.registers && |s.removed| <= cfg.unregisters
    && |s.table| + |s.passed| <= cfg.maxConnections + cfg.registers - 1
  }

  /** Where the id of a step may and may not be. */
  ghost predicate IdStaged(s: State, id: Uuid) {
    && (id in s.arriving ==> id !in s.passed)
    && (id in s.passed ==> id !in s.table && id !in s.inserted)
    && (id in s.table ==> id !in s.removed)
    && (id !in s.used ==> id !in s.arriving)
  }

  lemma ApplyMovesCounter(cfg: Config, s: State, step: Step)
    requires IdStaged(s, step.id)
    ensures CounterFollows(s, Apply(cfg, s, step))
  {
    ResizeAll(s, step.id);
  }

  lemma ApplyKeepsBounds(cfg: Config, s: State, step: Step)
    requires cfg.Realistic() && Numbers(cfg, s) && IdStaged(s, step.id)
    ensures WithinBounds(cfg, Apply(cfg, s, step))
  {
    ResizeAll(s, step.id);
    if step.CheckTotal? && step.id in s.arriving && s.counter < cfg.maxConnections {
      PassingBoundsTable(cfg, s, step.id);
    }
  }

  lemma ResizeAll(s: State, id: Uuid)
    ensures |s.table - {id}| == |s.table| - if id in s.table then 1 else 0
    ensures |s.table + {id}| == |s.table| + if id in s.table then 0 else 1
    ensures |s.arriving - {id}| == |s.arriving| - if id in s.arriving then 1 else 0
    ensures |s.arriving + {id}| == |s.arriving| + if id in s.arriving then 0 else 1
    ensures |s.passed - {id}| == |s.passed| - if id in s.passed then 1 else 0
    ensures |s.passed + {id}| == |s.passed| + if id in s.passed then 0 else 1
    ensures |s.inserted - {id}| == |s.inserted| - if id in s.inserted then 1 else 0
    ensures |s.inserted + {id}| == |s.inserted| + if id in s.inserted then 0 else 1
    ensures |s.removed - {id}| == |s.removed| - if id in s.removed then 1 else 0
    ensures |s.removed + {id}| == |s.removed| + if id in s.removed then 0 else 1
  {
    Resized(s.table, id);
    Resized(s.arriving, id);
    Resized(s.passed, id);
    Resized(s.inserted, id);
    Resized(s.removed, id);
  }

  /** A caller that passes the total check found room, give or take the calls still in flight. */
  lemma PassingBoundsTable(cfg: Config, s: State, id: Uuid)
    requires cfg.Realistic() && Numbers(cfg, s) && id in s.arriving && s.counter < cfg.maxConnections
    ensures |s.table| + |s.passed| + 1 <= cfg.maxConnections + cfg.registers - 1
  {
    CounterReading(cfg, s);
    assert Balance(s) < cfg.maxConnections;
    Resized(s.arriving, id);
  }

  lemma MoveKeepsInvariant(cfg: Config, s: State, s': State)
    requires s.counter == Wrap(Balance(s)) && Staged(s') && CountsMove(cfg, s, s')
    ensures Invariant(cfg, s')
  {
    WrapAdds(Balance(s), 1);
    WrapAdds(Balance(s), -1);
  }

  lemma ApplyKeepsInvariant(cfg: Config, s: State, step: Step)
    requires cfg.Realistic() && Invariant(cfg, s)
    ensures Invariant(cfg, Apply(cfg, s, step))
  {
    ApplyKeepsStages(cfg, s, step);
    ApplyMovesCounter(cfg, s, step);
    ApplyKeepsBounds(cfg, s, step);
    MoveKeepsInvariant(cfg, s, Apply(cfg, s, step));
  }

  lemma {:induction false} RunKeepsInvariant(cfg: Config, steps: seq<Step>)
    requires cfg.Realistic()
    ensures Invariant(cfg, Run(cfg, steps))
  {
    if steps != [] {
      RunKeepsInvariant(cfg, steps[..|steps| - 1]);
      ApplyKeepsInvariant(cfg, Run(cfg, steps[..|steps| - 1]), steps[|steps| - 1]);
    } else {
      assert INITIAL.counter == Wrap(0);
    }
  }

  /** In every interleaving the table overshoots its limit by less than the number of calls in flight. */
  lemma BoundedOvershoot(cfg: Config, steps: seq<Step>)
    requires cfg.Realistic()
    ensures |Run(cfg, steps).table| <= cfg.maxConnections + cfg.registers - 1
  {
    RunKeepsInvariant(cfg, steps);
  }

  /** What the counter says: in 64 bits, the table size, less the uncounted inserts, plus the undiscounted removals. */
  ghost predicate CounterTells(s: State) {
    && s.counter == Wrap(|s.table| - |s.inserted| + |s.removed|)
    && (s.inserted == {} && s.removed == {} ==> s.counter == |s.table|)
  }

  /** In every reachable state the counter accounts for the table; at rest it is the table's size. */
  lemma CounterAccounts(cfg: Config, steps: seq<Step>)
    requires cfg.Realistic()
    ensures CounterTells(Run(cfg, steps))
  {
    RunKeepsInvariant(cfg, steps);
    NumbersTell(cfg, Run(cfg, steps));
  }

  lemma NumbersTell(cfg: Config, s: State)
    requires cfg.Realistic() && Numbers(cfg, s)
    ensures CounterTells(s)
  {
    CounterReading(cfg, s);
    if s.inserted == {} && s.removed == {} {
      assert Balance(s) == |s.table|;
    }
  }

  /**
   When the total check turns a caller away: at the limit, and also whenever removals have been
   discounted before their inserts were counted, for the counter has then wrapped below zero.
   */
  lemma TurnedAwayExactlyWhen(cfg: Config, steps: seq<Step>, id: Uuid)
    requires cfg.Realistic()
    ensures
      var s := Run(cfg, steps);
      id in s.arriving ==>
        (id !in Apply(cfg, s, CheckTotal(id)).passed <==> Balance(s) >= cfg.maxConnections || Balance(s) < 0)
  {
    RunKeepsInvariant(cfg, steps);
    CounterReading(cfg, Run(cfg, steps));
  }

  // ---- The bound is attained.

  ghost predicate Reachable(cfg: Config, s: State) {
    exists steps :: Run(cfg, steps) == s
  }

  lemma ReachStep(cfg: Config, s: State, step: Step)
    requires Reachable(cfg, s)
    ensures Reachable(cfg, Apply(cfg, s, step))
  {
    var steps :| Run(cfg, steps) == s;
    assert (steps + [step])[..|steps|] == steps;
    assert Run(cfg, steps + [step]) == Apply(cfg, s, step);
  }

  function Ids(lo: nat, hi: nat): set<Uuid> {
    if hi <= lo then {} else Ids(lo, hi - 1) + {hi - 1}
  }

  lemma {:induction false} IdsMembers(lo: nat, hi: nat)
    requires lo <= hi
    ensures forall x: Uuid :: x in Ids(lo, hi) <==> lo <= x < hi
    ensures |Ids(lo, hi)| == hi - lo
  {
    if lo < hi {
      IdsMembers(lo, hi - 1);
    }
  }

  /** A caller arrives and passes the total check. */
  lemma ArriveAndPass(cfg: Config, s: State, id: Uuid)
    requires Reachable(cfg, s) && s.arriving == {} && id !in s.used
    requires InFlight(s) < cfg.registers && s.counter < cfg.maxConnections
    ensures Reachable(cfg, s.(passed := s.passed + {id}, used := s.used + {id}))
  {
    var s' := Apply(cfg, s, Arrive(id));
    ReachStep(cfg, s, Arrive(id));
    ReachStep(cfg, s', CheckTotal(id));
    assert {} + {id} - {id} == {};
    assert Apply(cfg, s', CheckTotal(id)) == s.(passed := s.passed + {id}, used := s.used + {id});
  }

  /** `k` connections, all counted, nobody in flight. */
  ghost function Settled(k: nat): State {
    State(Ids(0, k), k, {}, {}, {}, {}, Ids(0, k))
  }

  lemma AddThenRemove(a: set<Uuid>, id: Uuid)
    requires id !in a
    ensures a + {id} - {id} == a
  {
  }

  /** A caller is inserted and counted. */
  lemma InsertAndCount(cfg: Config, s: State, id: Uuid)
    requires Reachable(cfg, s) && id in s.passed && s.inserted == {} && 0 <= s.counter < TWO_TO_64 - 1
    ensures Reachable(cfg, s.(passed := s.passed - {id}, table := s.table + {id}, counter := s.counter + 1))
  {
    ReachStep(cfg, s, Insert(id));
    var s' := Apply(cfg, s, Insert(id));
    AddThenRemove({}, id);
    ReachStep(cfg, s', Count(id));
    assert s'.inserted - {id} == {};
  }

  lemma {:induction false} SettledIsReachable(cfg: Config, k: nat)
    requires cfg.Realistic() && k <= cfg.maxConnections
    ensures Reachable(cfg, Settled(k))
  {
    if k == 0 {
      assert Run(cfg, []) == INITIAL;
    } else {
      SettledIsReachable(cfg, k - 1);
      IdsMembers(0, k - 1);
      var s, id := Settled(k - 1), k - 1;
      ArriveAndPass(cfg, s, id);
      AddThenRemove({}, id);
      InsertAndCount(cfg, s.(passed := {} + {id}, used := s.used + {id}), id);
    }
  }

  /** `j` callers have all seen the counter one below the limit. */
  ghost function Crowded(cfg: Config, j: nat): State
    requires cfg.maxConnections >= 1
  {
    var m := cfg.maxConnections - 1;
    State(Ids(0, m), m, {}, Ids(m, m + j), {}, {}, Ids(0, m + j))
  }

  lemma CrowdedNext(cfg: Config, j: nat)
    requires cfg.maxConnections >= 1 && j > 0
    ensures
      var s, id := Crowded(cfg, j - 1), cfg.maxConnections - 1 + j - 1;
      && id !in s.used && |s.passed| == j - 1
      && s.(passed := s.passed + {id}, used := s.used + {id}) == Crowded(cfg, j)
  {
    var m := cfg.maxConnections - 1;
    IdsMembers(m, m + j - 1);
    IdsMembers(0, m + j - 1);
  }

  lemma {:induction false} CrowdedIsReachable(cfg: Config, j: nat)
    requires cfg.Realistic() && cfg.maxConnections >= 1 && j <= cfg.registers
    ensures Reachable(cfg, Crowded(cfg, j))
  {
    var m := cfg.maxConnections - 1;
    if j == 0 {
      SettledIsReachable(cfg, m);
    } else {
      CrowdedIsReachable(cfg, j - 1);
      CrowdedNext(cfg, j);
      ArriveAndPass(cfg, Crowded(cfg, j - 1), m + j - 1);
    }
  }

  /** The last `j` of the ids `m .. m + n`, added to `base` from the top. */
  function AddLast(base: set<Uuid>, m: nat, n: nat, j: nat): set<Uuid>
    requires j <= n
  {
    if j == 0 then base else AddLast(base, m, n, j - 1) + {m + n - j}
  }

  lemma {:induction false} AddLastCount(base: set<Uuid>, m: nat, n: nat, j: nat)
    requires j <= n && forall x :: x in base ==> x < m
    ensures forall x :: x in AddLast(base, m, n, j) ==> x < m || x >= m + n - j
    ensures |AddLast(base, m, n, j)| == |base| + j
  {
    if j > 0 {
      AddLastCount(base, m, n, j - 1);
    }
  }

  /** `j` of them have inserted, the last arrivals first. */
  ghost function Rushed(cfg: Config, j: nat): State
    requires cfg.maxConnections >= 1 && j <= cfg.registers
  {
    var m, n := cfg.maxConnections - 1, cfg.registers;
    State(AddLast(Ids(0, m), m, n, j), m, {}, Ids(m, m + n - j), AddLast({}, m, n, j), {}, Ids(0, m + n))
  }

  lemma RushedNext(cfg: Config, j: nat)
    requires cfg.maxConnections >= 1 && 0 < j <= cfg.registers
    ensures Apply(cfg, Rushed(cfg, j - 1), Insert(cfg.maxConnections - 1 + cfg.registers - j)) == Rushed(cfg, j)
  {
    var m := cfg.maxConnections - 1;
    var id := m + cfg.registers - j;
    IdsMembers(m, id);
    AddThenRemove(Ids(m, id), id);
  }

  lemma RushOneMore(cfg: Config, j: nat)
    requires cfg.maxConnections >= 1 && 0 < j <= cfg.registers && Reachable(cfg, Rushed(cfg, j - 1))
    ensures Reachable(cfg, Rushed(cfg, j))
  {
    RushedNext(cfg, j);
    ReachStep(cfg, Rushed(cfg, j - 1), Insert(cfg.maxConnections - 1 + cfg.registers - j));
  }

  lemma {:induction false} RushedIsReachable(cfg: Config, j: nat)
    requires cfg.Realistic() && cfg.maxConnections >= 1 && j <= cfg.registers
    ensures Reachable(cfg, Rushed(cfg, j))
  {
    if j == 0 {
      CrowdedIsReachable(cfg, cfg.registers);
    } else {
      RushedIsReachable(cfg, j - 1);
      RushOneMore(cfg, j);
    }
  }

  /** Some interleaving fills the table to exactly `max_connections + N - 1`. */
  lemma OvershootIsAttained(cfg: Config)
    requires cfg.Realistic() && cfg.maxConnections >= 1
    ensures exists steps :: |Run(cfg, steps).table| == cfg.maxConnections + cfg.registers - 1
  {
    var m, n := cfg.maxConnections - 1, cfg.registers;
    RushedIsReachable(cfg, n);
    var steps :| Run(cfg, steps) == Rushed(cfg, n);
    IdsMembers(0, m);
    AddLastCount(Ids(0, m), m, n, n);
    assert |Run(cfg, steps).table| == m + n;
  }

  /** A wrapped counter turns a caller away although the table is empty. */
  lemma EmptyTableTurnsAway(cfg: Config)
    requires cfg.Realistic() && cfg.maxConnections >= 1 && cfg.registers >= 2 && cfg.unregisters >= 1
    ensures exists steps ::
      var s := Run(cfg, steps);
      s.table == {} && 2 in s.arriving && 2 !in Apply(cfg, s, CheckTotal(2)).passed
  {
    SettledIsReachable(cfg, 0);
    var s0 := Settled(0);
    var s1 := Apply(cfg, s0, Arrive(1));
    ReachStep(cfg, s0, Arrive(1));
    var s2 := Apply(cfg, s1, CheckTotal(1));
    ReachStep(cfg, s1, CheckTotal(1));
    var s3 := Apply(cfg, s2, Insert(1));
    ReachStep(cfg, s2, Insert(1));
    var s4 := Apply(cfg, s3, Remove(1));
    ReachStep(cfg, s3, Remove(1));
    var s5 := Apply(cfg, s4, Discount(1));
    ReachStep(cfg, s4, Discount(1));
    ReachStep(cfg, s5, Arrive(2));
    var steps :| Run(cfg, steps) == Apply(cfg, s5, Arrive(2));
    assert s0 == INITIAL && s5.counter == TWO_TO_64 - 1 && s5.table == {};
  }
}

/**
 The email queue and its processor, statement by statement: one processor works through the
 emails it fetched while enqueues, cancellations, requeues, cleanups and the clock run on.
 A step that is not enabled leaves the state alone, so every sequence of steps is a run.
 */
module EmailProtocol {
  import opened Types

  datatype Status = Pending | Processing | Sent | Failed | Cancelled

  /** `priority` is 0 for high, 1 for normal, 2 for low; `sendAfter` is a time in seconds. */
  datatype Row = Row(user: Uuid, status: Status, retryCount: nat, priority: nat, sendAfter: int)

  datatype Email = Email(id: Uuid, user: Uuid)

  datatype Bucket = Bucket(user: Uuid, hour: nat)

  /** What the processor does next with the email at the head of its batch. */
  datatype Phase = Marking | Checking | Sending | MarkingSent | Counting | MarkingFailed

  datatype State = State(
    rows: map<Uuid, Row>,
    used: set<Uuid>,            // ids ever inserted
    batch: seq<Email>,          // fetched and not finished
    phase: Phase,
    hour: nat,
    checked: nat,               // the hour of the last limit check
    counted: seq<Bucket>,       // history: every increment of a rate-limit bucket
    attempted: seq<Uuid>,       // history: every mark_processing of the processor
    sent: seq<Email>            // history: every successful send
  )

  const INITIAL := State(map[], {}, [], Marking, 0, 0, [], [], [])

  /** `maxPerHour` is a u32; `maxRetries` the i16 passed to every requeue. */
  datatype Limits = Limits(maxPerHour: nat, maxRetries: int)

  /** Rust's `as i16`: keeps the low 16 bits. */
  function AsI16(n: nat): int {
    var low := n % TWO_TO_16;
    if low < 0x8000 then low else low - TWO_TO_16
  }

  function Emails(counted: seq<Bucket>, user: Uuid, hour: nat): nat {
    multiset(counted)[Bucket(user, hour)]
  }

  /** `check_rate_limit`: the comparison is made in 16 bits. */
  predicate Allowed(l: Limits, st: State, user: Uuid) {
    Emails(st.counted, user, st.hour) < AsI16(l.maxPerHour)
  }

  datatype Step =
    | Enqueue(id: Uuid, user: Uuid, priority: nat, sendAfter: int)
    | Postpone(id: Uuid, sendAfter: int)   // a notification joined the email
    | Cancel(user: Uuid)
    | Requeue(sendAfter: int)
    | Cleanup(aged: set<Uuid>)           // those that are old enough
    | Tick                              // the next hour begins
    | Fetch(ids: seq<Uuid>)
    | Skip                              // mark_processing failed
    | MarkProcessing
    | CheckLimit
    | Send(ok: bool)                    // preferences, rendering and the backend
    | MarkSent
    | Count
    | MarkFailed
    | GiveUp                            // a database error, or the process dies

  function WithStatus(rows: map<Uuid, Row>, id: Uuid, status: Status): map<Uuid, Row> {
    if id in rows then rows[id := rows[id].(status := status)] else rows
  }

  function Finished(status: Status): bool {
    status == Sent || status == Cancelled || status == Failed
  }

  predicate Ready(st: State, ids: seq<Uuid>) {
    && (forall id :: id in ids ==> id in st.rows && st.rows[id].status == Pending)
    && forall i, j :: 0 <= i < j < |ids| ==> ids[i] != ids[j]
  }

  function EmailsOf(rows: map<Uuid, Row>, ids: seq<Uuid>): seq<Email>
    requires forall id :: id in ids ==> id in rows
  {
    seq(|ids|, i requires 0 <= i < |ids| => Email(ids[i], rows[ids[i]].user))
  }

  /** The processor is done with the head of its batch. */
  function Next(st: State): State
    requires st.batch != []
  {
    st.(batch := st.batch[1..], phase := Marking)
  }

  function Apply(l: Limits, st: State, step: Step): State {
    match step
    case Enqueue(id, user, priority, sendAfter) =>
      if id in st.used then st
      else st.(rows := st.rows[id := Row(user, Pending, 0, priority, sendAfter)], used := st.used + {id})
    case Postpone(id, sendAfter) =>
      if id in st.rows then st.(rows := st.rows[id := st.rows[id].(sendAfter := sendAfter)]) else st
    case Cancel(user) =>
      st.(rows := map id | id in st.rows ::
            if st.rows[id].user == user && st.rows[id].status == Pending then st.rows[id].(status := Cancelled)
            else st.rows[id])
    case Requeue(sendAfter) =>
      st.(rows := map id | id in st.rows ::
            if st.rows[id].status == Failed && st.rows[id].retryCount < l.maxRetries
            then st.rows[id].(status := Pending, sendAfter := sendAfter) else st.rows[id])
    case Cleanup(aged) =>
      st.(rows := map id | id in st.rows && !(id in aged && Finished(st.rows[id].status)) :: st.rows[id])
    case Tick => st.(hour := st.hour + 1)
    case Fetch(ids) =>
      if st.batch == [] && Ready(st, ids) then st.(batch := EmailsOf(st.rows, ids), phase := Marking) else st
    case Skip => if st.batch != [] && st.phase == Marking then Next(st) else st
    case MarkProcessing =>
      if st.batch != [] && st.phase == Marking then
        st.(rows := WithStatus(st.rows, st.batch[0].id, Processing), phase := Checking,
            attempted := st.attempted + [st.batch[0].id])
      else st
    case CheckLimit =>
      if st.batch != [] && st.phase == Checking then
        st.(phase := if Allowed(l, st, st.batch[0].user) then Sending else MarkingFailed, checked := st.hour)
      else st
    case Send(ok) =>
      if st.batch != [] && st.phase == Sending then
        if ok then st.(phase := MarkingSent, sent := st.sent + [st.batch[0]]) else st.(phase := MarkingFailed)
      else st
    case MarkSent =>
      if st.batch != [] && st.phase == MarkingSent then
        st.(rows := WithStatus(st.rows, st.batch[0].id, Sent), phase := Counting)
      else st
    case Count =>
      if st.batch != [] && st.phase == Counting then
        Next(st.(counted := st.counted + [Bucket(st.batch[0].user, st.hour)]))
      else st
    case MarkFailed =>
      if st.batch != [] && st.phase == MarkingFailed then
        var id := st.batch[0].id;
        Next(if id in st.rows
             then st.(rows := st.rows[id := st.rows[id].(status := Failed, retryCount := st.rows[id].retryCount + 1)])
             else st)
      else st
    case GiveUp => st.(batch := [], phase := Marking)
  }

  function Run(l: Limits, steps: seq<Step>): State {
    if steps == [] then INITIAL else Apply(l, Run(l, steps[..|steps| - 1]), steps[|steps| - 1])
  }
}

module EmailSafety {
  import opened Types
  import opened EmailProtocol

  function Times<T(==)>(s: seq<T>, x: T): nat {
    multiset(s)[x]
  }

  function Attempts(st: State, id: Uuid): nat {
    Times(st.attempted, id)
  }

  function SentTo(sent: seq<Email>, id: Uuid): nat {
    if sent == [] then 0
    else SentTo(sent[..|sent| - 1], id) + if sent[|sent| - 1].id == id then 1 else 0
  }

  function Sends(st: State, id: Uuid): nat {
    SentTo(st.sent, id)
  }

  function MaxAttempts(l: Limits): nat {
    Max(1, l.maxRetries)
  }

  /** In the batch, and its turn has not begun. */
  ghost predicate Waiting(st: State, id: Uuid) {
    exists i :: 0 <= i < |st.batch| && st.batch[i].id == id && (i > 0 || st.phase == Marking)
  }

  ghost predicate Busy(st: State, id: Uuid) {
    st.batch != [] && st.phase != Marking && st.batch[0].id == id
  }

  /** An email that may be attempted again has been tried as often as its retry count says. */
  ghost predicate MayTry(l: Limits, st: State, id: Uuid) {
    && Attempts(st, id) < MaxAttempts(l) && Sends(st, id) == 0
    && (id in st.rows ==> st.rows[id].retryCount == Attempts(st, id))
  }

  ghost predicate EmailSound(l: Limits, st: State, id: Uuid) {
    && Attempts(st, id) <= MaxAttempts(l) && Sends(st, id) <= 1
    && (id !in st.used ==>
        id !in st.rows && Attempts(st, id) == 0 && Sends(st, id) == 0 && !Waiting(st, id)
        && !Busy(st, id))
    && (Waiting(st, id) ==>
        MayTry(l, st, id)
        && (id in st.rows ==> st.rows[id].status == Pending || st.rows[id].status == Cancelled))
    && (Busy(st, id) ==>
          && (id in st.rows ==> st.rows[id].status == if st.phase == Counting then Sent else Processing)
          && (st.phase.Checking? || st.phase.Sending? || st.phase.MarkingFailed? ==>
                Sends(st, id) == 0 && (id in st.rows ==> st.rows[id].retryCount + 1 == Attempts(st, id))))
    && (id in st.rows && st.rows[id].status == Pending ==> MayTry(l, st, id))
    && (id in st.rows && st.rows[id].status == Failed ==>
        Sends(st, id) == 0 && st.rows[id].retryCount == Attempts(st, id))
  }

  ghost predicate DistinctBatch(st: State) {
    forall i, j :: 0 <= i < j < |st.batch| ==> st.batch[i].id != st.batch[j].id
  }

  ghost predicate Sound(l: Limits, st: State) {
    DistinctBatch(st) && forall id :: EmailSound(l, st, id)
  }

  lemma TimesAppend<T>(s: seq<T>, y: T, x: T)
    ensures Times(s + [y], x) == Times(s, x) + if x == y then 1 else 0
  {
  }

  lemma SentAppend(sent: seq<Email>, e: Email, id: Uuid)
    ensures SentTo(sent + [e], id) == SentTo(sent, id) + if e.id == id then 1 else 0
  {
    assert (sent + [e])[..|sent|] == sent;
  }

  /** Steps of others: the rows change, the processor does not. */
  lemma OthersKeepSound(l: Limits, st: State, step: Step, id: Uuid)
    requires EmailSound(l, st, id)
    requires step.Enqueue? || step.Postpone? || step.Cancel? || step.Requeue? || step.Cleanup? || step.Tick?
    ensures EmailSound(l, Apply(l, st, step), id)
  {
    var st' := Apply(l, st, step);
    assert Waiting(st', id) <==> Waiting(st, id);
  }

  lemma FetchKeepsSound(l: Limits, st: State, ids: seq<Uuid>, id: Uuid)
    requires EmailSound(l, st, id) && st.batch == [] && Ready(st, ids)
    ensures EmailSound(l, Apply(l, st, Fetch(ids)), id)
  {
    var st' := Apply(l, st, Fetch(ids));
    if Waiting(st', id) {
      var i :| 0 <= i < |st'.batch| && st'.batch[i].id == id;
      assert ids[i] == id;
    }
  }

  /** Leaving the head of the batch. */
  lemma NextWaiting(st: State, id: Uuid)
    requires st.batch != [] && DistinctBatch(st)
    ensures Waiting(Next(st), id) <==> exists i :: 0 < i < |st.batch| && st.batch[i].id == id
    ensures Waiting(Next(st), id) ==> Waiting(st, id) && id != st.batch[0].id
    ensures !Busy(Next(st), id)
    ensures Waiting(st, id) && id != st.batch[0].id ==> Waiting(Next(st), id)
  {
    var st' := Next(st);
    if Waiting(st', id) {
      var i :| 0 <= i < |st'.batch| && st'.batch[i].id == id && (i > 0 || st'.phase == Marking);
      assert st.batch[i + 1].id == id;
    }
    if exists i :: 0 < i < |st.batch| && st.batch[i].id == id {
      var i :| 0 < i < |st.batch| && st.batch[i].id == id;
      assert st'.batch[i - 1].id == id;
    }
  }

  /** Moving the head of the batch on changes who waits in the expected way only. */
  lemma SameWaiting(st: State, st': State, id: Uuid)
    requires st.batch != [] && st'.batch == st.batch && DistinctBatch(st) && st'.phase != Marking
    ensures Waiting(st', id) ==> Waiting(st, id) && id != st.batch[0].id
    ensures Busy(st', id) <==> id == st.batch[0].id
    ensures Waiting(st, id) && id != st.batch[0].id ==> Waiting(st', id)
    ensures st.phase == Marking ==> Waiting(st, st.batch[0].id)
  {
    if st.phase == Marking {
      assert st.batch[0].id == st.batch[0].id;
    }
  }

  lemma MarkProcessingKeepsSound(l: Limits, st: State, id: Uuid)
    requires DistinctBatch(st) && EmailSound(l, st, id) && st.batch != [] && st.phase == Marking
    ensures EmailSound(l, Apply(l, st, MarkProcessing), id)
  {
    SameWaiting(st, Apply(l, st, MarkProcessing), id);
    TimesAppend(st.attempted, st.batch[0].id, id);
  }

  lemma CheckKeepsSound(l: Limits, st: State, id: Uuid)
    requires DistinctBatch(st) && EmailSound(l, st, id) && st.batch != [] && st.phase == Checking
    ensures EmailSound(l, Apply(l, st, CheckLimit), id)
  {
    SameWaiting(st, Apply(l, st, CheckLimit), id);
  }

  lemma SendKeepsSound(l: Limits, st: State, ok: bool, id: Uuid)
    requires DistinctBatch(st) && EmailSound(l, st, id) && st.batch != [] && st.phase == Sending
    ensures EmailSound(l, Apply(l, st, Send(ok)), id)
  {
    SameWaiting(st, Apply(l, st, Send(ok)), id);
    SentAppend(st.sent, st.batch[0], id);
  }

  lemma MarkSentKeepsSound(l: Limits, st: State, id: Uuid)
    requires DistinctBatch(st) && EmailSound(l, st, id) && st.batch != [] && st.phase == MarkingSent
    ensures EmailSound(l, Apply(l, st, MarkSent), id)
  {
    SameWaiting(st, Apply(l, st, MarkSent), id);
  }

  lemma FinishKeepsSound(l: Limits, st: State, step: Step, id: Uuid)
    requires DistinctBatch(st) && EmailSound(l, st, id) && st.batch != []
    requires (step.Skip? && st.phase == Marking) || (step.Count? && st.phase == Counting)
      || (step.MarkFailed? && st.phase == MarkingFailed)
    ensures EmailSound(l, Apply(l, st, step), id)
  {
    var st' := Apply(l, st, step);
    NextWaiting(st, id);
    NextWaiting(st.(rows := st'.rows, counted := st'.counted), id);
    assert st' == Next(st.(rows := st'.rows, counted := st'.counted));
  }

  lemma GiveUpKeepsSound(l: Limits, st: State, id: Uuid)
    requires EmailSound(l, st, id)
    ensures EmailSound(l, Apply(l, st, GiveUp), id)
  {
  }

  lemma ApplyKeepsEmail(l: Limits, st: State, step: Step, id: Uuid)
    requires DistinctBatch(st) && EmailSound(l, st, id)
    ensures EmailSound(l, Apply(l, st, step), id)
  {
    match step {
      case Fetch(ids) => if st.batch == [] && Ready(st, ids) { FetchKeepsSound(l, st, ids, id); }
      case Skip => if st.batch != [] && st.phase == Marking { FinishKeepsSound(l, st, step, id); }
      case MarkProcessing => if st.batch != [] && st.phase == Marking { MarkProcessingKeepsSound(l, st, id); }
      case CheckLimit => if st.batch != [] && st.phase == Checking { CheckKeepsSound(l, st, id); }
      case Send(ok) => if st.batch != [] && st.phase == Sending { SendKeepsSound(l, st, ok, id); }
      case MarkSent => if st.batch != [] && st.phase == MarkingSent { MarkSentKeepsSound(l, st, id); }
      case Count => if st.batch != [] && st.phase == Counting { FinishKeepsSound(l, st, step, id); }
      case MarkFailed => if st.batch != [] && st.phase == MarkingFailed { FinishKeepsSound(l, st, step, id); }
      case GiveUp => GiveUpKeepsSound(l, st, id);
      case _ => OthersKeepSound(l, st, step, id);
    }
  }

  lemma BatchStaysDistinct(l: Limits, st: State, step: Step)
    requires DistinctBatch(st)
    ensures DistinctBatch(Apply(l, st, step))
  {
  }

  lemma {:induction false} RunIsSound(l: Limits, steps: seq<Step>)
    ensures Sound(l, Run(l, steps))
  {
    if steps == [] {
    } else {
      var init, last := steps[..|steps| - 1], steps[|steps| - 1];
      RunIsSound(l, init);
      BatchStaysDistinct(l, Run(l, init), last);
      forall id ensures EmailSound(l, Run(l, steps), id) {
        ApplyKeepsEmail(l, Run(l, init), last, id);
      }
    }
  }

  /**
   In every interleaving with one processor, each email is successfully sent at most once and
   attempted at most max(1, max_retries) times, even when the processor gives up half-way.
   */
  lemma SentAtMostOnce(l: Limits, steps: seq<Step>, id: Uuid)
    ensures Sends(Run(l, steps), id) <= 1
    ensures Attempts(Run(l, steps), id) <= Max(1, l.maxRetries)
  {
    RunIsSound(l, steps);
    assert EmailSound(l, Run(l, steps), id);
  }

  /** What the statements on other rows do to a row, on its columns. */
  lemma StatementsMean(l: Limits, st: State, user: Uuid, sendAfter: int, aged: set<Uuid>, id: Uuid)
    requires id in st.rows
    ensures
      var r, r' := st.rows[id], Apply(l, st, Cancel(user)).rows;
      id in r' && r'[id] == Row(r.user, if r.user == user && r.status == Pending then Cancelled else r.status,
                                r.retryCount, r.priority, r.sendAfter)
    ensures
      var r, r' := st.rows[id], Apply(l, st, Requeue(sendAfter)).rows;
      id in r' && r'[id] == if r.status == Failed && r.retryCount < l.maxRetries
                            then Row(r.user, Pending, r.retryCount, r.priority, sendAfter) else r
    ensures
      var r, rows := st.rows[id], Apply(l, st, Postpone(id, sendAfter)).rows;
      rows == st.rows[id := Row(r.user, r.status, r.retryCount, r.priority, sendAfter)]
    ensures
      var s, rows := st.rows[id].status, Apply(l, st, Cleanup(aged)).rows;
      && (id in rows <==> !(id in aged && (s == Sent || s == Cancelled || s == Failed)))
      && (id in rows ==> rows[id] == st.rows[id])
  {
  }

  // ---- The hourly budget.

  ghost predicate WithinBudget(l: Limits, st: State) {
    && (forall user, hour :: Emails(st.counted, user, hour) <= Max(0, AsI16(l.maxPerHour)))
    && (forall user, hour :: hour > st.hour ==> Emails(st.counted, user, hour) == 0)
    && (st.batch != [] && (st.phase.Sending? || st.phase.MarkingSent? || st.phase.Counting?) ==>
        Reserved(l, st, st.batch[0].user))
  }

  /** Nothing has been counted for the user since the check found room. */
  ghost predicate Reserved(l: Limits, st: State, user: Uuid) {
    && st.checked <= st.hour
    && Emails(st.counted, user, st.checked) < AsI16(l.maxPerHour)
    && forall hour :: hour > st.checked ==> Emails(st.counted, user, hour) == 0
  }

  lemma CountKeepsBudget(l: Limits, st: State)
    requires WithinBudget(l, st) && st.batch != [] && st.phase == Counting
    ensures WithinBudget(l, Apply(l, st, Count))
  {
    var st', here := Apply(l, st, Count), Bucket(st.batch[0].user, st.hour);
    forall user, hour
      ensures
        Emails(st'.counted, user, hour)
        == Emails(st.counted, user, hour) + if Bucket(user, hour) == here then 1 else 0
    {
      TimesAppend(st.counted, here, Bucket(user, hour));
    }
  }

  lemma ApplyKeepsBudget(l: Limits, st: State, step: Step)
    requires WithinBudget(l, st)
    ensures WithinBudget(l, Apply(l, st, step))
  {
    if step.Count? && st.batch != [] && st.phase == Counting {
      CountKeepsBudget(l, st);
    }
  }

  lemma {:induction false} RunKeepsBudget(l: Limits, steps: seq<Step>)
    ensures WithinBudget(l, Run(l, steps))
  {
    if steps == [] {
    } else {
      RunKeepsBudget(l, steps[..|steps| - 1]);
      ApplyKeepsBudget(l, Run(l, steps[..|steps| - 1]), steps[|steps| - 1]);
    }
  }

  ghost predicate NoBucketExceeds(st: State, limit: nat) {
    forall user, hour :: Emails(st.counted, user, hour) <= limit
  }

  lemma BudgetMeans(l: Limits, st: State)
    requires WithinBudget(l, st)
    ensures NoBucketExceeds(st, Max(0, AsI16(l.maxPerHour)))
    ensures 1 <= l.maxPerHour <= 0x7FFF ==> NoBucketExceeds(st, l.maxPerHour)
  {
  }

  /**
   No bucket ever counts more than the limit as the check reads it, whether or not a send
   crosses the hour. A limit between 1 and 32767 is read as it is configured.
   */
  lemma BudgetHolds(l: Limits, steps: seq<Step>)
    ensures NoBucketExceeds(Run(l, steps), Max(0, AsI16(l.maxPerHour)))
    ensures 1 <= l.maxPerHour <= 0x7FFF ==> NoBucketExceeds(Run(l, steps), l.maxPerHour)
  {
    RunKeepsBudget(l, steps);
    BudgetMeans(l, Run(l, steps));
  }

  /** The limit is enforced as configured exactly below 32768. */
  lemma LimitIsReadExactlyWhen(l: Limits)
    requires l.maxPerHour < TWO_TO_32
    ensures AsI16(l.maxPerHour) == l.maxPerHour <==> l.maxPerHour <= 0x7FFF
    ensures (forall user, st: State :: Emails(st.counted, user, st.hour) == 0 ==> Allowed(l, st, user))
            <==> 1 <= l.maxPerHour % TWO_TO_16 <= 0x7FFF
  {
    assert Emails(INITIAL.counted, 0, INITIAL.hour) == 0;
    assert Allowed(l, INITIAL, 0) <==> 0 < AsI16(l.maxPerHour);
  }

  /** Read as it is not: 32768 lets nothing through, 65537 one email an hour. */
  lemma LimitIsMisread(l: Limits, st: State, user: Uuid)
    ensures l.maxPerHour == 32768 ==> !Allowed(l, st, user)
    ensures l.maxPerHour == 65537 ==> (Allowed(l, st, user) <==> Emails(st.counted, user, st.hour) == 0)
  {
    assert AsI16(32768) == -32768 && AsI16(65537) == 1;
  }

  /** With a limit the check reads as zero or less, such as 32768, no email is ever sent. */
  lemma {:induction false} NothingIsSent(l: Limits, steps: seq<Step>)
    requires AsI16(l.maxPerHour) <= 0
    ensures Run(l, steps).sent == []
  {
    if steps != [] {
      NothingIsSent(l, steps[..|steps| - 1]);
      RunKeepsBudget(l, steps[..|steps| - 1]);
    }
  }

  // ---- Every send is counted.

  function UsersOf(sent: seq<Email>): seq<Uuid> {
    seq(|sent|, i requires 0 <= i < |sent| => sent[i].user)
  }

  function CountedUsers(counted: seq<Bucket>): seq<Uuid> {
    seq(|counted|, i requires 0 <= i < |counted| => counted[i].user)
  }

  /** The send at the head of the batch that is still to be counted. */
  function Uncounted(st: State): seq<Uuid> {
    if st.batch != [] && (st.phase.MarkingSent? || st.phase.Counting?) then [st.batch[0].user] else []
  }

  ghost predicate AllCounted(st: State) {
    UsersOf(st.sent) == CountedUsers(st.counted) + Uncounted(st)
  }

  /** As long as the processor never gives up, every send is counted once, for its user, in order. */
  lemma {:induction false} EverySendIsCounted(l: Limits, steps: seq<Step>)
    requires forall i :: 0 <= i < |steps| ==> !steps[i].GiveUp?
    ensures AllCounted(Run(l, steps))
  {
    if steps != [] {
      var init, last := steps[..|steps| - 1], steps[|steps| - 1];
      EverySendIsCounted(l, init);
      var st, st' := Run(l, init), Run(l, steps);
      assert last == steps[|steps| - 1] && !last.GiveUp?;
      CountsOneMore(l, st, last);
    }
  }

  lemma CountsOneMore(l: Limits, st: State, step: Step)
    requires AllCounted(st) && !step.GiveUp?
    ensures AllCounted(Apply(l, st, step))
  {
    var st' := Apply(l, st, step);
    if step.Send? && st.batch != [] && st.phase == Sending && step.ok {
      assert UsersOf(st'.sent) == UsersOf(st.sent) + [st.batch[0].user];
    } else if step.Count? && st.batch != [] && st.phase == Counting {
      assert CountedUsers(st'.counted) == CountedUsers(st.counted) + [st.batch[0].user];
    }
  }

  // ---- Cancelling.

  ghost predicate InBatch(st: State, id: Uuid) {
    exists i :: 0 <= i < |st.batch| && st.batch[i].id == id
  }

  /** Cancelled, and not in the processor's hands. */
  ghost predicate Dead(st: State, id: Uuid) {
    id in st.used && !InBatch(st, id) && (id in st.rows ==> st.rows[id].status == Cancelled)
  }

  lemma DeadStaysOut(l: Limits, st: State, step: Step, id: Uuid)
    requires Dead(st, id)
    ensures !InBatch(Apply(l, st, step), id)
  {
    var st' := Apply(l, st, step);
    if step.Fetch? && st.batch == [] && Ready(st, step.ids) {
      assert id !in step.ids;
      forall i | 0 <= i < |st'.batch| ensures st'.batch[i].id != id {
        assert st'.batch[i].id == step.ids[i];
      }
    } else {
      assert st'.batch == [] || st'.batch == st.batch || (st.batch != [] && st'.batch == st.batch[1..]);
    }
  }

  lemma DeadStaysDead(l: Limits, st: State, step: Step, id: Uuid)
    requires Dead(st, id)
    ensures Dead(Apply(l, st, step), id) && Sends(Apply(l, st, step), id) == Sends(st, id)
  {
    DeadStaysOut(l, st, step, id);
    if st.batch != [] {
      assert st.batch[0].id != id;
      SentAppend(st.sent, st.batch[0], id);
    }
  }

  /** A cancelled email that the processor had not fetched is never sent. */
  lemma {:induction false} CancelledIsNeverSent(l: Limits, steps: seq<Step>, more: seq<Step>, id: Uuid)
    requires Dead(Run(l, steps), id)
    ensures Dead(Run(l, steps + more), id) && Sends(Run(l, steps + more), id) == Sends(Run(l, steps), id)
  {
    if more == [] {
      assert steps + more == steps;
    } else {
      var init := more[..|more| - 1];
      assert (steps + more)[..|steps + more| - 1] == steps + init;
      CancelledIsNeverSent(l, steps, init, id);
      DeadStaysDead(l, Run(l, steps + init), more[|more| - 1], id);
    }
  }

  lemma RunReaches(l: Limits, steps: seq<Step>, step: Step, before: State, after: State)
    requires Run(l, steps) == before && Apply(l, before, step) == after
    ensures Run(l, steps + [step]) == after
  {
    OneMore(l, steps, step);
  }

  const CANCELLED_RUN := [Enqueue(1, 7, 1, 0)] + [Fetch([1])] + [Cancel(7)]
  const CANCELLED_STATE := INITIAL.(rows := map[1 := Row(7, Cancelled, 0, 1, 0)], used := {1}, batch := [Email(1, 7)])

  lemma CancelledAfterFetch(l: Limits)
    ensures Run(l, CANCELLED_RUN) == CANCELLED_STATE
  {
    var queued := INITIAL.(rows := map[1 := Row(7, Pending, 0, 1, 0)], used := {1});
    var fetched := queued.(batch := [Email(1, 7)]);
    assert Run(l, []) == INITIAL && [] + [Enqueue(1, 7, 1, 0)] == [Enqueue(1, 7, 1, 0)];
    RunReaches(l, [], Enqueue(1, 7, 1, 0), INITIAL, queued);
    assert EmailsOf(queued.rows, [1]) == [Email(1, 7)];
    RunReaches(l, [Enqueue(1, 7, 1, 0)], Fetch([1]), queued, fetched);
    assert Apply(l, fetched, Cancel(7)).rows == CANCELLED_STATE.rows;
    RunReaches(l, [Enqueue(1, 7, 1, 0)] + [Fetch([1])], Cancel(7), fetched, CANCELLED_STATE);
  }

  /** One that it had fetched may still be sent: a cancellation can come too late. */
  lemma CancelledTooLate(l: Limits)
    requires AsI16(l.maxPerHour) >= 1
    ensures var rows := Run(l, CANCELLED_RUN).rows; 1 in rows && rows[1].status == Cancelled
    ensures Sends(Run(l, CANCELLED_RUN + [MarkProcessing] + [CheckLimit] + [Send(true)]), 1) == 1
  {
    CancelledAfterFetch(l);
    var marked := CANCELLED_STATE.(rows := map[1 := Row(7, Processing, 0, 1, 0)], phase := Checking, attempted := [1]);
    RunReaches(l, CANCELLED_RUN, MarkProcessing, CANCELLED_STATE, marked);
    assert Emails([], 7, 0) == 0;
    var allowed := marked.(phase := Sending);
    RunReaches(l, CANCELLED_RUN + [MarkProcessing], CheckLimit, marked, allowed);
    var sent := allowed.(phase := MarkingSent, sent := [Email(1, 7)]);
    RunReaches(l, CANCELLED_RUN + [MarkProcessing] + [CheckLimit], Send(true), allowed, sent);
    SentAppend([], Email(1, 7), 1);
    assert [] + [Email(1, 7)] == [Email(1, 7)];
  }

  /** The processor's next step with an email it does not send. */
  function Onward(phase: Phase): Step {
    match phase
    case Marking => Skip
    case Checking => CheckLimit
    case Sending => Send(false)
    case MarkingSent => MarkSent
    case Counting => Count
    case MarkingFailed => MarkFailed
  }

  /** How many such steps the head of the batch still takes. */
  function StepsLeft(phase: Phase): nat {
    match phase
    case Marking => 1
    case Checking => 3
    case Sending => 2
    case MarkingSent => 2
    case Counting => 1
    case MarkingFailed => 1
  }

  /** Where the email at position `k` of the batch is after one such step of the processor. */
  function Position(st: State, st': State, k: nat): nat
    requires k > 0
  {
    if st'.batch == st.batch then k else k - 1
  }

  lemma OnwardMoves(l: Limits, st: State, id: Uuid, k: nat)
    requires 0 < k < |st.batch| && st.batch[k].id == id
    ensures
      var st' := Apply(l, st, Onward(st.phase));
      var k' := Position(st, st', k);
      && k' < |st'.batch| && st'.batch[k'].id == id && (k' > 0 || st'.phase == Marking)
      && (k' < k || StepsLeft(st'.phase) < StepsLeft(st.phase))
      && Sends(st', id) == Sends(st, id)
  {
  }

  ghost predicate AtTurn(st: State, id: Uuid) {
    st.batch != [] && st.batch[0].id == id && st.phase == Marking
  }

  /** Where further steps lead from a state. */
  function Continue(l: Limits, st: State, more: seq<Step>): State
    decreases |more|
  {
    if more == [] then st else Continue(l, Apply(l, st, more[0]), more[1..])
  }

  lemma {:induction false} RunContinues(l: Limits, steps: seq<Step>, more: seq<Step>)
    ensures Run(l, steps + more) == Continue(l, Run(l, steps), more)
    decreases |more|
  {
    if more == [] {
      assert steps + more == steps;
    } else {
      OneMore(l, steps, more[0]);
      RunContinues(l, steps + [more[0]], more[1..]);
      assert steps + [more[0]] + more[1..] == steps + more;
    }
  }

  lemma ContinueOne(l: Limits, st: State, step: Step, rest: seq<Step>)
    ensures Continue(l, st, [step] + rest) == Continue(l, Apply(l, st, step), rest)
  {
    assert ([step] + rest)[1..] == rest;
  }

  /** Working the batch off and then taking the next hour's check sends every waiting email. */
  lemma {:induction false} TurnComes(l: Limits, st: State, id: Uuid, k: nat) returns (more: seq<Step>)
    requires AsI16(l.maxPerHour) >= 1 && WithinBudget(l, st)
    requires k < |st.batch| && st.batch[k].id == id && (k > 0 || st.phase == Marking)
    ensures Sends(Continue(l, st, more), id) == Sends(st, id) + 1
    decreases k, StepsLeft(st.phase)
  {
    if k == 0 {
      more := TurnTaken(l, st, id);
    } else {
      var step := Onward(st.phase);
      var st' := Apply(l, st, step);
      OnwardMoves(l, st, id, k);
      ApplyKeepsBudget(l, st, step);
      var rest := TurnComes(l, st', id, Position(st, st', k));
      more := [step] + rest;
      ContinueOne(l, st, step, rest);
    }
  }

  /** An email whose turn has come is sent when the next hour begins and the backend works. */
  lemma TurnTaken(l: Limits, st: State, id: Uuid) returns (more: seq<Step>)
    requires AsI16(l.maxPerHour) >= 1 && WithinBudget(l, st) && AtTurn(st, id)
    ensures Sends(Continue(l, st, more), id) == Sends(st, id) + 1
  {
    more := [Tick] + ([MarkProcessing] + ([CheckLimit] + ([Send(true)] + [])));
    var s1 := Apply(l, st, Tick);
    var s2 := Apply(l, s1, MarkProcessing);
    assert Emails(s2.counted, st.batch[0].user, s2.hour) == 0;
    var s3 := Apply(l, s2, CheckLimit);
    assert s3.phase == Sending && s3.batch == st.batch && s3.sent == st.sent;
    SentAppend(st.sent, st.batch[0], id);
    ContinueOne(l, st, Tick, [MarkProcessing] + ([CheckLimit] + ([Send(true)] + [])));
    ContinueOne(l, s1, MarkProcessing, [CheckLimit] + ([Send(true)] + []));
    ContinueOne(l, s2, CheckLimit, [Send(true)] + []);
    ContinueOne(l, s3, Send(true), []);
  }

  /** The email is not sent yet, and some continuation of the run sends it. */
  ghost predicate MayStillBeSent(l: Limits, steps: seq<Step>, id: Uuid) {
    exists more :: Sends(Run(l, steps + more), id) > Sends(Run(l, steps), id)
  }

  /** A cancelled email in the batch waits for its turn. */
  lemma CancelledWaits(l: Limits, st: State, id: Uuid) returns (k: nat)
    requires EmailSound(l, st, id) && InBatch(st, id) && id in st.rows && st.rows[id].status == Cancelled
    ensures k < |st.batch| && st.batch[k].id == id && (k > 0 || st.phase == Marking)
  {
    k :| k < |st.batch| && st.batch[k].id == id;
  }

  lemma FetchedMayBeSent(l: Limits, steps: seq<Step>, id: Uuid, k: nat, st: State)
    requires AsI16(l.maxPerHour) >= 1
    requires st == Run(l, steps) && k < |st.batch| && st.batch[k].id == id && (k > 0 || st.phase == Marking)
    ensures MayStillBeSent(l, steps, id)
  {
    RunKeepsBudget(l, steps);
    var more := TurnComes(l, st, id, k);
    RunContinues(l, steps, more);
  }

  lemma NothingMayBeSent(l: Limits, steps: seq<Step>, id: Uuid)
    requires AsI16(l.maxPerHour) <= 0
    ensures !MayStillBeSent(l, steps, id)
  {
    forall more ensures Sends(Run(l, steps + more), id) == 0 {
      NothingIsSent(l, steps + more);
    }
  }

  lemma DeadMayNotBeSent(l: Limits, steps: seq<Step>, id: Uuid)
    requires Dead(Run(l, steps), id)
    ensures !MayStillBeSent(l, steps, id)
  {
    forall more ensures Sends(Run(l, steps + more), id) == Sends(Run(l, steps), id) {
      CancelledIsNeverSent(l, steps, more, id);
    }
  }

  lemma CancelledIsDeadOrWaits(l: Limits, st: State, id: Uuid) returns (k: nat)
    requires EmailSound(l, st, id) && id in st.rows && st.rows[id].status == Cancelled
    ensures InBatch(st, id) ==> k < |st.batch| && st.batch[k].id == id && (k > 0 || st.phase == Marking)
    ensures !InBatch(st, id) ==> Dead(st, id)
  {
    k := 0;
    if InBatch(st, id) {
      k := CancelledWaits(l, st, id);
    }
  }

  /**
   In every run, a cancelled email may still be sent if and only if the processor had already
   fetched it and the limit, as the check reads it, lets anything through at all.
   */
  lemma CancelledMayBeSentExactlyWhen(l: Limits, steps: seq<Step>, id: Uuid)
    requires id in Run(l, steps).rows && Run(l, steps).rows[id].status == Cancelled
    ensures MayStillBeSent(l, steps, id) <==> InBatch(Run(l, steps), id) && AsI16(l.maxPerHour) >= 1
  {
    RunIsSound(l, steps);
    var st := Run(l, steps);
    var k := CancelledIsDeadOrWaits(l, st, id);
    if AsI16(l.maxPerHour) <= 0 {
      NothingMayBeSent(l, steps, id);
    } else if InBatch(st, id) {
      FetchedMayBeSent(l, steps, id, k, st);
    } else {
      DeadMayNotBeSent(l, steps, id);
    }
  }

  lemma OneMore(l: Limits, steps: seq<Step>, step: Step)
    ensures Run(l, steps + [step]) == Apply(l, Run(l, steps), step)
  {
    assert (steps + [step])[..|steps|] == steps;
  }
}

/** The processor's own code, with everyone else running between its statements. */
module EmailProcessing {
  import opened Types
  import opened EmailProtocol
  import opened EmailSafety

  datatype Outcome = Processed(sentCount: nat) | DatabaseError

  predicate Foreign(step: Step) {
    step.Enqueue? || step.Postpone? || step.Cancel? || step.Requeue? || step.Cleanup? || step.Tick?
  }

  // ---- What is ready, and in which order.

  ghost predicate IsDue(rows: map<Uuid, Row>, now: int, id: Uuid) {
    id in rows && rows[id].status == Pending && rows[id].sendAfter <= now
  }

  ghost function Due(rows: map<Uuid, Row>, now: int): set<Uuid> {
    set id | id in rows && IsDue(rows, now, id)
  }

  /** ORDER BY priority, send_after: `a` comes strictly before `b`. */
  predicate Sooner(rows: map<Uuid, Row>, a: Uuid, b: Uuid) {
    && a in rows && b in rows
    && (rows[a].priority < rows[b].priority
        || (rows[a].priority == rows[b].priority && rows[a].sendAfter < rows[b].sendAfter))
  }

  ghost predicate InOrder(rows: map<Uuid, Row>, ids: seq<Uuid>) {
    forall i, j :: 0 <= i < j < |ids| ==> !Sooner(rows, ids[j], ids[i])
  }

  /** Nothing in `left` is sooner than anything in `ids`. */
  ghost predicate TakenFirst(rows: map<Uuid, Row>, ids: seq<Uuid>, left: set<Uuid>) {
    forall id, i :: 0 <= i < |ids| && id in left ==> !Sooner(rows, id, ids[i])
  }

  /** `ids` are distinct due emails, as many as there are up to `limit`, none sooner than the one before or left out. */
  ghost predicate MostUrgent(rows: map<Uuid, Row>, now: int, limit: nat, ids: seq<Uuid>) {
    && NoDuplicates(ids) && Elems(ids) <= Due(rows, now) && |ids| == Min(limit, |Due(rows, now)|)
    && InOrder(rows, ids) && TakenFirst(rows, ids, Due(rows, now) - Elems(ids))
  }

  /** Of higher priority (a smaller number), or of the same and due no later. */
  predicate NotLater(a: Row, b: Row) {
    a.priority < b.priority || (a.priority == b.priority && a.sendAfter <= b.sendAfter)
  }

  /**
   Pending emails that are due, each once, in order of priority and due time; one that is left out found the
   limit reached and comes no sooner than any that was taken.
   */
  ghost predicate UrgentFirst(rows: map<Uuid, Row>, now: int, limit: nat, ids: seq<Uuid>) {
    && NoDuplicates(ids) && |ids| <= limit
    && (forall id :: id in ids ==> id in rows && rows[id].status == Pending && rows[id].sendAfter <= now)
    && (forall i, j :: 0 <= i < j < |ids| && ids[i] in rows && ids[j] in rows ==>
          NotLater(rows[ids[i]], rows[ids[j]]))
    && forall id :: id in rows && rows[id].status == Pending && rows[id].sendAfter <= now && id !in ids ==>
         && |ids| == limit
         && forall i :: 0 <= i < |ids| && ids[i] in rows ==> NotLater(rows[ids[i]], rows[id])
  }

  lemma UrgencyMeans(rows: map<Uuid, Row>, now: int, limit: nat, ids: seq<Uuid>)
    requires MostUrgent(rows, now, limit, ids)
    ensures UrgentFirst(rows, now, limit, ids)
  {
    var due := Due(rows, now);
    forall id | id in ids ensures id in due {
      assert id in Elems(ids);
    }
    forall i, j | 0 <= i < j < |ids| && ids[i] in rows && ids[j] in rows ensures NotLater(rows[ids[i]], rows[ids[j]]) {
      assert !Sooner(rows, ids[j], ids[i]);
    }
    forall id | id in due && id !in ids
      ensures |ids| == limit
      ensures forall i :: 0 <= i < |ids| && ids[i] in rows ==> NotLater(rows[ids[i]], rows[id])
    {
      assert id in due - Elems(ids);
      SomethingLeft(due, ids, id);
      forall i | 0 <= i < |ids| && ids[i] in rows ensures NotLater(rows[ids[i]], rows[id]) {
        assert !Sooner(rows, id, ids[i]);
      }
    }
    forall id | id in rows && rows[id].status == Pending && rows[id].sendAfter <= now ensures id in due {
      assert IsDue(rows, now, id);
    }
  }

  lemma SomethingLeft(due: set<Uuid>, ids: seq<Uuid>, id: Uuid)
    requires Elems(ids) <= due && NoDuplicates(ids) && id in due && id !in ids
    ensures |ids| < |due|
  {
    ElemsOfDistinct(ids);
    assert id in due - Elems(ids);
    assert due == Elems(ids) + (due - Elems(ids));
  }

  method PickSoonest(rows: map<Uuid, Row>, from: set<Uuid>) returns (soonest: Uuid)
    requires from != {} && from <= rows.Keys
    ensures soonest in from && forall id :: id in from ==> !Sooner(rows, id, soonest)
  {
    soonest :| soonest in from;
    var left := from - {soonest};
    while left != {}
      invariant left <= from && soonest in from
      invariant forall id :: id in from && id !in left ==> !Sooner(rows, id, soonest)
    {
      var id :| id in left;
      left := left - {id};
      if Sooner(rows, id, soonest) {
        soonest := id;
      }
    }
  }

  /** After some rounds: `ids` taken in order, `left` the due emails still to choose from. */
  ghost predicate Selecting(rows: map<Uuid, Row>, due: set<Uuid>, ids: seq<Uuid>, left: set<Uuid>) {
    && left <= due && left == due - Elems(ids) && Elems(ids) <= due
    && |ids| + |left| == |due| && NoDuplicates(ids)
    && InOrder(rows, ids) && TakenFirst(rows, ids, left)
  }

  lemma SelectOneMore(rows: map<Uuid, Row>, due: set<Uuid>, ids: seq<Uuid>, left: set<Uuid>, id: Uuid)
    requires Selecting(rows, due, ids, left) && id in left && forall x :: x in left ==> !Sooner(rows, x, id)
    ensures Selecting(rows, due, ids + [id], left - {id})
  {
    ElemsAppend(ids, id);
    assert id !in Elems(ids);
  }

  method SelectReady(rows: map<Uuid, Row>, now: int, limit: nat) returns (ids: seq<Uuid>)
    ensures MostUrgent(rows, now, limit, ids) && UrgentFirst(rows, now, limit, ids)
  {
    var left := set id | id in rows && rows[id].status == Pending && rows[id].sendAfter <= now;
    assert left == Due(rows, now);
    ids := [];
    while left != {} && |ids| < limit
      invariant Selecting(rows, Due(rows, now), ids, left) && |ids| <= limit
      decreases left
    {
      var id := PickSoonest(rows, left);
      SelectOneMore(rows, Due(rows, now), ids, left, id);
      ids, left := ids + [id], left - {id};
    }
    UrgencyMeans(rows, now, limit, ids);
  }

  lemma UrgentAreReady(st: State, now: int, limit: nat, ids: seq<Uuid>)
    requires MostUrgent(st.rows, now, limit, ids)
    ensures Ready(st, ids)
  {
    forall id | id in ids ensures id in st.rows && st.rows[id].status == Pending {
      assert id in Elems(ids);
    }
  }

  ghost function Ids(emails: seq<Email>): seq<Uuid> {
    seq(|emails|, i requires 0 <= i < |emails| => emails[i].id)
  }

  class EmailService {
    const limits: Limits
    /** The tables; `batch`, `phase` and the histories record how far the processor is. */
    var db: State
    ghost var trace: seq<Step>

    ghost predicate Traced()
      reads this
    {
      db == Run(limits, trace)
    }

    constructor (limits: Limits)
      ensures this.limits == limits && Traced() && trace == []
    {
      this.limits := limits;
      db, trace := INITIAL, [];
    }

    /** Any number of steps of the rest of the system. */
    method Interfere()
      requires Traced()
      modifies this
      ensures Traced() && old(trace) <= trace
      ensures db == old(db).(rows := db.rows, used := db.used, hour := db.hour)
    {
      var n: nat := *;
      while n > 0
        invariant Traced() && old(trace) <= trace
        invariant db == old(db).(rows := db.rows, used := db.used, hour := db.hour)
      {
        var step: Step := *;
        if Foreign(step) {
          OneMore(limits, trace, step);
          db := Apply(limits, db, step);
          trace := trace + [step];
        }
        n := n - 1;
      }
    }

    /** The processor has taken `step`: its statement has been executed and recorded. */
    ghost method Took(step: Step, before: State)
      requires before == Run(limits, trace) && db == Apply(limits, before, step)
      modifies this`trace
      ensures Traced() && trace == old(trace) + [step]
    {
      OneMore(limits, trace, step);
      trace := trace + [step];
    }

    /**
     `get_ready_emails`: the most urgent pending emails that are due, in order of urgency. Rows
     that another transaction has locked are skipped; with one processor there are none.
     */
    method GetReadyEmails(now: int, limit: nat) returns (emails: seq<Email>)
      requires Traced() && db.batch == []
      modifies this
      ensures Traced() && old(trace) <= trace
      ensures db == old(db).(batch := emails, phase := Marking)
      ensures exists ids :: MostUrgent(db.rows, now, limit, ids) && Ready(db, ids) && emails == EmailsOf(db.rows, ids)
      ensures UrgentFirst(db.rows, now, limit, Ids(emails))
      ensures forall i :: 0 <= i < |emails| && emails[i].id in db.rows ==> emails[i].user == db.rows[emails[i].id].user
    {
      var ids := SelectReady(db.rows, now, limit);
      UrgentAreReady(db, now, limit, ids);
      emails := EmailsOf(db.rows, ids);
      assert Ids(emails) == ids;
      ghost var before := db;
      db := db.(batch := emails, phase := Marking);
      Took(Fetch(ids), before);
    }

    method MarkEmailProcessing(email: Email) returns (ok: bool)
      requires Traced() && db.batch != [] && db.batch[0] == email && db.phase == Marking
      modifies this
      ensures Traced() && old(trace) <= trace && db.sent == old(db).sent
      ensures if ok then db.batch == old(db).batch && db.phase == Checking
              else db.batch == old(db).batch[1..] && db.phase == Marking
    {
      Interfere();
      ok := *;
      ghost var before := db;
      if ok {
        if email.id in db.rows {
          db := db.(rows := db.rows[email.id := db.rows[email.id].(status := Processing)]);
        }
        db := db.(phase := Checking, attempted := db.attempted + [email.id]);
        Took(MarkProcessing, before);
      } else {
        db := db.(batch := db.batch[1..], phase := Marking);
        Took(Skip, before);
      }
    }

    /** `send_queued_email`: the limit check, then preferences, rendering and the backend. */
    method SendQueuedEmail(email: Email) returns (ok: bool)
      requires Traced() && db.batch != [] && db.batch[0] == email && db.phase == Checking
      modifies this
      ensures Traced() && old(trace) <= trace && db.batch == old(db).batch
      ensures db.phase == if ok then MarkingSent else MarkingFailed
      ensures db.sent == if ok then old(db).sent + [email] else old(db).sent
      ensures db.counted == old(db).counted
      ensures ok ==> Emails(db.counted, email.user, db.checked) < AsI16(limits.maxPerHour)
    {
      Interfere();
      var allowed := CheckRateLimit(email);
      if !allowed {
        return false;
      }
      Interfere();
      ok := *;
      ghost var before := db;
      if ok {
        db := db.(phase := MarkingSent, sent := db.sent + [email]);
      } else {
        db := db.(phase := MarkingFailed);
      }
      Took(Send(ok), before);
    }

    method CheckRateLimit(email: Email) returns (allowed: bool)
      requires Traced() && db.batch != [] && db.batch[0] == email && db.phase == Checking
      modifies this
      ensures Traced() && old(trace) <= trace
      ensures allowed == (Emails(old(db).counted, email.user, old(db).hour) < AsI16(limits.maxPerHour))
      ensures db == old(db).(phase := if allowed then Sending else MarkingFailed, checked := old(db).hour)
    {
      var count := multiset(db.counted)[Bucket(email.user, db.hour)];
      allowed := count < AsI16(limits.maxPerHour);
      ghost var before := db;
      db := db.(phase := if allowed then Sending else MarkingFailed, checked := db.hour);
      Took(CheckLimit, before);
    }

    method MarkEmailSent(email: Email)
      requires Traced() && db.batch != [] && db.batch[0] == email && db.phase == MarkingSent
      modifies this
      ensures Traced() && old(trace) <= trace
      ensures db == old(db).(rows := WithStatus(old(db).rows, email.id, Sent), phase := Counting)
    {
      ghost var before := db;
      if email.id in db.rows {
        db := db.(rows := db.rows[email.id := db.rows[email.id].(status := Sent)]);
      }
      db := db.(phase := Counting);
      Took(MarkSent, before);
    }

    method IncrementRateLimit(email: Email)
      requires Traced() && db.batch != [] && db.batch[0] == email && db.phase == Counting
      modifies this
      ensures Traced() && old(trace) <= trace
      ensures db == old(db).(counted := old(db).counted + [Bucket(email.user, old(db).hour)],
                             batch := old(db).batch[1..], phase := Marking)
    {
      ghost var before := db;
      db := db.(counted := db.counted + [Bucket(email.user, db.hour)], batch := db.batch[1..], phase := Marking);
      Took(Count, before);
    }

    method MarkEmailFailed(email: Email)
      requires Traced() && db.batch != [] && db.batch[0] == email && db.phase == MarkingFailed
      modifies this
      ensures Traced() && old(trace) <= trace
      ensures db.batch == old(db).batch[1..] && db.phase == Marking && db.sent == old(db).sent
        && db.counted == old(db).counted
      ensures email.id in db.rows <==> email.id in old(db).rows
      ensures email.id in db.rows ==>
        var row := old(db).rows[email.id];
        db.rows[email.id] == row.(status := Failed, retryCount := row.retryCount + 1)
    {
      ghost var before := db;
      if email.id in db.rows {
        db := db.(rows := db.rows[email.id := db.rows[email.id].(status := Failed,
                                                                 retryCount := db.rows[email.id].retryCount + 1)]);
      }
      db := db.(batch := db.batch[1..], phase := Marking);
      Took(MarkFailed, before);
    }

    method Abandon()
      requires Traced()
      modifies this
      ensures Traced() && old(trace) <= trace && db == old(db).(batch := [], phase := Marking)
    {
      ghost var before := db;
      db := db.(batch := [], phase := Marking);
      Took(GiveUp, before);
    }

    /**
     After the attempt: a sent email is marked sent and counted in the bucket of the present
     hour, a failed one is marked failed. A database error in any statement ends the call.
     */
    method Settle(email: Email, sent: bool) returns (ok: bool)
      requires Traced() && db.batch != [] && db.batch[0] == email
      requires db.phase == if sent then MarkingSent else MarkingFailed
      modifies this
      ensures Traced() && old(trace) <= trace && db.sent == old(db).sent && db.phase == Marking
      ensures db.batch == if ok then old(db).batch[1..] else []
      ensures ok && email.id in db.rows ==> db.rows[email.id].status == if sent then Sent else Failed
      ensures ok ==> db.counted == old(db).counted + if sent then [Bucket(email.user, db.hour)] else []
      ensures !ok ==> db.counted == old(db).counted
    {
      Interfere();
      ok := *;
      if !ok {
        Abandon();
        return;
      }
      if !sent {
        MarkEmailFailed(email);
        return;
      }
      MarkEmailSent(email);
      Interfere();
      RunIsSound(limits, trace);
      assert EmailSound(limits, db, email.id);
      ok := *;
      if ok {
        IncrementRateLimit(email);
      } else {
        Abandon();
      }
    }

    /** `process_pending`. The count returned is the number of emails this call has sent. */
    method ProcessPending(now: int, limit: nat) returns (r: Outcome)
      requires Traced() && db.batch == []
      modifies this
      ensures Traced() && old(trace) <= trace && db.batch == []
      ensures r.Processed? ==> |db.sent| == |old(db).sent| + r.sentCount
      ensures forall id :: Sends(db, id) <= 1 && Attempts(db, id) <= Max(1, limits.maxRetries)
      ensures 1 <= limits.maxPerHour <= 0x7FFF ==> NoBucketExceeds(db, limits.maxPerHour)
    {
      var emails := GetReadyEmails(now, limit);
      var sentCount, ok, i := 0, true, 0;
      while ok && i < |emails|
        invariant Traced() && old(trace) <= trace && 0 <= i <= |emails| && db.phase == Marking
        invariant db.batch == if ok then emails[i..] else []
        invariant |db.sent| == |old(db).sent| + sentCount
        decreases ok, |emails| - i
      {
        var marked := MarkEmailProcessing(emails[i]);
        if marked {
          var sent := SendQueuedEmail(emails[i]);
          ok := Settle(emails[i], sent);
          if sent {
            sentCount := sentCount + 1;
          }
        }
        i := i + 1;
      }
      r := if ok then Processed(sentCount) else DatabaseError;
      forall id ensures Sends(db, id) <= 1 && Attempts(db, id) <= Max(1, limits.maxRetries) {
        SentAtMostOnce(limits, trace, id);
      }
      BudgetHolds(limits, trace);
    }
  }
}

/** Batching: a notification joins the newest pending email of its user and conversation, if there is room. */
module EmailBatching {
  import opened Types

  datatype Queued = Queued(id: Uuid, user: Uuid, conv: Uuid, pending: bool, createdAt: int, messages: seq<Uuid>)

  /** The table in insertion order. */
  type Queue = seq<Queued>

  predicate Joinable(q: Queued, user: Uuid, conv: Uuid, since: int) {
    q.user == user && q.conv == conv && q.pending && q.createdAt > since
  }

  /** `ORDER BY created_at DESC LIMIT 1` may answer with position `k`. */
  ghost predicate Newest(queue: Queue, user: Uuid, conv: Uuid, since: int, k: nat) {
    && k < |queue| && Joinable(queue[k], user, conv, since)
    && forall i :: 0 <= i < |queue| && Joinable(queue[i], user, conv, since) ==>
      queue[i].createdAt <= queue[k].createdAt
  }

  ghost predicate Joins(before: Queue, after: Queue, k: nat, message: Uuid)
    requires k < |before|
  {
    after == before[k := before[k].(messages := before[k].messages + [message])]
  }

  /** Every message in the queue, once for each email it is in. */
  function AllMessages(queue: Queue): multiset<Uuid> {
    if queue == [] then multiset{} else AllMessages(queue[..|queue| - 1]) + multiset(queue[|queue| - 1].messages)
  }

  lemma {:induction false} MessagesOfUpdate(queue: Queue, k: nat, q: Queued, message: Uuid)
    requires k < |queue| && multiset(q.messages) == multiset(queue[k].messages) + multiset{message}
    ensures AllMessages(queue[k := q]) == AllMessages(queue) + multiset{message}
  {
    var init, n := queue[..|queue| - 1], |queue| - 1;
    if k == n {
      assert queue[k := q][..n] == init;
    } else {
      assert queue[k := q][..n] == init[k := q];
      MessagesOfUpdate(init, k, q, message);
    }
  }

  lemma MessagesOfInsert(queue: Queue, q: Queued)
    ensures AllMessages(queue + [q]) == AllMessages(queue) + multiset(q.messages)
  {
    assert (queue + [q])[..|queue|] == queue;
  }

  ghost predicate WithinBatchSize(queue: Queue, maxBatchSize: nat) {
    forall k :: 0 <= k < |queue| ==> |queue[k].messages| <= Max(1, maxBatchSize)
  }

  class EmailQueue {
    const maxBatchSize: nat
    const window: int
    var queue: Queue

    constructor (maxBatchSize: nat, window: int)
      ensures this.maxBatchSize == maxBatchSize && this.window == window && queue == []
    {
      this.maxBatchSize, this.window := maxBatchSize, window;
      queue := [];
    }

    /** A newest joinable email. */
    method FindExisting(user: Uuid, conv: Uuid, now: int) returns (found: Option<nat>)
      ensures found.None? ==> forall k :: 0 <= k < |queue| ==> !Joinable(queue[k], user, conv, now - window)
      ensures found.Some? ==> Newest(queue, user, conv, now - window, found.value)
      ensures found.None? ==> forall k :: 0 <= k < |queue| ==>
        !(queue[k].user == user && queue[k].conv == conv && queue[k].pending && queue[k].createdAt > now - window)
      ensures found.Some? ==>
        var q := queue[found.value];
        q.user == user && q.conv == conv && q.pending && q.createdAt > now - window
    {
      found := None;
      for i := 0 to |queue|
        invariant found.None? ==> forall k :: 0 <= k < i ==> !Joinable(queue[k], user, conv, now - window)
        invariant found.Some? ==> found.value < i && Joinable(queue[found.value], user, conv, now - window)
        invariant found.Some? ==> forall k :: 0 <= k < i && Joinable(queue[k], user, conv, now - window) ==>
                    queue[k].createdAt <= queue[found.value].createdAt
      {
        if Joinable(queue[i], user, conv, now - window)
           && (found.None? || queue[i].createdAt > queue[found.value].createdAt) {
          found := Some(i);
        }
      }
    }

    /**
     The message is added to the queue exactly once: at the end of the newest joinable email if
     that one has room, in an email of its own otherwise.
     */
    method Enqueue(id: Uuid, user: Uuid, conv: Uuid, message: Uuid, now: int) returns (r: Uuid)
      modifies this
      ensures AllMessages(queue) == AllMessages(old(queue)) + multiset{message}
      ensures old(WithinBatchSize(queue, maxBatchSize)) ==> WithinBatchSize(queue, maxBatchSize)
      ensures
        var alone := queue == old(queue) + [Queued(id, user, conv, true, now, [message])] && r == id;
        || (alone && forall k :: 0 <= k < |old(queue)| ==> !Joinable(old(queue)[k], user, conv, now - window))
        || (exists k: nat :: Newest(old(queue), user, conv, now - window, k)
              && if |old(queue)[k].messages| < maxBatchSize
                 then Joins(old(queue), queue, k, message) && r == old(queue)[k].id
                 else alone)
    {
      var found := FindExisting(user, conv, now);
      if found.Some? && |queue[found.value].messages| < maxBatchSize {
        var k, existing := found.value, queue[found.value];
        MessagesOfUpdate(queue, k, existing.(messages := existing.messages + [message]), message);
        queue := queue[k := existing.(messages := existing.messages + [message])];
        return existing.id;
      }
      MessagesOfInsert(queue, Queued(id, user, conv, true, now, [message]));
      queue := queue + [Queued(id, user, conv, true, now, [message])];
      r := id;
    }
  }
}

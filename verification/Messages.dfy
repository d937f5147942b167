/**
 The messages table and everything that writes it: inserts, edits, recalls, and the GDPR
 deletion statements. Handlers read, check, and write in separate statements, so between a
 handler's check and its write any other statement may run. A step that is not enabled leaves
 the state alone, so every sequence of steps is a run.
 */
module MessageTable {
  import opened Types

  const RECALLED := "[Message recalled]"
  const FROM_DELETED_USER := "[Message from deleted user]"
  const DELETED := "[deleted]"
  const DELETED_USER: Uuid := 0

  /**
   Times in milliseconds. `clientId` is the client's own id for the message. `serial` counts insertions and
   is not a column.
   */
  datatype Row = Row(
    conv: Uuid, sender: Uuid, content: string, createdAt: int, deletedAt: Option<int>,
    replyTo: Option<Uuid>, mentions: seq<Uuid>, clientId: Option<string>, serial: nat)

  type Rows = map<Uuid, Row>

  datatype Windows = Windows(edit: nat, recall: nat)

  /** A message to be inserted. */
  datatype Draft = Draft(
    conv: Uuid, sender: Uuid, content: string, replyTo: Option<Uuid>, mentions: seq<Uuid>, clientId: Option<string>)

  /**
   A handler between its statements: a send that has looked up its client id, and one that has passed all
   its checks.
   */
  datatype Call =
    | Composing(draft: Draft)
    | Sending(draft: Draft)
    | Editing(user: Uuid, id: Uuid, content: string, mentions: seq<Uuid>, checkedAt: int)
    | Recalling(user: Uuid, id: Uuid, checkedAt: int)

  datatype State = State(rows: Rows, calls: map<nat, Call>, inserted: nat, used: set<Uuid>)

  const INITIAL := State(map[], map[], 0, {})

  datatype Error =
    | NotParticipant
    | MessageNotFound
    | NotMessageOwner
    | MessageRecalled
    | EditWindowExpired
    | RecallWindowExpired
    | InvalidReplyTarget
    | StorageNotFound
    | StorageConflict

  datatype Step =
    | SendLookup(call: nat, draft: Draft)
    | SendValidate(call: nat)
    | SendInsert(call: nat, id: Uuid, now: int)
    | EditCheck(call: nat, user: Uuid, id: Uuid, content: string, mentions: seq<Uuid>, now: int)
    | EditWrite(call: nat)
    | RecallCheck(call: nat, user: Uuid, id: Uuid, now: int)
    | RecallWrite(call: nat, now: int)
    | Drop(call: nat)
    | Anonymize(user: Uuid, preserveStructure: bool, now: int)
    | RemoveMentions(user: Uuid)
    | HardDelete(user: Uuid)

  predicate Live(rows: Rows, id: Uuid) {
    id in rows && rows[id].deletedAt.None?
  }

  /** The partition a row is stored in: its day. */
  function Day(createdAt: int): int {
    createdAt / 86_400_000
  }

  predicate SameClientId(r: Row, sender: Uuid, clientId: Option<string>) {
    clientId.Some? && r.sender == sender && r.clientId == clientId
  }

  /** The unique index on sender, client id and partition would be violated by one more such row. */
  predicate Taken(rows: Rows, sender: Uuid, clientId: Option<string>, day: int) {
    exists id :: id in rows && SameClientId(rows[id], sender, clientId) && Day(rows[id].createdAt) == day
  }

  predicate Clash(a: Row, b: Row) {
    SameClientId(a, b.sender, b.clientId) && Day(a.createdAt) == Day(b.createdAt)
  }

  /** What the unique index guarantees. */
  predicate UniqueClientIds(rows: Rows) {
    forall a, b :: a in rows && b in rows && a != b ==> !Clash(rows[a], rows[b])
  }

  /** `find_by_client_id` has something to find. */
  predicate Repeated(rows: Rows, sender: Uuid, clientId: Option<string>) {
    exists id :: id in rows && SameClientId(rows[id], sender, clientId)
  }

  /** `validate_reply_target`. */
  predicate ValidTarget(rows: Rows, target: Uuid, conv: Uuid) {
    Live(rows, target) && rows[target].conv == conv
  }

  /** The checks of an edit request, in order. */
  function EditRefusal(w: Windows, rows: Rows, user: Uuid, id: Uuid, now: int): Option<Error> {
    if id !in rows then Some(MessageNotFound)
    else if rows[id].sender != user then Some(NotMessageOwner)
    else if rows[id].deletedAt.Some? then Some(MessageRecalled)
    else if now - rows[id].createdAt > w.edit then Some(EditWindowExpired)
    else None
  }

  /** The checks of a recall request: recalling what is already recalled is no error. */
  datatype RecallVerdict = Refuse(error: Error) | AlreadyDone | Proceed

  function RecallAnswer(w: Windows, rows: Rows, user: Uuid, id: Uuid, now: int): RecallVerdict {
    if id !in rows then Refuse(MessageNotFound)
    else if rows[id].sender != user then Refuse(NotMessageOwner)
    else if rows[id].deletedAt.Some? then AlreadyDone
    else if now - rows[id].createdAt > w.recall then Refuse(RecallWindowExpired)
    else Proceed
  }

  // ---- The statements.

  function Inserted(st: State, s: Draft, id: Uuid, now: int): State {
    st.(rows := st.rows[id := Row(s.conv, s.sender, s.content, now, None, s.replyTo, s.mentions, s.clientId,
                                  st.inserted)],
        inserted := st.inserted + 1, used := st.used + {id})
  }

  function Edited(rows: Rows, id: Uuid, content: string, mentions: seq<Uuid>): Rows {
    if Live(rows, id) then rows[id := rows[id].(content := content, mentions := mentions)] else rows
  }

  function Recalled(rows: Rows, id: Uuid, now: int): Rows {
    if Live(rows, id) then rows[id := rows[id].(deletedAt := Some(now), content := RECALLED)] else rows
  }

  function AnonymizedRow(r: Row, user: Uuid, preserveStructure: bool, now: int): Row {
    if r.sender == user && r.deletedAt.None? then
      r.(content := if preserveStructure then FROM_DELETED_USER else DELETED,
         sender := DELETED_USER, mentions := [], deletedAt := Some(now))
    else r
  }

  function Anonymized(rows: Rows, user: Uuid, preserveStructure: bool, now: int): Rows {
    map id | id in rows :: AnonymizedRow(rows[id], user, preserveStructure, now)
  }

  function WithoutMentions(rows: Rows, user: Uuid): Rows {
    map id | id in rows :: rows[id].(mentions := Without(rows[id].mentions, {user}))
  }

  function HardDeleted(rows: Rows, user: Uuid): Rows {
    map id | id in rows && rows[id].sender != user :: rows[id]
  }

  function Apply(w: Windows, st: State, step: Step): State {
    match step
    case SendLookup(call, draft) =>
      if call !in st.calls && !Repeated(st.rows, draft.sender, draft.clientId)
      then st.(calls := st.calls[call := Composing(draft)]) else st
    case SendValidate(call) =>
      if call in st.calls && st.calls[call].Composing? then
        var draft := st.calls[call].draft;
        if draft.replyTo.Some? && !ValidTarget(st.rows, draft.replyTo.value, draft.conv)
        then st.(calls := st.calls - {call})
        else st.(calls := st.calls[call := Sending(draft)])
      else st
    case SendInsert(call, id, now) =>
      if call in st.calls && st.calls[call].Sending? && id !in st.used then
        var draft := st.calls[call].draft;
        if Taken(st.rows, draft.sender, draft.clientId, Day(now)) then st.(calls := st.calls - {call})
        else Inserted(st, draft, id, now).(calls := st.calls - {call})
      else st
    case EditCheck(call, user, id, content, mentions, now) =>
      if call !in st.calls && EditRefusal(w, st.rows, user, id, now).None?
      then st.(calls := st.calls[call := Editing(user, id, content, mentions, now)]) else st
    case EditWrite(call) =>
      if call in st.calls && st.calls[call].Editing?
      then
        var c := st.calls[call];
        st.(rows := Edited(st.rows, c.id, c.content, c.mentions), calls := st.calls - {call})
      else st
    case RecallCheck(call, user, id, now) =>
      if call !in st.calls && RecallAnswer(w, st.rows, user, id, now).Proceed?
      then st.(calls := st.calls[call := Recalling(user, id, now)]) else st
    case RecallWrite(call, now) =>
      if call in st.calls && st.calls[call].Recalling?
      then st.(rows := Recalled(st.rows, st.calls[call].id, now), calls := st.calls - {call})
      else st
    case Drop(call) => st.(calls := st.calls - {call})
    case Anonymize(user, preserveStructure, now) =>
      var rows := Anonymized(st.rows, user, preserveStructure, now);
      if UniqueClientIds(rows) then st.(rows := rows) else st
    case RemoveMentions(user) => st.(rows := WithoutMentions(st.rows, user))
    case HardDelete(user) => st.(rows := HardDeleted(st.rows, user))
  }

  function RunFrom(w: Windows, st: State, steps: seq<Step>): State {
    if steps == [] then st else Apply(w, RunFrom(w, st, steps[..|steps| - 1]), steps[|steps| - 1])
  }

  function Run(w: Windows, steps: seq<Step>): State {
    RunFrom(w, INITIAL, steps)
  }
}

module MessageLifecycle {
  import opened Types
  import opened MessageTable

  // ---- How a row may change, over any number of steps.

  /** A deleted row keeps everything but its mention list; a live one keeps its sender until it is deleted. */
  ghost predicate RowEvolves(r: Row, r': Row) {
    && r'.conv == r.conv && r'.createdAt == r.createdAt && r'.replyTo == r.replyTo && r'.serial == r.serial
    && (r.deletedAt.Some? ==> r' == r.(mentions := r'.mentions))
    && (r'.deletedAt.None? ==> r'.sender == r.sender)
  }

  /** Ids are never used again, and rows that are still there have evolved. */
  ghost predicate Evolves(st: State, st': State) {
    && st.used <= st'.used
    && forall id :: id in st.used && id in st'.rows ==> id in st.rows && RowEvolves(st.rows[id], st'.rows[id])
  }

  lemma ApplyEvolves(w: Windows, st: State, step: Step)
    ensures Evolves(st, Apply(w, st, step))
  {
  }

  lemma {:induction false} RunEvolves(w: Windows, st: State, steps: seq<Step>)
    ensures Evolves(st, RunFrom(w, st, steps))
  {
    if steps == [] {
    } else {
      var mid := RunFrom(w, st, steps[..|steps| - 1]);
      RunEvolves(w, st, steps[..|steps| - 1]);
      ApplyEvolves(w, mid, steps[|steps| - 1]);
    }
  }

  // ---- What holds of every reachable state.

  predicate Placeholder(content: string) {
    content == RECALLED || content == FROM_DELETED_USER || content == DELETED
  }

  /** A reply whose target exists is in the target's conversation and was inserted after it. */
  ghost predicate ReplyIsYounger(rows: Rows, r: Row) {
    r.replyTo.Some? && r.replyTo.value in rows ==>
      rows[r.replyTo.value].conv == r.conv && rows[r.replyTo.value].serial < r.serial
  }

  ghost predicate RowSound(st: State, id: Uuid)
    requires id in st.rows
  {
    var r := st.rows[id];
    && id in st.used && r.serial < st.inserted
    && (r.deletedAt.Some? ==> Placeholder(r.content))
    && (r.replyTo.Some? ==> r.replyTo.value in st.used)
    && ReplyIsYounger(st.rows, r)
  }

  /** What a check established and no other statement can undo while the message lives. */
  ghost predicate CallSound(w: Windows, st: State, c: Call) {
    match c
    case Composing(_) => true
    case Sending(Draft(conv, _, _, replyTo, _, _)) =>
      replyTo.Some? ==> replyTo.value in st.used && (replyTo.value in st.rows ==> st.rows[replyTo.value].conv == conv)
    case Editing(user, id, _, _, at) =>
      id in st.used && (Live(st.rows, id) ==> st.rows[id].sender == user && at - st.rows[id].createdAt <= w.edit)
    case Recalling(user, id, at) =>
      id in st.used && (Live(st.rows, id) ==> st.rows[id].sender == user && at - st.rows[id].createdAt <= w.recall)
  }

  ghost predicate RowsSound(st: State) {
    forall id :: id in st.rows ==> RowSound(st, id)
  }

  ghost predicate CallsSound(w: Windows, st: State) {
    forall c :: c in st.calls ==> CallSound(w, st, st.calls[c])
  }

  lemma CallStaysSound(w: Windows, st: State, st': State, c: Call)
    requires CallSound(w, st, c) && Evolves(st, st')
    ensures CallSound(w, st', c)
  {
  }

  lemma ApplyKeepsCalls(w: Windows, st: State, step: Step)
    requires RowsSound(st) && CallsSound(w, st)
    ensures CallsSound(w, Apply(w, st, step))
  {
    var st' := Apply(w, st, step);
    ApplyEvolves(w, st, step);
    forall c | c in st'.calls ensures CallSound(w, st', st'.calls[c]) {
      if c in st.calls && st'.calls[c] == st.calls[c] {
        CallStaysSound(w, st, st', st.calls[c]);
      } else if step.SendValidate? && st.calls[c].draft.replyTo.Some? {
        assert RowSound(st, st.calls[c].draft.replyTo.value);
      } else if step.EditCheck? || step.RecallCheck? {
        assert RowSound(st, step.id);
      }
    }
  }

  lemma InsertKeepsRows(w: Windows, st: State, step: Step)
    requires RowsSound(st) && CallsSound(w, st) && step.SendInsert?
    ensures RowsSound(Apply(w, st, step))
  {
    var st' := Apply(w, st, step);
    forall id | id in st'.rows ensures RowSound(st', id) {
      if id in st.rows {
        assert RowSound(st, id);
      } else {
        var draft := st.calls[step.call].draft;
        assert CallSound(w, st, st.calls[step.call]);
        if draft.replyTo.Some? && draft.replyTo.value in st'.rows {
          assert RowSound(st, draft.replyTo.value);
        }
      }
    }
  }

  lemma WriteKeepsRows(w: Windows, st: State, step: Step)
    requires RowsSound(st) && !step.SendInsert?
    ensures RowsSound(Apply(w, st, step))
  {
    var st' := Apply(w, st, step);
    ApplyEvolves(w, st, step);
    forall id | id in st'.rows ensures RowSound(st', id) {
      assert id in st.rows && RowSound(st, id);
    }
  }

  lemma {:induction false} RunIsSound(w: Windows, steps: seq<Step>)
    ensures RowsSound(Run(w, steps)) && CallsSound(w, Run(w, steps))
  {
    if steps == [] {
    } else {
      var init, last := steps[..|steps| - 1], steps[|steps| - 1];
      RunIsSound(w, init);
      ApplyKeepsCalls(w, Run(w, init), last);
      if last.SendInsert? {
        InsertKeepsRows(w, Run(w, init), last);
      } else {
        WriteKeepsRows(w, Run(w, init), last);
      }
    }
  }

  lemma {:induction false} RunAppends(w: Windows, st: State, steps: seq<Step>, more: seq<Step>)
    ensures RunFrom(w, st, steps + more) == RunFrom(w, RunFrom(w, st, steps), more)
  {
    if more == [] {
      assert steps + more == steps;
    } else {
      assert (steps + more)[..|steps + more| - 1] == steps + more[..|more| - 1];
      RunAppends(w, st, steps, more[..|more| - 1]);
    }
  }

  // ---- The theorems.

  /**
   Once `deleted_at` is set, content, sender and `deleted_at` never change while the row
   exists, whatever edits, recalls and anonymisations were already past their checks.
   */
  lemma RecallIsFinal(w: Windows, steps: seq<Step>, more: seq<Step>, id: Uuid)
    ensures
      var before, later := Run(w, steps), Run(w, steps + more);
      id in before.rows && before.rows[id].deletedAt.Some? && id in later.rows ==>
        && later.rows[id] == before.rows[id].(mentions := later.rows[id].mentions)
        && Placeholder(later.rows[id].content)
  {
    RunIsSound(w, steps);
    RunAppends(w, INITIAL, steps, more);
    RunEvolves(w, Run(w, steps), more);
    if id in Run(w, steps).rows {
      assert RowSound(Run(w, steps), id);
    }
  }

  /** Who may change what a message says: its author within the window, or the author's anonymisation. */
  ghost predicate MayRewrite(w: Windows, st: State, step: Step, r: Row) {
    match step
    case EditWrite(call) =>
      && call in st.calls && st.calls[call].Editing?
      && st.calls[call].user == r.sender && st.calls[call].checkedAt - r.createdAt <= w.edit
    case RecallWrite(call, _) =>
      && call in st.calls && st.calls[call].Recalling?
      && st.calls[call].user == r.sender && st.calls[call].checkedAt - r.createdAt <= w.recall
    case Anonymize(user, _, _) => user == r.sender
    case _ => false
  }

  /**
   In every interleaving, a step that changes a message's content, sender or deletion finds
   it live, and is its author's edit or recall, checked within the window, or its author's
   anonymisation; and a message disappears only with the hard deletion of its sender.
   */
  lemma OnlyTheAuthorRewrites(w: Windows, steps: seq<Step>, step: Step, id: Uuid)
    requires id in Run(w, steps).rows
    ensures
      var st, st' := Run(w, steps), Apply(w, Run(w, steps), step);
      var r := st.rows[id];
      && (id !in st'.rows ==> step == HardDelete(r.sender))
      && (id in st'.rows && st'.rows[id] != r.(mentions := st'.rows[id].mentions) ==>
            r.deletedAt.None? && MayRewrite(w, st, step, r))
  {
    RunIsSound(w, steps);
    var st := Run(w, steps);
    assert RowSound(st, id);
    if (step.EditWrite? || step.RecallWrite?) && step.call in st.calls {
      assert CallSound(w, st, st.calls[step.call]);
    }
  }

  lemma InsertKeepsUnique(st: State, s: Draft, id: Uuid, now: int)
    requires UniqueClientIds(st.rows) && !Taken(st.rows, s.sender, s.clientId, Day(now))
    ensures UniqueClientIds(Inserted(st, s, id, now).rows)
  {
    var rows := Inserted(st, s, id, now).rows;
    forall a, b | a in rows && b in rows && a != b ensures !Clash(rows[a], rows[b]) {
      if a != id && b != id {
        assert !Clash(st.rows[a], st.rows[b]);
      }
    }
  }

  lemma SameSendersStayUnique(rows: Rows, rows': Rows)
    requires UniqueClientIds(rows)
    requires forall id :: id in rows' ==>
               && id in rows && rows'[id].sender == rows[id].sender
               && rows'[id].clientId == rows[id].clientId && rows'[id].createdAt == rows[id].createdAt
    ensures UniqueClientIds(rows')
  {
    forall a, b | a in rows' && b in rows' && a != b ensures !Clash(rows'[a], rows'[b]) {
      assert !Clash(rows[a], rows[b]);
    }
  }

  /** What uniqueness says on the columns: the day is that of the row's timestamp in milliseconds. */
  lemma UniqueMeans(rows: Rows, a: Uuid, b: Uuid)
    requires UniqueClientIds(rows) && a in rows && b in rows && a != b
    requires rows[a].clientId.Some? && rows[a].clientId == rows[b].clientId && rows[a].sender == rows[b].sender
    ensures rows[a].createdAt / 86_400_000 != rows[b].createdAt / 86_400_000
  {
    assert !Clash(rows[a], rows[b]);
  }

  /** In every run, however sends race, a client id names at most one message of a sender per day. */
  lemma ClientIdNamesOneMessage(w: Windows, steps: seq<Step>, a: Uuid, b: Uuid)
    requires a in Run(w, steps).rows && b in Run(w, steps).rows && a != b
    ensures
      var r, q := Run(w, steps).rows[a], Run(w, steps).rows[b];
      r.clientId.Some? && r.clientId == q.clientId && r.sender == q.sender ==>
        r.createdAt / 86_400_000 != q.createdAt / 86_400_000
  {
    ClientIdsStayUnique(w, steps);
    var rows := Run(w, steps).rows;
    if rows[a].clientId.Some? && rows[a].clientId == rows[b].clientId && rows[a].sender == rows[b].sender {
      UniqueMeans(rows, a, b);
    }
  }

  lemma {:induction false} ClientIdsStayUnique(w: Windows, steps: seq<Step>)
    ensures UniqueClientIds(Run(w, steps).rows)
  {
    if steps != [] {
      var st, last := Run(w, steps[..|steps| - 1]), steps[|steps| - 1];
      ClientIdsStayUnique(w, steps[..|steps| - 1]);
      match last {
        case SendInsert(call, id, now) =>
          if call in st.calls && st.calls[call].Sending? {
            var draft := st.calls[call].draft;
            if !Taken(st.rows, draft.sender, draft.clientId, Day(now)) {
              InsertKeepsUnique(st, draft, id, now);
            }
          }
        case Anonymize(_, _, _) =>
        case _ => SameSendersStayUnique(st.rows, Apply(w, st, last).rows);
      }
    }
  }

  /** Going up from a reply to what it replies to, as far as the rows exist. */
  function Thread(rows: Rows, id: Uuid, fuel: nat): seq<Uuid>
    decreases fuel
  {
    if fuel == 0 || id !in rows then []
    else [id] + if rows[id].replyTo.None? then [] else Thread(rows, rows[id].replyTo.value, fuel - 1)
  }

  ghost predicate GoesUp(rows: Rows, thread: seq<Uuid>) {
    && (forall i :: 0 <= i < |thread| ==> thread[i] in rows)
    && (forall i, j :: 0 <= i < j < |thread| ==>
          rows[thread[j]].serial < rows[thread[i]].serial && rows[thread[j]].conv == rows[thread[i]].conv)
    && (forall i, j :: 0 <= i && j == i + 1 < |thread| ==> rows[thread[i]].replyTo == Some(thread[j]))
  }

  lemma {:induction false} ThreadGoesUp(st: State, id: Uuid, fuel: nat)
    requires RowsSound(st)
    ensures GoesUp(st.rows, Thread(st.rows, id, fuel))
    decreases fuel
  {
    if fuel > 0 && id in st.rows && st.rows[id].replyTo.Some? {
      var target := st.rows[id].replyTo.value;
      ThreadGoesUp(st, target, fuel - 1);
      var rest := Thread(st.rows, target, fuel - 1);
      assert RowSound(st, id);
      assert rest != [] ==> rest[0] == target;
    }
  }

  /** With as many steps allowed as the age of the message, the climb ends by itself. */
  lemma {:induction false} ThreadEnds(st: State, id: Uuid, fuel: nat)
    requires RowsSound(st) && id in st.rows && fuel > st.rows[id].serial
    ensures Thread(st.rows, id, fuel) == Thread(st.rows, id, fuel + 1)
    decreases fuel
  {
    assert RowSound(st, id);
    if st.rows[id].replyTo.Some? && st.rows[id].replyTo.value in st.rows {
      ThreadEnds(st, st.rows[id].replyTo.value, fuel - 1);
    }
  }

  /**
   Reply edges form a forest: in every run, the climb from any message visits each message at
   most once, stays in one conversation, only gets older, and ends within as many steps as
   messages were inserted.
   */
  lemma RepliesFormAForest(w: Windows, steps: seq<Step>, id: Uuid, fuel: nat)
    ensures
      var st := Run(w, steps);
      && GoesUp(st.rows, Thread(st.rows, id, fuel))
      && (fuel > 0 && id in st.rows ==> Thread(st.rows, id, fuel) != [] && Thread(st.rows, id, fuel)[0] == id)
      && NoDuplicates(Thread(st.rows, id, fuel))
      && (fuel >= st.inserted ==> Thread(st.rows, id, fuel) == Thread(st.rows, id, fuel + 1))
  {
    RunIsSound(w, steps);
    var st := Run(w, steps);
    ThreadGoesUp(st, id, fuel);
    if fuel >= st.inserted && id in st.rows {
      assert RowSound(st, id);
      ThreadEnds(st, id, fuel);
    }
  }
}

/** The handlers, with the rest of the system running between their checks and their writes. */
module MessageHandling {
  import opened Types
  import opened MessageTable
  import opened MessageLifecycle

  datatype Outcome<T> = Success(value: T) | Failure(error: Error)

  /** A step of anyone but the handler of `call`. */
  predicate Foreign(step: Step, call: nat) {
    match step
    case SendValidate(c) => c != call
    case SendInsert(c, _, _) => c != call
    case EditWrite(c) => c != call
    case RecallWrite(c, _) => c != call
    case Drop(c) => c != call
    case _ => true
  }

  /** Explicit mentions first, then each mention found in the text that is not listed yet. */
  function MergedMentions(explicit: seq<Uuid>, parsed: seq<Uuid>): seq<Uuid> {
    explicit + DistinctNew(Elems(explicit), parsed)
  }

  /** Nobody who was mentioned is lost, and the text adds nobody twice. */
  lemma MergedMentionsAreAll(explicit: seq<Uuid>, parsed: seq<Uuid>)
    ensures forall x :: x in MergedMentions(explicit, parsed) <==> x in explicit || x in parsed
    ensures explicit <= MergedMentions(explicit, parsed)
    ensures NoDuplicates(explicit) ==> NoDuplicates(MergedMentions(explicit, parsed))
  {
    DistinctNewMembers(Elems(explicit), parsed);
    var added := DistinctNew(Elems(explicit), parsed);
    forall i, j | 0 <= i < |explicit| && 0 <= j < |added| ensures explicit[i] != added[j] {
      assert added[j] in added && explicit[i] in Elems(explicit);
    }
  }

  function ValidMentions(mentions: seq<Uuid>, participants: set<Uuid>): seq<Uuid> {
    if mentions == [] then []
    else (if mentions[0] in participants then [mentions[0]] else []) + ValidMentions(mentions[1..], participants)
  }

  /** Exactly the mentioned participants; none twice unless the request itself repeats one. */
  lemma {:induction false} MentionsAreParticipants(mentions: seq<Uuid>, participants: set<Uuid>)
    ensures forall x :: x in ValidMentions(mentions, participants) <==> x in mentions && x in participants
    ensures NoDuplicates(mentions) ==> NoDuplicates(ValidMentions(mentions, participants))
    ensures NoDuplicates(mentions) ==> InFirstOrder(ValidMentions(mentions, participants), mentions)
  {
    if mentions != [] {
      MentionsAreParticipants(mentions[1..], participants);
      assert mentions == [mentions[0]] + mentions[1..];
      if NoDuplicates(mentions) {
        assert forall x :: x in mentions[1..] ==> FirstIndex(mentions, x) == 1 + FirstIndex(mentions[1..], x);
      }
    }
  }

  // ---- The checks and the statements, read off the columns.

  /** Who may edit: the author of a message that is there and not recalled, within the window. */
  lemma EditAllowedExactlyWhen(w: Windows, rows: Rows, user: Uuid, id: Uuid, now: int)
    ensures EditRefusal(w, rows, user, id, now).None? <==>
      && id in rows && rows[id].sender == user && rows[id].deletedAt == None && now - rows[id].createdAt <= w.edit
    ensures EditRefusal(w, rows, user, id, now) == Some(MessageNotFound) <==> id !in rows
    ensures EditRefusal(w, rows, user, id, now) == Some(NotMessageOwner) <==> id in rows && rows[id].sender != user
    ensures EditRefusal(w, rows, user, id, now) == Some(MessageRecalled) <==>
      id in rows && rows[id].sender == user && rows[id].deletedAt != None
  {
  }

  /** Who may recall, and when there is nothing left to do. */
  lemma RecallAllowedExactlyWhen(w: Windows, rows: Rows, user: Uuid, id: Uuid, now: int)
    ensures RecallAnswer(w, rows, user, id, now) == Proceed <==>
      && id in rows && rows[id].sender == user && rows[id].deletedAt == None && now - rows[id].createdAt <= w.recall
    ensures RecallAnswer(w, rows, user, id, now) == AlreadyDone <==>
      id in rows && rows[id].sender == user && rows[id].deletedAt != None
    ensures RecallAnswer(w, rows, user, id, now) == Refuse(MessageNotFound) <==> id !in rows
    ensures RecallAnswer(w, rows, user, id, now) == Refuse(NotMessageOwner) <==> id in rows && rows[id].sender != user
  {
  }

  /** The row of `id` is `row` now, and every other row is as it was. */
  ghost predicate RowIs(rows: Rows, rows': Rows, id: Uuid, row: Row) {
    && rows'.Keys == rows.Keys + {id} && rows'[id] == row
    && forall other :: other in rows && other != id ==> rows'[other] == rows[other]
  }

  /** A message says `content` and mentions `mentions`, and is otherwise as it was. */
  ghost predicate EditTakesEffect(rows: Rows, rows': Rows, id: Uuid, content: string, mentions: seq<Uuid>)
    requires id in rows
  {
    var r := rows[id];
    RowIs(rows, rows', id, Row(r.conv, r.sender, content, r.createdAt, None, r.replyTo, mentions, r.clientId, r.serial))
  }

  /** A message is deleted at `now` and says only that it was recalled. */
  ghost predicate RecallTakesEffect(rows: Rows, rows': Rows, id: Uuid, now: int)
    requires id in rows
  {
    var r := rows[id];
    RowIs(rows, rows', id, Row(r.conv, r.sender, "[Message recalled]", r.createdAt, Some(now), r.replyTo, r.mentions,
                               r.clientId, r.serial))
  }

  /** A new message under a new id says what its draft says. */
  ghost predicate SendTakesEffect(moment: State, rows': Rows, id: Uuid, draft: Draft, mentions: seq<Uuid>, now: int) {
    && id !in moment.rows && id !in moment.used
    && RowIs(moment.rows, rows', id, Row(draft.conv, draft.sender, draft.content, now, None, draft.replyTo, mentions,
                                         draft.clientId, moment.inserted))
  }

  /** The sender has a message with this client id already, on the day of `now` if it is given. */
  ghost predicate HasClientId(rows: Rows, draft: Draft, now: Option<int>) {
    && draft.clientId.Some?
    && exists id :: id in rows && rows[id].sender == draft.sender && rows[id].clientId == draft.clientId
                    && (now.Some? ==> rows[id].createdAt / 86_400_000 == now.value / 86_400_000)
  }

  lemma ClientIdChecksMean(rows: Rows, draft: Draft, now: int)
    ensures Taken(rows, draft.sender, draft.clientId, Day(now)) <==> HasClientId(rows, draft, Some(now))
    ensures Repeated(rows, draft.sender, draft.clientId) <==> HasClientId(rows, draft, None)
  {
    forall id | id in rows
      ensures SameClientId(rows[id], draft.sender, draft.clientId) <==>
        draft.clientId.Some? && rows[id].sender == draft.sender && rows[id].clientId == draft.clientId
    {}
  }

  lemma OneMore(w: Windows, trace: seq<Step>, step: Step)
    ensures Run(w, trace + [step]) == Apply(w, Run(w, trace), step)
  {
    assert (trace + [step])[..|trace|] == trace;
  }

  /** The target of a reply is not there, was recalled or deleted, or is in another conversation. */
  lemma InvalidReplyMeans(st: State, draft: Draft)
    ensures InvalidReply(st, draft) <==>
      && draft.replyTo.Some?
      && (draft.replyTo.value !in st.rows || st.rows[draft.replyTo.value].deletedAt != None
          || st.rows[draft.replyTo.value].conv != draft.conv)
  {
  }

  predicate InvalidReply(st: State, draft: Draft) {
    draft.replyTo.Some? && !ValidTarget(st.rows, draft.replyTo.value, draft.conv)
  }

  /** What inserting the draft at `moment` answers and leaves behind. */
  ghost predicate InsertOutcome(moment: State, draft: Draft, now: int, r: Outcome<Uuid>, rows: Rows) {
    (r == Failure(StorageConflict) <==> HasClientId(moment.rows, draft, Some(now)))
    && if Taken(moment.rows, draft.sender, draft.clientId, Day(now))
    then r == Failure(StorageConflict) && rows == moment.rows
    else
      && r.Success? && r.value !in moment.used && rows == Inserted(moment, draft, r.value, now).rows
      && SendTakesEffect(moment, rows, r.value, draft, draft.mentions, now)
  }

  class MessageHandler {
    const windows: Windows
    /** The table, and which handlers are between check and write. */
    var db: State
    ghost var trace: seq<Step>

    ghost predicate Traced()
      reads this
    {
      db == Run(windows, trace)
    }

    constructor (windows: Windows)
      ensures this.windows == windows && Traced() && trace == []
    {
      this.windows := windows;
      db, trace := INITIAL, [];
    }

    /** Any number of steps of other handlers and jobs. */
    method Interfere(call: nat)
      requires Traced() && call in db.calls
      modifies this
      ensures Traced() && old(trace) <= trace
      ensures call in db.calls && db.calls[call] == old(db).calls[call]
    {
      var n: nat := *;
      while n > 0
        invariant Traced() && old(trace) <= trace
        invariant call in db.calls && db.calls[call] == old(db).calls[call]
      {
        var step: Step := *;
        if Foreign(step, call) {
          OneMore(windows, trace, step);
          db := Apply(windows, db, step);
          trace := trace + [step];
        }
        n := n - 1;
      }
    }

    /** The handler has passed its check: `step` is that check. */
    method Enter(call: nat, c: Call, ghost step: Step)
      requires Traced() && call !in db.calls && Apply(windows, db, step) == db.(calls := db.calls[call := c])
      modifies this
      ensures Traced() && trace == old(trace) + [step] && db == old(db).(calls := old(db).calls[call := c])
    {
      OneMore(windows, trace, step);
      db := db.(calls := db.calls[call := c]);
      trace := trace + [step];
    }

    method MergeMentions(explicit: seq<Uuid>, parsed: seq<Uuid>) returns (all: seq<Uuid>)
      ensures all == MergedMentions(explicit, parsed)
    {
      all := explicit;
      assert explicit + [] == explicit;
      for i := 0 to |parsed|
        invariant all == MergedMentions(explicit, parsed[..i])
      {
        DistinctNewStep(Elems(explicit), parsed, i);
        var r := DistinctNew(Elems(explicit), parsed[..i]);
        assert parsed[i] in all <==> parsed[i] in explicit || parsed[i] in r;
        if parsed[i] !in all {
          all := all + [parsed[i]];
          assert all == explicit + (r + [parsed[i]]);
        }
      }
      assert parsed[..|parsed|] == parsed;
    }

    /** `storage.edit_message`. */
    method EditMessage(id: Uuid, content: string, mentions: seq<Uuid>) returns (r: Outcome<Row>)
      modifies this`db
      ensures db == old(db).(rows := Edited(old(db).rows, id, content, mentions))
      ensures r == if Live(old(db).rows, id) then Success(db.rows[id]) else Failure(StorageNotFound)
    {
      if id in db.rows && db.rows[id].deletedAt.None? {
        db := db.(rows := db.rows[id := db.rows[id].(content := content, mentions := mentions)]);
        r := Success(db.rows[id]);
      } else {
        r := Failure(StorageNotFound);
      }
    }

    /** `storage.recall_message`. */
    method RecallMessage(id: Uuid, now: int) returns (r: Outcome<()>)
      modifies this`db
      ensures db == old(db).(rows := Recalled(old(db).rows, id, now))
      ensures r == if Live(old(db).rows, id) then Success(()) else Failure(StorageNotFound)
    {
      if id in db.rows && db.rows[id].deletedAt.None? {
        db := db.(rows := db.rows[id := db.rows[id].(deletedAt := Some(now), content := RECALLED)]);
        r := Success(());
      } else {
        r := Failure(StorageNotFound);
      }
    }

    /**
     `handle_edit_message`. `moment` is the state the write meets: whatever has happened since
     the check, the write touches the message only while it lives and is still the caller's.
     */
    method HandleEdit(call: nat, user: Uuid, id: Uuid, content: string, parsed: seq<Uuid>, participants: set<Uuid>,
                      now: int)
      returns (r: Outcome<Row>, ghost moment: State)
      requires Traced() && call !in db.calls
      modifies this
      ensures Traced() && old(trace) <= trace
      ensures
        var refusal := EditRefusal(windows, old(db).rows, user, id, now);
        var mentions := ValidMentions(MergedMentions([], parsed), participants);
        if refusal.Some? then r == Failure(refusal.value) && db == old(db)
        else
          && |trace| > |old(trace)| && moment == Run(windows, trace[..|trace| - 1])
          && db.rows == Edited(moment.rows, id, content, mentions)
          && (if Live(moment.rows, id) then moment.rows[id].sender == user && r == Success(db.rows[id])
              else r == Failure(StorageNotFound))
          && (Live(moment.rows, id) ==>
                EditTakesEffect(moment.rows, db.rows, id, content, mentions) && r.value.content == content)
          && (!Live(moment.rows, id) ==> db.rows == moment.rows)
    {
      moment := db;
      if id !in db.rows {
        return Failure(MessageNotFound), db;
      }
      var message := db.rows[id];
      if message.sender != user {
        return Failure(NotMessageOwner), db;
      }
      if message.deletedAt.Some? {
        return Failure(MessageRecalled), db;
      }
      if now - message.createdAt > windows.edit {
        return Failure(EditWindowExpired), db;
      }
      var all := MergeMentions([], parsed);
      var mentions := ValidMentions(all, participants);
      Enter(call, Editing(user, id, content, mentions, now), EditCheck(call, user, id, content, mentions, now));
      Interfere(call);
      moment := db;
      r := WriteEdit(call, id, content, mentions);
    }

    method WriteEdit(call: nat, id: Uuid, content: string, mentions: seq<Uuid>) returns (r: Outcome<Row>)
      requires Traced() && call in db.calls && db.calls[call].Editing?
      requires var c := db.calls[call]; c.id == id && c.content == content && c.mentions == mentions
      modifies this
      ensures Traced() && trace == old(trace) + [EditWrite(call)]
      ensures db.rows == Edited(old(db).rows, id, content, mentions)
      ensures if Live(old(db).rows, id)
              then old(db).rows[id].sender == old(db).calls[call].user && r == Success(db.rows[id])
              else r == Failure(StorageNotFound)
    {
      RunIsSound(windows, trace);
      assert CallSound(windows, db, db.calls[call]);
      OneMore(windows, trace, EditWrite(call));
      r := EditMessage(id, content, mentions);
      db := db.(calls := db.calls - {call});
      trace := trace + [EditWrite(call)];
    }

    /** `handle_recall_message`. */
    method HandleRecall(call: nat, user: Uuid, id: Uuid, now: int, later: int)
      returns (r: Outcome<()>, ghost moment: State)
      requires Traced() && call !in db.calls
      modifies this
      ensures Traced() && old(trace) <= trace
      ensures
        match RecallAnswer(windows, old(db).rows, user, id, now)
        case Refuse(e) => r == Failure(e) && db == old(db)
        case AlreadyDone => r == Success(()) && db == old(db)
        case Proceed =>
          && |trace| > |old(trace)| && moment == Run(windows, trace[..|trace| - 1])
          && db.rows == Recalled(moment.rows, id, later)
          && (if Live(moment.rows, id) then moment.rows[id].sender == user && r == Success(())
              else r == Failure(StorageNotFound))
          && (Live(moment.rows, id) ==> RecallTakesEffect(moment.rows, db.rows, id, later))
          && (!Live(moment.rows, id) ==> db.rows == moment.rows)
    {
      moment := db;
      if id !in db.rows {
        return Failure(MessageNotFound), db;
      }
      var message := db.rows[id];
      if message.sender != user {
        return Failure(NotMessageOwner), db;
      }
      if message.deletedAt.Some? {
        return Success(()), db;
      }
      if now - message.createdAt > windows.recall {
        return Failure(RecallWindowExpired), db;
      }
      Enter(call, Recalling(user, id, now), RecallCheck(call, user, id, now));
      Interfere(call);
      moment := db;
      r := WriteRecall(call, id, later);
    }

    method WriteRecall(call: nat, id: Uuid, now: int) returns (r: Outcome<()>)
      requires Traced() && call in db.calls && db.calls[call].Recalling? && db.calls[call].id == id
      modifies this
      ensures Traced() && trace == old(trace) + [RecallWrite(call, now)]
      ensures db.rows == Recalled(old(db).rows, id, now)
      ensures if Live(old(db).rows, id) then old(db).rows[id].sender == old(db).calls[call].user && r == Success(())
              else r == Failure(StorageNotFound)
    {
      RunIsSound(windows, trace);
      assert CallSound(windows, db, db.calls[call]);
      OneMore(windows, trace, RecallWrite(call, now));
      r := RecallMessage(id, now);
      db := db.(calls := db.calls - {call});
      trace := trace + [RecallWrite(call, now)];
    }

    /**
     `handle_send_message`, up to the insert. Others may run between the lookup of the client
     id, the validation of the reply target (at step `k`, in `validated`) and the insert (in `moment`).
     */
    method HandleSend(call: nat, draft: Draft, explicit: seq<Uuid>, parsed: seq<Uuid>, participants: set<Uuid>,
                      isParticipant: bool, now: int)
      returns (r: Outcome<Uuid>, ghost k: nat, ghost validated: State, ghost moment: State)
      requires Traced() && call !in db.calls
      modifies this
      ensures Traced() && old(trace) <= trace
      ensures isParticipant && HasClientId(old(db).rows, draft, None) ==>
        && r.Success? && db == old(db) && r.value in db.rows
        && db.rows[r.value].sender == draft.sender && db.rows[r.value].clientId == draft.clientId
      ensures
        var mentions := ValidMentions(MergedMentions(explicit, parsed), participants);
        if !isParticipant then r == Failure(NotParticipant) && db == old(db)
        else if Repeated(old(db).rows, draft.sender, draft.clientId) then
          r.Success? && db == old(db) && r.value in db.rows
            && SameClientId(db.rows[r.value], draft.sender, draft.clientId)
        else
          && |old(trace)| < k < |trace| && validated == Run(windows, trace[..k])
          && (InvalidReply(validated, draft) ==> r == Failure(InvalidReplyTarget) && db.rows == validated.rows)
          && (!InvalidReply(validated, draft) ==>
                && moment == Run(windows, trace[..|trace| - 1])
                && InsertOutcome(moment, draft.(mentions := mentions), now, r, db.rows))
    {
      k, validated, moment := 0, db, db;
      if !isParticipant {
        return Failure(NotParticipant), 0, db, db;
      }
      ClientIdChecksMean(db.rows, draft, now);
      var existing := FindByClientId(draft.sender, draft.clientId);
      if existing.Some? {
        return Success(existing.value), 0, db, db;
      }
      var all := MergeMentions(explicit, parsed);
      var mentions := ValidMentions(all, participants);
      var complete := draft.(mentions := mentions);
      Enter(call, Composing(complete), SendLookup(call, complete));
      r, k, validated, moment := FinishSend(call, complete, now);
    }

    /** The rest of a send, once no message with its client id was found. */
    method FinishSend(call: nat, draft: Draft, now: int)
      returns (r: Outcome<Uuid>, ghost k: nat, ghost validated: State, ghost moment: State)
      requires Traced() && call in db.calls && db.calls[call] == Composing(draft)
      modifies this
      ensures Traced() && old(trace) <= trace
      ensures |old(trace)| <= k < |trace| && validated == Run(windows, trace[..k])
      ensures InvalidReply(validated, draft) ==> r == Failure(InvalidReplyTarget) && db.rows == validated.rows
      ensures !InvalidReply(validated, draft) ==>
        moment == Run(windows, trace[..|trace| - 1]) && InsertOutcome(moment, draft, now, r, db.rows)
    {
      Interfere(call);
      k, validated, moment := |trace|, db, db;
      ghost var before := trace;
      var valid := ValidateReply(call, draft);
      assert trace[..k] == before;
      if valid {
        Interfere(call);
        assert trace[..k] == before;
        moment := db;
        r := WriteSend(call, now);
        assert trace[..k] == before;
      } else {
        r := Failure(InvalidReplyTarget);
      }
    }

    /** `validate_reply_target`, when the message is a reply. */
    method ValidateReply(call: nat, draft: Draft) returns (valid: bool)
      requires Traced() && call in db.calls && db.calls[call] == Composing(draft)
      modifies this
      ensures Traced() && |trace| == |old(trace)| + 1 && trace[..|old(trace)|] == old(trace)
      ensures valid <==> !InvalidReply(old(db), draft)
      ensures db.rows == old(db).rows
      ensures valid ==> call in db.calls && db.calls[call] == Sending(draft)
    {
      valid := true;
      if draft.replyTo.Some? {
        var id := draft.replyTo.value;
        valid := id in db.rows && db.rows[id].conv == draft.conv && db.rows[id].deletedAt.None?;
      }
      OneMore(windows, trace, SendValidate(call));
      if valid {
        db := db.(calls := db.calls[call := Sending(draft)]);
      } else {
        db := db.(calls := db.calls - {call});
      }
      trace := trace + [SendValidate(call)];
    }

    /** `find_by_client_id`: the sender's newest message with this client id. */
    method FindByClientId(sender: Uuid, clientId: Option<string>) returns (r: Option<Uuid>)
      ensures r.None? <==> !Repeated(db.rows, sender, clientId)
      ensures r.Some? ==> r.value in db.rows && SameClientId(db.rows[r.value], sender, clientId)
      ensures r.Some? ==> clientId.Some? && db.rows[r.value].sender == sender && db.rows[r.value].clientId == clientId
      ensures r.Some? ==> forall id :: id in db.rows && SameClientId(db.rows[id], sender, clientId) ==>
                db.rows[id].createdAt <= db.rows[r.value].createdAt
    {
      r := None;
      var left := db.rows.Keys;
      while left != {}
        invariant left <= db.rows.Keys
        invariant r.None? ==> forall id :: id in db.rows && id !in left ==> !SameClientId(db.rows[id], sender, clientId)
        invariant r.Some? ==> r.value in db.rows && SameClientId(db.rows[r.value], sender, clientId)
        invariant r.Some? ==>
          forall id :: id in db.rows && id !in left && SameClientId(db.rows[id], sender, clientId) ==>
                    db.rows[id].createdAt <= db.rows[r.value].createdAt
      {
        var id :| id in left;
        left := left - {id};
        if SameClientId(db.rows[id], sender, clientId)
          && (r.None? || db.rows[id].createdAt > db.rows[r.value].createdAt) {
          r := Some(id);
        }
      }
    }

    method WriteSend(call: nat, now: int) returns (r: Outcome<Uuid>)
      requires Traced() && call in db.calls && db.calls[call].Sending?
      modifies this
      ensures Traced() && |trace| == |old(trace)| + 1 && trace[..|old(trace)|] == old(trace)
      ensures
        InsertOutcome(old(db), old(db).calls[call].draft, now, r, db.rows)
    {
      var c := db.calls[call].draft;
      UnusedId(db.used);
      var id: Uuid :| id !in db.used;
      OneMore(windows, trace, SendInsert(call, id, now));
      ClientIdChecksMean(db.rows, c, now);
      RunIsSound(windows, trace);
      assert id in db.rows ==> RowSound(db, id);
      if Taken(db.rows, c.sender, c.clientId, Day(now)) {
        db := db.(calls := db.calls - {call});
        r := Failure(StorageConflict);
      } else {
        db := db.(rows := db.rows[id := Row(c.conv, c.sender, c.content, now, None, c.replyTo, c.mentions, c.clientId,
                                            db.inserted)],
                  inserted := db.inserted + 1, used := db.used + {id}, calls := db.calls - {call});
        r := Success(id);
      }
      trace := trace + [SendInsert(call, id, now)];
    }
  }

  /** There is always an id that was never used. */
  lemma UnusedId(used: set<Uuid>)
    ensures exists id: Uuid :: id !in used
  {
    var bound := Above(used);
    assert bound !in used;
  }

  ghost function Above(used: set<Uuid>): (n: Uuid)
    ensures forall id :: id in used ==> id < n
  {
    if used == {} then 0
    else
      var x :| x in used;
      var rest := Above(used - {x});
      assert forall id :: id in used ==> id == x || id in used - {x};
      if rest > x then rest else x + 1
  }
}

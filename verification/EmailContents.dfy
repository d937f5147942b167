/**
 Which messages an email brings. A notification joins a queued email in two statements, a SELECT that reads
 the email's list of messages and an UPDATE that writes the list with one more; the UPDATE does not look at
 the status. The processor sends the copy of the list it fetched. Every other step is one of the queue's protocol.
 */
module EmailContents {
  import opened Types
  import opened EmailProtocol

  datatype Settings = Settings(limits: Limits, maxBatchSize: nat)

  /** What the SELECT of a notification has answered. */
  datatype Reading = Reading(id: Uuid, messages: seq<Uuid>)

  /** An email that was sent, with the messages it brought. */
  datatype Mail = Mail(id: Uuid, messages: seq<Uuid>)

  datatype MailState = MailState(
    core: State,
    lists: map<Uuid, seq<Uuid>>,     // the messages of every email ever queued
    reading: map<nat, Reading>,      // notifications between their SELECT and their UPDATE
    copies: map<Uuid, seq<Uuid>>,    // the lists the processor has fetched
    mails: seq<Mail>                 // history: every successful send
  )

  const NO_MAIL := MailState(INITIAL, map[], map[], map[], [])

  datatype MailStep =
    | Open(id: Uuid, user: Uuid, priority: nat, sendAfter: int, message: Uuid)   // INSERT of a new email
    | Find(call: nat, id: Uuid)                                                  // SELECT of a pending one
    | Join(call: nat, message: Uuid, sendAfter: int)                             // UPDATE of the one found
    | Other(step: Step)

  function CopiesOf(lists: map<Uuid, seq<Uuid>>, ids: seq<Uuid>): map<Uuid, seq<Uuid>> {
    map id | id in ids :: Entries(lists, id)
  }

  predicate Fetches(st: State, step: Step) {
    step.Fetch? && st.batch == [] && Ready(st, step.ids)
  }

  predicate Mails(st: State, step: Step) {
    step.Send? && step.ok && st.batch != [] && st.phase == Sending
  }

  function Process(s: Settings, st: MailState, step: Step): MailState {
    if step.Enqueue? || step.Postpone? then st
    else
      st.(core := Apply(s.limits, st.core, step),
          copies := if Fetches(st.core, step) then CopiesOf(st.lists, step.ids) else st.copies,
          mails := if Mails(st.core, step)
                   then st.mails + [Mail(st.core.batch[0].id, Entries(st.copies, st.core.batch[0].id))] else st.mails)
  }

  function ApplyMail(s: Settings, st: MailState, step: MailStep): MailState {
    match step
    case Open(id, user, priority, sendAfter, message) =>
      if id in st.core.used then st
      else st.(core := Apply(s.limits, st.core, Enqueue(id, user, priority, sendAfter)),
               lists := st.lists[id := [message]])
    case Find(call, id) =>
      if && call !in st.reading && id in st.core.rows && st.core.rows[id].status == Pending
         && |Entries(st.lists, id)| < s.maxBatchSize
      then st.(reading := st.reading[call := Reading(id, Entries(st.lists, id))]) else st
    case Join(call, message, sendAfter) =>
      if call in st.reading then Joined(s, st, call, message, sendAfter) else st
    case Other(step) => Process(s, st, step)
  }

  function Joined(s: Settings, st: MailState, call: nat, message: Uuid, sendAfter: int): MailState
    requires call in st.reading
  {
    var found, done := st.reading[call], st.(reading := st.reading - {call});
    if found.id !in st.core.rows then done
    else done.(core := Apply(s.limits, st.core, Postpone(found.id, sendAfter)),
               lists := st.lists[found.id := found.messages + [message]])
  }

  function RunMail(s: Settings, steps: seq<MailStep>): MailState {
    if steps == [] then NO_MAIL else ApplyMail(s, RunMail(s, steps[..|steps| - 1]), steps[|steps| - 1])
  }
}

/** Where a message that joined an email ends up. */
module EmailContentsSafety {
  import opened Types
  import opened EmailProtocol
  import opened EmailSafety
  import opened EmailContents

  // ---- The queue's protocol goes on underneath.

  lemma {:induction false} CoreIsARun(s: Settings, steps: seq<MailStep>) returns (core: seq<Step>)
    ensures RunMail(s, steps).core == Run(s.limits, core)
  {
    core := [];
    if steps != [] {
      var before, last := RunMail(s, steps[..|steps| - 1]), steps[|steps| - 1];
      var init := CoreIsARun(s, steps[..|steps| - 1]);
      core := init;
      var step := CoreStep(before, last);
      if step.Some? {
        OneMore(s.limits, init, step.value);
        core := init + [step.value];
      }
    }
  }

  /** The protocol's step underneath, if there is one. */
  function CoreStep(st: MailState, step: MailStep): Option<Step> {
    match step
    case Open(id, user, priority, sendAfter, _) => Some(Enqueue(id, user, priority, sendAfter))
    case Find(_, _) => None
    case Join(call, _, sendAfter) => if call in st.reading then Some(Postpone(st.reading[call].id, sendAfter)) else None
    case Other(step) => if step.Enqueue? || step.Postpone? then None else Some(step)
  }

  ghost predicate CoreSound(s: Settings, st: MailState) {
    Sound(s.limits, st.core) && WithinBudget(s.limits, st.core)
  }

  lemma CoreStaysSound(s: Settings, steps: seq<MailStep>)
    ensures CoreSound(s, RunMail(s, steps))
  {
    var core := CoreIsARun(s, steps);
    RunIsSound(s.limits, core);
    RunKeepsBudget(s.limits, core);
  }

  // ---- The mails are the sends.

  ghost predicate Mirrors(st: MailState) {
    && |st.mails| == |st.core.sent| && (forall i :: 0 <= i < |st.mails| ==> st.mails[i].id == st.core.sent[i].id)
    && (forall id :: id in st.lists || id in st.core.rows ==> id in st.core.used)
  }

  lemma {:induction false} RunMirrors(s: Settings, steps: seq<MailStep>)
    ensures Mirrors(RunMail(s, steps))
  {
    if steps != [] {
      RunMirrors(s, steps[..|steps| - 1]);
      CoreStaysSound(s, steps[..|steps| - 1]);
      MirrorsOneMore(s, RunMail(s, steps[..|steps| - 1]), steps[|steps| - 1]);
    }
  }

  lemma MirrorsOneMore(s: Settings, st: MailState, step: MailStep)
    requires Mirrors(st)
    ensures Mirrors(ApplyMail(s, st, step))
  {
  }

  /** Every mail brings the list that its email had when the processor fetched it. */
  ghost predicate WasFetched(s: Settings, steps: seq<MailStep>, id: Uuid, messages: seq<Uuid>) {
    exists k :: 0 <= k < |steps| && FetchedAt(s, steps, k, id, messages)
  }

  ghost predicate FetchedAt(s: Settings, steps: seq<MailStep>, k: nat, id: Uuid, messages: seq<Uuid>)
    requires k < |steps|
  {
    && steps[k].Other? && Fetches(RunMail(s, steps[..k]).core, steps[k].step) && id in steps[k].step.ids
    && messages == Entries(RunMail(s, steps[..k]).lists, id)
  }

  lemma StillFetched(s: Settings, steps: seq<MailStep>, id: Uuid, messages: seq<Uuid>)
    requires steps != [] && WasFetched(s, steps[..|steps| - 1], id, messages)
    ensures WasFetched(s, steps, id, messages)
  {
    var init := steps[..|steps| - 1];
    var k :| 0 <= k < |init| && FetchedAt(s, init, k, id, messages);
    assert steps[..k] == init[..k];
    assert FetchedAt(s, steps, k, id, messages);
  }

  ghost predicate AllFetched(s: Settings, steps: seq<MailStep>, st: MailState) {
    && (forall mail :: mail in st.mails ==> WasFetched(s, steps, mail.id, mail.messages))
    && (forall email :: email in st.core.batch ==> WasFetched(s, steps, email.id, Entries(st.copies, email.id)))
  }

  /** Only a fetch brings something new into the batch. */
  lemma BatchShrinks(l: Limits, st: State, step: Step)
    requires !Fetches(st, step)
    ensures forall email :: email in Apply(l, st, step).batch ==> email in st.batch
  {
  }

  lemma StepShrinks(s: Settings, st: MailState, step: MailStep)
    requires !(step.Other? && Fetches(st.core, step.step))
    ensures forall email :: email in ApplyMail(s, st, step).core.batch ==> email in st.core.batch
    ensures ApplyMail(s, st, step).copies == st.copies
  {
    if CoreStep(st, step).Some? {
      BatchShrinks(s.limits, st.core, CoreStep(st, step).value);
    }
  }

  lemma FetchTakesLists(s: Settings, st: MailState, step: Step, email: Email)
    requires Fetches(st.core, step) && email in Process(s, st, step).core.batch
    ensures email.id in step.ids && Entries(Process(s, st, step).copies, email.id) == Entries(st.lists, email.id)
  {
  }

  lemma StepMails(s: Settings, st: MailState, step: MailStep)
    ensures forall mail :: mail in ApplyMail(s, st, step).mails && mail !in st.mails ==>
              st.core.batch != [] && mail == Mail(st.core.batch[0].id, Entries(st.copies, st.core.batch[0].id))
  {
  }

  lemma MailsOneMore(s: Settings, steps: seq<MailStep>)
    requires steps != [] && AllFetched(s, steps[..|steps| - 1], RunMail(s, steps[..|steps| - 1]))
    ensures forall mail :: mail in RunMail(s, steps).mails ==> WasFetched(s, steps, mail.id, mail.messages)
  {
    var n := |steps| - 1;
    var st, st' := RunMail(s, steps[..n]), RunMail(s, steps);
    StepMails(s, st, steps[n]);
    forall mail | mail in st'.mails ensures WasFetched(s, steps, mail.id, mail.messages) {
      if mail !in st.mails {
        assert st.core.batch[0] in st.core.batch;
      }
      StillFetched(s, steps, mail.id, mail.messages);
    }
  }

  lemma BatchOneMore(s: Settings, steps: seq<MailStep>, email: Email)
    requires steps != [] && AllFetched(s, steps[..|steps| - 1], RunMail(s, steps[..|steps| - 1]))
    requires email in RunMail(s, steps).core.batch
    ensures WasFetched(s, steps, email.id, Entries(RunMail(s, steps).copies, email.id))
  {
    var n := |steps| - 1;
    var st := RunMail(s, steps[..n]);
    if steps[n].Other? && Fetches(st.core, steps[n].step) {
      FetchTakesLists(s, st, steps[n].step, email);
      assert FetchedAt(s, steps, n, email.id, Entries(st.lists, email.id));
    } else {
      StepShrinks(s, st, steps[n]);
      StillFetched(s, steps, email.id, Entries(st.copies, email.id));
    }
  }

  lemma FetchedOneMore(s: Settings, steps: seq<MailStep>)
    requires steps != [] && AllFetched(s, steps[..|steps| - 1], RunMail(s, steps[..|steps| - 1]))
    ensures AllFetched(s, steps, RunMail(s, steps))
  {
    MailsOneMore(s, steps);
    forall email | email in RunMail(s, steps).core.batch
      ensures WasFetched(s, steps, email.id, Entries(RunMail(s, steps).copies, email.id))
    {
      BatchOneMore(s, steps, email);
    }
  }

  lemma {:induction false} RunAllFetched(s: Settings, steps: seq<MailStep>)
    ensures AllFetched(s, steps, RunMail(s, steps))
  {
    if steps != [] {
      RunAllFetched(s, steps[..|steps| - 1]);
      FetchedOneMore(s, steps);
    }
  }

  // ---- One mail for each email, for good.

  lemma {:induction false} SentTwice(sent: seq<Email>, i: nat, j: nat)
    requires i < j < |sent| && sent[i].id == sent[j].id
    ensures SentTo(sent, sent[i].id) >= 2
  {
    var init := sent[..|sent| - 1];
    if j < |sent| - 1 {
      SentTwice(init, i, j);
    } else {
      SentOnce(init, i);
    }
  }

  lemma {:induction false} SentOnce(sent: seq<Email>, i: nat)
    requires i < |sent|
    ensures SentTo(sent, sent[i].id) >= 1
  {
    if i < |sent| - 1 {
      SentOnce(sent[..|sent| - 1], i);
    }
  }

  lemma {:induction false} SentSomewhere(sent: seq<Email>, id: Uuid) returns (i: nat)
    requires SentTo(sent, id) >= 1
    ensures i < |sent| && sent[i].id == id
  {
    if sent[|sent| - 1].id == id {
      i := |sent| - 1;
    } else {
      i := SentSomewhere(sent[..|sent| - 1], id);
    }
  }

  /** In every run each email is mailed at most once, with the list it had at some fetch. */
  lemma OneMailWithTheFetchedList(s: Settings, steps: seq<MailStep>)
    ensures
      var mails := RunMail(s, steps).mails;
      && (forall i, j :: 0 <= i < j < |mails| ==> mails[i].id != mails[j].id)
      && (forall mail :: mail in mails ==> WasFetched(s, steps, mail.id, mail.messages))
  {
    RunAllFetched(s, steps);
    RunMirrors(s, steps);
    CoreStaysSound(s, steps);
    var st := RunMail(s, steps);
    forall i, j | 0 <= i < j < |st.mails| ensures st.mails[i].id != st.mails[j].id {
      assert EmailSound(s.limits, st.core, st.mails[i].id);
      if st.mails[i].id == st.mails[j].id {
        SentTwice(st.core.sent, i, j);
      }
    }
  }

  ghost predicate Mailed(st: MailState, id: Uuid, message: Uuid) {
    exists mail :: mail in st.mails && mail.id == id && message in mail.messages
  }

  lemma {:induction false} MailsStay(s: Settings, steps: seq<MailStep>, more: seq<MailStep>)
    ensures RunMail(s, steps).mails <= RunMail(s, steps + more).mails
  {
    if more == [] {
      assert steps + more == steps;
    } else {
      var n := |more| - 1;
      assert (steps + more)[..|steps + more| - 1] == steps + more[..n];
      MailsStay(s, steps, more[..n]);
    }
  }

  /** Once an email has been sent, what it has brought is final: whatever joins it later is in no mail of it. */
  lemma SentIsFinal(s: Settings, steps: seq<MailStep>, more: seq<MailStep>, id: Uuid, message: Uuid)
    requires Sends(RunMail(s, steps).core, id) >= 1
    ensures Mailed(RunMail(s, steps + more), id, message) <==> Mailed(RunMail(s, steps), id, message)
  {
    var st, st' := RunMail(s, steps), RunMail(s, steps + more);
    MailsStay(s, steps, more);
    RunMirrors(s, steps);
    OneMailWithTheFetchedList(s, steps + more);
    var i := SentSomewhere(st.core.sent, id);
    if Mailed(st', id, message) {
      var mail :| mail in st'.mails && mail.id == id && message in mail.messages;
      var j :| 0 <= j < |st'.mails| && st'.mails[j] == mail;
      assert st'.mails[i].id == id && i == j;
      assert mail in st.mails;
    }
  }
}

/** When a message in the queue may still be mailed. */
module EmailContentsFate {
  import opened Types
  import opened EmailProtocol
  import opened EmailSafety
  import opened EmailContents
  import opened EmailContentsSafety

  /** The copy of the email in the processor's hands may still be sent. */
  ghost predicate CopyMayBeSent(st: State, id: Uuid) {
    Waiting(st, id) || (Busy(st, id) && (st.phase == Checking || st.phase == Sending))
  }

  /** The email may be fetched once more: it is pending, or may fail and be requeued with attempts to spare. */
  ghost predicate MayBeFetched(l: Limits, st: State, id: Uuid) {
    && id in st.rows
    && match st.rows[id].status
       case Pending => true
       case Failed => st.rows[id].retryCount < l.maxRetries
       case Cancelled => Waiting(st, id) && st.rows[id].retryCount + 1 < l.maxRetries
       case Processing =>
         && Busy(st, id) && (st.phase == Checking || st.phase == Sending || st.phase == MarkingFailed)
         && st.rows[id].retryCount + 1 < l.maxRetries
       case Sent => false
  }

  ghost predicate MayBeMailed(s: Settings, steps: seq<MailStep>, id: Uuid, message: Uuid) {
    exists more :: Mailed(RunMail(s, steps + more), id, message)
  }

  // ---- When it is too late, it stays so.

  lemma OthersFetchNothing(l: Limits, st: State, step: Step, id: Uuid)
    requires EmailSound(l, st, id) && id in st.used && !MayBeFetched(l, st, id)
    requires step.Enqueue? || step.Postpone? || step.Cancel? || step.Requeue? || step.Cleanup? || step.Tick?
    ensures !MayBeFetched(l, Apply(l, st, step), id)
    ensures CopyMayBeSent(Apply(l, st, step), id) <==> CopyMayBeSent(st, id)
  {
    var st' := Apply(l, st, step);
    assert Waiting(st', id) <==> Waiting(st, id);
  }

  lemma FetchLeavesItOut(l: Limits, st: State, ids: seq<Uuid>, id: Uuid)
    requires EmailSound(l, st, id) && !MayBeFetched(l, st, id) && Fetches(st, Fetch(ids))
    ensures !MayBeFetched(l, Apply(l, st, Fetch(ids)), id) && !CopyMayBeSent(Apply(l, st, Fetch(ids)), id)
  {
    var st' := Apply(l, st, Fetch(ids));
    assert id !in ids;
    forall i | 0 <= i < |st'.batch| ensures st'.batch[i].id != id {
      assert st'.batch[i].id == ids[i];
    }
  }

  lemma MovingFetchesNothing(l: Limits, st: State, step: Step, id: Uuid)
    requires DistinctBatch(st) && EmailSound(l, st, id) && !MayBeFetched(l, st, id) && st.batch != []
    requires
      || (step.MarkProcessing? && st.phase == Marking) || (step.CheckLimit? && st.phase == Checking)
      || (step.Send? && st.phase == Sending) || (step.MarkSent? && st.phase == MarkingSent)
    ensures !MayBeFetched(l, Apply(l, st, step), id)
    ensures CopyMayBeSent(Apply(l, st, step), id) ==> CopyMayBeSent(st, id)
  {
    SameWaiting(st, Apply(l, st, step), id);
  }

  lemma FinishingFetchesNothing(l: Limits, st: State, step: Step, id: Uuid)
    requires DistinctBatch(st) && EmailSound(l, st, id) && !MayBeFetched(l, st, id) && st.batch != []
    requires
      || (step.Skip? && st.phase == Marking) || (step.Count? && st.phase == Counting)
      || (step.MarkFailed? && st.phase == MarkingFailed)
    ensures !MayBeFetched(l, Apply(l, st, step), id)
    ensures CopyMayBeSent(Apply(l, st, step), id) ==> CopyMayBeSent(st, id)
  {
    var st' := Apply(l, st, step);
    NextWaiting(st, id);
    NextWaiting(st.(rows := st'.rows, counted := st'.counted), id);
    assert st' == Next(st.(rows := st'.rows, counted := st'.counted));
  }

  lemma GivingUpFetchesNothing(l: Limits, st: State, id: Uuid)
    requires EmailSound(l, st, id) && !MayBeFetched(l, st, id)
    ensures !MayBeFetched(l, Apply(l, st, GiveUp), id) && !CopyMayBeSent(Apply(l, st, GiveUp), id)
  {
  }

  /** An email that may not be fetched again stays so, and its copy's chance does not come back. */
  lemma StaysUnfetched(l: Limits, st: State, step: Step, id: Uuid)
    requires Sound(l, st) && id in st.used && !MayBeFetched(l, st, id)
    ensures !MayBeFetched(l, Apply(l, st, step), id)
    ensures CopyMayBeSent(Apply(l, st, step), id) ==> CopyMayBeSent(st, id) && !Fetches(st, step)
  {
    assert EmailSound(l, st, id);
    match step {
      case Fetch(ids) => if Fetches(st, step) { FetchLeavesItOut(l, st, ids, id); }
      case Skip => if st.batch != [] && st.phase == Marking { FinishingFetchesNothing(l, st, step, id); }
      case MarkProcessing => if st.batch != [] && st.phase == Marking { MovingFetchesNothing(l, st, step, id); }
      case CheckLimit => if st.batch != [] && st.phase == Checking { MovingFetchesNothing(l, st, step, id); }
      case Send(_) => if st.batch != [] && st.phase == Sending { MovingFetchesNothing(l, st, step, id); }
      case MarkSent => if st.batch != [] && st.phase == MarkingSent { MovingFetchesNothing(l, st, step, id); }
      case Count => if st.batch != [] && st.phase == Counting { FinishingFetchesNothing(l, st, step, id); }
      case MarkFailed => if st.batch != [] && st.phase == MarkingFailed { FinishingFetchesNothing(l, st, step, id); }
      case GiveUp => GivingUpFetchesNothing(l, st, id);
      case _ => OthersFetchNothing(l, st, step, id);
    }
  }

  ghost predicate CopyMayBring(st: MailState, id: Uuid, message: Uuid) {
    CopyMayBeSent(st.core, id) && message in Entries(st.copies, id)
  }

  /** The message is in no mail of the email, and nothing can bring it into one. */
  ghost predicate TooLate(s: Settings, st: MailState, id: Uuid, message: Uuid) {
    && id in st.core.used && !MayBeFetched(s.limits, st.core, id)
    && !CopyMayBring(st, id, message) && !Mailed(st, id, message)
  }

  lemma MailBringsTheCopy(s: Settings, st: MailState, step: MailStep, id: Uuid, message: Uuid)
    requires !CopyMayBring(st, id, message) && !Mailed(st, id, message)
    ensures !Mailed(ApplyMail(s, st, step), id, message)
  {
    var st' := ApplyMail(s, st, step);
    forall mail | mail in st'.mails && mail.id == id ensures message !in mail.messages {
      if mail !in st.mails {
        assert step.Other? && Mails(st.core, step.step);
        assert Busy(st.core, id) && mail.messages == Entries(st.copies, id);
      }
    }
  }

  lemma StaysTooLate(s: Settings, st: MailState, step: MailStep, id: Uuid, message: Uuid)
    requires CoreSound(s, st) && TooLate(s, st, id, message)
    ensures TooLate(s, ApplyMail(s, st, step), id, message)
  {
    MailBringsTheCopy(s, st, step, id, message);
    if CoreStep(st, step).Some? {
      StaysUnfetched(s.limits, st.core, CoreStep(st, step).value, id);
    }
  }

  lemma {:induction false} TooLateForGood(s: Settings, steps: seq<MailStep>, more: seq<MailStep>, id: Uuid,
                                          message: Uuid)
    requires TooLate(s, RunMail(s, steps), id, message)
    ensures TooLate(s, RunMail(s, steps + more), id, message)
  {
    if more == [] {
      assert steps + more == steps;
    } else {
      var n := |more| - 1;
      assert (steps + more)[..|steps + more| - 1] == steps + more[..n];
      TooLateForGood(s, steps, more[..n], id, message);
      CoreStaysSound(s, steps + more[..n]);
      StaysTooLate(s, RunMail(s, steps + more[..n]), more[n], id, message);
    }
  }

  // ---- Until then, some continuation mails it.

  function ContinueMail(s: Settings, st: MailState, more: seq<MailStep>): MailState
    decreases |more|
  {
    if more == [] then st else ContinueMail(s, ApplyMail(s, st, more[0]), more[1..])
  }

  lemma OneMailMore(s: Settings, steps: seq<MailStep>, step: MailStep)
    ensures RunMail(s, steps + [step]) == ApplyMail(s, RunMail(s, steps), step)
  {
    assert (steps + [step])[..|steps|] == steps;
  }

  lemma {:induction false} RunMailContinues(s: Settings, steps: seq<MailStep>, more: seq<MailStep>)
    ensures RunMail(s, steps + more) == ContinueMail(s, RunMail(s, steps), more)
    decreases |more|
  {
    if more == [] {
      assert steps + more == steps;
    } else {
      var step, rest := more[0], more[1..];
      OneMailMore(s, steps, step);
      RunMailContinues(s, steps + [step], rest);
      SplitFirst(steps, more);
    }
  }

  /** The processor takes `step` first. */
  lemma First(s: Settings, st: MailState, step: Step, rest: seq<MailStep>)
    requires !step.Enqueue? && !step.Postpone?
    ensures ContinueMail(s, st, [Other(step)] + rest) == ContinueMail(s, Process(s, st, step), rest)
    ensures Process(s, st, step).core == Apply(s.limits, st.core, step) && Process(s, st, step).lists == st.lists
    ensures !step.Fetch? ==> Process(s, st, step).copies == st.copies
  {
    assert ([Other(step)] + rest)[1..] == rest;
  }

  lemma SendingMails(s: Settings, st: MailState, id: Uuid, message: Uuid) returns (more: seq<MailStep>)
    requires st.core.batch != [] && st.core.batch[0].id == id && st.core.phase == Sending
    requires message in Entries(st.copies, id)
    ensures Mailed(ContinueMail(s, st, more), id, message)
  {
    more := [Other(Send(true))] + [];
    First(s, st, Send(true), []);
    assert Mail(id, Entries(st.copies, id)) in Process(s, st, Send(true)).mails;
  }

  lemma CheckingMails(s: Settings, st: MailState, id: Uuid, message: Uuid) returns (more: seq<MailStep>)
    requires AsI16(s.limits.maxPerHour) >= 1 && WithinBudget(s.limits, st.core)
    requires st.core.batch != [] && st.core.batch[0].id == id && st.core.phase == Checking
    requires message in Entries(st.copies, id)
    ensures Mailed(ContinueMail(s, st, more), id, message)
  {
    var later := Process(s, st, Tick);
    var allowed := Process(s, later, CheckLimit);
    assert Emails(later.core.counted, st.core.batch[0].user, later.core.hour) == 0;
    assert allowed.core.phase == Sending;
    var rest := SendingMails(s, allowed, id, message);
    more := [Other(Tick)] + ([Other(CheckLimit)] + rest);
    First(s, st, Tick, [Other(CheckLimit)] + rest);
    First(s, later, CheckLimit, rest);
  }

  /** The email's turn comes when the batch before it has been worked off, and it brings its copy. */
  lemma {:induction false} WaitingMails(s: Settings, st: MailState, id: Uuid, message: Uuid, k: nat)
    returns (more: seq<MailStep>)
    requires AsI16(s.limits.maxPerHour) >= 1 && WithinBudget(s.limits, st.core)
    requires k < |st.core.batch| && st.core.batch[k].id == id && (k > 0 || st.core.phase == Marking)
    requires message in Entries(st.copies, id)
    ensures Mailed(ContinueMail(s, st, more), id, message)
    decreases k, StepsLeft(st.core.phase)
  {
    var step := if k == 0 then MarkProcessing else Onward(st.core.phase);
    var st' := Process(s, st, step);
    ApplyKeepsBudget(s.limits, st.core, step);
    var rest;
    if k == 0 {
      rest := CheckingMails(s, st', id, message);
    } else {
      OnwardMoves(s.limits, st.core, id, k);
      rest := WaitingMails(s, st', id, message, Position(st.core, st'.core, k));
    }
    more := [Other(step)] + rest;
    First(s, st, step, rest);
  }

  /** What the copy brings may still be mailed. */
  lemma CopyMails(s: Settings, st: MailState, id: Uuid, message: Uuid) returns (more: seq<MailStep>)
    requires AsI16(s.limits.maxPerHour) >= 1 && WithinBudget(s.limits, st.core) && CopyMayBring(st, id, message)
    ensures Mailed(ContinueMail(s, st, more), id, message)
  {
    if Waiting(st.core, id) {
      var k :| 0 <= k < |st.core.batch| && st.core.batch[k].id == id && (k > 0 || st.core.phase == Marking);
      more := WaitingMails(s, st, id, message, k);
    } else if st.core.phase == Checking {
      more := CheckingMails(s, st, id, message);
    } else {
      more := SendingMails(s, st, id, message);
    }
  }

  /** A pending email is fetched once the processor starts over. */
  lemma PendingMails(s: Settings, st: MailState, id: Uuid, message: Uuid) returns (more: seq<MailStep>)
    requires AsI16(s.limits.maxPerHour) >= 1 && WithinBudget(s.limits, st.core)
    requires id in st.core.rows && st.core.rows[id].status == Pending && message in Entries(st.lists, id)
    ensures Mailed(ContinueMail(s, st, more), id, message)
  {
    var idle := Process(s, st, GiveUp);
    var fetched := Process(s, idle, Fetch([id]));
    First(s, st, GiveUp, []);
    assert Ready(idle.core, [id]);
    assert fetched.core.batch[0].id == id && message in Entries(fetched.copies, id);
    var rest := WaitingMails(s, fetched, id, message, 0);
    more := [Other(GiveUp)] + ([Other(Fetch([id]))] + rest);
    First(s, st, GiveUp, [Other(Fetch([id]))] + rest);
    First(s, idle, Fetch([id]), rest);
  }

  /** One that has failed and has attempts to spare is requeued. */
  lemma FailedMails(s: Settings, st: MailState, id: Uuid, message: Uuid) returns (more: seq<MailStep>)
    requires AsI16(s.limits.maxPerHour) >= 1 && WithinBudget(s.limits, st.core)
    requires id in st.core.rows && st.core.rows[id].status == Failed && message in Entries(st.lists, id)
    requires st.core.rows[id].retryCount < s.limits.maxRetries
    ensures Mailed(ContinueMail(s, st, more), id, message)
  {
    ApplyKeepsBudget(s.limits, st.core, Requeue(0));
    First(s, st, Requeue(0), []);
    var rest := PendingMails(s, Process(s, st, Requeue(0)), id, message);
    more := [Other(Requeue(0))] + rest;
    First(s, st, Requeue(0), rest);
  }

  /** One that is being attempted may fail. */
  lemma {:induction false} AttemptedMails(s: Settings, st: MailState, id: Uuid, message: Uuid)
    returns (more: seq<MailStep>)
    requires AsI16(s.limits.maxPerHour) >= 1 && WithinBudget(s.limits, st.core)
    requires id in st.core.rows && st.core.rows[id].retryCount + 1 < s.limits.maxRetries
      && message in Entries(st.lists, id)
    requires st.core.batch != [] && st.core.batch[0].id == id
    requires st.core.phase == Checking || st.core.phase == Sending || st.core.phase == MarkingFailed
    ensures Mailed(ContinueMail(s, st, more), id, message)
    decreases StepsLeft(st.core.phase)
  {
    var step := Onward(st.core.phase);
    var st' := Process(s, st, step);
    ApplyKeepsBudget(s.limits, st.core, step);
    First(s, st, step, []);
    var rest;
    if st.core.phase == MarkingFailed {
      rest := FailedMails(s, st', id, message);
    } else {
      rest := AttemptedMails(s, st', id, message);
    }
    more := [Other(step)] + rest;
    First(s, st, step, rest);
  }

  lemma OnwardKeepsRow(l: Limits, st: State, id: Uuid, k: nat)
    requires DistinctBatch(st) && 0 < k < |st.batch| && st.batch[k].id == id && id in st.rows
    ensures
      var st' := Apply(l, st, Onward(st.phase));
      id in st'.rows && st'.rows[id] == st.rows[id]
  {
    assert st.batch[0].id != id;
  }

  /** One that was cancelled after the fetch will be attempted, and may fail. */
  lemma {:induction false} CancelledMails(s: Settings, st: MailState, id: Uuid, message: Uuid, k: nat)
    returns (more: seq<MailStep>)
    requires AsI16(s.limits.maxPerHour) >= 1 && WithinBudget(s.limits, st.core) && DistinctBatch(st.core)
    requires id in st.core.rows && st.core.rows[id].retryCount + 1 < s.limits.maxRetries
      && message in Entries(st.lists, id)
    requires k < |st.core.batch| && st.core.batch[k].id == id && (k > 0 || st.core.phase == Marking)
    ensures Mailed(ContinueMail(s, st, more), id, message)
    decreases k, StepsLeft(st.core.phase)
  {
    var step := if k == 0 then MarkProcessing else Onward(st.core.phase);
    var st' := Process(s, st, step);
    ApplyKeepsBudget(s.limits, st.core, step);
    BatchStaysDistinct(s.limits, st.core, step);
    First(s, st, step, []);
    var rest;
    if k == 0 {
      rest := AttemptedMails(s, st', id, message);
    } else {
      OnwardMoves(s.limits, st.core, id, k);
      OnwardKeepsRow(s.limits, st.core, id, k);
      rest := CancelledMails(s, st', id, message, Position(st.core, st'.core, k));
    }
    more := [Other(step)] + rest;
    First(s, st, step, rest);
  }

  lemma FetchedAgainMails(s: Settings, st: MailState, id: Uuid, message: Uuid) returns (more: seq<MailStep>)
    requires AsI16(s.limits.maxPerHour) >= 1 && CoreSound(s, st)
    requires MayBeFetched(s.limits, st.core, id) && message in Entries(st.lists, id)
    ensures Mailed(ContinueMail(s, st, more), id, message)
  {
    match st.core.rows[id].status {
      case Pending => more := PendingMails(s, st, id, message);
      case Failed => more := FailedMails(s, st, id, message);
      case Processing => more := AttemptedMails(s, st, id, message);
      case Cancelled =>
        var k :| 0 <= k < |st.core.batch| && st.core.batch[k].id == id && (k > 0 || st.core.phase == Marking);
        more := CancelledMails(s, st, id, message, k);
    }
  }

  lemma MailsWhenEither(s: Settings, steps: seq<MailStep>, id: Uuid, message: Uuid)
    requires AsI16(s.limits.maxPerHour) >= 1 && message in Entries(RunMail(s, steps).lists, id)
    requires MayBeFetched(s.limits, RunMail(s, steps).core, id) || CopyMayBring(RunMail(s, steps), id, message)
    ensures MayBeMailed(s, steps, id, message)
  {
    var st := RunMail(s, steps);
    CoreStaysSound(s, steps);
    var more;
    if CopyMayBring(st, id, message) {
      more := CopyMails(s, st, id, message);
    } else {
      more := FetchedAgainMails(s, st, id, message);
    }
    RunMailContinues(s, steps, more);
  }

  lemma NoMailWithoutSends(s: Settings, steps: seq<MailStep>)
    requires AsI16(s.limits.maxPerHour) <= 0
    ensures RunMail(s, steps).mails == []
  {
    var core := CoreIsARun(s, steps);
    NothingIsSent(s.limits, core);
    RunMirrors(s, steps);
  }

  /**
   In every run, a queued message that has not been mailed may still be mailed with its email if and only
   if the limit lets anything through and the copy in the processor's hands brings it and may still be
   sent, or the email may be fetched once more.
   */
  lemma MayBeMailedExactlyWhen(s: Settings, steps: seq<MailStep>, id: Uuid, message: Uuid)
    requires message in Entries(RunMail(s, steps).lists, id) && !Mailed(RunMail(s, steps), id, message)
    ensures
      MayBeMailed(s, steps, id, message) <==>
        && AsI16(s.limits.maxPerHour) >= 1
        && (CopyMayBring(RunMail(s, steps), id, message) || MayBeFetched(s.limits, RunMail(s, steps).core, id))
  {
    var st := RunMail(s, steps);
    RunMirrors(s, steps);
    if AsI16(s.limits.maxPerHour) <= 0 {
      forall more ensures !Mailed(RunMail(s, steps + more), id, message) {
        NoMailWithoutSends(s, steps + more);
      }
    } else if CopyMayBring(st, id, message) || MayBeFetched(s.limits, st.core, id) {
      MailsWhenEither(s, steps, id, message);
    } else {
      forall more ensures !Mailed(RunMail(s, steps + more), id, message) {
        TooLateForGood(s, steps, more, id, message);
      }
    }
  }

  // ---- Two runs that lose a message.

  lemma Reaches(s: Settings, steps: seq<MailStep>, step: MailStep, before: MailState, after: MailState)
    requires RunMail(s, steps) == before && ApplyMail(s, before, step) == after
    ensures RunMail(s, steps + [step]) == after
  {
    OneMailMore(s, steps, step);
  }

  const ONE_QUEUED := INITIAL.(rows := map[1 := Row(7, Pending, 0, 1, 0)], used := {1})
  const FOUND := MailState(ONE_QUEUED, map[1 := [11]], map[0 := Reading(1, [11])], map[], [])
  const FIND_ONE := [Open(1, 7, 1, 0, 11)] + [Find(0, 1)]

  lemma OneFound(s: Settings)
    requires s.maxBatchSize >= 2
    ensures RunMail(s, FIND_ONE) == FOUND
  {
    var queued := MailState(ONE_QUEUED, map[1 := [11]], map[], map[], []);
    assert RunMail(s, []) == NO_MAIL && [] + [Open(1, 7, 1, 0, 11)] == [Open(1, 7, 1, 0, 11)];
    Reaches(s, [], Open(1, 7, 1, 0, 11), NO_MAIL, queued);
    Reaches(s, [Open(1, 7, 1, 0, 11)], Find(0, 1), queued, FOUND);
  }

  const SENT_ONE := FIND_ONE + [Other(Fetch([1]))] + [Other(MarkProcessing)] + [Other(CheckLimit)] + [Other(Send(true))]
  const SENT_STATE := FOUND.(
    core := ONE_QUEUED.(rows := map[1 := Row(7, Processing, 0, 1, 0)], batch := [Email(1, 7)], phase := MarkingSent,
                        attempted := [1], sent := [Email(1, 7)]),
    copies := map[1 := [11]], mails := [Mail(1, [11])])

  const FETCHED_ONE := FOUND.(core := ONE_QUEUED.(batch := [Email(1, 7)]), copies := map[1 := [11]])
  const MARKED_ONE := FETCHED_ONE.(
    core := FETCHED_ONE.core.(rows := map[1 := Row(7, Processing, 0, 1, 0)], phase := Checking, attempted := [1]))

  lemma OneFetched(s: Settings)
    ensures ApplyMail(s, FOUND, Other(Fetch([1]))) == FETCHED_ONE
  {
    assert EmailsOf(ONE_QUEUED.rows, [1]) == [Email(1, 7)] && CopiesOf(FOUND.lists, [1]) == map[1 := [11]];
  }

  lemma OneMarked(s: Settings)
    ensures ApplyMail(s, FETCHED_ONE, Other(MarkProcessing)) == MARKED_ONE
  {
  }

  lemma OneMailed(s: Settings)
    requires AsI16(s.limits.maxPerHour) >= 1
    ensures
      var allowed := ApplyMail(s, MARKED_ONE, Other(CheckLimit));
      ApplyMail(s, allowed, Other(Send(true))) == SENT_STATE
  {
    assert Emails([], 7, 0) == 0;
    assert MARKED_ONE.core.counted == [];
    assert ApplyMail(s, MARKED_ONE, Other(CheckLimit)) == MARKED_ONE.(core := MARKED_ONE.core.(phase := Sending));
  }

  lemma OneSent(s: Settings)
    requires s.maxBatchSize >= 2 && AsI16(s.limits.maxPerHour) >= 1
    ensures RunMail(s, SENT_ONE) == SENT_STATE
  {
    OneFound(s);
    OneFetched(s);
    OneMarked(s);
    OneMailed(s);
    var checked := ApplyMail(s, MARKED_ONE, Other(CheckLimit));
    Reaches(s, FIND_ONE, Other(Fetch([1])), FOUND, FETCHED_ONE);
    Reaches(s, FIND_ONE + [Other(Fetch([1]))], Other(MarkProcessing), FETCHED_ONE, MARKED_ONE);
    Reaches(s, FIND_ONE + [Other(Fetch([1]))] + [Other(MarkProcessing)], Other(CheckLimit), MARKED_ONE, checked);
    Reaches(s, FIND_ONE + [Other(Fetch([1]))] + [Other(MarkProcessing)] + [Other(CheckLimit)],
            Other(Send(true)), checked, SENT_STATE);
  }

  /**
   Message 12 joins an email that was pending when it was found and has been sent since: it is in no mail,
   for good.
   */
  lemma JoinedTooLate(s: Settings)
    requires s.maxBatchSize >= 2 && AsI16(s.limits.maxPerHour) >= 1
    ensures
      var steps := SENT_ONE + [Join(0, 12, 0)];
      12 in Entries(RunMail(s, steps).lists, 1) && !MayBeMailed(s, steps, 1, 12)
  {
    var joined := ApplyMail(s, SENT_STATE, Join(0, 12, 0));
    OneSent(s);
    Reaches(s, SENT_ONE, Join(0, 12, 0), SENT_STATE, joined);
    assert joined.lists[1] == [11, 12] && joined.mails == [Mail(1, [11])] && joined.copies[1] == [11];
    assert joined.core.rows[1].status == Processing && joined.core.phase == MarkingSent;
    MayBeMailedExactlyWhen(s, SENT_ONE + [Join(0, 12, 0)], 1, 12);
  }

  /** Two notifications that have found the same email: the second write takes message 12 out of the queue again. */
  lemma OverlappingJoinsLoseAMessage(s: Settings)
    requires s.maxBatchSize >= 2
    ensures RunMail(s, FIND_ONE + [Find(1, 1)] + [Join(0, 12, 0)] + [Join(1, 13, 0)]).lists == map[1 := [11, 13]]
  {
    OneFound(s);
    var both := FOUND.(reading := map[0 := Reading(1, [11]), 1 := Reading(1, [11])]);
    Reaches(s, FIND_ONE, Find(1, 1), FOUND, both);
    var first := ApplyMail(s, both, Join(0, 12, 0));
    Reaches(s, FIND_ONE + [Find(1, 1)], Join(0, 12, 0), both, first);
    assert first.reading[1] == Reading(1, [11]) && 1 in first.core.rows && [11] + [13] == [11, 13];
    Reaches(s, FIND_ONE + [Find(1, 1)] + [Join(0, 12, 0)], Join(1, 13, 0), first, ApplyMail(s, first, Join(1, 13, 0)));
  }
}

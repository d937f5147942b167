/** The GDPR deletion transaction, as far as it touches the messages table. */
module GdprDeletion {
  import opened Types
  import opened MessageTable
  import opened MessageLifecycle

  datatype Affected = Affected(messagesAnonymized: nat, messagesDeleted: nat, mentionsRemoved: nat)

  predicate Mentioned(rows: Rows, user: Uuid, id: Uuid) {
    id in rows && user in rows[id].mentions
  }

  lemma {:induction false} WithoutRemoves(s: seq<Uuid>, user: Uuid, x: Uuid)
    ensures x in Without(s, {user}) <==> x in s && x != user
  {
    if s == [] {
    } else {
      WithoutRemoves(s[1..], user, x);
      assert s == [s[0]] + s[1..];
    }
  }

  lemma {:induction false} WithoutKeepsOthers(s: seq<Uuid>, user: Uuid)
    ensures forall x :: multiset(Without(s, {user}))[x] == if x == user then 0 else multiset(s)[x]
  {
    if s != [] {
      WithoutKeepsOthers(s[1..], user);
      assert s == [s[0]] + s[1..];
    }
  }

  lemma {:induction false} WithoutKeepsOrder(s: seq<Uuid>, user: Uuid)
    requires NoDuplicates(s)
    ensures InFirstOrder(Without(s, {user}), s)
  {
    if s != [] {
      WithoutKeepsOrder(s[1..], user);
      var rest := Without(s[1..], {user});
      forall x | x in rest ensures x in s && FirstIndex(s, x) == 1 + FirstIndex(s[1..], x) {
        assert x in s[1..];
      }
    }
  }

  /** The message without its author: a placeholder, from nobody, deleted, in its place in the conversation. */
  ghost function Blanked(r: Row, placeholder: string, now: int): Row {
    Row(r.conv, 0, placeholder, r.createdAt, Some(now), r.replyTo, [], r.clientId, r.serial)
  }

  /** The user is no longer mentioned; everybody else is, as often as before, and the rest of the row is the same. */
  ghost predicate OnlyLosesMention(r: Row, r': Row, user: Uuid) {
    && r' == Row(r.conv, r.sender, r.content, r.createdAt, r.deletedAt, r.replyTo, r'.mentions, r.clientId, r.serial)
    && (forall x :: multiset(r'.mentions)[x] == if x == user then 0 else multiset(r.mentions)[x])
    && (NoDuplicates(r.mentions) ==> InFirstOrder(r'.mentions, r.mentions))
  }

  /**
   After the transaction nobody mentions the user; no message is lost when anonymising and
   exactly the user's are lost when deleting. The user's id survives as a sender in exactly
   the messages that had already been deleted: the statement skips those.
   */
  lemma DeletionErases(rows: Rows, user: Uuid, preserveStructure: bool, now: int, id: Uuid)
    requires user != DELETED_USER && id in rows
    ensures
      var kept := WithoutMentions(Anonymized(rows, user, preserveStructure, now), user);
      && id in kept && user !in kept[id].mentions
      && (kept[id].sender == user <==> rows[id].sender == user && rows[id].deletedAt.Some?)
      && (rows[id].sender == user && rows[id].deletedAt.None? ==>
            kept[id].sender == DELETED_USER && kept[id].deletedAt == Some(now) && kept[id].mentions == [])
      && (if rows[id].sender == user && rows[id].deletedAt.None? then
            kept[id] == Blanked(rows[id], if preserveStructure then "[Message from deleted user]" else "[deleted]", now)
          else OnlyLosesMention(rows[id], kept[id], user))
    ensures
      var kept := WithoutMentions(HardDeleted(rows, user), user);
      && (id in kept <==> rows[id].sender != user)
      && (id in kept ==> user !in kept[id].mentions && kept[id] == rows[id].(mentions := kept[id].mentions))
      && (id in kept ==> OnlyLosesMention(rows[id], kept[id], user))
  {
    WithoutKeepsOthers(rows[id].mentions, user);
    if NoDuplicates(rows[id].mentions) {
      WithoutKeepsOrder(rows[id].mentions, user);
    }
    WithoutRemoves(Anonymized(rows, user, preserveStructure, now)[id].mentions, user, user);
    WithoutRemoves(rows[id].mentions, user, user);
  }

  class DeletionService {
    var rows: Rows

    constructor (rows: Rows)
      ensures this.rows == rows
    {
      this.rows := rows;
    }

    /** Fails, changing nothing, when the unique index on client ids stands in the way. */
    method AnonymizeMessages(user: Uuid, preserveStructure: bool, now: int) returns (count: Option<nat>)
      modifies this
      ensures
        var after := Anonymized(old(rows), user, preserveStructure, now);
        if UniqueClientIds(after) then
          && rows == after
          && count == Some(|set id | id in old(rows) && old(rows)[id].sender == user && old(rows)[id].deletedAt.None?|)
        else rows == old(rows) && count == None
    {
      var hit := set id | id in rows && rows[id].sender == user && rows[id].deletedAt.None?;
      var placeholder := if preserveStructure then FROM_DELETED_USER else DELETED;
      assert hit == set id | id in old(rows) && old(rows)[id].sender == user && old(rows)[id].deletedAt.None?;
      var after := rows + map id | id in hit ::
        rows[id].(content := placeholder, sender := DELETED_USER, mentions := [], deletedAt := Some(now));
      assert after == Anonymized(rows, user, preserveStructure, now);
      if !UniqueClientIds(after) {
        return None;
      }
      rows := after;
      count := Some(|hit|);
    }

    method DeleteMessages(user: Uuid) returns (count: nat)
      modifies this
      ensures rows == HardDeleted(old(rows), user)
      ensures count == |set id | id in old(rows) && old(rows)[id].sender == user|
    {
      var hit := set id | id in rows && rows[id].sender == user;
      assert hit == set id | id in old(rows) && old(rows)[id].sender == user;
      rows := rows - hit;
      count := |hit|;
    }

    method RemoveFromMentions(user: Uuid) returns (count: nat)
      modifies this
      ensures rows == WithoutMentions(old(rows), user)
      ensures count == |set id | id in old(rows) && Mentioned(old(rows), user, id)|
    {
      var hit := set id | id in rows && Mentioned(rows, user, id);
      forall id | id in rows && id !in hit
        ensures rows[id].(mentions := Without(rows[id].mentions, {user})) == rows[id]
      {
        NothingToRemove(rows[id].mentions, user);
      }
      ghost var before := rows;
      rows := rows + map id | id in hit :: rows[id].(mentions := Without(rows[id].mentions, {user}));
      assert rows.Keys == before.Keys;
      assert forall id :: id in rows ==> rows[id] == WithoutMentions(before, user)[id];
      assert rows == WithoutMentions(before, user);
      count := |hit|;
    }

    /** `perform_deletion`, its statements on this table in order; a failing one rolls everything back. */
    method PerformDeletion(user: Uuid, anonymize: bool, preserveStructure: bool, now: int) returns (r: Option<Affected>)
      modifies this
      ensures r.None? <==> anonymize && !UniqueClientIds(Anonymized(old(rows), user, preserveStructure, now))
      ensures r.None? ==> rows == old(rows)
      ensures r.Some? ==>
        var first := if anonymize then Anonymized(old(rows), user, preserveStructure, now)
          else HardDeleted(old(rows), user);
        && rows == WithoutMentions(first, user)
        && r.value.mentionsRemoved == |set id | id in first && Mentioned(first, user, id)|
        && r.value.messagesAnonymized == (if !anonymize then 0 else
             |set id | id in old(rows) && old(rows)[id].sender == user && old(rows)[id].deletedAt.None?|)
        && r.value.messagesDeleted == (if anonymize then 0 else
             |set id | id in old(rows) && old(rows)[id].sender == user|)
    {
      var affected := Affected(0, 0, 0);
      if anonymize {
        var anonymized := AnonymizeMessages(user, preserveStructure, now);
        if anonymized.None? {
          return None;
        }
        affected := affected.(messagesAnonymized := anonymized.value);
      } else {
        var deleted := DeleteMessages(user);
        affected := affected.(messagesDeleted := deleted);
      }
      var removed := RemoveFromMentions(user);
      r := Some(affected.(mentionsRemoved := removed));
    }
  }

  /** The message of `row` that an anonymisation would clash with. */
  ghost predicate Blocks(rows: Rows, user: Uuid, id: Uuid, other: Uuid) {
    && Live(rows, id) && rows[id].sender == user
    && other in rows && rows[other].sender == DELETED_USER && rows[id].clientId.Some?
    && rows[other].clientId == rows[id].clientId && Day(rows[other].createdAt) == Day(rows[id].createdAt)
  }

  /**
   A user can be anonymised if and only if no live message of theirs shares its client id and
   day with a message of a user who was anonymised before.
   */
  lemma AnonymizationSucceedsExactlyWhen(rows: Rows, user: Uuid, preserveStructure: bool, now: int)
    requires user != DELETED_USER && UniqueClientIds(rows)
    ensures UniqueClientIds(Anonymized(rows, user, preserveStructure, now)) <==>
      !exists id, other :: Blocks(rows, user, id, other)
  {
    var after := Anonymized(rows, user, preserveStructure, now);
    if id, other :| Blocks(rows, user, id, other) {
      assert Clash(after[id], after[other]) && id != other;
    }
    if !UniqueClientIds(after) {
      var a, b :| a in after && b in after && a != b && Clash(after[a], after[b]);
      assert !Clash(rows[a], rows[b]);
      assert Blocks(rows, user, a, b) || Blocks(rows, user, b, a);
    }
  }

  /**
   In every run, the anonymisation of a user rewrites all their live messages, or changes
   nothing at all exactly when one of them shares client id and day with a message of a user
   anonymised before.
   */
  lemma AnonymizeInARun(w: Windows, steps: seq<Step>, user: Uuid, preserveStructure: bool, now: int)
    requires user != DELETED_USER
    ensures
      var st := Run(w, steps);
      Apply(w, st, Anonymize(user, preserveStructure, now)).rows
      == if exists id, other :: Blocks(st.rows, user, id, other) then st.rows
         else Anonymized(st.rows, user, preserveStructure, now)
  {
    ClientIdsStayUnique(w, steps);
    AnonymizationSucceedsExactlyWhen(Run(w, steps).rows, user, preserveStructure, now);
  }

  /** Users 1 and 2 each send a message they both call "x", on the same day. */
  const FIRST := Draft(9, 1, "a", None, [], Some("x"))
  const SECOND := Draft(9, 2, "b", None, [], Some("x"))
  const BOTH_SENT :=
    [SendLookup(0, FIRST)] + [SendValidate(0)] + [SendInsert(0, 5, 0)]
    + [SendLookup(0, SECOND)] + [SendValidate(0)] + [SendInsert(0, 6, 0)]

  lemma RunReaches(w: Windows, steps: seq<Step>, step: Step, before: State, after: State)
    requires Run(w, steps) == before && Apply(w, before, step) == after
    ensures Run(w, steps + [step]) == after
  {
    assert (steps + [step])[..|steps|] == steps;
  }

  /** One undisturbed send. */
  lemma SendReaches(w: Windows, steps: seq<Step>, draft: Draft, id: Uuid, before: State)
    requires Run(w, steps) == before && before.calls == map[] && id !in before.used && draft.replyTo == None
    requires !Repeated(before.rows, draft.sender, draft.clientId)
    ensures Run(w, steps + [SendLookup(0, draft)] + [SendValidate(0)] + [SendInsert(0, id, 0)])
      == Inserted(before, draft, id, 0)
  {
    var looked, checked := before.(calls := map[0 := Composing(draft)]), before.(calls := map[0 := Sending(draft)]);
    RunReaches(w, steps, SendLookup(0, draft), before, looked);
    RunReaches(w, steps + [SendLookup(0, draft)], SendValidate(0), looked, checked);
    assert !Taken(checked.rows, draft.sender, draft.clientId, Day(0));
    assert checked.calls - {0} == map[];
    RunReaches(w, steps + [SendLookup(0, draft)] + [SendValidate(0)], SendInsert(0, id, 0), checked,
               Inserted(before, draft, id, 0));
  }

  /** After the first of them has been anonymised, anonymising the second changes nothing. */
  lemma SecondAnonymizationFails(w: Windows, preserveStructure: bool)
    ensures
      var sent := Run(w, BOTH_SENT);
      var first := Run(w, BOTH_SENT + [Anonymize(1, preserveStructure, 10)]);
      && first.rows == Anonymized(sent.rows, 1, preserveStructure, 10) != sent.rows
      && Live(first.rows, 6) && first.rows[6].sender == 2
      && Run(w, BOTH_SENT + [Anonymize(1, preserveStructure, 10)] + [Anonymize(2, preserveStructure, 20)]) == first
  {
    assert Run(w, []) == INITIAL;
    SendReaches(w, [], FIRST, 5, INITIAL);
    var one := Inserted(INITIAL, FIRST, 5, 0);
    assert [] + [SendLookup(0, FIRST)] == [SendLookup(0, FIRST)];
    var firstSent := [SendLookup(0, FIRST)] + [SendValidate(0)] + [SendInsert(0, 5, 0)];
    SendReaches(w, firstSent, SECOND, 6, one);
    var sent := Inserted(one, SECOND, 6, 0);
    assert Run(w, BOTH_SENT) == sent;
    ClientIdsStayUnique(w, BOTH_SENT);
    AnonymizeInARun(w, BOTH_SENT, 1, preserveStructure, 10);
    var first := Apply(w, sent, Anonymize(1, preserveStructure, 10));
    RunReaches(w, BOTH_SENT, Anonymize(1, preserveStructure, 10), sent, first);
    assert first.rows[5].sender == DELETED_USER && first.rows[6] == sent.rows[6];
    AnonymizeInARun(w, BOTH_SENT + [Anonymize(1, preserveStructure, 10)], 2, preserveStructure, 20);
    assert Blocks(first.rows, 2, 6, 5);
    RunReaches(w, BOTH_SENT + [Anonymize(1, preserveStructure, 10)], Anonymize(2, preserveStructure, 20), first, first);
  }

  const RECALLED_FIRST := [RecallCheck(0, 1, 5, 0)] + [RecallWrite(0, 0)]

  /** One undisturbed recall by the author at once. */
  lemma RecallReaches(w: Windows, steps: seq<Step>, before: State)
    requires Run(w, steps) == before && before.calls == map[] && Live(before.rows, 5)
    requires before.rows[5].sender == 1 && before.rows[5].createdAt == 0
    ensures Run(w, steps + RECALLED_FIRST) == before.(rows := Recalled(before.rows, 5, 0))
  {
    var checked := before.(calls := map[0 := Recalling(1, 5, 0)]);
    RunReaches(w, steps, RecallCheck(0, 1, 5, 0), before, checked);
    assert checked.calls - {0} == map[];
    RunReaches(w, steps + [RecallCheck(0, 1, 5, 0)], RecallWrite(0, 0), checked,
               before.(rows := Recalled(before.rows, 5, 0)));
    assert steps + RECALLED_FIRST == steps + [RecallCheck(0, 1, 5, 0)] + [RecallWrite(0, 0)];
  }

  /** A run after which user 1 has been anonymised and a message still names them: they had recalled it. */
  lemma RecalledKeepsItsSender(w: Windows, preserveStructure: bool)
    ensures
      var st := Run(w, [SendLookup(0, FIRST)] + [SendValidate(0)] + [SendInsert(0, 5, 0)] + RECALLED_FIRST
                       + [Anonymize(1, preserveStructure, 10)]);
      5 in st.rows && st.rows[5].deletedAt.Some? && st.rows[5].sender == 1
  {
    var sent := [SendLookup(0, FIRST)] + [SendValidate(0)] + [SendInsert(0, 5, 0)];
    assert Run(w, []) == INITIAL && [] + [SendLookup(0, FIRST)] == [SendLookup(0, FIRST)];
    SendReaches(w, [], FIRST, 5, INITIAL);
    var one := Inserted(INITIAL, FIRST, 5, 0);
    RecallReaches(w, sent, one);
    var recalled := one.(rows := Recalled(one.rows, 5, 0));
    RunReaches(w, sent + RECALLED_FIRST, Anonymize(1, preserveStructure, 10), recalled,
               Apply(w, recalled, Anonymize(1, preserveStructure, 10)));
    DeletionErases(recalled.rows, 1, preserveStructure, 10, 5);
  }

  lemma {:induction false} NothingToRemove(s: seq<Uuid>, user: Uuid)
    requires user !in s
    ensures Without(s, {user}) == s
  {
    if s != [] {
      NothingToRemove(s[1..], user);
    }
  }
}

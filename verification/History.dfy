/** Cursor paging through the history of a conversation, newest first. */
module History {
  import opened Types
  import opened Sorting

  datatype Stored = Stored(id: Uuid, conv: Uuid, createdAt: int)

  /** The messages table, in insertion order. */
  type Table = seq<Stored>

  datatype Page = Page(messages: seq<Stored>, hasMore: bool) | InvalidCursor

  /** `SELECT created_at FROM messages WHERE id = $1`: any conversation will do. */
  function CreatedAt(table: Table, id: Uuid): Option<int> {
    if table == [] then None
    else if table[0].id == id then Some(table[0].createdAt)
    else CreatedAt(table[1..], id)
  }

  predicate Before(r: Stored, bound: Option<int>) {
    bound.Some? ==> r.createdAt < bound.value
  }

  /** WHERE conversation_id = conv [AND created_at < bound]. */
  function Select(table: Table, conv: Uuid, bound: Option<int>): Table {
    if table == [] then []
    else (if table[0].conv == conv && Before(table[0], bound) then [table[0]] else []) + Select(table[1..], conv, bound)
  }

  function Newest(r: Stored): int {
    -r.createdAt
  }

  /** The conversation newest first, from just below `bound`. */
  function NewestFirst(table: Table, conv: Uuid, bound: Option<int>): seq<Stored> {
    SortByKey(Select(table, conv, bound), Newest)
  }

  function GetHistory(table: Table, conv: Uuid, before: Option<Uuid>, limit: nat): Page {
    var limit := Min(limit, 100);
    if before.Some? && CreatedAt(table, before.value).None? then InvalidCursor
    else
      var bound := if before.Some? then CreatedAt(table, before.value) else None;
      var fetched := Take(NewestFirst(table, conv, bound), limit + 1);
      Page(Take(fetched, limit), |fetched| > limit)
  }

  // ---- Selecting and sorting.

  lemma {:induction false} SelectAppend(a: Table, b: Table, conv: Uuid, bound: Option<int>)
    ensures Select(a + b, conv, bound) == Select(a, conv, bound) + Select(b, conv, bound)
  {
    if a == [] {
      assert a + b == b;
    } else {
      SelectAppend(a[1..], b, conv, bound);
      assert (a + b)[1..] == a[1..] + b;
      var head := if a[0].conv == conv && Before(a[0], bound) then [a[0]] else [];
      Reassociate(head, Select(a[1..], conv, bound), Select(b, conv, bound));
    }
  }

  lemma SelectStep(table: Table, conv: Uuid, bound: Option<int>)
    requires table != []
    ensures
      var rest := Select(table[1..], conv, bound);
      Select(table, conv, bound) == if table[0].conv == conv && Before(table[0], bound) then [table[0]] + rest else rest
  {
  }

  lemma {:induction false} SelectWithKey(table: Table, conv: Uuid, bound: int, k: int)
    ensures WithKey(Select(table, conv, Some(bound)), Newest, k)
            == if -k < bound then WithKey(Select(table, conv, None), Newest, k) else []
  {
    if table != [] {
      var all, low := Select(table[1..], conv, None), Select(table[1..], conv, Some(bound));
      SelectWithKey(table[1..], conv, bound, k);
      SelectStep(table, conv, None);
      SelectStep(table, conv, Some(bound));
      if table[0].conv == conv {
        WithKeyPrepend(table[0], all, Newest, k);
        WithKeyPrepend(table[0], low, Newest, k);
        assert [] + WithKey(all, Newest, k) == WithKey(all, Newest, k);
        assert [] + WithKey(low, Newest, k) == WithKey(low, Newest, k);
      }
    }
  }

  lemma {:induction false} WithKeyAppend(a: seq<Stored>, b: seq<Stored>, k: int)
    ensures WithKey(a + b, Newest, k) == WithKey(a, Newest, k) + WithKey(b, Newest, k)
  {
    if a == [] {
      assert a + b == b;
    } else {
      WithKeyAppend(a[1..], b, k);
      assert (a + b)[1..] == a[1..] + b;
      Reassociate(if Newest(a[0]) == k then [a[0]] else [], WithKey(a[1..], Newest, k), WithKey(b, Newest, k));
    }
  }

  lemma {:induction false} WithKeyNone(s: seq<Stored>, k: int)
    requires forall i :: 0 <= i < |s| ==> Newest(s[i]) != k
    ensures WithKey(s, Newest, k) == []
  {
    if s != [] {
      WithKeyNone(s[1..], k);
    }
  }

  /** Asking for what is below `bound` gives the part of the newest-first list past it. */
  lemma BelowIsSuffix(table: Table, conv: Uuid, bound: int, o: nat)
    requires
      var all := NewestFirst(table, conv, None);
      && o <= |all|
      && (o > 0 ==> all[o - 1].createdAt >= bound)
      && (o < |all| ==> all[o].createdAt < bound)
    ensures NewestFirst(table, conv, Some(bound)) == NewestFirst(table, conv, None)[o..]
  {
    var all := NewestFirst(table, conv, None);
    SortIsStable(Select(table, conv, None), Newest);
    SortIsStable(Select(table, conv, Some(bound)), Newest);
    forall k ensures WithKey(all[o..], Newest, k) == WithKey(NewestFirst(table, conv, Some(bound)), Newest, k) {
      SuffixWithKey(all, bound, o, k);
      SelectWithKey(table, conv, bound, k);
    }
    SortedIsDetermined(all[o..], NewestFirst(table, conv, Some(bound)), Newest);
  }

  lemma SplitAtBound(all: seq<Stored>, bound: int, o: nat, i: nat)
    requires SortedByKey(all, Newest) && o <= |all| && i < |all|
    requires (o > 0 ==> all[o - 1].createdAt >= bound) && (o < |all| ==> all[o].createdAt < bound)
    ensures all[i].createdAt < bound <==> i >= o
  {
    if i < o - 1 {
      assert Newest(all[i]) <= Newest(all[o - 1]);
    } else if o < i {
      assert Newest(all[o]) <= Newest(all[i]);
    }
  }

  lemma SuffixWithKey(all: seq<Stored>, bound: int, o: nat, k: int)
    requires SortedByKey(all, Newest) && o <= |all|
    requires (o > 0 ==> all[o - 1].createdAt >= bound) && (o < |all| ==> all[o].createdAt < bound)
    ensures WithKey(all[o..], Newest, k) == if -k < bound then WithKey(all, Newest, k) else []
  {
    assert all == all[..o] + all[o..];
    WithKeyAppend(all[..o], all[o..], k);
    if -k < bound {
      forall i | 0 <= i < o ensures Newest(all[..o][i]) != k {
        SplitAtBound(all, bound, o, i);
      }
      WithKeyNone(all[..o], k);
    } else {
      forall i | 0 <= i < |all| - o ensures Newest(all[o..][i]) != k {
        SplitAtBound(all, bound, o, o + i);
      }
      WithKeyNone(all[o..], k);
    }
  }

  lemma {:induction false} SelectNothing(table: Table, conv: Uuid, bound: int)
    requires forall i :: 0 <= i < |table| && table[i].conv == conv ==> table[i].createdAt >= bound
    ensures Select(table, conv, Some(bound)) == []
  {
    if table != [] {
      SelectNothing(table[1..], conv, bound);
    }
  }

  /** Rows inserted since that are no older than the bound make no difference below it. */
  lemma NewerMakesNoDifference(table: Table, newer: Table, conv: Uuid, bound: int)
    requires forall i :: 0 <= i < |newer| && newer[i].conv == conv ==> newer[i].createdAt >= bound
    ensures NewestFirst(table + newer, conv, Some(bound)) == NewestFirst(table, conv, Some(bound))
  {
    SelectAppend(table, newer, conv, Some(bound));
    SelectNothing(newer, conv, bound);
    assert Select(table, conv, Some(bound)) + [] == Select(table, conv, Some(bound));
  }

  // ---- One page.

  ghost predicate UniqueIds(table: Table) {
    forall i, j :: 0 <= i < j < |table| ==> table[i].id != table[j].id
  }

  lemma {:induction false} CursorTime(table: Table, newer: Table, r: Stored)
    requires UniqueIds(table) && r in table
    ensures CreatedAt(table + newer, r.id) == Some(r.createdAt)
  {
    assert (table + newer)[0] == table[0];
    if table[0].id != r.id {
      assert table == [table[0]] + table[1..];
      assert (table + newer)[1..] == table[1..] + newer;
      CursorTime(table[1..], newer, r);
    } else {
      assert table[0] == r;
    }
  }

  lemma {:induction false} SelectIsSubset(table: Table, conv: Uuid, bound: Option<int>, r: Stored)
    ensures r in Select(table, conv, bound) <==> r in table && r.conv == conv && Before(r, bound)
  {
    if table != [] {
      SelectIsSubset(table[1..], conv, bound, r);
      assert table == [table[0]] + table[1..];
    }
  }

  lemma {:induction false} SelectCounts(table: Table, conv: Uuid, bound: Option<int>, r: Stored)
    ensures
      multiset(Select(table, conv, bound))[r]
      == if r.conv == conv && (bound.Some? ==> r.createdAt < bound.value) then multiset(table)[r] else 0
  {
    if table != [] {
      SelectCounts(table[1..], conv, bound, r);
      assert table == [table[0]] + table[1..];
    }
  }

  /**
   The list the pages are cut from: the conversation's messages below the bound, each as often as stored,
   newest first.
   */
  lemma NewestFirstMeans(table: Table, conv: Uuid, bound: Option<int>)
    ensures
      var all := NewestFirst(table, conv, bound);
      && (forall i, j :: 0 <= i < j < |all| ==> all[i].createdAt >= all[j].createdAt)
      && (forall r :: multiset(all)[r] == if r.conv == conv && (bound.Some? ==> r.createdAt < bound.value)
                                          then multiset(table)[r] else 0)
  {
    var all := NewestFirst(table, conv, bound);
    SortIsStable(Select(table, conv, bound), Newest);
    forall i, j | 0 <= i < j < |all| ensures all[i].createdAt >= all[j].createdAt {
      assert Newest(all[i]) <= Newest(all[j]);
    }
    forall r ensures multiset(all)[r] == if r.conv == conv && (bound.Some? ==> r.createdAt < bound.value)
                                         then multiset(table)[r] else 0 {
      SelectCounts(table, conv, bound, r);
    }
  }

  /** Only newer messages of the conversation were inserted. */
  ghost predicate OnlyNewer(table: Table, newer: Table, conv: Uuid) {
    forall i, j :: 0 <= i < |table| && 0 <= j < |newer| && table[i].conv == conv && newer[j].conv == conv ==>
      table[i].createdAt <= newer[j].createdAt
  }

  /** The cursor after `o` messages: none at first, then the last id of the page before. */
  function CursorAfter(all: seq<Stored>, o: nat): Option<Uuid>
    requires o <= |all|
  {
    if o == 0 then None else Some(all[o - 1].id)
  }

  /** The rows below a cursor that no older row shares its timestamp with. */
  lemma BelowCursor(table: Table, newer: Table, conv: Uuid, o: nat)
    requires UniqueIds(table) && OnlyNewer(table, newer, conv) && 0 < o <= |NewestFirst(table, conv, None)|
    requires
      var all := NewestFirst(table, conv, None);
      o < |all| ==> all[o].createdAt < all[o - 1].createdAt
    ensures
      var all := NewestFirst(table, conv, None);
      && CreatedAt(table + newer, all[o - 1].id) == Some(all[o - 1].createdAt)
      && NewestFirst(table + newer, conv, Some(all[o - 1].createdAt)) == all[o..]
  {
    var last := NewestFirst(table, conv, None)[o - 1];
    SortKeepsElements(Select(table, conv, None), Newest);
    SelectIsSubset(table, conv, None, last);
    CursorTime(table, newer, last);
    BelowIsSuffix(table, conv, last.createdAt, o);
    NewerMakesNoDifference(table, newer, conv, last.createdAt);
  }

  lemma TakeOneMore(s: seq<Stored>, limit: nat)
    ensures Take(Take(s, limit + 1), limit) == Take(s, limit)
    ensures |Take(s, limit + 1)| > limit <==> |s| > limit
  {
  }

  lemma PageAt(table: Table, newer: Table, conv: Uuid, limit: nat, o: nat)
    requires UniqueIds(table) && OnlyNewer(table, newer, conv) && (o == 0 ==> newer == [])
    requires o <= |NewestFirst(table, conv, None)|
    requires
      var all := NewestFirst(table, conv, None);
      0 < o < |all| ==> all[o].createdAt < all[o - 1].createdAt
    ensures
      var all := NewestFirst(table, conv, None);
      GetHistory(table + newer, conv, CursorAfter(all, o), limit)
        == Page(Take(all[o..], Min(limit, 100)), |all| - o > Min(limit, 100))
  {
    var all := NewestFirst(table, conv, None);
    TakeOneMore(all[o..], Min(limit, 100));
    if o == 0 {
      assert table + newer == table && all[0..] == all;
    } else {
      BelowCursor(table, newer, conv, o);
    }
  }

  /** A message that shares its timestamp with the cursor is on no later page. */
  lemma SkippedForGood(table: Table, newer: Table, conv: Uuid, limit: nat, cursor: Stored, r: Stored)
    requires UniqueIds(table) && cursor in table && r.createdAt == cursor.createdAt
    ensures
      var page := GetHistory(table + newer, conv, Some(cursor.id), limit);
      page.Page? && r !in page.messages
  {
    CursorTime(table, newer, cursor);
    var found := Select(table + newer, conv, Some(cursor.createdAt));
    SelectIsSubset(table + newer, conv, Some(cursor.createdAt), r);
    SortKeepsElements(found, Newest);
    assert r !in NewestFirst(table + newer, conv, Some(cursor.createdAt));
  }

  // ---- Following the pages to the end.

  /** A client asks for the next page while there is more. */
  predicate AsksAgain(page: Page) {
    page.Page? && page.hasMore && page.messages != []
  }

  function NextCursor(page: Page): Option<Uuid>
    requires AsksAgain(page)
  {
    Some(page.messages[|page.messages| - 1].id)
  }

  /** What the client has in the end, asking at most `calls` times from its `k`-th call on. */
  function Fetched(ask: (nat, Option<Uuid>) -> Page, k: nat, calls: nat, before: Option<Uuid>): seq<Stored>
    decreases calls
  {
    if calls == 0 || ask(k, before).InvalidCursor? then []
    else if !AsksAgain(ask(k, before)) then ask(k, before).messages
    else ask(k, before).messages + Fetched(ask, k + 1, calls - 1, NextCursor(ask(k, before)))
  }

  function CallsMade(ask: (nat, Option<Uuid>) -> Page, k: nat, calls: nat, before: Option<Uuid>): nat
    decreases calls
  {
    if calls == 0 then 0
    else if !AsksAgain(ask(k, before)) then 1
    else 1 + CallsMade(ask, k + 1, calls - 1, NextCursor(ask(k, before)))
  }

  /** The number of pages of `size` that `n` messages fill, and one page for none at all. */
  function Pages(n: nat, size: nat): nat
    requires size > 0
  {
    if n <= size then 1 else 1 + Pages(n - size, size)
  }

  /** As many as are needed and no more: the rounded-up quotient, or one. */
  lemma {:induction false} PagesIsCeiling(n: nat, size: nat)
    requires size > 0
    ensures
      var p := Pages(n, size);
      && n <= p * size
      && (p - 1) * size <= n && (p > 1 ==> (p - 1) * size < n)
    decreases n
  {
    if n > size {
      var p := Pages(n - size, size);
      PagesIsCeiling(n - size, size);
      assert (p + 1) * size == p * size + size;
      assert p * size == (p - 1) * size + size;
    }
  }

  /** No page of `size` ends between two messages of the same timestamp. */
  ghost predicate NoTieAcrossPages(all: seq<Stored>, size: nat)
    requires size > 0
    decreases |all|
  {
    |all| > size ==> all[size].createdAt < all[size - 1].createdAt && NoTieAcrossPages(all[size..], size)
  }

  /** The service answers this call and the ones that follow it with the pages of `rest`, up to a tie across pages. */
  ghost predicate AnswersPages(ask: (nat, Option<Uuid>) -> Page, k: nat, calls: nat, before: Option<Uuid>,
                               rest: seq<Stored>, size: nat)
    requires size > 0
    decreases calls
  {
    calls > 0 ==>
      && ask(k, before) == Page(Take(rest, size), |rest| > size)
      && (|rest| > size && rest[size].createdAt < rest[size - 1].createdAt ==>
            AnswersPages(ask, k + 1, calls - 1, Some(rest[size - 1].id), rest[size..], size))
  }

  ghost predicate OnlyOlder(page: Page, all: seq<Stored>, cursor: Stored) {
    page.Page? ==> forall r :: r in page.messages ==> r in all && r.createdAt < cursor.createdAt
  }

  /** Asked with any cursor, the service answers with older messages only. */
  ghost predicate AnswersOlder(ask: (nat, Option<Uuid>) -> Page, total: nat, all: seq<Stored>) {
    forall k: nat, c: Stored :: 0 < k < total && c in all ==> OnlyOlder(ask(k, Some(c.id)), all, c)
  }

  lemma {:induction false} FetchesAll(ask: (nat, Option<Uuid>) -> Page, k: nat, calls: nat, before: Option<Uuid>,
                                      rest: seq<Stored>, size: nat)
    requires size > 0 && AnswersPages(ask, k, calls, before, rest, size)
    requires NoTieAcrossPages(rest, size) && calls >= Pages(|rest|, size)
    ensures Fetched(ask, k, calls, before) == rest && CallsMade(ask, k, calls, before) == Pages(|rest|, size)
    decreases calls
  {
    if |rest| > size {
      FetchesAll(ask, k + 1, calls - 1, Some(rest[size - 1].id), rest[size..], size);
      assert rest[..size] + rest[size..] == rest;
    }
  }

  /** From a cursor on, everything is strictly older than the cursor. */
  lemma {:induction false} FetchesOlder(ask: (nat, Option<Uuid>) -> Page, k: nat, calls: nat, all: seq<Stored>,
                                        cursor: Stored, r: Stored)
    requires 0 < k && AnswersOlder(ask, k + calls, all) && cursor in all
    requires r in Fetched(ask, k, calls, Some(cursor.id))
    ensures r.createdAt < cursor.createdAt
    decreases calls
  {
    if calls > 0 {
      var page := ask(k, Some(cursor.id));
      assert OnlyOlder(page, all, cursor);
      if AsksAgain(page) && r !in page.messages {
        FetchesOlder(ask, k + 1, calls - 1, all, page.messages[|page.messages| - 1], r);
      }
    }
  }

  lemma NoneLeft(ask: (nat, Option<Uuid>) -> Page, k: nat, calls: nat, all: seq<Stored>, cursor: Stored, next: Stored)
    requires 0 < k && AnswersOlder(ask, k + calls, all) && cursor in all
    requires calls == 0 || next.createdAt >= cursor.createdAt
    ensures next !in Fetched(ask, k, calls, Some(cursor.id))
  {
    if next in Fetched(ask, k, calls, Some(cursor.id)) {
      FetchesOlder(ask, k, calls, all, cursor, next);
    }
  }

  /** A tie across a page boundary hides a message, whatever is inserted between the calls. */
  lemma {:induction false} TieHidesAMessage(ask: (nat, Option<Uuid>) -> Page, k: nat, calls: nat, before: Option<Uuid>,
                                            all: seq<Stored>, rest: seq<Stored>, size: nat)
      returns (hidden: Stored)
    requires size > 0 && calls > 0 && AnswersPages(ask, k, calls, before, rest, size)
      && AnswersOlder(ask, k + calls, all)
    requires !NoTieAcrossPages(rest, size) && NoDuplicates(rest) && Elems(rest) <= Elems(all)
    ensures hidden in rest && hidden !in Fetched(ask, k, calls, before)
    decreases calls
  {
    var last, later := rest[size - 1], rest[size..];
    if calls > 1 && later[0].createdAt < last.createdAt {
      hidden := TieHidesAMessage(ask, k + 1, calls - 1, Some(last.id), all, later, size);
    } else {
      hidden := later[0];
      assert last in Elems(rest);
      NoneLeft(ask, k + 1, calls - 1, all, last, hidden);
    }
    NotOnThisPage(rest, size, hidden);
    InNeither(rest[..size], Fetched(ask, k + 1, calls - 1, Some(last.id)), hidden);
  }

  lemma InNeither(a: seq<Stored>, b: seq<Stored>, x: Stored)
    requires x !in a && x !in b
    ensures x !in a + b
  {
  }

  lemma NotOnThisPage(rest: seq<Stored>, size: nat, x: Stored)
    requires NoDuplicates(rest) && size <= |rest| && x in rest[size..]
    ensures x in rest && x !in rest[..size]
  {
    var j :| 0 <= j < |rest[size..]| && rest[size..][j] == x;
    assert rest[size + j] == x;
  }

  // ---- The service as the one that answers.

  /** The tables the calls meet: the first one, with newer messages inserted before each later call. */
  ghost predicate Growing(table: Table, conv: Uuid, tables: seq<Table>) {
    && tables != [] && tables[0] == table
    && forall k :: 0 <= k < |tables| ==> table <= tables[k] && OnlyNewer(table, tables[k][|table|..], conv)
  }

  function Asking(tables: seq<Table>, conv: Uuid, limit: nat): (nat, Option<Uuid>) -> Page {
    (k: nat, before: Option<Uuid>) => if k < |tables| then GetHistory(tables[k], conv, before, limit) else InvalidCursor
  }

  lemma OneAnswerMore(ask: (nat, Option<Uuid>) -> Page, k: nat, calls: nat, all: seq<Stored>, o: nat, size: nat)
    requires size > 0 && calls > 0 && o <= |all|
    requires ask(k, CursorAfter(all, o)) == Page(Take(all[o..], size), |all| - o > size)
    requires |all| > o + size && all[o + size].createdAt < all[o + size - 1].createdAt ==>
               AnswersPages(ask, k + 1, calls - 1, CursorAfter(all, o + size), all[o + size..], size)
    ensures AnswersPages(ask, k, calls, CursorAfter(all, o), all[o..], size)
  {
    if |all| > o + size {
      assert all[o..][size..] == all[o + size..];
    }
  }

  lemma CallGetsPage(table: Table, tables: seq<Table>, conv: Uuid, limit: nat, k: nat, o: nat, all: seq<Stored>)
    requires UniqueIds(table) && Growing(table, conv, tables) && k < |tables| && (k == 0 <==> o == 0)
    requires all == NewestFirst(table, conv, None) && o <= |all|
    requires 0 < o < |all| ==> all[o].createdAt < all[o - 1].createdAt
    ensures Asking(tables, conv, limit)(k, CursorAfter(all, o))
      == Page(Take(all[o..], Min(limit, 100)), |all| - o > Min(limit, 100))
  {
    assert tables[k] == table + tables[k][|table|..];
    PageAt(table, tables[k][|table|..], conv, limit, o);
  }

  /** This call, asked with the cursor after `o` messages, gets the page that follows. */
  ghost predicate AnsweredAt(ask: (nat, Option<Uuid>) -> Page, k: nat, all: seq<Stored>, o: nat, size: nat)
    requires o <= |all|
  {
    ask(k, CursorAfter(all, o)) == Page(Take(all[o..], size), |all| - o > size)
  }

  /** A cursor that no older message shares its timestamp with. */
  ghost predicate CleanCursor(all: seq<Stored>, o: nat) {
    o <= |all| && (0 < o < |all| ==> all[o].createdAt < all[o - 1].createdAt)
  }

  ghost predicate AnswersEverywhere(ask: (nat, Option<Uuid>) -> Page, calls: nat, all: seq<Stored>, size: nat) {
    forall k: nat, o: nat :: k < calls && (k == 0 <==> o == 0) && CleanCursor(all, o) ==>
      AnsweredAt(ask, k, all, o, size)
  }

  lemma {:induction false} AnswersChain(ask: (nat, Option<Uuid>) -> Page, calls: nat, all: seq<Stored>, size: nat,
                                        k: nat, o: nat)
    requires size > 0 && AnswersEverywhere(ask, calls, all, size)
    requires k <= calls && (k == 0 <==> o == 0) && CleanCursor(all, o)
    ensures AnswersPages(ask, k, calls - k, CursorAfter(all, o), all[o..], size)
    decreases calls - k
  {
    if k < calls {
      assert AnsweredAt(ask, k, all, o, size);
      if |all| > o + size && all[o + size].createdAt < all[o + size - 1].createdAt {
        AnswersChain(ask, calls, all, size, k + 1, o + size);
      }
      OneAnswerMore(ask, k, calls - k, all, o, size);
    }
  }

  lemma ServiceAnswersPages(table: Table, tables: seq<Table>, conv: Uuid, limit: nat, all: seq<Stored>)
    requires limit > 0 && UniqueIds(table) && Growing(table, conv, tables) && all == NewestFirst(table, conv, None)
    ensures AnswersPages(Asking(tables, conv, limit), 0, |tables|, None, all, Min(limit, 100))
  {
    var ask, size := Asking(tables, conv, limit), Min(limit, 100);
    forall k: nat, o: nat | k < |tables| && (k == 0 <==> o == 0) && CleanCursor(all, o)
      ensures AnsweredAt(ask, k, all, o, size)
    {
      CallGetsPage(table, tables, conv, limit, k, o, all);
    }
    AnswersChain(ask, |tables|, all, size, 0, 0);
    assert all[0..] == all;
  }

  lemma ServiceAnswersOlder(table: Table, tables: seq<Table>, conv: Uuid, limit: nat)
    requires UniqueIds(table) && Growing(table, conv, tables)
    ensures AnswersOlder(Asking(tables, conv, limit), |tables|, NewestFirst(table, conv, None))
  {
    var all, ask := NewestFirst(table, conv, None), Asking(tables, conv, limit);
    forall k: nat, c: Stored | 0 < k < |tables| && c in all ensures OnlyOlder(ask(k, Some(c.id)), all, c) {
      assert tables[k] == table + tables[k][|table|..];
      PageIsOlder(table, tables[k][|table|..], conv, limit, c);
    }
  }

  lemma PageIsOlder(table: Table, newer: Table, conv: Uuid, limit: nat, c: Stored)
    requires UniqueIds(table) && OnlyNewer(table, newer, conv) && c in NewestFirst(table, conv, None)
    ensures OnlyOlder(GetHistory(table + newer, conv, Some(c.id), limit), NewestFirst(table, conv, None), c)
  {
    SortKeepsElements(Select(table, conv, None), Newest);
    SelectIsSubset(table, conv, None, c);
    CursorTime(table, newer, c);
    NewerMakesNoDifference(table, newer, conv, c.createdAt);
    var page := GetHistory(table + newer, conv, Some(c.id), limit);
    forall r | r in page.messages ensures r in NewestFirst(table, conv, None) && r.createdAt < c.createdAt {
      SelectIsSubset(table, conv, Some(c.createdAt), r);
      SelectIsSubset(table, conv, None, r);
      SortKeepsElements(Select(table, conv, Some(c.createdAt)), Newest);
    }
  }

  ghost predicate DistinctTimes(all: seq<Stored>) {
    forall i, j :: 0 <= i < j < |all| ==> all[i].createdAt != all[j].createdAt
  }

  lemma {:induction false} DistinctTimesNoTies(all: seq<Stored>, size: nat)
    requires size > 0 && SortedByKey(all, Newest) && DistinctTimes(all)
    ensures NoTieAcrossPages(all, size)
    decreases |all|
  {
    if |all| > size {
      assert Newest(all[size - 1]) <= Newest(all[size]);
      DistinctTimesNoTies(all[size..], size);
    }
  }

  lemma {:induction false} SelectedOnce(table: Table, conv: Uuid, x: Stored)
    requires UniqueIds(table)
    ensures multiset(Select(table, conv, None))[x] <= 1
  {
    if table != [] {
      SelectedOnce(table[1..], conv, x);
      SelectIsSubset(table[1..], conv, None, table[0]);
      assert x == table[0] ==> multiset(Select(table[1..], conv, None))[x] == 0;
    }
  }

  lemma OnceEach(s: seq<Stored>, i: nat, j: nat)
    requires i < j < |s| && multiset(s)[s[j]] <= 1
    ensures s[i] != s[j]
  {
    var a, b := s[..j], s[j..];
    assert s == a + b;
    assert s[j] in b && s[i] in a;
    assert multiset(s)[s[j]] == multiset(a)[s[j]] + multiset(b)[s[j]];
  }

  lemma NoMessageTwice(table: Table, conv: Uuid)
    requires UniqueIds(table)
    ensures NoDuplicates(NewestFirst(table, conv, None))
  {
    var all := NewestFirst(table, conv, None);
    SortIsStable(Select(table, conv, None), Newest);
    forall i, j | 0 <= i < j < |all| ensures all[i] != all[j] {
      SelectedOnce(table, conv, all[j]);
      OnceEach(all, i, j);
    }
  }

  /** The client ends up with exactly `all`, in that order. */
  ghost predicate FetchesExactly(ask: (nat, Option<Uuid>) -> Page, calls: nat, all: seq<Stored>) {
    Fetched(ask, 0, calls, None) == all
  }

  lemma ExactWithoutTies(table: Table, tables: seq<Table>, conv: Uuid, limit: nat, all: seq<Stored>, size: nat)
    requires limit > 0 && UniqueIds(table) && Growing(table, conv, tables)
    requires all == NewestFirst(table, conv, None) && size == Min(limit, 100) && |tables| >= Pages(|all|, size)
    requires NoTieAcrossPages(all, size)
    ensures FetchesExactly(Asking(tables, conv, limit), |tables|, all)
    ensures CallsMade(Asking(tables, conv, limit), 0, |tables|, None) == Pages(|all|, size)
  {
    ServiceAnswersPages(table, tables, conv, limit, all);
    FetchesAll(Asking(tables, conv, limit), 0, |tables|, None, all, size);
  }

  lemma NotExactWithTies(table: Table, tables: seq<Table>, conv: Uuid, limit: nat, all: seq<Stored>, size: nat)
    requires limit > 0 && UniqueIds(table) && Growing(table, conv, tables)
    requires all == NewestFirst(table, conv, None) && size == Min(limit, 100)
    requires !NoTieAcrossPages(all, size)
    ensures !FetchesExactly(Asking(tables, conv, limit), |tables|, all)
  {
    ServiceAnswersPages(table, tables, conv, limit, all);
    NoMessageTwice(table, conv);
    ServiceAnswersOlder(table, tables, conv, limit);
    var hidden := TieHidesAMessage(Asking(tables, conv, limit), 0, |tables|, None, all, all, size);
  }

  /**
   Following the pages, while newer messages are inserted between the calls, returns the
   conversation as it was at the first call if and only if no page ends between two messages
   of the same timestamp; then it is newest first, each message once, in the least number of calls.
   */
  lemma PagingIsExactWhen(table: Table, tables: seq<Table>, conv: Uuid, limit: nat)
    requires limit > 0 && UniqueIds(table) && Growing(table, conv, tables)
    requires |tables| >= Pages(|NewestFirst(table, conv, None)|, Min(limit, 100))
    ensures
      var all := NewestFirst(table, conv, None);
      FetchesExactly(Asking(tables, conv, limit), |tables|, all) <==> NoTieAcrossPages(all, Min(limit, 100))
    ensures
      var all := NewestFirst(table, conv, None);
      FetchesExactly(Asking(tables, conv, limit), |tables|, all) ==>
        CallsMade(Asking(tables, conv, limit), 0, |tables|, None) == Pages(|all|, Min(limit, 100))
  {
    var all, size := NewestFirst(table, conv, None), Min(limit, 100);
    if NoTieAcrossPages(all, size) {
      ExactWithoutTies(table, tables, conv, limit, all, size);
    } else {
      NotExactWithTies(table, tables, conv, limit, all, size);
    }
  }

  /** With distinct timestamps, paging is complete and exact. */
  lemma PagingIsExact(table: Table, tables: seq<Table>, conv: Uuid, limit: nat)
    requires limit > 0 && UniqueIds(table) && Growing(table, conv, tables)
    requires |tables| >= Pages(|NewestFirst(table, conv, None)|, Min(limit, 100))
    requires DistinctTimes(NewestFirst(table, conv, None))
    ensures
      var all := NewestFirst(table, conv, None);
      && FetchesExactly(Asking(tables, conv, limit), |tables|, all)
      && CallsMade(Asking(tables, conv, limit), 0, |tables|, None) == Pages(|all|, Min(limit, 100))
      && SortedByKey(all, Newest) && multiset(all) == multiset(Select(table, conv, None)) && NoDuplicates(all)
      && (forall i, j :: 0 <= i < j < |all| ==> all[i].createdAt >= all[j].createdAt)
      && (forall r :: multiset(all)[r] == if r.conv == conv then multiset(table)[r] else 0)
  {
    NewestFirstMeans(table, conv, None);
    SortIsStable(Select(table, conv, None), Newest);
    DistinctTimesNoTies(NewestFirst(table, conv, None), Min(limit, 100));
    PagingIsExactWhen(table, tables, conv, limit);
    NoMessageTwice(table, conv);
  }

  /** Asking for pages of zero messages never gets anywhere. */
  lemma ZeroLimit(table: Table, conv: Uuid)
    ensures GetHistory(table, conv, None, 0) == Page([], Select(table, conv, None) != [])
    ensures GetHistory(table, conv, None, 0) == Page([], exists r :: r in table && r.conv == conv)
  {
    if r :| r in table && r.conv == conv {
      SelectIsSubset(table, conv, None, r);
    }
    if Select(table, conv, None) != [] {
      SelectIsSubset(table, conv, None, Select(table, conv, None)[0]);
    }
    SortKeepsElements(Select(table, conv, None), Newest);
  }

  /** Two messages of one timestamp, one per page: following the pages loses one. */
  lemma TieExample()
    ensures
      var table := [Stored(1, 0, 7), Stored(2, 0, 7)];
      |NewestFirst(table, 0, None)| == 2
        && !FetchesExactly(Asking([table, table], 0, 1), 2, NewestFirst(table, 0, None))
  {
    var table := [Stored(1, 0, 7), Stored(2, 0, 7)];
    SelectPair(table);
    var all := NewestFirst(table, 0, None);
    assert SortByKey(table[1..], Newest) == table[1..];
    assert all == table;
    PagingIsExactWhen(table, [table, table], 0, 1);
  }

  lemma SelectPair(table: Table)
    requires |table| == 2 && table[0].conv == 0 && table[1].conv == 0
    ensures Select(table, 0, None) == table
  {
    assert table[1..] == [table[1]] && table[1..][1..] == [];
    assert Select(table[1..], 0, None) == [table[1]];
    assert table == [table[0]] + [table[1]];
  }
}

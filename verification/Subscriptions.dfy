/** Per-connection conversation filters. */
module Subscriptions {
  import opened Types

  /** The filter of one connection: legacy mode receives everything, explicit mode only the subscribed conversations. */
  datatype Filter = Filter(explicit: bool, convs: set<Uuid>)

  const LEGACY := Filter(false, {})

  predicate ShouldReceive(f: Filter, conv: Uuid, isSystemMessage: bool) {
    isSystemMessage || !f.explicit || conv in f.convs
  }

  /** The ids of `ids` in `known`, each once, in order of first appearance. */
  function DistinctKnown(known: set<Uuid>, ids: seq<Uuid>): seq<Uuid> {
    if ids == [] then []
    else
      var last := ids[|ids| - 1];
      var r := DistinctKnown(known, ids[..|ids| - 1]);
      if last !in known || last in r then r else r + [last]
  }

  lemma {:induction false} DistinctKnownMembers(known: set<Uuid>, ids: seq<Uuid>)
    ensures NoDuplicates(DistinctKnown(known, ids))
    ensures forall x :: x in DistinctKnown(known, ids) <==> x in ids && x in known
    ensures InFirstOrder(DistinctKnown(known, ids), ids)
  {
    if ids != [] {
      var init, last := ids[..|ids| - 1], ids[|ids| - 1];
      DistinctKnownMembers(known, init);
      assert ids == init + [last];
      StillInFirstOrder(DistinctKnown(known, init), init, last);
    }
  }

  /** What a subscribe request adds: the first `max - count` distinct new ids, in order. */
  function Added(f: Filter, max: nat, ids: seq<Uuid>): seq<Uuid> {
    Take(DistinctNew(f.convs, ids), if |f.convs| <= max then max - |f.convs| else 0)
  }

  function AfterSubscribe(f: Filter, max: nat, ids: seq<Uuid>): Filter {
    Filter(true, f.convs + Elems(Added(f, max, ids)))
  }

  function AfterUnsubscribe(f: Filter, ids: seq<Uuid>): Filter {
    f.(convs := f.convs - Elems(ids))
  }

  /**
   `added` are new ids of the request, each once, in the order in which they first appear there; they fit, and
   one that was left out comes later and found the limit reached.
   */
  ghost predicate AddsWhatFits(known: set<Uuid>, max: nat, ids: seq<Uuid>, added: seq<Uuid>) {
    && NoDuplicates(added) && InFirstOrder(added, ids)
    && (forall x :: x in added ==> x !in known)
    && (added != [] ==> |known| + |added| <= max)
    && forall x :: x in ids && x !in known && x !in added ==>
         && |known| + |added| >= max
         && forall a :: a in added ==> FirstIndex(ids, a) < FirstIndex(ids, x)
  }

  lemma AddedFitsExactly(f: Filter, max: nat, ids: seq<Uuid>)
    ensures AddsWhatFits(f.convs, max, ids, Added(f, max, ids))
  {
    var all, added := DistinctNew(f.convs, ids), Added(f, max, ids);
    DistinctNewMembers(f.convs, ids);
    assert added <= all;
    forall x | x in ids && x !in f.convs && x !in added
      ensures |f.convs| + |added| >= max && forall a :: a in added ==> FirstIndex(ids, a) < FirstIndex(ids, x)
    {
      var j :| 0 <= j < |all| && all[j] == x;
      assert j >= |added|;
    }
  }

  /** Stopping at the limit, or at the end of the request, has added exactly what is due. */
  lemma StoppedWithAllDue(f: Filter, max: nat, ids: seq<Uuid>, i: nat)
    requires i <= |ids|
    requires
      var added := DistinctNew(f.convs, ids[..i]);
      && (added != [] ==> |f.convs| + |added| <= max)
      && (i < |ids| ==> |f.convs| + |added| >= max)
    ensures DistinctNew(f.convs, ids[..i]) == Added(f, max, ids)
  {
    DistinctNewGrows(f.convs, ids, i);
    assert ids[..|ids|] == ids;
  }

  // ---- What a connection receives, read off its history.

  datatype Request = SubscribeTo(ids: seq<Uuid>) | UnsubscribeFrom(ids: seq<Uuid>)

  function After(f: Filter, max: nat, r: Request): Filter {
    match r
    case SubscribeTo(ids) => AfterSubscribe(f, max, ids)
    case UnsubscribeFrom(ids) => AfterUnsubscribe(f, ids)
  }

  /** The filter of a connection that has made the requests of `history`. */
  function FilterAfter(max: nat, history: seq<Request>): Filter {
    if history == [] then LEGACY
    else After(FilterAfter(max, history[..|history| - 1]), max, history[|history| - 1])
  }

  lemma RecordOne(max: nat, history: seq<Request>, r: Request)
    ensures FilterAfter(max, history + [r]) == After(FilterAfter(max, history), max, r)
  {
    assert (history + [r])[..|history|] == history;
  }

  datatype Change = Joined | Left

  /** The last change to `conv` that a request reported back: None when it never changed. */
  function LastChange(max: nat, history: seq<Request>, conv: Uuid): Option<Change> {
    if history == [] then None
    else
      var before := history[..|history| - 1];
      match history[|history| - 1]
      case SubscribeTo(ids) =>
        if conv in Added(FilterAfter(max, before), max, ids) then Some(Joined) else LastChange(max, before, conv)
      case UnsubscribeFrom(ids) =>
        if conv in DistinctKnown(FilterAfter(max, before).convs, ids) then Some(Left) else LastChange(max, before, conv)
  }

  ghost predicate EverSubscribed(history: seq<Request>) {
    exists i :: 0 <= i < |history| && history[i].SubscribeTo?
  }

  /**
   Explicit mode starts with the first subscribe request and is never left; a conversation is
   subscribed exactly when the last change reported for it was a subscribe; the limit holds.
   */
  lemma {:induction false} FilterMatchesHistory(max: nat, history: seq<Request>)
    ensures
      var f := FilterAfter(max, history);
      && (f.explicit <==> EverSubscribed(history))
      && |f.convs| <= max
      && forall conv :: conv in f.convs <==> LastChange(max, history, conv) == Some(Joined)
  {
    if history != [] {
      var before := history[..|history| - 1];
      FilterMatchesHistory(max, before);
      var f := FilterAfter(max, before);
      match history[|history| - 1] {
        case SubscribeTo(ids) =>
          assert history[|history| - 1].SubscribeTo?;
          AddedFits(f, max, ids);
        case UnsubscribeFrom(ids) =>
          DistinctKnownMembers(f.convs, ids);
          assert f.convs - Elems(ids) <= f.convs;
          SubsetSize(f.convs - Elems(ids), f.convs);
          assert EverSubscribed(history) <==> EverSubscribed(before) by {
            assert forall i :: 0 <= i < |before| ==> before[i] == history[i];
          }
      }
    }
  }

  lemma SubsetSize<T>(a: set<T>, b: set<T>)
    requires a <= b
    ensures |a| <= |b|
  {
    assert b == a + (b - a);
  }

  lemma {:induction false} ElemsSize(s: seq<Uuid>)
    ensures |Elems(s)| <= |s|
  {
    if s != [] {
      var init := s[..|s| - 1];
      assert s == init + [s[|s| - 1]];
      ElemsAppend(init, s[|s| - 1]);
      ElemsSize(init);
    }
  }

  lemma AddedFits(f: Filter, max: nat, ids: seq<Uuid>)
    requires |f.convs| <= max
    ensures |f.convs + Elems(Added(f, max, ids))| <= max
  {
    var added := Elems(Added(f, max, ids));
    ElemsSize(Added(f, max, ids));
    assert f.convs + added == f.convs + (added - f.convs);
    SubsetSize(added - f.convs, added);
  }

  /** A system message passes every filter; another one passes exactly when history says so. */
  lemma ReceivesByHistory(max: nat, history: seq<Request>, conv: Uuid)
    ensures ShouldReceive(FilterAfter(max, history), conv, true)
    ensures ShouldReceive(FilterAfter(max, history), conv, false) <==>
              !EverSubscribed(history) || LastChange(max, history, conv) == Some(Joined)
  {
    FilterMatchesHistory(max, history);
  }

  lemma GrowBy(known: set<Uuid>, added: seq<Uuid>, x: Uuid)
    ensures known + Elems(added + [x]) == known + Elems(added) + {x}
    ensures x in known + Elems(added) <==> x in known || x in added
  {
  }

  // ---- The object.

  datatype SubscriptionResult = SubscriptionResult(subscribed: seq<Uuid>, unsubscribed: seq<Uuid>)

  /** What the requests made through `subscriptions` say about `conv`: never subscribed to anything, or joined last. */
  ghost predicate WantsByHistory(subscriptions: ConnectionSubscriptions, conv: Uuid)
    reads subscriptions
  {
    || !EverSubscribed(subscriptions.history)
    || LastChange(subscriptions.maxSubscriptions, subscriptions.history, conv) == Some(Joined)
  }

  class ConnectionSubscriptions {
    var subscriptions: set<Uuid>
    var explicit: bool
    const maxSubscriptions: nat
    ghost var history: seq<Request>

    ghost function View(): Filter
      reads this
    {
      Filter(explicit, subscriptions)
    }

    /** The filter is what the requests made so far add up to. */
    ghost predicate Recorded()
      reads this
    {
      View() == FilterAfter(maxSubscriptions, history)
    }

    constructor (maxSubscriptions: nat)
      ensures View() == LEGACY && this.maxSubscriptions == maxSubscriptions
      ensures history == [] && Recorded()
    {
      this.maxSubscriptions := maxSubscriptions;
      subscriptions, explicit, history := {}, false, [];
    }

    method Subscribe(ids: seq<Uuid>) returns (r: SubscriptionResult)
      modifies this
      ensures r == SubscriptionResult(Added(old(View()), maxSubscriptions, ids), [])
      ensures View() == AfterSubscribe(old(View()), maxSubscriptions, ids)
      ensures AddsWhatFits(old(subscriptions), maxSubscriptions, ids, r.subscribed) && r.unsubscribed == []
      ensures explicit && forall x :: x in subscriptions <==> x in old(subscriptions) || x in r.subscribed
      ensures history == old(history) + [SubscribeTo(ids)] && (old(Recorded()) ==> Recorded())
    {
      RecordOne(maxSubscriptions, history, SubscribeTo(ids));
      AddedFitsExactly(View(), maxSubscriptions, ids);
      explicit := true;
      var added := AddUpToLimit(ids);
      history := history + [SubscribeTo(ids)];
      r := SubscriptionResult(added, []);
    }

    method AddUpToLimit(ids: seq<Uuid>) returns (added: seq<Uuid>)
      modifies this`subscriptions
      ensures added == Added(old(View()), maxSubscriptions, ids)
      ensures subscriptions == old(subscriptions) + Elems(added)
    {
      ghost var known := subscriptions;
      added := [];
      assert known + Elems(added) == known;
      var i := 0;
      while i < |ids|
        invariant 0 <= i <= |ids|
        invariant added == DistinctNew(known, ids[..i])
        invariant subscriptions == known + Elems(added)
        invariant |subscriptions| == |known| + |added|
        invariant added != [] ==> |subscriptions| <= maxSubscriptions
      {
        if |subscriptions| >= maxSubscriptions {
          break;
        }
        DistinctNewStep(known, ids, i);
        GrowBy(known, added, ids[i]);
        if ids[i] !in subscriptions {
          subscriptions := subscriptions + {ids[i]};
          added := added + [ids[i]];
        }
        i := i + 1;
      }
      StoppedWithAllDue(old(View()), maxSubscriptions, ids, i);
    }

    method Unsubscribe(ids: seq<Uuid>) returns (r: SubscriptionResult)
      modifies this
      ensures r == SubscriptionResult([], DistinctKnown(old(subscriptions), ids))
      ensures View() == AfterUnsubscribe(old(View()), ids)
      ensures NoDuplicates(r.unsubscribed) && InFirstOrder(r.unsubscribed, ids) && r.subscribed == []
      ensures forall x :: x in r.unsubscribed <==> x in ids && x in old(subscriptions)
      ensures explicit == old(explicit) && forall x :: x in subscriptions <==> x in old(subscriptions) && x !in ids
      ensures history == old(history) + [UnsubscribeFrom(ids)] && (old(Recorded()) ==> Recorded())
    {
      RecordOne(maxSubscriptions, history, UnsubscribeFrom(ids));
      DistinctKnownMembers(subscriptions, ids);
      var removed := RemoveKnown(ids);
      history := history + [UnsubscribeFrom(ids)];
      r := SubscriptionResult([], removed);
    }

    method RemoveKnown(ids: seq<Uuid>) returns (removed: seq<Uuid>)
      modifies this`subscriptions
      ensures removed == DistinctKnown(old(subscriptions), ids)
      ensures subscriptions == old(subscriptions) - Elems(ids)
    {
      ghost var known := subscriptions;
      removed := [];
      var i := 0;
      while i < |ids|
        invariant 0 <= i <= |ids|
        invariant removed == DistinctKnown(known, ids[..i])
        invariant subscriptions == known - Elems(removed)
      {
        assert ids[..i + 1][..i] == ids[..i];
        ElemsAppend(removed, ids[i]);
        if ids[i] in subscriptions {
          subscriptions := subscriptions - {ids[i]};
          removed := removed + [ids[i]];
        }
        i := i + 1;
      }
      assert ids[..|ids|] == ids;
      DistinctKnownMembers(known, ids);
    }

    method Accepts(conv: Uuid, isSystemMessage: bool) returns (r: bool)
      ensures r <==> ShouldReceive(View(), conv, isSystemMessage)
      ensures r <==> isSystemMessage || !explicit || conv in subscriptions
    {
      r := isSystemMessage || !explicit || conv in subscriptions;
    }
  }
}

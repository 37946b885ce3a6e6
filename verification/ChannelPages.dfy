/** The operator's request-service channels, listed through continuation tokens. */
module ChannelPages {
  import opened Wrappers
  import opened Paging
  import opened ConversationWalks

  const MAX_CHANNEL_PAGE: nat := 50

  datatype Summary = Summary(channel: Channel, requesterEnrolled: bool)
  datatype Listing = InvalidLimit | Listed(channels: seq<Summary>, next: Option<nat>)

  predicate Owned(store: Store, operator: nat, id: nat) {
    id in store && store[id].service.Some? && store[id].service.value.operator == operator
  }

  function SummaryOf(c: Conversation): Summary
    requires c.service.Some?
  {
    Summary(c.service.value, c.service.value.requester in c.members)
  }

  /** The summaries of the owned conversations among `ids`, in that order. */
  function Summaries(store: Store, operator: nat, ids: seq<nat>): seq<Summary> {
    if ids == [] then []
    else
      var last := ids[|ids| - 1];
      Summaries(store, operator, ids[..|ids| - 1]) + (if Owned(store, operator, last)
          then [SummaryOf(store[last])] else [])
  }

  /** The owned conversations among `ids`. */
  ghost function OwnedIds(store: Store, operator: nat, ids: seq<nat>): seq<nat> {
    if ids == [] then []
    else
      var last := ids[|ids| - 1];
      OwnedIds(store, operator, ids[..|ids| - 1]) + (if Owned(store, operator, last) then [last] else [])
  }

  lemma {:induction false} OwnedIdsAre(store: Store, operator: nat, ids: seq<nat>)
    requires Ascends(ids)
    ensures Ascends(OwnedIds(store, operator, ids))
    ensures forall x :: x in OwnedIds(store, operator, ids) <==> x in ids && Owned(store, operator, x)
  {
    if ids != [] {
      var last, shorter := ids[|ids| - 1], ids[..|ids| - 1];
      OwnedIdsAre(store, operator, shorter);
      var before := OwnedIds(store, operator, shorter);
      assert ids == shorter + [last];
      assert forall i :: 0 <= i < |before| ==> before[i] in before;
    }
  }

  lemma {:induction false} SummariesFollow(store: Store, operator: nat, ids: seq<nat>)
    ensures var owned := OwnedIds(store, operator, ids);
            && |Summaries(store, operator, ids)| == |owned|
            && forall i :: 0 <= i < |owned| ==>
                 Owned(store, operator, owned[i]) && Summaries(store, operator, ids)[i] == SummaryOf(store[owned[i]])
  {
    if ids != [] {
      SummariesFollow(store, operator, ids[..|ids| - 1]);
    }
  }

  /** A complete listing is one summary per owned conversation of the store, in identifier order. */
  lemma CompleteListing(store: Store, operator: nat)
    ensures var ids := Enumeration(store.Keys);
            var owned := OwnedIds(store, operator, ids);
            && Enumerates(owned, set id | id in store && Owned(store, operator, id))
            && |Summaries(store, operator, ids)| == |owned|
            && forall i :: 0 <= i < |owned| ==>
                 Owned(store, operator, owned[i]) && Summaries(store, operator, ids)[i] == SummaryOf(store[owned[i]])
  {
    OwnedIdsAre(store, operator, Enumeration(store.Keys));
    SummariesFollow(store, operator, Enumeration(store.Keys));
  }

  method SummarizePage(store: Store, operator: nat, ids: seq<nat>) returns (channels: seq<Summary>)
    ensures channels == Summaries(store, operator, ids)
  {
    channels := [];
    for k := 0 to |ids|
      invariant channels == Summaries(store, operator, ids[..k])
    {
      assert ids[..k + 1][..k] == ids[..k];
      if Owned(store, operator, ids[k]) {
        channels := channels + [SummaryOf(store[ids[k]])];
      }
    }
    assert ids[..|ids|] == ids;
  }

  /** One page of the listing. `page` are the conversations it looked at; a missing token
      means nothing lies beyond them. */
  method RequestServiceChannels(store: Store, operator: nat, after: Option<nat>, limit: nat)
    returns (r: Listing, ghost page: seq<nat>)
    ensures r.InvalidLimit? <==> !(1 <= limit <= MAX_CHANNEL_PAGE)
    ensures r.Listed? ==>
              && IsPage(page, store.Keys, after, limit)
              && r.channels == Summaries(store, operator, page)
              && (r.next.Some? ==> page != [] && r.next.value == page[|page| - 1])
              && (r.next.None? ==> IsPage(page, store.Keys, after, |page| + 1))
  {
    page := [];
    if !(1 <= limit <= MAX_CHANNEL_PAGE) {
      return InvalidLimit, page;
    }
    var ids := ReadPage(store.Keys, after, limit + 1);
    var taken := if |ids| > limit then ids[..limit] else ids;
    if |ids| > limit {
      PagePrefix(ids, store.Keys, after, limit + 1, limit);
    }
    page := taken;
    var channels := SummarizePage(store, operator, taken);
    r := Listed(channels, if |ids| > limit then Some(ids[limit - 1]) else None);
  }

  lemma {:induction false} SummariesConcat(store: Store, operator: nat, a: seq<nat>, b: seq<nat>)
    ensures Summaries(store, operator, a + b) == Summaries(store, operator, a) + Summaries(store, operator, b)
  {
    if b == [] {
      assert a + b == a;
    } else {
      var last := b[|b| - 1];
      SummariesConcat(store, operator, a, b[..|b| - 1]);
      assert (a + b)[..|a + b| - 1] == a + b[..|b| - 1];
    }
  }

  /** Following the tokens from the beginning, with any admissible limit at every step, ends
      and lists the summaries of the whole store in identifier order. */
  method FollowTokens(store: Store, operator: nat, limits: nat -> nat) returns (all: seq<Summary>)
    requires forall n :: 1 <= limits(n) <= MAX_CHANNEL_PAGE
    ensures all == Summaries(store, operator, Enumeration(store.Keys))
  {
    all := [];
    ghost var ids := [];
    var after, n := None, 0;
    while true
      invariant Visited(ids, store.Keys, after) && all == Summaries(store, operator, ids)
      decreases Left(store.Keys, after)
    {
      var r, page := RequestServiceChannels(store, operator, after, limits(n));
      SummariesConcat(store, operator, ids, page);
      all := all + r.channels;
      if r.next.None? {
        WalkOn(ids, store.Keys, after, page, |page| + 1);
        EnumerationIsUnique(ids + page, store.Keys);
        return;
      }
      WalkOn(ids, store.Keys, after, page, limits(n));
      LeftShrinks(store.Keys, after, page, limits(n));
      ids, after, n := ids + page, r.next, n + 1;
    }
  }
}

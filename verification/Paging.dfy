/** Ordered identifiers and the keyset pages the profile store serves:
    `WHERE id > after ORDER BY id LIMIT limit`. */
module Paging {
  import opened Wrappers

  ghost predicate Ascends(ids: seq<nat>) {
    forall i, j :: 0 <= i < j < |ids| ==> ids[i] < ids[j]
  }

  /** `ids` enumerates `all` in increasing order. */
  ghost predicate Enumerates(ids: seq<nat>, all: set<nat>) {
    && Ascends(ids)
    && forall x :: x in ids <==> x in all
  }

  predicate Beyond(after: Option<nat>, id: nat) {
    after.None? || after.value < id
  }

  ghost predicate Least(m: nat, all: set<nat>) {
    m in all && forall x :: x in all ==> m <= x
  }

  lemma {:induction false} HasLeast(all: set<nat>) returns (m: nat)
    requires all != {}
    ensures Least(m, all)
  {
    var k :| k in all;
    var rest := all - {k};
    assert forall x :: x in all <==> x == k || x in rest;
    m := k;
    if rest != {} {
      var l := HasLeast(rest);
      m := if k < l then k else l;
    }
  }

  /** Every set of identifiers can be listed in order. */
  ghost function Enumeration(all: set<nat>): (ids: seq<nat>)
    ensures Enumerates(ids, all)
  {
    if all == {} then []
    else
      var m := LeastOf(all);
      var rest := Enumeration(all - {m});
      assert forall i :: 0 <= i < |rest| ==> rest[i] in rest;
      [m] + rest
  }

  ghost function LeastOf(all: set<nat>): (m: nat)
    requires all != {}
    ensures Least(m, all)
  {
    assert exists m :: Least(m, all) by { var m := HasLeast(all); }
    var m :| Least(m, all); m
  }

  /** The first `limit` identifiers of `all` beyond `after`, in order. */
  ghost predicate IsPage(page: seq<nat>, all: set<nat>, after: Option<nat>, limit: nat) {
    && Ascends(page) && |page| <= limit
    && (forall i :: 0 <= i < |page| ==> page[i] in all && Beyond(after, page[i]))
    && (forall x :: x in all && Beyond(after, x) && (|page| < limit || (page != [] && x <= page[|page| - 1])) ==>
        x in page)
  }

  method ReadPage(all: set<nat>, after: Option<nat>, limit: nat) returns (page: seq<nat>)
    requires 1 <= limit
    ensures IsPage(page, all, after, limit)
  {
    page := [];
    var rest := set x | x in all && Beyond(after, x);
    while |page| < limit && rest != {}
      invariant |page| <= limit && Ascends(page)
      invariant forall x :: x in rest ==> x in all && Beyond(after, x) && (page == [] || page[|page| - 1] < x)
      invariant forall i :: 0 <= i < |page| ==> page[i] in all && Beyond(after, page[i])
      invariant forall x :: x in all && Beyond(after, x) ==> x in page || x in rest
    {
      ghost var least := HasLeast(rest);
      var m :| m in rest && forall x :: x in rest ==> m <= x;
      page, rest := page + [m], rest - {m};
    }
  }

  /** `visited` is everything up to and including `after`, in order. */
  ghost predicate Visited(visited: seq<nat>, all: set<nat>, after: Option<nat>) {
    && Ascends(visited)
    && forall x :: x in visited <==> x in all && !Beyond(after, x)
  }

  /** Reading on from `after` visits the next identifiers and skips none; a short page ends the walk. */
  lemma WalkOn(visited: seq<nat>, all: set<nat>, after: Option<nat>, page: seq<nat>, limit: nat)
    requires Visited(visited, all, after) && IsPage(page, all, after, limit)
    ensures page != [] ==> Visited(visited + page, all, Some(page[|page| - 1]))
    ensures |page| < limit ==> Enumerates(visited + page, all)
  {
    var both := visited + page;
    assert forall i :: 0 <= i < |visited| ==> visited[i] in visited;
    assert Ascends(both);
    forall x ensures x in both <==> x in visited || x in page {
    }
  }

  /** The first part of a page is itself a page, so a walk may stop anywhere inside one. */
  lemma PagePrefix(page: seq<nat>, all: set<nat>, after: Option<nat>, limit: nat, k: nat)
    requires IsPage(page, all, after, limit) && 1 <= k <= |page|
    ensures IsPage(page[..k], all, after, k)
  {
  }

  /** Everything visited so far is an initial part of any complete enumeration. */
  lemma {:induction false} VisitedIsPrefix(visited: seq<nat>, full: seq<nat>, all: set<nat>, after: Option<nat>)
    requires Visited(visited, all, after) && Enumerates(full, all)
    ensures visited <= full
  {
    var n := 0;
    while n < |visited|
      invariant 0 <= n <= |visited| && n <= |full|
      invariant forall k :: 0 <= k < n ==> visited[k] == full[k]
    {
      assert visited[n] in visited;
      var i :| 0 <= i < |full| && full[i] == visited[n];
      assert full[n] in full && full[n] <= visited[n];
      var j :| 0 <= j < |visited| && visited[j] == full[n];
      n := n + 1;
    }
  }

  lemma WholeIsVisited(ids: seq<nat>, all: set<nat>) returns (after: Option<nat>)
    requires Enumerates(ids, all)
    ensures Visited(ids, all, after)
  {
    after := None;
    if ids != [] {
      after := Some(ids[|ids| - 1]);
    }
  }

  /** There is only one way to list a set in order. */
  lemma EnumerationIsUnique(ids: seq<nat>, all: set<nat>)
    requires Enumerates(ids, all)
    ensures ids == Enumeration(all)
  {
    var after := WholeIsVisited(ids, all);
    VisitedIsPrefix(ids, Enumeration(all), all, after);
    var end := WholeIsVisited(Enumeration(all), all);
    VisitedIsPrefix(Enumeration(all), ids, all, end);
  }

  function Left(all: set<nat>, after: Option<nat>): set<nat> {
    set x | x in all && Beyond(after, x)
  }

  /** Each non-empty page leaves strictly less to read. */
  lemma LeftShrinks(all: set<nat>, after: Option<nat>, page: seq<nat>, limit: nat)
    requires IsPage(page, all, after, limit) && page != []
    ensures Left(all, Some(page[|page| - 1])) < Left(all, after)
  {
    assert page[0] in Left(all, after);
    assert page[0] !in Left(all, Some(page[|page| - 1]));
  }

  /** A walk that stops inside a page has visited exactly what lies at or before that point. */
  lemma WalkInto(visited: seq<nat>, all: set<nat>, after: Option<nat>, page: seq<nat>, limit: nat, k: nat)
    requires Visited(visited, all, after) && IsPage(page, all, after, limit) && k < |page|
    ensures page[k] in all
    ensures visited + page[..k] + [page[k]] == visited + page[..k + 1]
    ensures Visited(visited + page[..k + 1], all, Some(page[k]))
  {
    var part := page[..k + 1];
    PagePrefix(page, all, after, limit, k + 1);
    assert page[..k] + [page[k]] == part && part[|part| - 1] == page[k];
    assert Visited(visited + part, all, Some(page[k])) by {
      WalkOn(visited, all, after, part, k + 1);
    }
  }
}

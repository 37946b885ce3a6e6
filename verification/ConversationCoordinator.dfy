/** `ConversationCoordinator` over its stores: startup recovery as the source runs it, paging
    through the pending joins by last identifier while deleting them. */
module ConversationCoordination {
  import opened Wrappers
  import opened Paging
  import opened JoinProtocol

  const MAX_PAGE: nat := 100
  const MAX_RECOVERED_PAIRINGS: nat := 32

  datatype Outcome = Done | StateMismatch

  /** The scan for `id` meets an undecodable checkpoint before it finds a pairing that keeps it. */
  ghost predicate Unreadable(pairings: map<nat, Pairing>, id: nat) {
    exists p :: p in pairings && Waits(pairings[p]) && !pairings[p].decodable && NobodyBefore(pairings, id, p)
  }

  ghost predicate NobodyBefore(pairings: map<nat, Pairing>, id: nat, p: nat) {
    forall q :: q in pairings && q < p ==> !Keeps(pairings[q], id)
  }

  /** The pairings scanned so far neither keep `id` nor end the scan. */
  ghost predicate Passed(pairings: map<nat, Pairing>, id: nat, seen: seq<nat>) {
    forall i :: 0 <= i < |seen| ==>
      seen[i] in pairings && !Keeps(pairings[seen[i]], id) && (Waits(pairings[seen[i]]) ==> pairings[seen[i]].decodable)
  }

  /** Nothing below the pairing the scan has reached keeps `id` or is unreadable. */
  lemma NothingBelow(pairings: map<nat, Pairing>, id: nat, actives: set<nat>, seen: seq<nat>, p: nat)
    requires actives == set q | q in pairings && pairings[q].active
    requires Passed(pairings, id, seen) && Visited(seen + [p], actives, Some(p))
    ensures NobodyBefore(pairings, id, p)
    ensures forall q :: q in pairings && q < p && Waits(pairings[q]) ==> pairings[q].decodable
  {
    forall q | q in pairings && q < p && pairings[q].active
      ensures !Keeps(pairings[q], id) && (Waits(pairings[q]) ==> pairings[q].decodable)
    {
      assert q in seen + [p];
    }
  }

  lemma ScannedAll(pairings: map<nat, Pairing>, id: nat, actives: set<nat>, seen: seq<nat>)
    requires actives == set p | p in pairings && pairings[p].active
    requires Enumerates(seen, actives) && Passed(pairings, id, seen)
    ensures !Retained(pairings, id) && !Unreadable(pairings, id)
  {
    forall p | p in pairings && Waits(pairings[p]) ensures !Keeps(pairings[p], id) && pairings[p].decodable {
      assert p in seen;
    }
  }

  /** One page of the scan. */
  method ScanPairings(pairings: map<nat, Pairing>, id: nat, page: seq<nat>, ghost actives: set<nat>,
      ghost seen: seq<nat>, ghost after: Option<nat>)
    returns (r: Option<Result<bool, Outcome>>)
    requires actives == set p | p in pairings && pairings[p].active
    requires Visited(seen, actives, after) && Passed(pairings, id, seen)
    requires IsPage(page, actives, after, MAX_RECOVERED_PAIRINGS)
    ensures r.None? ==> Passed(pairings, id, seen + page)
    ensures r.Some? ==>
              || (r.value == Err(StateMismatch) && Unreadable(pairings, id))
              || (r.value == Ok(true) && Retained(pairings, id) && !Unreadable(pairings, id))
  {
    assert seen + page[..0] == seen;
    for k := 0 to |page|
      invariant Passed(pairings, id, seen + page[..k])
    {
      WalkInto(seen, actives, after, page, MAX_RECOVERED_PAIRINGS, k);
      NothingBelow(pairings, id, actives, seen + page[..k], page[k]);
      var p := pairings[page[k]];
      if p.joiner && p.awaitingWelcome {
        if !p.decodable {
          return Some(Err(StateMismatch));
        }
        if p.conversation == Some(id) {
          return Some(Ok(true));
        }
      }
    }
    assert page[..|page|] == page;
    r := None;
  }

  /** active_pairing_retains_pending_join: a paged scan of the active pairings, which fails on
      an undecodable checkpoint unless it finds a pairing that keeps the journal first. */
  method ActivePairingRetains(pairings: map<nat, Pairing>, id: nat) returns (r: Result<bool, Outcome>)
    ensures r == Err(StateMismatch) <==> Unreadable(pairings, id)
    ensures r.Ok? <==> !Unreadable(pairings, id)
    ensures r.Ok? ==> r.value == Retained(pairings, id)
  {
    var actives := set p | p in pairings && pairings[p].active;
    var after := None;
    ghost var seen := [];
    while true
      invariant Visited(seen, actives, after) && Passed(pairings, id, seen)
      decreases Left(actives, after)
    {
      var page := ReadPage(actives, after, MAX_RECOVERED_PAIRINGS);
      WalkOn(seen, actives, after, page, MAX_RECOVERED_PAIRINGS);
      var found := ScanPairings(pairings, id, page, actives, seen, after);
      if found.Some? {
        return found.value;
      }
      seen := seen + page;
      if |page| < MAX_RECOVERED_PAIRINGS {
        ScannedAll(pairings, id, actives, seen);
        return Ok(false);
      }
      LeftShrinks(actives, after, page, MAX_RECOVERED_PAIRINGS);
      after := Some(page[|page| - 1]);
    }
  }

  // ------------------------------------------------------------------ one more identifier

  /** Nothing beyond `after` has been touched, so a page of what is left is a page of the start. */
  lemma PageOfStart(st: Stores, done: set<nat>, after: Option<nat>, page: seq<nat>, limit: nat)
    requires forall x :: x in done ==> !Beyond(after, x)
    requires IsPage(page, RecoveredOn(st, done).pending.Keys, after, limit)
    ensures IsPage(page, st.pending.Keys, after, limit)
  {
  }

  lemma PublishMore(st: Stores, done: set<nat>, id: nat)
    ensures PublishedOn(st, done + {id}) ==
              if Unpublished(st, id) then PublishedOn(st, done)[id := Published(st.pending[id])]
                  else PublishedOn(st, done)
  {
  }

  lemma KeepLess(st: Stores, done: set<nat>, id: nat)
    ensures KeptOn(st, done + {id}) == if Dropped(st, id) then KeptOn(st, done) - {id} else KeptOn(st, done)
  {
  }

  /** Recovering one more join publishes it if it is persisted but unpublished, and drops its
      journal once it is published, unless a pairing retains it. */
  lemma RecoverMore(st: Stores, done: set<nat>, id: nat)
    ensures var now := RecoveredOn(st, done);
            RecoveredOn(st, done + {id}) ==
              now.(conversations := if Unpublished(st, id)
                  then now.conversations[id := Published(st.pending[id])] else now.conversations,
                   pending := if Dropped(st, id) then now.pending - {id} else now.pending)
  {
    PublishMore(st, done, id);
    KeepLess(st, done, id);
  }

  class ConversationCoordinator {
    var conversations: map<nat, Conversation>
    var pending: map<nat, Pending>
    var groups: map<nat, nat>
    var pairings: map<nat, Pairing>

    ghost function View(): Stores
      reads this
    {
      Stores(conversations, pending, groups, pairings)
    }

    constructor (stores: Stores)
      ensures View() == stores
    {
      conversations, pending, groups, pairings := stores.conversations, stores.pending, stores.groups, stores.pairings;
    }

    /** The publishing half of accept_welcome, cut off after `budget` transactions. */
    method Publish(id: nat, retain: bool, budget: nat)
      modifies this
      ensures View() == Steps(State(old(View()), Finalizing(id, retain), false), budget).stores
    {
      ghost var s := State(View(), Finalizing(id, retain), false);
      if budget == 0 {
        return;
      }
      ghost var t := ContinueStep(s);
      if t.operation.NoOperation? {
        IdleStays(t, budget - 1);
      }
      if !Restorable(Stores(conversations, pending, groups, pairings), id) {
        return;
      }
      if id in conversations {
        if conversations[id] != Published(pending[id]) {
          return;
        }
      } else {
        conversations := conversations[id := Published(pending[id])];
      }
      if budget == 1 {
        return;
      }
      IdleStays(ContinueStep(t), budget - 2);
      if !retain {
        pending := pending - {id};
      }
    }

    /** accept_welcome_with_retention, cut off by a crash or storage error after `budget`
        transactions: exactly that many steps of the protocol have reached the disks. */
    method AcceptWelcome(a: Action, budget: nat)
      requires a.Accept?
      modifies this
      ensures View() == Steps(Apply(State(old(View()), NoOperation, false), a), budget).stores
    {
      ghost var s := Apply(State(View(), NoOperation, false), a);
      if s.operation.NoOperation? {
        IdleStays(s, budget);
      }
      if a.id !in pending {
        return;
      }
      var p := pending[a.id];
      if p.checkpoint.Some? && a.id in groups {
        if p.checkpoint.value.receipt == a.receipt && p.checkpoint.value.commit == a.receipt.envelope {
          Publish(a.id, a.retain, budget);
        }
        return;
      }
      if p.proof.None? || (p.checkpoint.Some? && p.checkpoint.value.state != a.prepared)
          || a.receipt.envelope != a.commit {
        return;
      }
      if budget == 0 {
        return;
      }
      var cp := Checkpoint(a.prepared, a.commit, a.receipt);
      if p.checkpoint.None? {
        pending := pending[a.id := p.(checkpoint := Some(cp))];
      } else if p.checkpoint != Some(cp) {
        IdleStays(ContinueStep(s), budget - 1);
        return;
      }
      assert ContinueStep(s) == State(View(), Persisting(a.id, cp, a.retain), false);
      if budget == 1 {
        return;
      }
      groups := groups[a.id := cp.state];
      assert ContinueStep(ContinueStep(s)) == State(View(), Finalizing(a.id, a.retain), false);
      Publish(a.id, a.retain, budget - 2);
    }

    /** finalize_pending_join: publish at the checkpoint, then drop the journal unless
        retained. The group is restored first, even when the conversation already exists. */
    method FinalizePendingJoin(id: nat, retain: bool) returns (r: Outcome)
      modifies this
      ensures r.Done? <==>
                && Restorable(old(View()), id)
                && (id in old(conversations) ==> old(conversations)[id] == Published(old(pending)[id]))
      ensures r.StateMismatch? ==> View() == old(View())
      ensures r.Done? ==>
                && conversations == old(conversations)[id := Published(old(pending)[id])]
                && pending == (if retain then old(pending) else old(pending) - {id})
                && groups == old(groups) && pairings == old(pairings)
    {
      if id !in pending || pending[id].checkpoint.None? {
        return StateMismatch;
      }
      var cp := pending[id].checkpoint.value;
      if cp.commit != cp.receipt.envelope {
        return StateMismatch;
      }
      if id !in groups || groups[id] != cp.state {
        return StateMismatch;
      }
      var conversation := Published(pending[id]);
      if id in conversations {
        if conversations[id] != conversation {
          return StateMismatch;
        }
      } else {
        conversations := conversations[id := conversation];
      }
      if !retain {
        pending := pending - {id};
      }
      r := Done;
    }

    /** The loop body of recover for one pending join. */
    method RecoverOne(id: nat, ghost st: Stores, ghost done: set<nat>) returns (r: Outcome)
      requires View() == RecoveredOn(st, done) && id in st.pending && id !in done
      modifies this
      ensures r.Done? <==> Recoverable(st, id)
      ensures r.Done? ==> View() == RecoveredOn(st, done + {id})
      ensures r.StateMismatch? ==> View() == old(View())
    {
      var scan := ActivePairingRetains(pairings, id);
      if scan.Err? {
        return StateMismatch;
      }
      var retain := scan.value;
      r := Done;
      RecoverMore(st, done, id);
      if id in conversations {
        if !retain {
          pending := pending - {id};
        }
      } else if pending[id].checkpoint.Some? && id in groups {
        r := FinalizePendingJoin(id, retain);
      } else if id in groups {
        r := StateMismatch;
      }
    }

    /** recover: visits every pending join present at the start exactly once although it
        deletes them on the way, and succeeds exactly when each of them is recoverable. A
        pending join that remains has no group, or is published and retained by a pairing. A
        failed recovery has recovered the joins before the first one it cannot, and no other. */
    method Recover() returns (r: Outcome, ghost visited: seq<nat>)
      modifies this
      ensures r.Done? <==> forall id :: id in old(pending) ==> Recoverable(old(View()), id)
      ensures r.Done? ==> View() == Recovered(old(View())) && Enumerates(visited, old(pending.Keys))
      ensures r.Done? ==> Remaining(View())
      ensures r.StateMismatch? ==> Stuck(old(View()), View())
    {
      ghost var st := View();
      ghost var done: set<nat> := {};
      visited := [];
      var after := None;
      assert RecoveredOn(st, {}) == st by { NothingDone(st); }
      while true
        invariant View() == RecoveredOn(st, done) && Visited(visited, st.pending.Keys, after)
        invariant Covers(st, done, visited)
        decreases Left(st.pending.Keys, after)
      {
        var page := ReadPage(pending.Keys, after, MAX_PAGE);
        PageOfStart(st, done, after, page, MAX_PAGE);
        r, done := RecoverPage(page, st, done, visited, after);
        if r.StateMismatch? {
          StuckIsConflict(st, View());
          return;
        }
        WalkOn(visited, st.pending.Keys, after, page, MAX_PAGE);
        visited := visited + page;
        if |page| < MAX_PAGE {
          AllDone(st, done, visited);
          return;
        }
        LeftShrinks(st.pending.Keys, after, page, MAX_PAGE);
        after := Some(page[|page| - 1]);
      }
    }

    method RecoverPage(page: seq<nat>, ghost st: Stores, ghost before: set<nat>, ghost visited: seq<nat>,
        ghost after: Option<nat>)
      returns (r: Outcome, ghost done: set<nat>)
      requires View() == RecoveredOn(st, before) && Covers(st, before, visited)
      requires Visited(visited, st.pending.Keys, after) && IsPage(page, st.pending.Keys, after, MAX_PAGE)
      modifies this
      ensures r.StateMismatch? ==> Stuck(st, View())
      ensures r.Done? ==> View() == RecoveredOn(st, done) && Covers(st, done, visited + page)
    {
      r, done := Done, before;
      assert visited + page[..0] == visited;
      for k := 0 to |page|
        invariant r.Done? && View() == RecoveredOn(st, done) && Covers(st, done, visited + page[..k])
      {
        NextIsNew(visited, st.pending.Keys, after, page, MAX_PAGE, k);
        r := RecoverOne(page[k], st, done);
        if r.StateMismatch? {
          StuckHere(st, done, visited, after, page, k);
          return;
        }
        CoversMore(st, done, visited + page[..k], page[k]);
        done := done + {page[k]};
      }
      assert page[..|page|] == page;
    }
  }

  /** Recovery gets past this join: its group does not contradict its journal, and the scan
      of the pairings decides whether the journal is retained. */
  ghost predicate Recoverable(st: Stores, id: nat) {
    !Conflicts(st, id) && !Unreadable(st.pairings, id)
  }

  /** What a finished recovery leaves pending. */
  ghost predicate Remaining(st: Stores) {
    forall id :: id in st.pending ==>
      if id in st.conversations then Retained(st.pairings, id) else id !in st.groups
  }

  /** `done` are the identifiers in `ids`, and all of them are recoverable. */
  ghost predicate Covers(st: Stores, done: set<nat>, ids: seq<nat>) {
    && (forall x :: x in done <==> x in ids)
    && (forall x :: x in done ==> Recoverable(st, x))
  }

  /** `id` is the first pending join that is not recoverable, and `now` has exactly the ones
      before it recovered. */
  ghost predicate StuckAt(st: Stores, id: nat, now: Stores) {
    && id in st.pending && !Recoverable(st, id)
    && (forall x :: x in st.pending && x < id ==> Recoverable(st, x))
    && now == RecoveredOn(st, set x | x in st.pending && x < id)
  }

  ghost predicate Stuck(st: Stores, now: Stores) {
    exists id :: StuckAt(st, id, now)
  }

  lemma StuckIsConflict(st: Stores, now: Stores)
    requires Stuck(st, now)
    ensures !forall id :: id in st.pending ==> Recoverable(st, id)
  {
  }

  /** What a walk has visited by the k-th identifier of a page is everything before it. */
  lemma VisitedIsBefore(
    visited: seq<nat>, all: set<nat>, after: Option<nat>, page: seq<nat>, limit: nat, k: nat, x: nat)
    requires Visited(visited, all, after) && IsPage(page, all, after, limit) && k < |page|
    ensures x in visited + page[..k] <==> x in all && x < page[k]
  {
    if x in all && x < page[k] && Beyond(after, x) {
      assert x in page;
      var i :| 0 <= i < |page| && page[i] == x;
      assert x == page[..k][i];
    }
    if x in page[..k] {
      var i :| 0 <= i < k && page[..k][i] == x;
      assert page[i] < page[k];
    }
    assert page[k] in all && Beyond(after, page[k]);
  }

  lemma StuckHere(st: Stores, done: set<nat>, visited: seq<nat>, after: Option<nat>, page: seq<nat>, k: nat)
    requires Visited(visited, st.pending.Keys, after) && IsPage(page, st.pending.Keys, after, MAX_PAGE)
    requires k < |page| && Covers(st, done, visited + page[..k]) && !Recoverable(st, page[k])
    ensures Stuck(st, RecoveredOn(st, done))
  {
    forall x ensures x in done <==> x in st.pending && x < page[k] {
      VisitedIsBefore(visited, st.pending.Keys, after, page, MAX_PAGE, k, x);
    }
    assert page[k] in st.pending.Keys;
    StuckWhere(st, done, page[k]);
  }

  lemma StuckWhere(st: Stores, done: set<nat>, id: nat)
    requires id in st.pending && !Recoverable(st, id) && forall x :: x in done ==> Recoverable(st, x)
    requires forall x :: x in done <==> x in st.pending && x < id
    ensures Stuck(st, RecoveredOn(st, done))
  {
    assert done == set x | x in st.pending && x < id;
    assert StuckAt(st, id, RecoveredOn(st, done));
  }

  lemma CoversMore(st: Stores, done: set<nat>, ids: seq<nat>, id: nat)
    requires Covers(st, done, ids) && Recoverable(st, id)
    ensures Covers(st, done + {id}, ids + [id])
  {
  }

  lemma NextIsNew(visited: seq<nat>, all: set<nat>, after: Option<nat>, page: seq<nat>, limit: nat, k: nat)
    requires Visited(visited, all, after) && IsPage(page, all, after, limit) && k < |page|
    ensures page[k] in all && page[k] !in visited + page[..k]
    ensures visited + page[..k] + [page[k]] == visited + page[..k + 1]
  {
  }

  lemma NothingDone(st: Stores)
    ensures RecoveredOn(st, {}) == st
  {
  }

  lemma AllDone(st: Stores, done: set<nat>, visited: seq<nat>)
    requires Enumerates(visited, st.pending.Keys)
    requires Covers(st, done, visited)
    ensures done == st.pending.Keys
    ensures forall id :: id in st.pending ==> Recoverable(st, id)
    ensures Remaining(Recovered(st))
  {
    assert forall x :: x in done <==> x in st.pending.Keys;
    forall id | id in Recovered(st).pending
      ensures if id in Recovered(st).conversations then Retained(st.pairings, id) else id !in st.groups
    {
      RecoveredPublishes(st, id);
    }
  }
}

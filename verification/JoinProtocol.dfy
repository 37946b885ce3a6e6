/** The pending-join protocol over two stores that cannot commit together.

    The profile store holds pending joins, conversations and pairings; the MLS store holds
    group states. One action is one durable transaction, one in-memory step between two of
    them, or a crash, which forgets the running operation and forces a recovery. */
module JoinProtocol {
  import opened Wrappers
  import opened Paging

  datatype Receipt = Receipt(cursor: nat, envelope: nat)

  /** The authenticated Welcome state recorded before the group is persisted. */
  datatype Checkpoint = Checkpoint(state: nat, commit: nat, receipt: Receipt)
  datatype Pending = Pending(route: nat, proof: Option<nat>, checkpoint: Option<Checkpoint>)
  datatype Conversation = Conversation(route: nat, state: nat, cursor: nat)
  datatype Pairing = Pairing(
    active: bool, joiner: bool, awaitingWelcome: bool, decodable: bool, conversation: Option<nat>)

  datatype Stores = Stores(
    conversations: map<nat, Conversation>,
    pending: map<nat, Pending>,
    groups: map<nat, nat>,
    pairings: map<nat, Pairing>)

  /** The operation that holds the coordinator lock. */
  datatype Operation =
    | NoOperation
    | Checkpointing(id: nat, checkpoint: Checkpoint, retain: bool)
    | Persisting(id: nat, checkpoint: Checkpoint, retain: bool)
    | Finalizing(id: nat, retain: bool)
    | Deleting(id: nat, retain: bool)

  datatype State = State(stores: Stores, operation: Operation, recovering: bool)

  datatype Action =
    | Reserve(id: nat, route: nat)
    | Prove(id: nat, proof: nat)
    | Accept(id: nat, prepared: nat, commit: nat, receipt: Receipt, retain: bool)
    | Continue                              // the next step of the running operation
    | Fail                                  // a storage error ends the running operation
    | Crash
    | Complete(id: nat)                     // complete_pairing_join
    | Pair(pairings: map<nat, Pairing>)     // the pairing store moves on
    | Progress(id: nat, state: nat, cursor: nat)
    | RecoverInsert(id: nat)
    | RecoverDelete(id: nat)
    | RecoverDone

  // ------------------------------------------------------------------ steps

  /** accept_welcome_with_retention up to its first write. */
  function AcceptStep(st: Stores, a: Action): Operation
    requires a.Accept?
  {
    if a.id !in st.pending then NoOperation
    else
      var p := st.pending[a.id];
      if p.checkpoint.Some? && a.id in st.groups then
        if p.checkpoint.value.receipt != a.receipt || p.checkpoint.value.commit != a.receipt.envelope then NoOperation
        else Finalizing(a.id, a.retain)
      else if p.proof.None? || (p.checkpoint.Some? && p.checkpoint.value.state != a.prepared)
          || a.receipt.envelope != a.commit then
        NoOperation
      else Checkpointing(a.id, Checkpoint(a.prepared, a.commit, a.receipt), a.retain)
  }

  /** What finalize_pending_join would publish. */
  function Published(p: Pending): Conversation
    requires p.checkpoint.Some?
  {
    Conversation(p.route, p.checkpoint.value.state, p.checkpoint.value.receipt.cursor)
  }

  /** The checkpoint is of the expected commit and the group can be restored at its state. */
  predicate Restorable(st: Stores, id: nat) {
    && id in st.pending && st.pending[id].checkpoint.Some?
    && var cp := st.pending[id].checkpoint.value;
       cp.commit == cp.receipt.envelope && id in st.groups && st.groups[id] == cp.state
  }

  function ContinueStep(s: State): State {
    var st := s.stores;
    match s.operation
    case NoOperation => s
    case Checkpointing(id, cp, retain) =>
      if id !in st.pending then s.(operation := NoOperation)
      else if st.pending[id].checkpoint.None? && st.pending[id].proof.Some? then
        State(st.(pending := st.pending[id := st.pending[id].(checkpoint := Some(cp))]), Persisting(id, cp, retain),
            s.recovering)
      else if st.pending[id].checkpoint == Some(cp) then s.(operation := Persisting(id, cp, retain))
      else s.(operation := NoOperation)
    case Persisting(id, cp, retain) =>
      State(st.(groups := st.groups[id := cp.state]), Finalizing(id, retain), s.recovering)
    case Finalizing(id, retain) =>
      if !Restorable(st, id) then s.(operation := NoOperation)
      else if id in st.conversations then
        if st.conversations[id] == Published(st.pending[id]) then s.(operation := Deleting(id, retain))
        else s.(operation := NoOperation)
      else State(st.(conversations := st.conversations[id := Published(st.pending[id])]), Deleting(id, retain),
          s.recovering)
    case Deleting(id, retain) =>
      State(if retain then st else st.(pending := st.pending - {id}), NoOperation, s.recovering)
  }

  predicate Free(s: State) {
    s.operation.NoOperation? && !s.recovering
  }

  predicate Waits(p: Pairing) {
    p.active && p.joiner && p.awaitingWelcome
  }

  /** A pairing that keeps the journal of `id`. */
  predicate Keeps(p: Pairing, id: nat) {
    Waits(p) && p.decodable && p.conversation == Some(id)
  }

  /** A joiner pairing that still waits for its Welcome keeps the join journal. */
  predicate Retained(pairings: map<nat, Pairing>, id: nat) {
    exists p :: p in pairings && Keeps(pairings[p], id)
  }

  predicate Unpublished(st: Stores, id: nat) {
    id !in st.conversations && Restorable(st, id)
  }

  /** Nothing is left for recovery to do. */
  ghost predicate Settled(st: Stores) {
    forall id :: id in st.pending ==>
      if id in st.conversations then Retained(st.pairings, id) else !Restorable(st, id)
  }

  /** A pending join whose group exists but whose checkpoint does not match: recovery refuses. */
  ghost predicate Conflicts(st: Stores, id: nat) {
    id in st.pending && id !in st.conversations && id in st.groups && !Restorable(st, id)
  }

  ghost predicate Blocked(st: Stores) {
    exists id :: Conflicts(st, id)
  }

  ghost function Apply(s: State, a: Action): State {
    var st := s.stores;
    match a
    case Reserve(id, route) =>
      if !Free(s) || id in st.conversations || id in st.pending then s
      else s.(stores := st.(pending := st.pending[id := Pending(route, None, None)]))
    case Prove(id, proof) =>
      if !Free(s) || id !in st.pending || st.pending[id].proof.Some? then s
      else s.(stores := st.(pending := st.pending[id := st.pending[id].(proof := Some(proof))]))
    case Accept(_, _, _, _, _) => if Free(s) then s.(operation := AcceptStep(st, a)) else s
    case Continue => ContinueStep(s)
    case Fail => s.(operation := NoOperation)
    case Crash => State(st, NoOperation, true)
    case Complete(id) => if Free(s) then s.(stores := st.(pending := st.pending - {id})) else s
    case Pair(pairings) => s.(stores := st.(pairings := pairings))
    case Progress(id, state, cursor) =>
      if !Free(s) || id !in st.conversations || cursor < st.conversations[id].cursor then s
      else s.(stores := st.(conversations :=
          st.conversations[id := Conversation(st.conversations[id].route, state, cursor)],
                            groups := st.groups[id := state]))
    case RecoverInsert(id) =>
      if !s.recovering || !Unpublished(st, id) then s
      else s.(stores := st.(conversations := st.conversations[id := Published(st.pending[id])]))
    case RecoverDelete(id) =>
      if !s.recovering || id !in st.conversations || Retained(st.pairings, id) then s
      else s.(stores := st.(pending := st.pending - {id}))
    case RecoverDone => if s.recovering && Settled(st) && !Blocked(st) then s.(recovering := false) else s
  }

  /** `n` more steps of the running operation. */
  ghost function Steps(s: State, n: nat): State
    decreases n
  {
    if n == 0 then s else Steps(ContinueStep(s), n - 1)
  }

  lemma {:induction false} IdleStays(s: State, n: nat)
    requires s.operation.NoOperation?
    ensures Steps(s, n) == s
    decreases n
  {
    if n > 0 {
      IdleStays(s, n - 1);
    }
  }

  // ------------------------------------------------------------------ invariants

  /** Group present, but neither published nor checkpointed at that state: unrecoverable. */
  ghost predicate Orphan(st: Stores, id: nat) {
    id in st.groups && id !in st.conversations && !Restorable(st, id)
  }

  ghost predicate NoOrphan(st: Stores) {
    forall id :: id in st.groups ==> id in st.conversations || Restorable(st, id)
  }

  /** A published conversation's group is present, at the conversation's own state. */
  ghost predicate GroupsFollow(conversations: map<nat, Conversation>, groups: map<nat, nat>) {
    forall id :: id in conversations ==> id in groups && groups[id] == conversations[id].state
  }

  ghost predicate PendingOk(st: Stores) {
    forall id :: id in st.pending ==>
      && (st.pending[id].checkpoint.Some? ==>
            st.pending[id].proof.Some? && st.pending[id].checkpoint.value.commit
                == st.pending[id].checkpoint.value.receipt.envelope)
      && (id in st.conversations ==> st.pending[id].checkpoint.Some?)
  }

  ghost predicate OperationOk(st: Stores, o: Operation) {
    match o
    case NoOperation => true
    case Checkpointing(id, cp, _) => id in st.pending && id !in st.groups && id !in st.conversations
        && cp.commit == cp.receipt.envelope
    case Persisting(id, cp, _) =>
      && id in st.pending && id !in st.groups && id !in st.conversations && st.pending[id].checkpoint == Some(cp)
    case Finalizing(id, _) => id in st.pending && st.pending[id].checkpoint.Some? && id in st.groups
    case Deleting(id, _) => id in st.conversations
  }

  ghost predicate Inv(s: State) {
    && NoOrphan(s.stores)
    && GroupsFollow(s.stores.conversations, s.stores.groups)
    && PendingOk(s.stores)
    && OperationOk(s.stores, s.operation)
    && (s.recovering ==> s.operation.NoOperation?)
  }

  /** A persisted join that is not published yet. */
  ghost predicate Risky(s: State, a: Action) {
    a.Complete? && Free(s) && Unpublished(s.stores, a.id)
  }

  lemma ContinueKeepsInv(s: State)
    requires Inv(s)
    ensures Inv(ContinueStep(s))
  {
    match s.operation
    case NoOperation =>
    case Checkpointing(id, cp, retain) =>
    case Persisting(id, cp, retain) =>
    case Finalizing(id, retain) =>
    case Deleting(id, retain) =>
  }

  lemma ApplyKeepsInv(s: State, a: Action)
    requires Inv(s) && !Risky(s, a)
    ensures Inv(Apply(s, a))
  {
    match a
    case Continue => ContinueKeepsInv(s);
    case Reserve(id, route) =>
    case Prove(id, proof) =>
    case Accept(id, _, _, _, _) =>
    case Complete(id) =>
    case Progress(id, state, cursor) =>
    case RecoverInsert(id) =>
    case RecoverDelete(id) =>
    case _ =>
  }

  // ------------------------------------------------------------------ theorems over all runs

  ghost function Run(s: State, actions: seq<Action>): State {
    if actions == [] then s
    else Apply(Run(s, actions[..|actions| - 1]), actions[|actions| - 1])
  }

  function Fresh(pairings: map<nat, Pairing>): State {
    State(Stores(map[], map[], map[], pairings), NoOperation, false)
  }

  /** No journal is deleted while its persisted join is unpublished. */
  ghost predicate CompletesInTime(s: State, actions: seq<Action>) {
    forall k :: 0 <= k < |actions| ==> !Risky(Run(s, actions[..k]), actions[k])
  }

  lemma {:induction false} RunKeepsInv(s: State, actions: seq<Action>, n: nat)
    requires Inv(s) && n <= |actions| && CompletesInTime(s, actions)
    ensures Inv(Run(s, actions[..n]))
  {
    if n > 0 {
      RunKeepsInv(s, actions, n - 1);
      assert actions[..n][..n - 1] == actions[..n - 1];
      ApplyKeepsInv(Run(s, actions[..n - 1]), actions[n - 1]);
    }
  }

  /** Deleting the journal of an unpublished persisted join orphans its group at once. */
  lemma RiskyOrphans(s: State, a: Action)
    requires Risky(s, a)
    ensures Orphan(Apply(s, a).stores, a.id)
  {
  }

  ghost predicate OrphanFree(s: State, actions: seq<Action>) {
    forall k :: 0 <= k <= |actions| ==> NoOrphan(Run(s, actions[..k]).stores)
  }

  lemma EarlyCompletionIsSeen(s: State, actions: seq<Action>, k: nat)
    requires k < |actions| && Risky(Run(s, actions[..k]), actions[k])
    ensures !OrphanFree(s, actions)
  {
    assert actions[..k + 1][..k] == actions[..k];
    RiskyOrphans(Run(s, actions[..k]), actions[k]);
    assert !NoOrphan(Run(s, actions[..k + 1]).stores);
  }

  /** Crash consistency: over every run with crashes and storage failures after any step,
      "group present, not checkpointed, not published" is never reached if and only if
      complete_pairing_join is never called on a persisted but unpublished join. */
  lemma NeverOrphaned(pairings: map<nat, Pairing>, actions: seq<Action>)
    ensures OrphanFree(Fresh(pairings), actions) <==> CompletesInTime(Fresh(pairings), actions)
  {
    var s := Fresh(pairings);
    if CompletesInTime(s, actions) {
      forall k | 0 <= k <= |actions| ensures NoOrphan(Run(s, actions[..k]).stores) {
        RunKeepsInv(s, actions, k);
      }
    } else {
      var k :| 0 <= k < |actions| && Risky(Run(s, actions[..k]), actions[k]);
      EarlyCompletionIsSeen(s, actions, k);
    }
  }

  /** The restriction is real: a failed publication followed by a cancelled pairing orphans the group. */
  lemma EarlyCompletionOrphans()
    ensures Orphan(Run(Fresh(map[]), EarlyCompletion()).stores, 7)
  {
    var acts, s0 := EarlyCompletion(), Fresh(map[]);
    var cp := Checkpoint(3, 9, Receipt(5, 9));
    var s1 := Apply(s0, acts[0]);
    var s2 := Apply(s1, acts[1]);
    var s3 := Apply(s2, acts[2]);
    assert s3.operation == Checkpointing(7, cp, true);
    var s4 := Apply(s3, acts[3]);
    assert s4.operation == Persisting(7, cp, true);
    var s5 := Apply(s4, acts[4]);
    var s6 := Apply(s5, acts[5]);
    var s7 := Apply(s6, acts[6]);
    assert Orphan(s7.stores, 7);
    RunSeven(s0, acts);
  }

  function EarlyCompletion(): seq<Action> {
    [Reserve(7, 1), Prove(7, 2), Accept(7, 3, 9, Receipt(5, 9), true), Continue, Continue, Fail, Complete(7)]
  }

  lemma RunSeven(s: State, acts: seq<Action>)
    requires |acts| == 7
    ensures Run(s, acts) ==
              Apply(Apply(Apply(Apply(Apply(Apply(Apply(s, acts[0]), acts[1]), acts[2]), acts[3]), acts[4]),
                  acts[5]), acts[6])
  {
    assert acts[..6][..5] == acts[..5] && acts[..5][..4] == acts[..4] && acts[..4][..3] == acts[..3];
    assert acts[..3][..2] == acts[..2] && acts[..2][..1] == acts[..1];
    assert Run(s, acts[..1]) == Apply(s, acts[0]);
    assert Run(s, acts[..2]) == Apply(Run(s, acts[..1]), acts[1]);
    assert Run(s, acts[..3]) == Apply(Run(s, acts[..2]), acts[2]);
    assert Run(s, acts[..4]) == Apply(Run(s, acts[..3]), acts[3]);
    assert Run(s, acts[..5]) == Apply(Run(s, acts[..4]), acts[4]);
    assert Run(s, acts[..6]) == Apply(Run(s, acts[..5]), acts[5]);
  }

  // ------------------------------------------------------------------ recovery converges

  /** The conversations once the pending joins in `done` are recovered. */
  ghost function PublishedOn(st: Stores, done: set<nat>): map<nat, Conversation> {
    map id | id in st.conversations.Keys + (set x | x in st.pending && x in done && Unpublished(st, x)) ::
      if id in st.conversations then st.conversations[id] else Published(st.pending[id])
  }

  /** A recovered join is settled: its conversation exists by then, and no pairing wants its journal. */
  ghost predicate Dropped(st: Stores, id: nat) {
    (id in st.conversations || Unpublished(st, id)) && !Retained(st.pairings, id)
  }

  /** The journals that are left once the pending joins in `done` are recovered. */
  ghost function KeptOn(st: Stores, done: set<nat>): map<nat, Pending> {
    map id | id in st.pending && !(id in done && Dropped(st, id)) :: st.pending[id]
  }

  /** Recovery applied to the pending joins in `done`. */
  ghost function RecoveredOn(st: Stores, done: set<nat>): Stores {
    st.(conversations := PublishedOn(st, done), pending := KeptOn(st, done))
  }

  /** What one complete recovery makes of the stores. */
  ghost function Recovered(st: Stores): Stores {
    RecoveredOn(st, st.pending.Keys)
  }

  /** Every persisted join is published at exactly its checkpointed state and receipt cursor,
      nothing published changes, and a pending join that remains is either still without a
      matching group or retained by a pairing with its conversation published. */
  lemma RecoveredPublishes(st: Stores, id: nat)
    ensures Settled(Recovered(st))
    ensures id in st.conversations ==>
        id in Recovered(st).conversations && Recovered(st).conversations[id] == st.conversations[id]
    ensures Unpublished(st, id) ==>
        id in Recovered(st).conversations && Recovered(st).conversations[id] == Published(st.pending[id])
    ensures id in Recovered(st).conversations ==> id in st.conversations || Unpublished(st, id)
    ensures Recovered(st).groups == st.groups
    ensures id in Recovered(st).pending ==>
              && st.pending[id] == Recovered(st).pending[id]
              && (id in Recovered(st).conversations ==> Retained(st.pairings, id))
              && (id !in Recovered(st).conversations ==> !Restorable(st, id))
              && (id !in Recovered(st).conversations && !Conflicts(st, id) ==> id !in st.groups)
  {
  }

  ghost function Inserted(st: Stores, id: nat): Stores
    requires Unpublished(st, id)
  {
    st.(conversations := st.conversations[id := Published(st.pending[id])])
  }

  lemma InsertKeepsPublished(st: Stores, id: nat)
    requires Unpublished(st, id)
    ensures PublishedOn(Inserted(st, id), st.pending.Keys) == PublishedOn(st, st.pending.Keys)
  {
    var t := Inserted(st, id);
    assert forall x :: x != id ==> (Unpublished(t, x) <==> Unpublished(st, x));
  }

  lemma InsertKeepsKept(st: Stores, id: nat)
    requires Unpublished(st, id)
    ensures KeptOn(Inserted(st, id), st.pending.Keys) == KeptOn(st, st.pending.Keys)
  {
    var t := Inserted(st, id);
    assert forall x :: x in st.pending ==> (Dropped(t, x) <==> Dropped(st, x));
  }

  lemma RecoverInsertCommutes(st: Stores, id: nat)
    requires Unpublished(st, id)
    ensures Recovered(Inserted(st, id)) == Recovered(st)
  {
    InsertKeepsPublished(st, id);
    InsertKeepsKept(st, id);
  }

  lemma RecoverDeleteCommutes(st: Stores, id: nat)
    requires id in st.conversations && !Retained(st.pairings, id)
    ensures Recovered(st.(pending := st.pending - {id})) == Recovered(st)
  {
    var t := st.(pending := st.pending - {id});
    assert Recovered(t).conversations == Recovered(st).conversations;
    assert Recovered(t).pending == Recovered(st).pending;
  }

  lemma SettledIsRecovered(st: Stores)
    requires Settled(st)
    ensures Recovered(st) == st
  {
  }

  ghost predicate RecoveryAction(a: Action) {
    a.RecoverInsert? || a.RecoverDelete? || a.Crash? || a.RecoverDone?
  }

  lemma RecoveryStepCommutes(s: State, a: Action)
    requires RecoveryAction(a)
    ensures Recovered(Apply(s, a).stores) == Recovered(s.stores)
  {
    match a
    case RecoverInsert(id) =>
      if s.recovering && Unpublished(s.stores, id) {
        RecoverInsertCommutes(s.stores, id);
      }
    case RecoverDelete(id) =>
      if s.recovering && id in s.stores.conversations && !Retained(s.stores.pairings, id) {
        RecoverDeleteCommutes(s.stores, id);
      }
    case _ =>
  }

  lemma {:induction false} RecoveryRunCommutes(s: State, actions: seq<Action>)
    requires forall k :: 0 <= k < |actions| ==> RecoveryAction(actions[k])
    ensures Recovered(Run(s, actions).stores) == Recovered(s.stores)
  {
    if actions != [] {
      RecoveryRunCommutes(s, actions[..|actions| - 1]);
      RecoveryStepCommutes(Run(s, actions[..|actions| - 1]), actions[|actions| - 1]);
    }
  }

  /** Recovery is crash tolerant: however its transactions are ordered and however often it
      is cut short by another crash, the stores it settles on are the same. */
  lemma RecoveryConverges(s: State, actions: seq<Action>)
    requires forall k :: 0 <= k < |actions| ==> RecoveryAction(actions[k])
    requires Settled(Run(s, actions).stores)
    ensures Run(s, actions).stores == Recovered(s.stores)
  {
    RecoveryRunCommutes(s, actions);
    SettledIsRecovered(Run(s, actions).stores);
  }

  /** From every reachable crash state recovery succeeds, and afterwards every conversation
      opens: its group is present at the conversation's own state. */
  lemma RecoveryAlwaysOpens(s: State)
    requires Inv(s)
    ensures !Blocked(s.stores)
    ensures Inv(State(Recovered(s.stores), NoOperation, false))
  {
  }
}

/** The profile store's delivery side: one consumer lease, and events that are pending or
    claimed by a lease until an expiry. Each operation is one transaction. */
module DeliveryStore {
  import opened Wrappers

  datatype Error = InvalidTransition | InvalidAdapterLease | CorruptData | CapacityExceeded | Storage

  const MAX_REMOTE_EVENT_BATCH: nat := 50
  const MAX_REMOTE_EVENT_BATCH_BYTES: nat := 1024 * 1024
  const MAX_ADAPTER_LEASE_MILLISECONDS: nat := 300_000

  datatype Lease = Lease(consumer: nat, lease: nat)
  datatype Claim = Claim(lease: Lease, expires: nat)

  /** A delivery event that is not acknowledged yet: pending, or claimed until an expiry. */
  datatype Event = Event(valid: bool, length: nat, generation: nat, claim: Option<Claim>)

  type Events = map<nat, Event>

  datatype Store = Store(events: Events, consumer: Option<Claim>)
  datatype Claimed = Claimed(sequence: nat, generation: nat)

  // ------------------------------------------------------------------ claims

  predicate ClaimedBy(event: Event, lease: Lease) {
    event.claim.Some? && event.claim.value.lease == lease
  }

  function Reclaim(events: Events, now: nat): Events {
    map i | i in events ::
      if events[i].claim.Some? && events[i].claim.value.expires <= now then events[i].(claim := None) else events[i]
  }

  function Freed(events: Events, lease: Lease): Events {
    map i | i in events :: if ClaimedBy(events[i], lease) then events[i].(claim := None) else events[i]
  }

  /** The live claims of `lease` get a new expiry. */
  function Renewed(events: Events, lease: Lease, now: nat, expires: nat): Events {
    map i | i in events ::
      if ClaimedBy(events[i], lease) && events[i].claim.value.expires > now then
        events[i].(claim := Some(Claim(lease, expires)))
      else events[i]
  }

  function Take(event: Event, claim: Claim): Event {
    event.(generation := event.generation + 1, claim := Some(claim))
  }

  /** `ids` are claimed one after the other: each gets a new generation. */
  function Taken(events: Events, ids: seq<nat>, claim: Claim): (r: Events)
    ensures r.Keys == events.Keys
  {
    if ids == [] then events
    else
      var n := |ids| - 1;
      var t := Taken(events, ids[..n], claim);
      if ids[n] in t then t[ids[n] := Take(t[ids[n]], claim)] else t
  }

  function Bytes(events: Events, ids: seq<nat>): nat {
    if ids == [] then 0
    else Bytes(events, ids[..|ids| - 1]) + (if ids[|ids| - 1] in events then events[ids[|ids| - 1]].length else 0)
  }

  predicate Distinct(ids: seq<nat>) {
    forall i, j :: 0 <= i < j < |ids| ==> ids[i] != ids[j]
  }

  /** What the candidate query may return: distinct pending events, as many as there are up
      to the limit, in an order that is not modelled. */
  predicate Candidates(free: Events, limit: nat, ids: seq<nat>) {
    && Distinct(ids) && |ids| <= limit
    && (forall i :: 0 <= i < |ids| ==> ids[i] in free && free[ids[i]].claim.None?)
    && (|ids| < limit ==> forall k :: k in free && free[k].claim.None? ==> k in ids)
  }

  predicate Window(now: nat, expires: nat) {
    now < expires <= now + MAX_ADAPTER_LEASE_MILLISECONDS
  }

  predicate Active(s: Store, lease: Lease, now: nat) {
    s.consumer.Some? && s.consumer.value.lease == lease && now < s.consumer.value.expires
  }

  function Later(a: nat, b: nat): nat {
    if a > b then a else b
  }

  // ------------------------------------------------------------------ selecting a batch

  /** How many of `ids` the byte budget lets through, from index `k` on. */
  function Select(free: Events, ids: seq<nat>, k: nat, bytes: nat): (r: Result<nat, Error>)
    requires k <= |ids| && forall i :: 0 <= i < |ids| ==> ids[i] in free
    ensures r.Ok? ==> k <= r.value <= |ids|
    decreases |ids| - k
  {
    if k == |ids| then Ok(k)
    else if !free[ids[k]].valid then Err(CorruptData)
    else if bytes + free[ids[k]].length > MAX_REMOTE_EVENT_BATCH_BYTES then
      if k == 0 then Err(CapacityExceeded) else Ok(k)
    else Select(free, ids, k + 1, bytes + free[ids[k]].length)
  }

  lemma BytesNext(free: Events, ids: seq<nat>, k: nat)
    requires k < |ids| && ids[k] in free
    ensures Bytes(free, ids[..k + 1]) == Bytes(free, ids[..k]) + free[ids[k]].length
  {
    assert ids[..k + 1][..k] == ids[..k];
  }

  /** The selection is the longest prefix within the byte budget and never empty unless there
      is nothing to select; it fails on a malformed length it reaches, or when not even the
      first candidate fits. */
  lemma {:induction false} SelectIs(free: Events, ids: seq<nat>, k: nat)
    requires k <= |ids| && forall i :: 0 <= i < |ids| ==> ids[i] in free
    requires Bytes(free, ids[..k]) <= MAX_REMOTE_EVENT_BATCH_BYTES
    ensures var r := Select(free, ids, k, Bytes(free, ids[..k]));
            && (r.Ok? ==>
                  && k <= r.value <= |ids| && Bytes(free, ids[..r.value]) <= MAX_REMOTE_EVENT_BATCH_BYTES
                  && (r.value < |ids| ==> Bytes(free, ids[..r.value + 1]) > MAX_REMOTE_EVENT_BATCH_BYTES)
                  && (r.value == 0 ==> ids == [])
                  && forall i :: k <= i < r.value ==> free[ids[i]].valid)
            && (r == Err(CorruptData) ==> exists i :: k <= i < |ids| && !free[ids[i]].valid)
            && (r == Err(CapacityExceeded) ==>
                k == 0 && ids != [] && free[ids[0]].length > MAX_REMOTE_EVENT_BATCH_BYTES)
            && (r.Err? ==> r.error == CorruptData || r.error == CapacityExceeded)
    decreases |ids| - k
  {
    if k < |ids| {
      BytesNext(free, ids, k);
      if free[ids[k]].valid && Bytes(free, ids[..k]) + free[ids[k]].length <= MAX_REMOTE_EVENT_BATCH_BYTES {
        SelectIs(free, ids, k + 1);
      }
    }
  }

  /** Claiming distinct events changes exactly those. */
  lemma {:induction false} TakenAt(events: Events, ids: seq<nat>, claim: Claim, i: nat)
    requires Distinct(ids) && i in events
    ensures Taken(events, ids, claim)[i] == if i in ids then Take(events[i], claim) else events[i]
  {
    if ids != [] {
      TakenAt(events, ids[..|ids| - 1], claim, i);
    }
  }

  lemma TakenNext(free: Events, ids: seq<nat>, k: nat, claim: Claim)
    requires Distinct(ids) && k < |ids| && ids[k] in free
    ensures Taken(free, ids[..k], claim)[ids[k]] == free[ids[k]]
    ensures Taken(free, ids[..k + 1], claim) == Taken(free, ids[..k], claim)[ids[k] := Take(free[ids[k]], claim)]
  {
    TakenAt(free, ids[..k], claim, ids[k]);
    assert ids[..k + 1][..k] == ids[..k];
  }

  /** What the claim of the first `n` candidates hands out. */
  function Batch(free: Events, ids: seq<nat>, n: nat): (batch: seq<Claimed>)
    requires n <= |ids| && forall i :: 0 <= i < |ids| ==> ids[i] in free
    ensures |batch| == n
    ensures forall i :: 0 <= i < n ==> batch[i] == Claimed(ids[i], free[ids[i]].generation + 1)
  {
    if n == 0 then [] else Batch(free, ids, n - 1) + [Claimed(ids[n - 1], free[ids[n - 1]].generation + 1)]
  }

  /** The selection loop, which stages each claim as it goes. */
  method StageBatch(free: Events, ids: seq<nat>, claim: Claim)
    returns (r: Result<nat, Error>, batch: seq<Claimed>, staged: Events)
    requires Distinct(ids) && forall i :: 0 <= i < |ids| ==> ids[i] in free
    ensures r == Select(free, ids, 0, 0)
    ensures r.Ok? ==> batch == Batch(free, ids, r.value) && staged == Taken(free, ids[..r.value], claim)
  {
    staged, batch := free, [];
    var bytes: nat, k: nat := 0, 0;
    while k < |ids|
      invariant k <= |ids| && Select(free, ids, 0, 0) == Select(free, ids, k, bytes)
      invariant batch == Batch(free, ids, k) && staged == Taken(free, ids[..k], claim)
    {
      TakenNext(free, ids, k, claim);
      var event := staged[ids[k]];
      if !event.valid {
        return Err(CorruptData), batch, staged;
      }
      if bytes + event.length > MAX_REMOTE_EVENT_BATCH_BYTES {
        return if batch == [] then Err(CapacityExceeded) else Ok(k), batch, staged;
      }
      bytes := bytes + event.length;
      staged := staged[ids[k] := Take(event, claim)];
      batch := batch + [Claimed(ids[k], event.generation + 1)];
      k := k + 1;
    }
    r := Ok(k);
  }

  // ------------------------------------------------------------------ the transactions

  datatype Committed = Committed(store: Store, batch: seq<Claimed>)

  /** claim_remote_events up to its commit. */
  function ClaimBatch(s: Store, lease: Lease, now: nat, expires: nat, limit: nat, ids: seq<nat>): Result<Committed,
      Error>
    requires Candidates(Reclaim(s.events, now), limit, ids)
  {
    if limit == 0 || limit > MAX_REMOTE_EVENT_BATCH then Err(InvalidTransition)
    else if !Window(now, expires) || !Active(s, lease, now) then Err(InvalidAdapterLease)
    else
      var free := Reclaim(s.events, now);
      match Select(free, ids, 0, 0)
      case Err(e) => Err(e)
      case Ok(n) =>
        var renewed := Claim(lease, Later(expires, s.consumer.value.expires));
        Ok(Committed(Store(Taken(free, ids[..n], Claim(lease, expires)), Some(renewed)), Batch(free, ids, n)))
  }

  lemma TakenBatch(free: Events, ids: seq<nat>, n: nat, claim: Claim, i: nat)
    requires Distinct(ids) && n <= |ids| && i in free && forall i :: 0 <= i < |ids| ==> ids[i] in free
    ensures var pair := Claimed(i, free[i].generation + 1);
            Taken(free, ids[..n], claim)[i] == if pair in Batch(free, ids, n) then Take(free[i], claim) else free[i]
    ensures Claimed(i, free[i].generation + 1) in Batch(free, ids, n) ==> i in ids
  {
    TakenAt(free, ids[..n], claim, i);
    var batch := Batch(free, ids, n);
    if i in ids[..n] {
      var k :| 0 <= k < n && ids[k] == i;
      assert batch[k] == Claimed(i, free[i].generation + 1);
    }
  }

  /** Every event of a committed batch was pending, is now claimed by the lease at the next
      generation, and nothing else was claimed. */
  lemma BatchIsClaimed(s: Store, lease: Lease, now: nat, expires: nat, limit: nat, ids: seq<nat>, i: nat)
    requires Candidates(Reclaim(s.events, now), limit, ids)
    requires ClaimBatch(s, lease, now, expires, limit, ids).Ok? && i in s.events
    ensures var c := ClaimBatch(s, lease, now, expires, limit, ids).value;
            var free := Reclaim(s.events, now);
            && c.store.events.Keys == s.events.Keys
            && (Claimed(i, free[i].generation + 1) in c.batch ==>
                  free[i].claim.None? && c.store.events[i] == Take(free[i], Claim(lease, expires)))
            && (Claimed(i, free[i].generation + 1) !in c.batch ==> c.store.events[i] == free[i])
  {
    var free := Reclaim(s.events, now);
    TakenBatch(free, ids, Select(free, ids, 0, 0).value, Claim(lease, expires), i);
  }

  /** Taking or renewing the consumer lease; another live lease refuses it. */
  function Acquire(s: Store, lease: Lease, now: nat, expires: nat): Option<Store> {
    if !Window(now, expires) then None
    else if s.consumer.Some? && s.consumer.value.expires > now && s.consumer.value.lease != lease then None
    else Some(Store(Reclaim(s.events, now), Some(Claim(lease, expires))))
  }

  function Heartbeat(s: Store, lease: Lease, now: nat, expires: nat): Option<Store> {
    if !Window(now, expires) || !Active(s, lease, now) then None
    else Some(Store(Reclaim(Renewed(s.events, lease, now, expires), now),
                    Some(Claim(lease, Later(expires, s.consumer.value.expires)))))
  }

  /** Acknowledging or giving back one claimed event. */
  function Finish(s: Store, lease: Lease, i: nat, generation: nat, now: nat, acknowledged: bool): Option<Store> {
    if i !in s.events || !ClaimedBy(s.events[i], lease) || s.events[i].generation != generation then None
    else if s.events[i].claim.value.expires <= now || !Active(s, lease, now) then None
    else if acknowledged then Some(s.(events := s.events - {i}))
    else Some(s.(events := s.events[i := s.events[i].(claim := None)]))
  }

  /** Moving the consumer to a new lease together with the one event of a directed request. The
      event keeps its generation; every other event keeps whatever claim it has. */
  function Resume(s: Store, from: Lease, to: Lease, i: nat, now: nat, expires: nat): Option<Store> {
    if !Window(now, expires) || from.consumer != to.consumer then None
    else if s.consumer.Some? && (s.consumer.value.lease != from || s.consumer.value.expires <= now) then None
    else if i !in s.events || (s.events[i].claim.Some? && !ClaimedBy(s.events[i], from)) then None
    else Some(Store(s.events[i := s.events[i].(claim := Some(Claim(to, expires)))], Some(Claim(to, expires))))
  }

  /** Releasing a lease: nothing to release is a success, another lease an error. */
  function Release(s: Store, lease: Lease): Result<Store, Error> {
    if s.consumer.None? then Ok(s)
    else if s.consumer.value.lease != lease then Err(InvalidAdapterLease)
    else Ok(Store(Freed(s.events, lease), None))
  }

  /** Opening the store gives every claim back. */
  function Invalidate(s: Store): Store {
    Store(map i | i in s.events :: s.events[i].(claim := None), None)
  }

  datatype Op =
    | Arriving(i: nat, valid: bool, length: nat)
    | Acquiring(lease: Lease, now: nat, expires: nat)
    | Claiming(lease: Lease, now: nat, expires: nat, limit: nat, ids: seq<nat>)
    | Beating(lease: Lease, now: nat, expires: nat)
    | Finishing(lease: Lease, i: nat, generation: nat, now: nat, acknowledged: bool)
    | Resuming(from: Lease, to: Lease, i: nat, now: nat, expires: nat)
    | Releasing(lease: Lease)
    | Opening

  /** A transaction that is refused leaves the store as it is. */
  function OrElse(s: Store, next: Option<Store>): Store {
    if next.Some? then next.value else s
  }

  function ClaimOrElse(s: Store, op: Op): Store
    requires op.Claiming?
  {
    if !Candidates(Reclaim(s.events, op.now), op.limit, op.ids) then s
    else
      match ClaimBatch(s, op.lease, op.now, op.expires, op.limit, op.ids)
      case Ok(c) => c.store
      case Err(_) => s
  }

  function Perform(s: Store, op: Op): Store {
    match op
    case Arriving(i, valid, length) =>
      if i in s.events then s else s.(events := s.events[i := Event(valid, length, 0, None)])
    case Acquiring(lease, now, expires) => OrElse(s, Acquire(s, lease, now, expires))
    case Claiming(_, _, _, _, _) => ClaimOrElse(s, op)
    case Beating(lease, now, expires) => OrElse(s, Heartbeat(s, lease, now, expires))
    case Finishing(lease, i, generation, now, acknowledged) =>
      OrElse(s, Finish(s, lease, i, generation, now, acknowledged))
    case Resuming(from, to, i, now, expires) => OrElse(s, Resume(s, from, to, i, now, expires))
    case Releasing(lease) => if Release(s, lease).Ok? then Release(s, lease).value else s
    case Opening => Invalidate(s)
  }

  function PerformAll(s: Store, ops: seq<Op>): Store {
    if ops == [] then s else Perform(PerformAll(s, ops[..|ops| - 1]), ops[|ops| - 1])
  }

  // ------------------------------------------------------------------ releasing a lease

  predicate HoldsNothing(events: Events, lease: Lease) {
    forall i :: i in events ==> !ClaimedBy(events[i], lease)
  }

  /** For every store: after a successful release nobody holds the consumer, every event that
      the lease did not claim is unchanged, and none is lost. Nothing is left claimed by the
      lease if and only if a consumer was there to release or the lease held nothing anyway. */
  lemma ReleaseExactly(s: Store, lease: Lease)
    requires Release(s, lease).Ok?
    ensures var t := Release(s, lease).value;
            && t.consumer.None? && t.events.Keys == s.events.Keys
            && (forall i :: i in s.events && !ClaimedBy(s.events[i], lease) ==> t.events[i] == s.events[i])
            && (HoldsNothing(t.events, lease) <==> s.consumer.Some? || HoldsNothing(s.events, lease))
  {
  }

  // ------------------------------------------------------------------ who owns the claims

  predicate OwnedBy(event: Event, consumer: Option<Claim>) {
    event.claim.Some? ==>
      consumer.Some? && event.claim.value.lease == consumer.value.lease
          && event.claim.value.expires <= consumer.value.expires
  }

  /** Every claim belongs to the active consumer's lease and does not outlive it. */
  predicate Owned(s: Store) {
    forall i :: i in s.events ==> OwnedBy(s.events[i], s.consumer)
  }

  /** A resumed delivery leaves another claim behind, or a lease is renewed to an earlier expiry
      than a live claim of it. */
  ghost predicate Strands(s: Store, op: Op) {
    match op
    case Acquiring(lease, now, expires) =>
      && Acquire(s, lease, now, expires).Some?
      && exists i :: i in s.events && s.events[i].claim.Some? && s.events[i].claim.value.expires > Later(now, expires)
    case Resuming(from, to, i, now, expires) =>
      && Resume(s, from, to, i, now, expires).Some?
      && exists j :: j in s.events && j != i && s.events[j].claim.Some?
                     && (from != to || s.events[j].claim.value.expires > expires)
    case _ => false
  }

  lemma TakenKeepsOwned(free: Events, ids: seq<nat>, claim: Claim, consumer: Option<Claim>)
    requires Owned(Store(free, consumer)) && Distinct(ids)
    requires consumer.Some? && claim.lease == consumer.value.lease && claim.expires <= consumer.value.expires
    ensures Owned(Store(Taken(free, ids, claim), consumer))
  {
    forall i | i in free ensures OwnedBy(Taken(free, ids, claim)[i], consumer) {
      TakenAt(free, ids, claim, i);
      assert OwnedBy(free[i], consumer);
    }
  }

  lemma ReclaimKeepsOwned(s: Store, lease: Lease, now: nat, expires: nat)
    requires Owned(s) && Active(s, lease, now)
    ensures Owned(Store(Reclaim(s.events, now), Some(Claim(lease, Later(expires, s.consumer.value.expires)))))
  {
    forall i | i in s.events
      ensures OwnedBy(Reclaim(s.events, now)[i], Some(Claim(lease, Later(expires, s.consumer.value.expires))))
    {
      assert OwnedBy(s.events[i], s.consumer);
    }
  }

  lemma ClaimKeepsOwned(s: Store, op: Op)
    requires Owned(s) && op.Claiming?
    ensures Owned(ClaimOrElse(s, op))
  {
    var free := Reclaim(s.events, op.now);
    if Candidates(free, op.limit, op.ids) && ClaimBatch(s, op.lease, op.now, op.expires, op.limit, op.ids).Ok? {
      var n := Select(free, op.ids, 0, 0).value;
      ReclaimKeepsOwned(s, op.lease, op.now, op.expires);
      TakenKeepsOwned(free, op.ids[..n], Claim(op.lease, op.expires), ClaimOrElse(s, op).consumer);
    }
  }

  lemma AcquireExactly(s: Store, lease: Lease, now: nat, expires: nat)
    requires Owned(s) && Acquire(s, lease, now, expires).Some?
    ensures Owned(Acquire(s, lease, now, expires).value) <==> !Strands(s, Acquiring(lease, now, expires))
  {
    var t := Acquire(s, lease, now, expires).value;
    forall i | i in s.events
      ensures OwnedBy(t.events[i], t.consumer) <==>
                !(s.events[i].claim.Some? && s.events[i].claim.value.expires > Later(now, expires))
    {
      assert OwnedBy(s.events[i], s.consumer);
    }
  }

  lemma ResumeExactly(s: Store, from: Lease, to: Lease, i: nat, now: nat, expires: nat)
    requires Owned(s) && Resume(s, from, to, i, now, expires).Some?
    ensures Owned(Resume(s, from, to, i, now, expires).value) <==> !Strands(s, Resuming(from, to, i, now, expires))
  {
    var t := Resume(s, from, to, i, now, expires).value;
    forall j | j in s.events
      ensures OwnedBy(t.events[j], t.consumer) <==>
                !(j != i && s.events[j].claim.Some? && (from != to || s.events[j].claim.value.expires > expires))
    {
      assert OwnedBy(s.events[j], s.consumer);
    }
  }

  lemma HeartbeatKeepsOwned(s: Store, lease: Lease, now: nat, expires: nat)
    requires Owned(s) && Heartbeat(s, lease, now, expires).Some?
    ensures Owned(Heartbeat(s, lease, now, expires).value)
  {
    var t := Heartbeat(s, lease, now, expires).value;
    forall i | i in s.events ensures OwnedBy(t.events[i], t.consumer) {
      assert OwnedBy(s.events[i], s.consumer);
    }
  }

  lemma EasyOpsKeepOwned(s: Store, op: Op)
    requires Owned(s) && (op.Arriving? || op.Finishing? || op.Releasing? || op.Opening?)
    ensures Owned(Perform(s, op))
  {
    var t := Perform(s, op);
    forall i | i in t.events ensures OwnedBy(t.events[i], t.consumer) {
      if i in s.events {
        assert OwnedBy(s.events[i], s.consumer);
      }
    }
  }

  lemma OwnedStep(s: Store, op: Op)
    requires Owned(s)
    ensures Owned(Perform(s, op)) <==> !Strands(s, op)
  {
    match op
    case Acquiring(lease, now, expires) =>
      if Acquire(s, lease, now, expires).Some? {
        AcquireExactly(s, lease, now, expires);
      }
    case Claiming(_, _, _, _, _) => ClaimKeepsOwned(s, op);
    case Beating(lease, now, expires) =>
      if Heartbeat(s, lease, now, expires).Some? {
        HeartbeatKeepsOwned(s, lease, now, expires);
      }
    case Resuming(from, to, i, now, expires) =>
      if Resume(s, from, to, i, now, expires).Some? {
        ResumeExactly(s, from, to, i, now, expires);
      }
    case _ => EasyOpsKeepOwned(s, op);
  }

  const NO_EVENTS: Store := Store(map[], None)

  ghost predicate AlwaysOwned(ops: seq<Op>) {
    forall k :: 0 <= k <= |ops| ==> Owned(PerformAll(NO_EVENTS, ops[..k]))
  }

  ghost predicate NeverStrands(ops: seq<Op>) {
    forall k :: 0 <= k < |ops| ==> !Strands(PerformAll(NO_EVENTS, ops[..k]), ops[k])
  }

  lemma {:induction false} OwnedSoFar(ops: seq<Op>, n: nat)
    requires n <= |ops| && NeverStrands(ops)
    ensures Owned(PerformAll(NO_EVENTS, ops[..n]))
  {
    if n > 0 {
      OwnedSoFar(ops, n - 1);
      assert ops[..n][..n - 1] == ops[..n - 1];
      OwnedStep(PerformAll(NO_EVENTS, ops[..n - 1]), ops[n - 1]);
    }
  }

  lemma StrandingIsSeen(ops: seq<Op>, k: nat)
    requires k < |ops| && Strands(PerformAll(NO_EVENTS, ops[..k]), ops[k])
    ensures !AlwaysOwned(ops)
  {
    assert ops[..k + 1][..k] == ops[..k];
    if Owned(PerformAll(NO_EVENTS, ops[..k])) {
      OwnedStep(PerformAll(NO_EVENTS, ops[..k]), ops[k]);
      assert !Owned(PerformAll(NO_EVENTS, ops[..k + 1]));
    }
  }

  /** Over all runs of the store's operations: every claim belongs to the active lease and does
      not outlive it, at every point, if and only if no delivery is resumed past another
      claim and no lease is shortened below a live claim. */
  lemma OwnedExactly(ops: seq<Op>)
    ensures AlwaysOwned(ops) <==> NeverStrands(ops)
  {
    if NeverStrands(ops) {
      forall k | 0 <= k <= |ops| ensures Owned(PerformAll(NO_EVENTS, ops[..k])) {
        OwnedSoFar(ops, k);
      }
    } else {
      var k: nat :| k < |ops| && Strands(PerformAll(NO_EVENTS, ops[..k]), ops[k]);
      StrandingIsSeen(ops, k);
    }
  }

  // ------------------------------------------------------------------ runs that show the conditions

  const FIRST: Lease := Lease(1, 1)
  const SECOND: Lease := Lease(1, 2)

  function Waiting(i: nat): Op {
    Arriving(i, true, 10)
  }

  function Held(lease: Lease, expires: nat): Event {
    Event(true, 10, 1, Some(Claim(lease, expires)))
  }

  const FREE: Event := Event(true, 10, 0, None)

  /** Two events arrive, and one lease claims both. */
  const CLAIM_BOTH: seq<Op> := [Waiting(0), Waiting(1), Acquiring(FIRST, 0, 100), Claiming(FIRST, 0, 100, 2, [0, 1])]

  const BOTH: Store := Store(map[0 := Held(FIRST, 100), 1 := Held(FIRST, 100)], Some(Claim(FIRST, 100)))

  lemma Performs(s: Store, ops: seq<Op>, op: Op)
    ensures PerformAll(s, ops + [op]) == Perform(PerformAll(s, ops), op)
  {
    assert (ops + [op])[..|ops|] == ops;
  }

  lemma TwoArrive()
    ensures PerformAll(NO_EVENTS, [Waiting(0), Waiting(1)]) == Store(map[0 := FREE, 1 := FREE], None)
  {
    assert PerformAll(NO_EVENTS, []) == NO_EVENTS;
    Performs(NO_EVENTS, [], Waiting(0));
    assert [] + [Waiting(0)] == [Waiting(0)];
    Performs(NO_EVENTS, [Waiting(0)], Waiting(1));
    assert [Waiting(0)] + [Waiting(1)] == [Waiting(0), Waiting(1)];
  }

  lemma SelectTwo()
    ensures Select(map[0 := FREE, 1 := FREE], [0, 1], 0, 0) == Ok(2)
  {
    assert Select(map[0 := FREE, 1 := FREE], [0, 1], 2, 20) == Ok(2);
    assert Select(map[0 := FREE, 1 := FREE], [0, 1], 1, 10) == Ok(2);
  }

  lemma ClaimTwo()
    ensures Perform(Store(map[0 := FREE, 1 := FREE], Some(Claim(FIRST, 100))), CLAIM_BOTH[3]) == BOTH
  {
    var s := Store(map[0 := FREE, 1 := FREE], Some(Claim(FIRST, 100)));
    var free := Reclaim(s.events, 0);
    assert free == s.events;
    assert Candidates(free, 2, [0, 1]);
    SelectTwo();
    TakenNext(free, [0, 1], 0, Claim(FIRST, 100));
    TakenNext(free, [0, 1], 1, Claim(FIRST, 100));
    assert [0, 1][..0] == [] && [0, 1][..2] == [0, 1];
  }

  lemma BothClaimed()
    ensures PerformAll(NO_EVENTS, CLAIM_BOTH) == BOTH
  {
    TwoArrive();
    var two := [Waiting(0), Waiting(1)];
    Performs(NO_EVENTS, two, CLAIM_BOTH[2]);
    assert Reclaim(map[0 := FREE, 1 := FREE], 0) == map[0 := FREE, 1 := FREE];
    Performs(NO_EVENTS, two + [CLAIM_BOTH[2]], CLAIM_BOTH[3]);
    assert two + [CLAIM_BOTH[2]] + [CLAIM_BOTH[3]] == CLAIM_BOTH;
    ClaimTwo();
  }

  const RESUMED: Store := Store(map[0 := Held(SECOND, 90), 1 := Held(FIRST, 100)], Some(Claim(SECOND, 90)))
  const RESUME: Op := Resuming(FIRST, SECOND, 0, 1, 90)

  lemma ResumeBoth()
    ensures Perform(BOTH, RESUME) == RESUMED
  {
    assert Resume(BOTH, FIRST, SECOND, 0, 1, 90).value.events == RESUMED.events;
  }

  /** A resumed delivery takes one event along and leaves the other claimed by a lease that is
      no longer the consumer's. */
  lemma ResumeStrands()
    ensures var s := PerformAll(NO_EVENTS, CLAIM_BOTH + [RESUME]);
            && !Owned(s) && s.consumer == Some(Claim(SECOND, 90))
            && 1 in s.events && ClaimedBy(s.events[1], FIRST)
  {
    BothClaimed();
    Performs(NO_EVENTS, CLAIM_BOTH, RESUME);
    ResumeBoth();
    assert !OwnedBy(RESUMED.events[1], RESUMED.consumer);
  }

  /** After the new lease is released too, releasing the first one succeeds and leaves its claim
      standing. */
  lemma ReleaseLeavesClaim()
    ensures var s := PerformAll(NO_EVENTS, CLAIM_BOTH + [RESUME] + [Releasing(SECOND)]);
            && Release(s, FIRST) == Ok(s) && s.consumer.None?
            && 1 in s.events && ClaimedBy(s.events[1], FIRST)
  {
    ResumeStrands();
    Performs(NO_EVENTS, CLAIM_BOTH + [RESUME], Releasing(SECOND));
  }

  /** Renewing the same lease to an earlier expiry leaves a claim that outlives it. */
  lemma RenewalStrands()
    ensures var s := PerformAll(NO_EVENTS, CLAIM_BOTH + [Acquiring(FIRST, 1, 50)]);
            !Owned(s) && s.consumer == Some(Claim(FIRST, 50)) && 1 in s.events && s.events[1] == Held(FIRST, 100)
  {
    BothClaimed();
    Performs(NO_EVENTS, CLAIM_BOTH, Acquiring(FIRST, 1, 50));
    var s := PerformAll(NO_EVENTS, CLAIM_BOTH + [Acquiring(FIRST, 1, 50)]);
    assert !OwnedBy(s.events[1], s.consumer);
  }

  // ------------------------------------------------------------------ generations

  datatype HandOut = HandOut(sequence: nat, generation: nat, resumed: bool)

  /** What claims and resumptions have ever handed out; sequence numbers are given out in
      increasing order. */
  datatype Ledger = Ledger(store: Store, granted: seq<HandOut>, next: nat)

  function ByClaim(batch: seq<Claimed>): seq<HandOut> {
    seq(|batch|, k requires 0 <= k < |batch| => HandOut(batch[k].sequence, batch[k].generation, false))
  }

  function HandedOut(s: Store, op: Op): seq<HandOut> {
    if op.Resuming? then
      if Resume(s, op.from, op.to, op.i, op.now, op.expires).None? then []
      else [HandOut(op.i, s.events[op.i].generation, true)]
    else if !op.Claiming? || !Candidates(Reclaim(s.events, op.now), op.limit, op.ids) then []
    else
      match ClaimBatch(s, op.lease, op.now, op.expires, op.limit, op.ids)
      case Ok(c) => ByClaim(c.batch)
      case Err(_) => []
  }

  function Record(l: Ledger, op: Op): Ledger {
    if op.Arriving? && op.i < l.next then l
    else Ledger(Perform(l.store, op), l.granted + HandedOut(l.store, op), if op.Arriving? then op.i + 1 else l.next)
  }

  function RecordAll(ops: seq<Op>): Ledger {
    if ops == [] then Ledger(NO_EVENTS, [], 0) else Record(RecordAll(ops[..|ops| - 1]), ops[|ops| - 1])
  }

  /** A later hand-out of the same event has a later generation, or resumes the last one. */
  predicate Follows(earlier: HandOut, later: HandOut) {
    earlier.sequence == later.sequence ==>
      earlier.generation < later.generation || (earlier.generation == later.generation && later.resumed)
  }

  ghost predicate Unrepeated(granted: seq<HandOut>) {
    forall i, j :: 0 <= i < j < |granted| ==> Follows(granted[i], granted[j])
  }

  ghost predicate BehindStore(granted: seq<HandOut>, events: Events, next: nat) {
    && (forall i :: i in events ==> i < next)
    && forall k :: 0 <= k < |granted| ==>
         && granted[k].sequence < next
         && (granted[k].sequence in events ==> granted[k].generation <= events[granted[k].sequence].generation)
  }

  /** Generations only grow, and events only come by arrival. */
  lemma GenerationsGrow(s: Store, op: Op, i: nat)
    requires i in Perform(s, op).events
    ensures i in s.events || (op.Arriving? && op.i == i)
    ensures i in s.events ==> s.events[i].generation <= Perform(s, op).events[i].generation
  {
    if op.Claiming? && Candidates(Reclaim(s.events, op.now), op.limit, op.ids)
       && ClaimBatch(s, op.lease, op.now, op.expires, op.limit, op.ids).Ok? && i in s.events {
      BatchIsClaimed(s, op.lease, op.now, op.expires, op.limit, op.ids, i);
    }
  }

  lemma ReclaimKeepsGenerations(events: Events, now: nat, i: nat)
    requires i in events
    ensures i in Reclaim(events, now) && Reclaim(events, now)[i].generation == events[i].generation
  {
  }

  /** A claim hands out the next generation of an event, a resumption the current one. */
  lemma HandedOutIsNew(s: Store, op: Op, k: nat)
    requires k < |HandedOut(s, op)|
    ensures var pair := HandedOut(s, op)[k];
            && pair.sequence in s.events && pair.sequence in Perform(s, op).events
            && pair.generation == s.events[pair.sequence].generation + (if pair.resumed then 0 else 1)
            && pair.generation == Perform(s, op).events[pair.sequence].generation
  {
    if op.Claiming? {
      var free := Reclaim(s.events, op.now);
      assert HandedOut(s, op)[k] == HandOut(op.ids[k], free[op.ids[k]].generation + 1, false);
      ReclaimKeepsGenerations(s.events, op.now, op.ids[k]);
      BatchIsClaimed(s, op.lease, op.now, op.expires, op.limit, op.ids, op.ids[k]);
    }
  }

  lemma HandedOutIsDistinct(s: Store, op: Op, j: nat, k: nat)
    requires j < k < |HandedOut(s, op)|
    ensures HandedOut(s, op)[j].sequence != HandedOut(s, op)[k].sequence
  {
    assert op.ids[j] != op.ids[k];
  }

  lemma RecordBehind(l: Ledger, op: Op)
    requires BehindStore(l.granted, l.store.events, l.next)
    ensures BehindStore(Record(l, op).granted, Record(l, op).store.events, Record(l, op).next)
  {
    var m := Record(l, op);
    if m != l {
      forall i | i in m.store.events ensures i < m.next {
        GenerationsGrow(l.store, op, i);
      }
      forall k | 0 <= k < |m.granted|
        ensures m.granted[k].sequence < m.next
        ensures m.granted[k].sequence in m.store.events ==>
                  m.granted[k].generation <= m.store.events[m.granted[k].sequence].generation
      {
        if k >= |l.granted| {
          HandedOutIsNew(l.store, op, k - |l.granted|);
        } else if m.granted[k].sequence in m.store.events {
          GenerationsGrow(l.store, op, m.granted[k].sequence);
        }
      }
    }
  }

  lemma RecordUnrepeated(l: Ledger, op: Op)
    requires BehindStore(l.granted, l.store.events, l.next) && Unrepeated(l.granted)
    ensures Unrepeated(Record(l, op).granted)
  {
    var m := Record(l, op);
    forall i, j | 0 <= i < j < |m.granted| ensures Follows(m.granted[i], m.granted[j]) {
      if i >= |l.granted| {
        HandedOutIsDistinct(l.store, op, i - |l.granted|, j - |l.granted|);
      } else if j >= |l.granted| {
        HandedOutIsNew(l.store, op, j - |l.granted|);
      }
    }
  }

  lemma {:induction false} LedgerKept(ops: seq<Op>)
    ensures var l := RecordAll(ops); BehindStore(l.granted, l.store.events, l.next) && Unrepeated(l.granted)
  {
    if ops != [] {
      LedgerKept(ops[..|ops| - 1]);
      RecordBehind(RecordAll(ops[..|ops| - 1]), ops[|ops| - 1]);
      RecordUnrepeated(RecordAll(ops[..|ops| - 1]), ops[|ops| - 1]);
    }
  }

  /** Over every run of every lease: of two hand-outs of one event the later has a later
      generation, or is a resumption of the same one. So no claim ever hands an event out at a
      generation it was handed out at before, and what a resumption hands out is never behind. */
  lemma NeverHandedOutTwice(ops: seq<Op>, i: nat, j: nat)
    requires i < j < |RecordAll(ops).granted|
    ensures Follows(RecordAll(ops).granted[i], RecordAll(ops).granted[j])
  {
    LedgerKept(ops);
  }
}

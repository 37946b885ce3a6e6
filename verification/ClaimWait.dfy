/** Waiting for a delivery batch: the loop that polls the claim under a revocable
    authorization, and the release when the authorization is lost.

    One action is one step of the wait or one transaction of anybody else on the same store,
    so a run is any interleaving of a wait with acquisitions, resumptions, heartbeats,
    acknowledgements, releases and other claims. */
module ClaimWait {
  import opened Wrappers
  import opened DeliveryStore

  const CONSUMER_LEASE_MILLISECONDS: nat := 60_000

  /** RolledBack: the transaction fails. LoadFails: reading a claimed event back fails after
      the commit. */
  datatype Fault = NoFault | RolledBack | LoadFails(error: Error)

  datatype Outcome = Events(batch: seq<Claimed>) | AuthorizationLost
  datatype Phase =
    | Asking                          // before the first authorization check of a turn
    | Claims                          // authorized, about to claim
    | Rechecking(batch: seq<Claimed>) // claimed, before the second check
    | Idle                            // nothing claimed, still authorized
    | LettingGo                       // authorization lost
    | Done(result: Result<Outcome, Error>)

  /** `committed` are the non-empty batches this wait has committed, `stranded` whether reading
      one back failed, and `released` how its release ended. */
  datatype State = State(
    store: Store, phase: Phase,
    committed: seq<seq<Claimed>>, rechecked: bool, stranded: bool, released: Option<Option<Error>>)

  datatype Action =
    | Other(op: Op)
    | Check(authorized: bool)
    | TryClaim(now: nat, ids: seq<nat>, fault: Fault)
    | Expire                          // the deadline has passed
    | ShutDown                        // the shutdown signal ends the poll
    | Poll
    | LetGo(fails: bool)

  /** The lease that waits, and how many events it asks for. */
  datatype Waiter = Waiter(lease: Lease, limit: nat)

  predicate Possible(w: Waiter, s: Store, now: nat, ids: seq<nat>) {
    Candidates(Reclaim(s.events, now), w.limit, ids)
  }

  function Attempted(w: Waiter, s: Store, now: nat, ids: seq<nat>): Result<Committed, Error>
    requires Possible(w, s, now, ids)
  {
    ClaimBatch(s, w.lease, now, now + CONSUMER_LEASE_MILLISECONDS, w.limit, ids)
  }

  /** The bounds are checked before the transaction begins. */
  function NotBegun(limit: nat): Error {
    if limit == 0 || limit > MAX_REMOTE_EVENT_BATCH then InvalidTransition else Storage
  }

  function ClaimStep(w: Waiter, s: State, now: nat, ids: seq<nat>, fault: Fault): State
    requires Possible(w, s.store, now, ids)
  {
    if fault.RolledBack? then s.(phase := Done(Err(NotBegun(w.limit))))
    else
      match Attempted(w, s.store, now, ids)
      case Err(e) => s.(phase := Done(Err(e)))
      case Ok(c) =>
        var t := s.(store := c.store, committed := if c.batch == [] then s.committed else s.committed + [c.batch]);
        if fault.LoadFails? && c.batch != [] then t.(phase := Done(Err(fault.error)), stranded := true)
        else t.(phase := Rechecking(c.batch))
  }

  /** What an authorization check leads to. */
  function Checked(phase: Phase, authorized: bool): Phase {
    match phase
    case Asking => if authorized then Claims else LettingGo
    case Rechecking(batch) =>
      if !authorized then LettingGo else if batch != [] then Done(Ok(Events(batch))) else Idle
    case _ => phase
  }

  function CheckStep(s: State, authorized: bool): State {
    var phase := Checked(s.phase, authorized);
    s.(phase := phase, rechecked := s.rechecked || (s.phase.Rechecking? && phase.Done?))
  }

  function LetGoStep(w: Waiter, s: State, fails: bool): State {
    if fails then s.(phase := Done(Err(Storage)), released := Some(Some(Storage)))
    else
      match Release(s.store, w.lease)
      case Err(e) => s.(phase := Done(Err(e)), released := Some(Some(e)))
      case Ok(store) => s.(store := store, phase := Done(Ok(AuthorizationLost)), released := Some(None))
  }

  function Apply(w: Waiter, s: State, a: Action): State {
    match a
    case Other(op) => s.(store := Perform(s.store, op))
    case Check(authorized) => CheckStep(s, authorized)
    case TryClaim(now, ids, fault) =>
      if s.phase.Claims? && Possible(w, s.store, now, ids) then ClaimStep(w, s, now, ids, fault) else s
    case Expire => if s.phase.Idle? then s.(phase := Done(Ok(Events([])))) else s
    case ShutDown => if s.phase.Idle? then s.(phase := Done(Ok(Events([])))) else s
    case Poll => if s.phase.Idle? then s.(phase := Asking) else s
    case LetGo(fails) => if s.phase.LettingGo? then LetGoStep(w, s, fails) else s
  }

  function Run(w: Waiter, s: State, actions: seq<Action>): State {
    if actions == [] then s else Apply(w, Run(w, s, actions[..|actions| - 1]), actions[|actions| - 1])
  }

  function Start(store: Store): State {
    State(store, Asking, [], false, false, None)
  }

  // ------------------------------------------------------------------ conservation

  /** Where the wait's own batch is, by how far the wait has got. */
  predicate Accounted(phase: Phase, committed: seq<seq<Claimed>>, rechecked: bool, stranded: bool,
      released: Option<Option<Error>>)
  {
    && |committed| <= 1 && (forall k :: 0 <= k < |committed| ==> committed[k] != [])
    && (phase.Done? || (!rechecked && !stranded && released.None?))
    && match phase
       case Asking => committed == []
       case Claims => committed == []
       case Idle => committed == []
       case Rechecking(batch) => committed == if batch == [] then [] else [batch]
       case LettingGo => true
       case Done(result) => Settled(result, committed, rechecked, stranded, released)
  }

  /** How a finished wait disposed of what it had committed. */
  predicate Settled(
    result: Result<Outcome, Error>, committed: seq<seq<Claimed>>, rechecked: bool, stranded: bool,
        released: Option<Option<Error>>)
  {
    if released.Some? then
      !stranded && !rechecked && result == Reported(released.value)
    else if stranded then
      result.Err? && committed != [] && !rechecked
    else if committed == [] then
      !rechecked && (result.Err? || result == Ok(Events([])))
    else
      rechecked && result == Ok(Events(committed[0]))
  }

  function Reported(error: Option<Error>): Result<Outcome, Error> {
    if error.None? then Ok(AuthorizationLost) else Err(error.value)
  }

  predicate Inv(s: State) {
    Accounted(s.phase, s.committed, s.rechecked, s.stranded, s.released)
  }

  lemma ClaimKeepsInv(w: Waiter, s: State, now: nat, ids: seq<nat>, fault: Fault)
    requires Inv(s) && s.phase.Claims? && Possible(w, s.store, now, ids)
    ensures Inv(ClaimStep(w, s, now, ids, fault))
  {
  }

  lemma ApplyKeepsInv(w: Waiter, s: State, a: Action)
    requires Inv(s)
    ensures Inv(Apply(w, s, a))
  {
    if a.TryClaim? && s.phase.Claims? && Possible(w, s.store, a.now, a.ids) {
      ClaimKeepsInv(w, s, a.now, a.ids, a.fault);
    }
  }

  lemma {:induction false} RunKeepsInv(w: Waiter, store: Store, actions: seq<Action>)
    ensures Inv(Run(w, Start(store), actions))
  {
    if actions != [] {
      RunKeepsInv(w, store, actions[..|actions| - 1]);
      ApplyKeepsInv(w, Run(w, Start(store), actions[..|actions| - 1]), actions[|actions| - 1]);
    }
  }

  /** The batch was returned, after the authorization was checked again. */
  predicate Delivered(s: State, batch: seq<Claimed>) {
    s.rechecked && s.phase == Done(Ok(Events(batch)))
  }

  /** The release of the lease, or its failure, is what the wait reports. */
  predicate ReleaseReported(s: State) {
    s.released.Some? && s.phase == Done(Reported(s.released.value))
  }

  /** Conservation, for every finished wait in every interleaving: it committed at most one
      non-empty batch; that batch was returned after the re-check, or the release or its
      failure is reported, if and only if it could be read back; and a batch that could not
      is reported as an error with its claims standing. */
  lemma ClaimConserved(w: Waiter, store: Store, actions: seq<Action>)
    requires Run(w, Start(store), actions).phase.Done?
    ensures var s := Run(w, Start(store), actions);
            && |s.committed| <= 1
            && (s.committed != [] ==> s.committed[0] != [])
            && (s.committed != [] ==> (Delivered(s, s.committed[0]) || ReleaseReported(s) <==> !s.stranded))
            && (s.stranded ==> s.committed != [] && s.phase.result.Err? && s.released.None?)
  {
    RunKeepsInv(w, store, actions);
  }

  /** A wait that returns the empty batch, at its deadline or on shutdown, committed nothing. */
  lemma EmptyMeansNothingClaimed(w: Waiter, store: Store, actions: seq<Action>)
    requires Run(w, Start(store), actions).phase == Done(Ok(Events([])))
    ensures Run(w, Start(store), actions).committed == []
  {
    RunKeepsInv(w, store, actions);
  }

  /** The flag is what it says: a step strands a batch exactly when it commits one and reading
      it back fails; and a step of the wait that ends in an error without that leaves the
      store alone. */
  lemma StrandedExactly(w: Waiter, s: State, now: nat, ids: seq<nat>, fault: Fault)
    requires s.phase.Claims? && !s.stranded && Possible(w, s.store, now, ids)
    ensures var t, c := Apply(w, s, TryClaim(now, ids, fault)), Attempted(w, s.store, now, ids);
            && (t.stranded <==> fault.LoadFails? && c.Ok? && c.value.batch != [])
            && (t.stranded ==> t.store == c.value.store && t.phase == Done(Err(fault.error)))
            && (t.phase.Done? && !t.stranded ==> t.store == s.store)
  {
  }

  /** A wait that reports a lost authorization has released its lease: nobody is the consumer,
      what other leases claim is untouched, and nothing is left claimed by its own lease if
      and only if a consumer was still there or the lease held nothing. */
  lemma LostMeansReleased(w: Waiter, s: State, fails: bool)
    requires s.phase.LettingGo? && Apply(w, s, LetGo(fails)).phase == Done(Ok(AuthorizationLost))
    ensures var t := Apply(w, s, LetGo(fails));
            && t.store.consumer.None? && t.store.events.Keys == s.store.events.Keys
            && (forall i :: i in s.store.events && !ClaimedBy(s.store.events[i], w.lease) ==>
                  t.store.events[i] == s.store.events[i])
            && (HoldsNothing(t.store.events, w.lease) <==>
                  s.store.consumer.Some? || HoldsNothing(s.store.events, w.lease))
  {
    ReleaseExactly(s.store, w.lease);
  }

  const ONE_EVENT: Store := Store(map[0 := FREE], Some(Claim(FIRST, 100)))

  /** A claim that commits and cannot be read back: the wait reports the read error, and the
      event stays claimed for the whole lease. */
  lemma StrandedBatch()
    ensures var s := Run(Waiter(FIRST, 1), Start(ONE_EVENT), [Check(true), TryClaim(0, [0], LoadFails(CorruptData))]);
            && s.stranded && s.committed == [[Claimed(0, 1)]] && s.phase == Done(Err(CorruptData)) && s.released.None?
            && 0 in s.store.events && s.store.events[0] == Held(FIRST, 60_000)
  {
    var w, acts := Waiter(FIRST, 1), [Check(true), TryClaim(0, [0], LoadFails(CorruptData))];
    var s := Apply(w, Start(ONE_EVENT), acts[0]);
    var free := Reclaim(ONE_EVENT.events, 0);
    assert free == ONE_EVENT.events;
    assert Candidates(free, 1, [0]);
    assert Select(free, [0], 1, 10) == Ok(1);
    assert [0][..1] == [0];
    TakenNext(free, [0], 0, Claim(FIRST, 60_000));
    assert Batch(free, [0], 1) == [Claimed(0, 1)];
    assert Run(w, Start(ONE_EVENT), acts[..1]) == s by {
      assert acts[..1][..0] == [];
    }
  }

  // ------------------------------------------------------------------ the store object

  class ProfileStore {
    var events: DeliveryStore.Events
    var consumer: Option<Claim>

    function View(): Store
      reads this
    {
      Store(events, consumer)
    }

    constructor (s: Store)
      ensures View() == s
    {
      events, consumer := s.events, s.consumer;
    }

    /** claim_remote_events: what the transaction commits, and what the caller learns. An error
        leaves the store alone unless the batch was committed and reading it back failed. */
    method ClaimRemoteEvents(w: Waiter, now: nat, ids: seq<nat>, fault: Fault) returns (r: Result<seq<Claimed>, Error>)
      requires Possible(w, View(), now, ids)
      modifies this
      ensures fault.RolledBack? ==> r == Err(NotBegun(w.limit)) && View() == old(View())
      ensures !fault.RolledBack? && Attempted(w, old(View()), now, ids).Err? ==>
                r == Err(Attempted(w, old(View()), now, ids).error) && View() == old(View())
      ensures !fault.RolledBack? && Attempted(w, old(View()), now, ids).Ok? ==>
                var c := Attempted(w, old(View()), now, ids).value;
                View() == c.store && r == if fault.LoadFails? && c.batch != [] then Err(fault.error) else Ok(c.batch)
    {
      if w.limit == 0 || w.limit > MAX_REMOTE_EVENT_BATCH {
        return Err(InvalidTransition);
      }
      if fault.RolledBack? {
        return Err(Storage);
      }
      var expires := now + CONSUMER_LEASE_MILLISECONDS;
      if consumer.None? || consumer.value.lease != w.lease || consumer.value.expires <= now {
        return Err(InvalidAdapterLease);
      }
      var n, batch, staged := StageBatch(Reclaim(events, now), ids, Claim(w.lease, expires));
      if n.Err? {
        return Err(n.error);
      }
      events, consumer := staged, Some(Claim(w.lease, Later(expires, consumer.value.expires)));
      r := if fault.LoadFails? && batch != [] then Err(fault.error) else Ok(batch);
    }

    /** Other transactions, one after the other. */
    method Watch(ops: seq<Op>)
      modifies this
      ensures View() == PerformAll(old(View()), ops)
    {
      var i := 0;
      while i < |ops|
        invariant 0 <= i <= |ops| && View() == PerformAll(old(View()), ops[..i])
      {
        var next := Perform(Store(events, consumer), ops[i]);
        events, consumer := next.events, next.consumer;
        assert ops[..i + 1][..i] == ops[..i];
        i := i + 1;
      }
      assert ops[..i] == ops;
    }

    /** release_adapter_consumer. */
    method ReleaseAdapterConsumer(lease: Lease, fails: bool) returns (error: Option<Error>)
      modifies this
      ensures fails ==> error == Some(Storage) && View() == old(View())
      ensures !fails ==>
                match Release(old(View()), lease)
                case Ok(s) => error.None? && View() == s
                case Err(e) => error == Some(e) && View() == old(View())
    {
      if fails {
        return Some(Storage);
      }
      if consumer.None? {
        return None;
      }
      if consumer.value.lease != lease {
        return Some(InvalidAdapterLease);
      }
      events, consumer := Freed(events, lease), None;
      error := None;
    }
  }

  // ------------------------------------------------------------------ the wait as the source runs it

  datatype Ending = Expired | Stopped | Slept

  function EndOf(ending: Ending): Action {
    match ending
    case Expired => Expire
    case Stopped => ShutDown
    case Slept => Poll
  }

  /** What the surroundings of a wait decide: what everybody else does at its n-th await, what
      its n-th authorization check says, clock and fault of its n-th claim, how its n-th empty
      turn ends, what the candidate query returns, and whether the release fails. */
  datatype Script = Script(
    world: nat -> seq<Op>, checks: nat -> bool, clocks: nat -> nat, faults: nat -> Fault, endings: nat -> Ending,
    query: DeliveryStore.Events -> seq<nat>, fails: bool)

  /** The candidate query returns what the query may return. */
  ghost predicate Queries(query: DeliveryStore.Events -> seq<nat>, limit: nat) {
    forall free :: Candidates(free, limit, query(free))
  }

  /** Where a wait is: its state, how much of the script it has used, how many times it has
      released, and the transactions of others so far. */
  datatype Point = Point(
    state: State, checks: nat, claims: nat, endings: nat, releases: nat, others: seq<Op>)

  /** Checks, claims and releases are awaited. */
  function Waits(p: Point): nat {
    p.checks + p.claims + p.releases
  }

  function Awaited(world: nat -> seq<Op>, n: nat): seq<Op> {
    if n == 0 then [] else Awaited(world, n - 1) + world(n - 1)
  }

  /** An own action is the one the phase calls for, carries the script's next answer, and comes
      after exactly the awaits it stands behind; a claim asks the query about the store it
      finds. */
  predicate Own(script: Script, p: Point, a: Action) {
    && (a.Check? || a.TryClaim? || a.LetGo? ==> p.others == Awaited(script.world, Waits(p) + 1))
    && match a
       case Other(_) => true
       case Check(authorized) =>
         (p.state.phase.Asking? || p.state.phase.Rechecking?) && authorized == script.checks(p.checks)
       case TryClaim(now, ids, fault) =>
         && p.state.phase.Claims? && now == script.clocks(p.claims) && fault == script.faults(p.claims)
         && ids == script.query(Reclaim(p.state.store.events, now))
       case LetGo(fails) => p.state.phase.LettingGo? && fails == script.fails
       case _ => p.state.phase.Idle? && a == EndOf(script.endings(p.endings))
  }

  function After(w: Waiter, p: Point, a: Action): Point {
    var q := p.(state := Apply(w, p.state, a));
    match a
    case Other(op) => q.(others := p.others + [op])
    case Check(_) => q.(checks := p.checks + 1)
    case TryClaim(_, _, _) => q.(claims := p.claims + 1)
    case LetGo(_) => q.(releases := p.releases + 1)
    case _ => q.(endings := p.endings + 1)
  }

  /** Where a trace leads, if it is what a wait in these surroundings does. */
  function Replay(w: Waiter, script: Script, store: Store, trace: seq<Action>): Option<Point> {
    if trace == [] then Some(Point(Start(store), 0, 0, 0, 0, []))
    else
      match Replay(w, script, store, trace[..|trace| - 1])
      case None => None
      case Some(p) =>
        if Own(script, p, trace[|trace| - 1]) then Some(After(w, p, trace[|trace| - 1])) else None
  }

  lemma Extend(w: Waiter, script: Script, store: Store, trace: seq<Action>, p: Point, a: Action)
    requires Replay(w, script, store, trace) == Some(p) && Own(script, p, a)
    ensures Replay(w, script, store, trace + [a]) == Some(After(w, p, a))
  {
    assert (trace + [a])[..|trace|] == trace;
  }

  lemma {:induction false} ReplayIsRun(w: Waiter, script: Script, store: Store, trace: seq<Action>)
    requires Replay(w, script, store, trace).Some?
    ensures Replay(w, script, store, trace).value.state == Run(w, Start(store), trace)
  {
    if trace != [] {
      ReplayIsRun(w, script, store, trace[..|trace| - 1]);
    }
  }

  function Others(ops: seq<Op>): seq<Action> {
    seq(|ops|, i requires 0 <= i < |ops| => Other(ops[i]))
  }

  function Joined(p: Point, ops: seq<Op>): Point {
    p.(state := p.state.(store := PerformAll(p.state.store, ops)), others := p.others + ops)
  }

  lemma ExtendOther(
    w: Waiter, script: Script, store: Store, trace: seq<Action>, p: Point, ops: seq<Op>, op: Op)
    requires Replay(w, script, store, trace) == Some(Joined(p, ops))
    ensures Replay(w, script, store, trace + [Other(op)]) == Some(Joined(p, ops + [op]))
  {
    Extend(w, script, store, trace, Joined(p, ops), Other(op));
    assert (ops + [op])[..|ops|] == ops;
    assert p.others + ops + [op] == p.others + (ops + [op]);
  }

  lemma {:induction false} ExtendOthers(
    w: Waiter, script: Script, store: Store, trace: seq<Action>, p: Point, ops: seq<Op>)
    requires Replay(w, script, store, trace) == Some(p)
    ensures Replay(w, script, store, trace + Others(ops)) == Some(Joined(p, ops))
    decreases |ops|
  {
    if |ops| == 0 {
      assert trace + Others(ops) == trace && Joined(p, ops) == p;
    } else {
      var before, op := ops[..|ops| - 1], ops[|ops| - 1];
      ExtendOthers(w, script, store, trace, p, before);
      ExtendOther(w, script, store, trace + Others(before), p, before, op);
      assert before + [op] == ops && trace + Others(before) + [Other(op)] == trace + Others(ops);
    }
  }

  lemma EndIdle(w: Waiter, s: State, ending: Ending)
    requires s.phase == Idle
    ensures Apply(w, s, EndOf(ending)) == s.(phase := if ending.Slept? then Asking else Done(Ok(Events([]))))
  {
  }

  /** How a finished wait disposed of what it committed. */
  predicate Conserved(s: State, r: Result<Outcome, Error>) {
    && s.phase == Done(r) && |s.committed| <= 1
    && (r == Ok(Events([])) ==> s.committed == [])
    && (s.committed != [] ==>
          s.committed[0] != [] && (Delivered(s, s.committed[0]) || ReleaseReported(s) <==> !s.stranded))
    && (s.stranded ==> s.committed != [] && r.Err? && s.released.None?)
  }

  lemma Concluded(w: Waiter, script: Script, store: Store, trace: seq<Action>, r: Result<Outcome, Error>)
    requires Replay(w, script, store, trace).Some? && Replay(w, script, store, trace).value.state.phase == Done(r)
    ensures Conserved(Replay(w, script, store, trace).value.state, r)
  {
    ReplayIsRun(w, script, store, trace);
    RunKeepsInv(w, store, trace);
  }

  /** The delivery attachment that waits, over the store it shares with everybody else. */
  class DeliveryAttachment {
    const w: Waiter
    const script: Script
    const store: ProfileStore
    ghost const begin: Store
    var awaits: nat
    ghost var trace: seq<Action>
    ghost var at: Point

    /** The trace follows the script, holds the others' transactions of exactly the awaits so
        far, and leads to the store; `pending` awaits are behind no action yet. */
    ghost predicate Following(pending: nat)
      reads this, store
    {
      && Queries(script.query, w.limit) && Replay(w, script, begin, trace) == Some(at) && store.View() == at.state.store
      && at.others == Awaited(script.world, awaits) && awaits == Waits(at) + pending
    }

    ghost predicate Live()
      reads this, store
    {
      Following(0)
    }

    constructor (w: Waiter, script: Script, store: ProfileStore)
      requires Queries(script.query, w.limit)
      ensures Live() && this.w == w && this.script == script && this.store == store
      ensures at == Point(Start(store.View()), 0, 0, 0, 0, [])
    {
      this.w, this.script, this.store, awaits := w, script, store, 0;
      begin, trace := store.View(), [];
      at := Point(Start(store.View()), 0, 0, 0, 0, []);
    }

    /** An await: everybody else's transactions happen. */
    method Await()
      requires Live()
      modifies this, store
      ensures Following(1) && at == old(at).(state := old(at.state).(store := at.state.store), others := at.others)
    {
      var ops := script.world(awaits);
      ExtendOthers(w, script, begin, trace, at, ops);
      store.Watch(ops);
      trace, at := trace + Others(ops), Joined(at, ops);
      awaits := awaits + 1;
    }

    /** One authorization check, the wait's n-th. */
    method Check(phase: Phase, n: nat) returns (next: Phase)
      requires Live() && phase == at.state.phase && (phase.Asking? || phase.Rechecking?) && n == at.checks
      modifies this, store
      ensures Live() && next == at.state.phase && next == Checked(phase, script.checks(n))
      ensures at == old(at).(state := at.state, others := at.others, checks := n + 1)
    {
      Await();
      var authorized := script.checks(n);
      Extend(w, script, begin, trace, at, Action.Check(authorized));
      trace, at := trace + [Action.Check(authorized)], After(w, at, Action.Check(authorized));
      next := Checked(phase, authorized);
    }

    /** One claim, the wait's n-th. */
    method Claim(n: nat) returns (next: Phase)
      requires Live() && at.state.phase == Claims && n == at.claims
      modifies this, store
      ensures Live() && next == at.state.phase && (next.Rechecking? || (next.Done? && next.result.Err?))
      ensures at == old(at).(state := at.state, others := at.others, claims := n + 1)
    {
      Await();
      var now, fault := script.clocks(n), script.faults(n);
      var ids := script.query(Reclaim(store.events, now));
      Extend(w, script, begin, trace, at, TryClaim(now, ids, fault));
      trace, at := trace + [TryClaim(now, ids, fault)], After(w, at, TryClaim(now, ids, fault));
      var r := store.ClaimRemoteEvents(w, now, ids, fault);
      next := match r case Ok(batch) => Rechecking(batch) case Err(e) => Done(Err(e));
    }

    /** How an empty turn ends, the wait's n-th. */
    method End(n: nat) returns (next: Phase)
      requires Live() && at.state.phase == Idle && n == at.endings
      modifies this`trace, this`at
      ensures Live() && at == old(at).(state := old(at.state).(phase := next), endings := n + 1)
      ensures next == if script.endings(n).Slept? then Asking else Done(Ok(Events([])))
    {
      var ending := script.endings(n);
      EndIdle(w, at.state, ending);
      Extend(w, script, begin, trace, at, EndOf(ending));
      trace, at := trace + [EndOf(ending)], After(w, at, EndOf(ending));
      next := if ending.Slept? then Asking else Done(Ok(Events([])));
    }

    /** `n` turns have been empty and slept. */
    ghost predicate Turning(n: nat)
      reads this
    {
      at.state.phase == Asking && at.checks == 2 * n && at.claims == n && at.endings == n && at.releases == 0
    }

    /** One turn of the loop. */
    method Turn(n: nat) returns (phase: Phase)
      requires Live() && Turning(n)
      modifies this, store
      ensures Live() && at.state.phase == phase && (phase.Asking? || phase.LettingGo? || phase.Done?)
      ensures phase.Asking? ==> Turning(n + 1) && script.endings(n).Slept?
    {
      phase := Check(Asking, 2 * n);
      if phase.Claims? {
        phase := Claim(n);
        if phase.Rechecking? {
          phase := Check(phase, 2 * n + 1);
          if phase.Idle? {
            phase := End(n);
          }
        }
      }
    }

    /** wait_for_claim_until: turns until one does not end in a sleep. */
    method WaitForClaim(last: nat) returns (phase: Phase)
      requires Live() && Turning(0) && !script.endings(last).Slept?
      modifies this, store
      ensures Live() && at.state.phase == phase && (phase.LettingGo? || phase.Done?)
    {
      phase := Asking;
      var n := 0;
      while phase.Asking?
        invariant Live() && at.state.phase == phase && (phase.Asking? || phase.LettingGo? || phase.Done?)
        invariant n <= last + 1 && (phase.Asking? ==> n <= last && Turning(n))
        decreases last + 1 - n
      {
        phase := Turn(n);
        n := n + 1;
      }
    }

    /** The release when the authorization is lost. */
    method LetGo() returns (r: Result<Outcome, Error>)
      requires Live() && at.state.phase == LettingGo
      modifies this, store
      ensures Live() && at.state.phase == Done(r)
    {
      Await();
      Extend(w, script, begin, trace, at, Action.LetGo(script.fails));
      trace, at := trace + [Action.LetGo(script.fails)], After(w, at, Action.LetGo(script.fails));
      var error := store.ReleaseAdapterConsumer(w.lease, script.fails);
      r := Reported(error);
    }

    /** wait_and_claim. The poll sleeps no longer than the deadline, so some turn finds it
        passed: turn number `last` does not sleep. What the wait did follows the script, with
        the others' transactions at its awaits and nowhere else, and the batch it committed is
        conserved. */
    method WaitAndClaim(last: nat) returns (r: Result<Outcome, Error>)
      requires Live() && Turning(0) && !script.endings(last).Slept?
      modifies this, store
      ensures Live() && Conserved(at.state, r)
    {
      var phase := WaitForClaim(last);
      if phase.Done? {
        r := phase.result;
      } else {
        r := LetGo();
      }
      Concluded(w, script, begin, trace, r);
    }
  }
}

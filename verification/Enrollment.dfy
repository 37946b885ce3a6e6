/** Relay enrollment: reserve, promote, direct provisioning and endpoint migration, each a
    chain of separate lock acquisitions, run by any number of threads over one profile's
    active configuration and pending intent.

    One step of a thread is what it does under one acquisition of the store lock. */
module Enrollment {
  import opened Wrappers

  /** One enrollment intent: what a reservation hands out. */
  datatype Identity = Identity(endpoint: nat, request: nat, principal: nat)
  datatype Active = Active(endpoint: nat, principal: nat)
  datatype Response = Response(request: nat, principal: nat)

  /** Where an InvalidTransition comes from. */
  datatype Site =
    | NothingToPromote    // neither active nor pending
    | LostAfterPresence   // reserve: the pending row it was told of is gone, and nothing is active
    | LostAfterIgnore     // reserve: the row that made the insert a no-op is gone
    | ActiveVanished      // promote: the active row it was told of is gone
    | UpdateMissed        // promote transaction: the profile row did not change
    | DeleteMissed        // promote transaction: the pending row did not match

  datatype Error =
    | CorruptData
    | AlreadyConfigured
    | NotConfigured
    | EnrollmentConflict
    | ProvisionMismatch
    | MigrationConflict
    | InvalidTransition(site: Site)

  /** A thread, by the lock acquisition it will make next. */
  datatype Thread =
    | Reserving(endpoint: nat, request: nat, principal: nat)
    | ReadingPending(endpoint: nat)
    | ReadingActive(endpoint: nat)
    | Inserting(endpoint: nat, request: nat, principal: nat)
    | Rereading(endpoint: nat)
    | Promoting(endpoint: nat, response: Response)
    | MatchingPending(endpoint: nat, response: Response)
    | Committing(endpoint: nat, response: Response)
    | MatchingActive(endpoint: nat, response: Response, told: bool)
    | Provisioning(active: Active)
    | Configuring(active: Active)
    | Migrating(source: nat, destination: nat, expected: nat)
    | MovingEndpoint(source: nat, destination: nat, expected: nat)
    | CheckingMove(destination: nat, expected: nat)
    | Reserved(identity: Identity)
    | Promoted
    | Provisioned
    | Migrated
    | Failed(error: Error)

  datatype State = State(
    relayEndpoint: Option<nat>,   // the two nullable columns of the profile row
    relayPrincipal: Option<nat>,
    pending: Option<Identity>,
    threads: map<nat, Thread>,
    inserted: Option<Identity>)   // the first intent ever stored

  datatype Action = Start(thread: nat, what: Thread) | Step(thread: nat)

  /** The configuration the profile row holds, when both of its columns are set. */
  function Configured(s: State): Option<Active> {
    if s.relayEndpoint.Some? && s.relayPrincipal.Some? then Some(Active(s.relayEndpoint.value, s.relayPrincipal.value))
    else None
  }

  function Configure(s: State, active: Active): State {
    s.(relayEndpoint := Some(active.endpoint), relayPrincipal := Some(active.principal))
  }

  // ------------------------------------------------------------------ one lock acquisition

  function AfterPresence(s: State, t: Thread): Thread
    requires t.Reserving? || t.Promoting?
  {
    var active := Configured(s).Some?;
    if s.relayEndpoint.Some? != s.relayPrincipal.Some? || (active && s.pending.Some?) then Failed(CorruptData)
    else if t.Reserving? then
      if active then Failed(AlreadyConfigured)
      else if s.pending.Some? then ReadingPending(t.endpoint)
      else Inserting(t.endpoint, t.request, t.principal)
    else if active then MatchingActive(t.endpoint, t.response, true)
    else if s.pending.Some? then MatchingPending(t.endpoint, t.response)
    else Failed(InvalidTransition(NothingToPromote))
  }

  function Compare(pending: Identity, endpoint: nat): Thread {
    if pending.endpoint == endpoint then Reserved(pending) else Failed(EnrollmentConflict)
  }

  predicate Matches(pending: Identity, endpoint: nat, r: Response) {
    pending.endpoint == endpoint && pending.request == r.request && pending.principal == r.principal
  }

  /** The insert-or-ignore transaction of a reservation. */
  function InsertStep(s: State, t: Thread): (State, Thread)
    requires t.Inserting?
  {
    if s.relayEndpoint.Some? then (s, Failed(AlreadyConfigured))
    else if s.pending.Some? then (s, Rereading(t.endpoint))
    else
      var identity := Identity(t.endpoint, t.request, t.principal);
      (s.(pending := Some(identity), inserted := if s.inserted.None? then Some(identity) else s.inserted),
       Reserved(identity))
  }

  /** The promotion transaction: both of its statements must hit exactly one row. */
  function CommitStep(s: State, t: Thread): (State, Thread)
    requires t.Committing?
  {
    if s.relayEndpoint.Some? then (s, MatchingActive(t.endpoint, t.response, false))
    else if s.relayPrincipal.Some? then (s, Failed(InvalidTransition(UpdateMissed)))
    else if s.pending.None? || !Matches(s.pending.value, t.endpoint, t.response) then
      (s, Failed(InvalidTransition(DeleteMissed)))
    else (Configure(s, Active(t.endpoint, t.response.principal)).(pending := None), Promoted)
  }

  /** What provisioning decides from its one look at the configuration. */
  function AfterLook(s: State, active: Active): Thread {
    if Configured(s).None? then Configuring(active)
    else if s.relayEndpoint == Some(active.endpoint) then Provisioned
    else Failed(ProvisionMismatch)
  }

  /** What migration decides from its first look at the configuration. */
  function AfterRead(s: State, source: nat, destination: nat, expected: nat): Thread {
    match Configured(s)
    case None => Failed(NotConfigured)
    case Some(active) =>
      if active.principal != expected then Failed(MigrationConflict)
      else if active.endpoint == destination then Migrated
      else if active.endpoint != source || source == destination then Failed(MigrationConflict)
      else MovingEndpoint(source, destination, expected)
  }

  /** The migration's update: the endpoint must still be the source; the credential read at the
      beginning is written back. */
  function MoveStep(s: State, source: nat, destination: nat, expected: nat): (State, Thread) {
    if s.relayEndpoint == Some(source) && s.relayPrincipal.Some? then
      (Configure(s, Active(destination, expected)), CheckingMove(destination, expected))
    else (s, Failed(MigrationConflict))
  }

  function ThreadStep(s: State, t: Thread): (State, Thread) {
    match t
    case Reserving(_, _, _) => (s, AfterPresence(s, t))
    case Promoting(_, _) => (s, AfterPresence(s, t))
    case ReadingPending(endpoint) =>
      (s, if s.pending.Some? then Compare(s.pending.value, endpoint) else ReadingActive(endpoint))
    case ReadingActive(_) =>
      (s, Failed(if Configured(s).Some? then AlreadyConfigured else InvalidTransition(LostAfterPresence)))
    case Inserting(_, _, _) => InsertStep(s, t)
    case Rereading(endpoint) =>
      (s, if s.pending.Some? then Compare(s.pending.value, endpoint) else Failed(InvalidTransition(LostAfterIgnore)))
    case MatchingPending(endpoint, response) =>
      (s, if s.pending.None? then MatchingActive(endpoint, response, false)
          else if Matches(s.pending.value, endpoint, response) then Committing(endpoint, response)
          else Failed(EnrollmentConflict))
    case Committing(_, _) => CommitStep(s, t)
    case MatchingActive(endpoint, response, told) =>
      (s, if Configured(s) == Some(Active(endpoint, response.principal)) then Promoted
          else if Configured(s).None? && told then Failed(InvalidTransition(ActiveVanished))
          else Failed(EnrollmentConflict))
    case Provisioning(active) => (s, AfterLook(s, active))
    case Configuring(active) => (Configure(s, active), Provisioned)
    case Migrating(source, destination, expected) => (s, AfterRead(s, source, destination, expected))
    case MovingEndpoint(source, destination, expected) => MoveStep(s, source, destination, expected)
    case CheckingMove(destination, expected) =>
      (s, if Configured(s) == Some(Active(destination, expected)) then Migrated else Failed(MigrationConflict))
    case _ => (s, t)
  }

  predicate Startable(t: Thread) {
    t.Reserving? || t.Promoting? || t.Provisioning? || t.Migrating?
  }

  function Apply(s: State, a: Action): State {
    match a
    case Start(i, what) =>
      if i in s.threads || !Startable(what) then s else s.(threads := s.threads[i := what])
    case Step(i) =>
      if i !in s.threads then s
      else
        var (t, next) := ThreadStep(s, s.threads[i]);
        t.(threads := s.threads[i := next])
  }

  function Run(s: State, actions: seq<Action>): State {
    if actions == [] then s
    else Apply(Run(s, actions[..|actions| - 1]), actions[|actions| - 1])
  }

  const EMPTY: State := State(None, None, None, map[], None)

  // ------------------------------------------------------------------ what every run keeps

  /** Both columns or neither; the pending intent is the first one ever stored; and what was
      stored is still pending, or a relay is configured. */
  ghost predicate RowsOk(s: State) {
    && (s.relayEndpoint.Some? <==> s.relayPrincipal.Some?)
    && (s.pending.Some? ==> s.inserted == s.pending)
    && (s.inserted.Some? ==> s.pending.Some? || Configured(s).Some?)
  }

  const REACHABLE_ERRORS: set<Error> := {
    CorruptData, AlreadyConfigured, NotConfigured, EnrollmentConflict, ProvisionMismatch, MigrationConflict,
    InvalidTransition(NothingToPromote), InvalidTransition(LostAfterIgnore)
  }

  ghost predicate ThreadOk(s: State, t: Thread) {
    match t
    case ReadingPending(_) => s.inserted.Some?
    case ReadingActive(_) => Configured(s).Some?
    case Rereading(_) => s.inserted.Some?
    case MatchingPending(_, _) => s.inserted.Some?
    case Committing(endpoint, response) => s.inserted.Some? && Matches(s.inserted.value, endpoint, response)
    case MatchingActive(_, _, _) => Configured(s).Some?
    case MovingEndpoint(_, _, _) => Configured(s).Some?
    case Reserved(identity) => s.inserted == Some(identity)
    case Failed(error) => error in REACHABLE_ERRORS
    case _ => true
  }

  ghost predicate ThreadsOk(s: State) {
    forall i :: i in s.threads ==> ThreadOk(s, s.threads[i])
  }

  ghost predicate Inv(s: State) {
    RowsOk(s) && ThreadsOk(s)
  }

  /** What a thread may rely on while others run: the intent is fixed once stored, and a
      configured relay stays configured. */
  lemma RelyKept(s: State, t: State, thread: Thread)
    requires ThreadOk(s, thread)
    requires s.inserted.Some? ==> t.inserted == s.inserted
    requires Configured(s).Some? ==> Configured(t).Some?
    ensures ThreadOk(t, thread)
  {
  }

  lemma ThreadStepOk(s: State, t: Thread)
    requires RowsOk(s) && ThreadOk(s, t)
    ensures RowsOk(ThreadStep(s, t).0) && ThreadOk(ThreadStep(s, t).0, ThreadStep(s, t).1)
    ensures ThreadStep(s, t).0.threads == s.threads
    ensures s.inserted.Some? ==> ThreadStep(s, t).0.inserted == s.inserted
    ensures Configured(s).Some? ==> Configured(ThreadStep(s, t).0).Some? && ThreadStep(s, t).0.inserted == s.inserted
  {
  }

  lemma ApplyKeepsInv(s: State, a: Action)
    requires Inv(s)
    ensures Inv(Apply(s, a))
  {
    var t := Apply(s, a);
    if a.Step? && a.thread in s.threads {
      ThreadStepOk(s, s.threads[a.thread]);
    }
    forall i | i in t.threads ensures ThreadOk(t, t.threads[i]) {
      if i in s.threads && t.threads[i] == s.threads[i] {
        RelyKept(s, t, s.threads[i]);
      }
    }
  }

  lemma {:induction false} RunKeepsInv(actions: seq<Action>)
    ensures Inv(Run(EMPTY, actions))
  {
    if actions != [] {
      RunKeepsInv(actions[..|actions| - 1]);
      ApplyKeepsInv(Run(EMPTY, actions[..|actions| - 1]), actions[|actions| - 1]);
    }
  }

  /** Under any interleaving with any provisioning and migration, all successful reservations
      hand out one identity, and until a relay is configured it is the pending one. */
  lemma OneIdentity(actions: seq<Action>, i: nat, j: nat)
    requires var s := Run(EMPTY, actions);
             i in s.threads && s.threads[i].Reserved? && j in s.threads && s.threads[j].Reserved?
    ensures var s := Run(EMPTY, actions);
            && s.threads[i].identity == s.threads[j].identity
            && (Configured(s).None? ==> s.pending == Some(s.threads[i].identity))
  {
    RunKeepsInv(actions);
    var s := Run(EMPTY, actions);
    assert ThreadOk(s, s.threads[i]) && ThreadOk(s, s.threads[j]);
  }

  /** In no run does a thread end in a rollback of the promotion transaction or in one of the
      two "vanished row" errors; and the corruption error is reported only after active and
      pending have coexisted. */
  lemma RollbacksUnreachable(actions: seq<Action>, i: nat)
    requires i in Run(EMPTY, actions).threads && Run(EMPTY, actions).threads[i].Failed?
    ensures Run(EMPTY, actions).threads[i].error in REACHABLE_ERRORS
    ensures Run(EMPTY, actions).threads[i].error == CorruptData ==> !NeverBoth(actions)
  {
    RunKeepsInv(actions);
    var s := Run(EMPTY, actions);
    assert ThreadOk(s, s.threads[i]);
    if s.threads[i] == Failed(CorruptData) {
      CorruptionWasReal(actions, i);
    }
  }

  lemma {:induction false} CorruptionWasReal(actions: seq<Action>, i: nat)
    requires i in Run(EMPTY, actions).threads && Run(EMPTY, actions).threads[i] == Failed(CorruptData)
    ensures !NeverBoth(actions)
  {
    if actions != [] {
      var n := |actions| - 1;
      var s := Run(EMPTY, actions[..n]);
      RunKeepsInv(actions[..n]);
      if i in s.threads && s.threads[i] == Failed(CorruptData) {
        CorruptionWasReal(actions[..n], i);
        var k :| 0 <= k <= n && Both(Run(EMPTY, actions[..n][..k]));
        assert actions[..n][..k] == actions[..k];
      } else {
        assert Both(s);
      }
    }
  }

  // ------------------------------------------------------------------ active and pending together

  ghost predicate Both(s: State) {
    Configured(s).Some? && s.pending.Some?
  }

  ghost predicate NeverBoth(actions: seq<Action>) {
    forall k :: 0 <= k <= |actions| ==> !Both(Run(EMPTY, actions[..k]))
  }

  /** A provisioning write lands on top of a pending intent. */
  predicate Overwrites(s: State, a: Action) {
    a.Step? && a.thread in s.threads && s.threads[a.thread].Configuring? && s.pending.Some?
  }

  ghost predicate NeverOverwrites(actions: seq<Action>) {
    forall k :: 0 <= k < |actions| ==> !Overwrites(Run(EMPTY, actions[..k]), actions[k])
  }

  lemma BothExactly(s: State, a: Action)
    requires Inv(s) && !Both(s)
    ensures Both(Apply(s, a)) <==> Overwrites(s, a)
  {
    if a.Step? && a.thread in s.threads {
      assert ThreadOk(s, s.threads[a.thread]);
    }
  }

  lemma {:induction false} SeparateSoFar(actions: seq<Action>, n: nat)
    requires n <= |actions| && NeverOverwrites(actions)
    ensures !Both(Run(EMPTY, actions[..n]))
  {
    if n > 0 {
      SeparateSoFar(actions, n - 1);
      assert actions[..n][..n - 1] == actions[..n - 1];
      RunKeepsInv(actions[..n - 1]);
      BothExactly(Run(EMPTY, actions[..n - 1]), actions[n - 1]);
    }
  }

  lemma OverwriteIsSeen(actions: seq<Action>, k: nat)
    requires k < |actions| && Overwrites(Run(EMPTY, actions[..k]), actions[k])
    ensures !NeverBoth(actions)
  {
    assert actions[..k + 1][..k] == actions[..k];
    assert Both(Run(EMPTY, actions[..k + 1]));
  }

  /** Under any interleaving, active and pending never coexist if and only if no provisioning
      write lands while an intent is pending. */
  lemma ActiveAndPendingExclude(actions: seq<Action>)
    ensures NeverBoth(actions) <==> NeverOverwrites(actions)
  {
    if NeverOverwrites(actions) {
      forall k | 0 <= k <= |actions| ensures !Both(Run(EMPTY, actions[..k])) {
        SeparateSoFar(actions, k);
      }
    } else {
      var k: nat :| k < |actions| && Overwrites(Run(EMPTY, actions[..k]), actions[k]);
      OverwriteIsSeen(actions, k);
    }
  }

  // ------------------------------------------------------------------ whose principal is active

  /** Once an intent has been stored, a configured relay uses that intent's principal. */
  ghost predicate PrincipalKept(s: State) {
    s.inserted.Some? && Configured(s).Some? ==> s.relayPrincipal == Some(s.inserted.value.principal)
  }

  /** A provisioning write brings another principal although an intent has been stored, be it
      pending or promoted by now. */
  predicate Diverts(s: State, a: Action) {
    && a.Step? && a.thread in s.threads && s.threads[a.thread].Configuring?
    && s.inserted.Some? && s.threads[a.thread].active.principal != s.inserted.value.principal
  }

  ghost predicate AlwaysKept(actions: seq<Action>) {
    forall k :: 0 <= k <= |actions| ==> PrincipalKept(Run(EMPTY, actions[..k]))
  }

  ghost predicate NeverDiverts(actions: seq<Action>) {
    forall k :: 0 <= k < |actions| ==> !Diverts(Run(EMPTY, actions[..k]), actions[k])
  }

  /** A migration writes back the principal it has read, which is the intent's. */
  ghost predicate MovesKeep(s: State) {
    forall i :: i in s.threads && s.threads[i].MovingEndpoint? && s.inserted.Some? ==>
      s.threads[i].expected == s.inserted.value.principal
  }

  lemma StepKeepsPrincipal(s: State, a: Action)
    requires Inv(s) && PrincipalKept(s) && MovesKeep(s) && !Diverts(s, a)
    ensures PrincipalKept(Apply(s, a)) && MovesKeep(Apply(s, a))
  {
    if a.Step? && a.thread in s.threads {
      assert ThreadOk(s, s.threads[a.thread]);
      ThreadStepOk(s, s.threads[a.thread]);
    }
    forall i | i in s.threads && s.threads[i].MovingEndpoint? ensures Configured(s).Some? {
      assert ThreadOk(s, s.threads[i]);
    }
  }

  lemma {:induction false} KeptSoFar(actions: seq<Action>, n: nat)
    requires n <= |actions| && NeverDiverts(actions)
    ensures PrincipalKept(Run(EMPTY, actions[..n])) && MovesKeep(Run(EMPTY, actions[..n]))
  {
    if n > 0 {
      KeptSoFar(actions, n - 1);
      assert actions[..n][..n - 1] == actions[..n - 1];
      RunKeepsInv(actions[..n - 1]);
      StepKeepsPrincipal(Run(EMPTY, actions[..n - 1]), actions[n - 1]);
    }
  }

  lemma DiversionIsSeen(actions: seq<Action>, k: nat)
    requires k < |actions| && Diverts(Run(EMPTY, actions[..k]), actions[k])
    ensures !AlwaysKept(actions)
  {
    assert actions[..k + 1][..k] == actions[..k];
    assert !PrincipalKept(Run(EMPTY, actions[..k + 1]));
  }

  /** Throughout a run the active principal is that of the reserved identity if and only if no
      provisioning write brings another principal after an intent was stored. */
  lemma ActivePrincipalIsReserved(actions: seq<Action>)
    ensures AlwaysKept(actions) <==> NeverDiverts(actions)
  {
    if NeverDiverts(actions) {
      forall k | 0 <= k <= |actions| ensures PrincipalKept(Run(EMPTY, actions[..k])) {
        KeptSoFar(actions, k);
      }
    } else {
      var k: nat :| k < |actions| && Diverts(Run(EMPTY, actions[..k]), actions[k]);
      DiversionIsSeen(actions, k);
    }
  }

  // ------------------------------------------------------------------ runs that show the conditions

  const WINNER: Identity := Identity(5, 2, 2)

  lemma {:induction false} RunSplit(s: State, a: seq<Action>, b: seq<Action>)
    ensures Run(s, a + b) == Run(Run(s, a), b)
    decreases |b|
  {
    if b == [] {
      assert a + b == a;
    } else {
      RunSplit(s, a, b[..|b| - 1]);
      assert (a + b)[..|a + b| - 1] == a + b[..|b| - 1];
    }
  }

  lemma RunStepwise(s: State, a: seq<Action>)
    requires 1 <= |a| <= 3
    ensures |a| == 1 ==> Run(s, a) == Apply(s, a[0])
    ensures |a| == 2 ==> Run(s, a) == Apply(Apply(s, a[0]), a[1])
    ensures |a| == 3 ==> Run(s, a) == Apply(Apply(Apply(s, a[0]), a[1]), a[2])
  {
    assert Run(s, a[..1]) == Apply(s, a[0]);
    if |a| == 1 {
      assert a[..1] == a;
    } else {
      assert a[..2][..1] == a[..1];
      assert Run(s, a[..2]) == Apply(Apply(s, a[0]), a[1]);
      if |a| == 2 {
        assert a[..2] == a;
      }
    }
  }

  // Thread 1 reserves, and thread 2 promotes, while thread 0 is between two acquisitions.
  const RESERVE: seq<Action> := [Start(1, Reserving(5, 2, 2)), Step(1), Step(1)]
  const PROMOTE: seq<Action> := [Start(2, Promoting(5, Response(2, 2))), Step(2)]
  const COMMIT: seq<Action> := [Step(2), Step(2)]

  function Held(t: Thread): State {
    State(None, None, None, map[0 := t], None)
  }

  function AfterReserve(t: Thread): State {
    State(None, None, Some(WINNER), map[0 := t, 1 := Reserved(WINNER)], Some(WINNER))
  }

  function AfterPromote(t: Thread): State {
    State(None, None, Some(WINNER), map[0 := t, 1 := Reserved(WINNER), 2 := MatchingPending(5, Response(2, 2))],
        Some(WINNER))
  }

  function AfterCommit(t: Thread): State {
    State(Some(5), Some(2), None, map[0 := t, 1 := Reserved(WINNER), 2 := Promoted], Some(WINNER))
  }

  lemma ReserveRuns(a: seq<Action>, t: Thread)
    requires Run(EMPTY, a) == Held(t)
    ensures Run(EMPTY, a + RESERVE) == AfterReserve(t)
  {
    RunSplit(EMPTY, a, RESERVE);
    RunStepwise(Held(t), RESERVE);
  }

  lemma PromoteRuns(a: seq<Action>, t: Thread)
    requires Run(EMPTY, a) == AfterReserve(t)
    ensures Run(EMPTY, a + PROMOTE) == AfterPromote(t)
  {
    RunSplit(EMPTY, a, PROMOTE);
    RunStepwise(AfterReserve(t), PROMOTE);
  }

  lemma CommitRuns(a: seq<Action>, t: Thread)
    requires Run(EMPTY, a) == AfterPromote(t)
    ensures Run(EMPTY, a + COMMIT) == AfterCommit(t)
  {
    var s1 := Apply(AfterPromote(t), Step(2));
    assert s1 == AfterPromote(t).(threads := map[0 := t, 1 := Reserved(WINNER), 2 := Committing(5, Response(2, 2))]);
    RunSplit(EMPTY, a, COMMIT);
    RunStepwise(AfterPromote(t), COMMIT);
  }

  lemma StepRuns(a: seq<Action>, i: nat)
    ensures Run(EMPTY, a + [Step(i)]) == Apply(Run(EMPTY, a), Step(i))
  {
    RunSplit(EMPTY, a, [Step(i)]);
    RunStepwise(Run(EMPTY, a), [Step(i)]);
  }

  // Provisioning looks first and finds nothing configured.
  const LOOK: seq<Action> := [Start(0, Provisioning(Active(5, 9))), Step(0)]

  lemma LookRuns()
    ensures Run(EMPTY, LOOK) == Held(Configuring(Active(5, 9)))
  {
    RunStepwise(EMPTY, LOOK);
  }

  /** Provisioning that looked before a reservation and writes after it: active and pending
      coexist. */
  lemma ProvisionOverPending()
    ensures var s := Run(EMPTY, LOOK + RESERVE + [Step(0)]);
            Both(s) && s.pending == Some(WINNER) && Configured(s) == Some(Active(5, 9))
  {
    LookRuns();
    ReserveRuns(LOOK, Configuring(Active(5, 9)));
    StepRuns(LOOK + RESERVE, 0);
  }

  /** Provisioning that looked before a reservation and writes after its promotion: no intent
      is pending any more, but the reserved principal is replaced. */
  lemma ProvisionAfterPromotion()
    ensures var s := Run(EMPTY, LOOK + RESERVE + PROMOTE + COMMIT + [Step(0)]);
            && s.pending.None? && 1 in s.threads && s.threads[1] == Reserved(WINNER)
            && Configured(s) == Some(Active(5, 9)) && WINNER.principal == 2
  {
    var t := Configuring(Active(5, 9));
    LookRuns();
    ReserveRuns(LOOK, t);
    PromoteRuns(LOOK + RESERVE, t);
    CommitRuns(LOOK + RESERVE + PROMOTE, t);
    StepRuns(LOOK + RESERVE + PROMOTE + COMMIT, 0);
  }

  // A reservation that has seen neither row, and loses.
  const ARRIVE: seq<Action> := [Start(0, Reserving(5, 1, 1)), Step(0)]
  const LOSE: seq<Action> := ARRIVE + RESERVE + [Step(0)]

  lemma LoseRuns()
    ensures Run(EMPTY, LOSE) == AfterReserve(Rereading(5))
  {
    RunStepwise(EMPTY, ARRIVE);
    assert Run(EMPTY, ARRIVE) == Held(Inserting(5, 1, 1));
    ReserveRuns(ARRIVE, Inserting(5, 1, 1));
    StepRuns(ARRIVE + RESERVE, 0);
  }

  /** The losing reservation reports InvalidTransition although the profile is configured by
      then: the source tells "already configured" apart only in its other missing-row branch. */
  lemma LoserSeesInvalidTransition()
    ensures var s := Run(EMPTY, LOSE + PROMOTE + COMMIT + [Step(0)]);
            && 0 in s.threads && s.threads[0] == Failed(InvalidTransition(LostAfterIgnore))
            && Configured(s) == Some(Active(5, 2))
  {
    LoseRuns();
    PromoteRuns(LOSE, Rereading(5));
    CommitRuns(LOSE + PROMOTE, Rereading(5));
    StepRuns(LOSE + PROMOTE + COMMIT, 0);
  }

  /** Exactly when: a reservation whose insert was ignored ends that way if and only if the
      intent that beat it is no longer pending, and then the relay is configured. */
  lemma LoserExactly(actions: seq<Action>, i: nat)
    requires i in Run(EMPTY, actions).threads && Run(EMPTY, actions).threads[i].Rereading?
    ensures var s, t := Run(EMPTY, actions), Apply(Run(EMPTY, actions), Step(i));
            && (t.threads[i] == Failed(InvalidTransition(LostAfterIgnore)) <==> s.pending.None?)
            && (s.pending.None? ==> Configured(s).Some?)
  {
    RunKeepsInv(actions);
    var s := Run(EMPTY, actions);
    assert ThreadOk(s, s.threads[i]);
  }

  // ------------------------------------------------------------------ the store object

  class ProfileStore {
    var relayEndpoint: Option<nat>
    var relayPrincipal: Option<nat>
    var pending: Option<Identity>
    var threads: map<nat, Thread>
    ghost var inserted: Option<Identity>

    ghost function View(): State
      reads this
    {
      State(relayEndpoint, relayPrincipal, pending, threads, inserted)
    }

    constructor ()
      ensures View() == EMPTY
    {
      relayEndpoint, relayPrincipal, pending, threads, inserted := None, None, None, map[], None;
    }

    /** INSERT OR IGNORE of an intent, unless a relay is configured. */
    method ReserveTransaction(t: Thread) returns (next: Thread)
      requires t.Inserting?
      modifies this
      ensures (View(), next) == InsertStep(old(View()), t)
    {
      if relayEndpoint.Some? {
        return Failed(AlreadyConfigured);
      }
      if pending.Some? {
        return Rereading(t.endpoint);
      }
      pending := Some(Identity(t.endpoint, t.request, t.principal));
      if inserted.None? {
        inserted := pending;
      }
      next := Reserved(pending.value);
    }

    /** UPDATE the profile row and DELETE the intent, both or neither. */
    method PromoteTransaction(t: Thread) returns (next: Thread)
      requires t.Committing?
      modifies this
      ensures (View(), next) == CommitStep(old(View()), t)
    {
      if relayEndpoint.Some? {
        return MatchingActive(t.endpoint, t.response, false);
      }
      if relayPrincipal.Some? {
        return Failed(InvalidTransition(UpdateMissed));
      }
      if pending.None? || !Matches(pending.value, t.endpoint, t.response) {
        return Failed(InvalidTransition(DeleteMissed));
      }
      relayEndpoint, relayPrincipal, pending := Some(t.endpoint), Some(t.response.principal), None;
      next := Promoted;
    }

    /** UPDATE of both columns, without a guard. */
    method ConfigureRelay(active: Active)
      modifies this
      ensures View() == Configure(old(View()), active)
    {
      relayEndpoint, relayPrincipal := Some(active.endpoint), Some(active.principal);
    }

    /** UPDATE of a row that still names the source. */
    method MoveEndpoint(t: Thread) returns (next: Thread)
      requires t.MovingEndpoint?
      modifies this
      ensures (View(), next) == MoveStep(old(View()), t.source, t.destination, t.expected)
    {
      if relayEndpoint != Some(t.source) || relayPrincipal.None? {
        return Failed(MigrationConflict);
      }
      ConfigureRelay(Active(t.destination, t.expected));
      next := CheckingMove(t.destination, t.expected);
    }

    /** Thread `i` makes its next lock acquisition. */
    method Turn(i: nat)
      modifies this
      ensures View() == Apply(old(View()), Step(i))
    {
      if i !in threads {
        return;
      }
      var t, next := threads[i], threads[i];
      if t.Inserting? {
        next := ReserveTransaction(t);
      } else if t.Committing? {
        next := PromoteTransaction(t);
      } else if t.Configuring? {
        ConfigureRelay(t.active);
        next := Provisioned;
      } else if t.MovingEndpoint? {
        next := MoveEndpoint(t);
      } else {
        next := ThreadStep(State(relayEndpoint, relayPrincipal, pending, threads, None), t).1;
      }
      threads := threads[i := next];
    }

    /** The store object under any schedule of any threads: what a run does, it does. */
    method Follow(actions: seq<Action>)
      requires View() == EMPTY
      modifies this
      ensures View() == Run(EMPTY, actions) && Inv(View())
    {
      for n := 0 to |actions|
        invariant View() == Run(EMPTY, actions[..n])
      {
        assert actions[..n + 1][..n] == actions[..n];
        match actions[n]
        case Start(i, what) =>
          if i !in threads && Startable(what) {
            threads := threads[i := what];
          }
        case Step(i) => Turn(i);
      }
      assert actions[..|actions|] == actions;
      RunKeepsInv(actions);
    }
  }
}

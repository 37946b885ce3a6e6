/** The live authorization cache: an in-memory projection and grant registry that mirror a
    durable store while reloads, mutations and handshake waiters interleave.

    The store is its history: generation g is `history[g]`. Any number of refresh tasks
    run at once, because the periodic reload does not take the operations lock. Every
    atomic section of the source is one action; an action that is not enabled changes
    nothing, so every sequence of actions is a run. Grants expire by the clock alone. */
module AuthorizationCache {
  import opened Wrappers

  datatype Failure =
    | StoreFailure(code: nat)
    | InvalidProjection
    | ObservationDeadlineExceeded
    | BlockingOperationFailed

  datatype Evidence = AccountTrusted | UserPresence
  datatype Policy = Policy(version: nat, clauses: set<set<Evidence>>)
  datatype Issuer = Issuer(key: nat, version: nat, disabled: bool, profiles: set<nat>, harness: Option<nat>)
  datatype Grant = Grant(id: nat, issuer: nat, profile: nat, policyVersion: nat, expires: nat)

  /** One generation of the durable store. */
  datatype Store = Store(policy: Policy, issuers: seq<Issuer>, suspended: set<nat>, grants: set<Grant>)

  datatype Projection = Projection(
    generation: nat, policy: Policy, issuers: seq<Issuer>, suspended: set<nat>, failure: Option<Failure>)
  datatype Registry = Registry(issuers: seq<Issuer>, grants: set<Grant>)

  /** What the locks and the status channel guard; `version` counts status sends. */
  datatype Cache = Cache(projection: Projection, registry: Registry, version: nat)

  /** A refresh, by how far it got. `highWater` is the generation its caller must see. */
  datatype Task =
    | Waiting(highWater: nat, asOf: nat)
    | Loaded(highWater: nat, generation: nat, snapshot: Store)
    | Abandoned(highWater: nat)
    | MustSend(highWater: nat)
    | Finished(highWater: nat, ok: bool)

  /** A handshake waiting for an answer about `grant`. */
  datatype Waiter =
    | Checking(grant: Grant, seen: nat)
    | Parked(grant: Grant, seen: nat)
    | Answered(grant: Grant, authorized: bool, generation: nat, at: nat)

  datatype State = State(
    history: seq<Store>, clock: nat, cache: Cache, tasks: map<nat, Task>, waiters: map<nat, Waiter>)

  datatype Action =
    | Commit(store: Store)                 // any store mutation, by any process
    | Tick(now: nat)
    | Begin(task: nat, highWater: nat, asOf: nat)
    | Load(task: nat)
    | LoadFails(task: nat, error: Failure)
    | WorkerLost(task: nat)
    | Deadline(task: nat)
    | GiveUp(task: nat, workerLost: bool)
    | Publish(task: nat, valid: bool)
    | Send(task: nat)
    | FailClosed(error: Failure)
    | Purge
    | Subscribe(waiter: nat, grant: Grant)
    | Check(waiter: nat)
    | Changed(waiter: nat)

  // ------------------------------------------------------------------ atomic sections

  function Unexpired(grants: set<Grant>, now: nat): set<Grant> {
    set g | g in grants && g.expires > now
  }

  /** fail_closed_locked: a repeated identical failure neither stores nor notifies. */
  function FailClosedStep(c: Cache, error: Failure): Cache {
    if c.projection.failure == Some(error) then c
    else c.(projection := c.projection.(failure := Some(error)), version := c.version + 1)
  }

  /** The write-locked part of publish. `valid` is whether the registry takes the snapshot. */
  function PublishStep(c: Cache, generation: nat, snapshot: Store, valid: bool): Cache {
    if generation < c.projection.generation then c
    else if !valid then FailClosedStep(c, InvalidProjection)
    else c.(registry := Registry(snapshot.issuers, snapshot.grants),
            projection := Projection(generation, snapshot.policy, snapshot.issuers, snapshot.suspended, None))
  }

  function PublishedTask(c: Cache, highWater: nat, generation: nat, valid: bool): Task {
    if generation < c.projection.generation then Finished(highWater, true)
    else if !valid then Finished(highWater, false)
    else MustSend(highWater)
  }

  predicate Authorizes(registry: Registry, grant: Grant, now: nat) {
    grant in registry.grants && grant.expires > now
  }

  function LoadTask(history: seq<Store>, t: Task): Task
    requires history != []
  {
    if !t.Waiting? then t
    else if |history| - 1 < t.highWater then Finished(t.highWater, false)
    else
      var store := history[|history| - 1];
      Loaded(t.highWater, |history| - 1, store.(grants := Unexpired(store.grants, t.asOf)))
  }

  function CheckStep(c: Cache, w: Waiter, now: nat): Waiter {
    if !w.Checking? then w
    else if c.projection.failure.None? then
      Answered(w.grant, Authorizes(c.registry, w.grant, now), c.projection.generation, now)
    else Parked(w.grant, w.seen)
  }

  function ChangedStep(version: nat, w: Waiter): Waiter {
    if w.Parked? && w.seen != version then Checking(w.grant, version) else w
  }

  function TaskStep(s: State, i: nat, a: Action): State
    requires i in s.tasks && s.history != []
  {
    var t := s.tasks[i];
    match a
    case Load(_) => s.(tasks := s.tasks[i := LoadTask(s.history, t)])
    case LoadFails(_, error) =>
      if !t.Waiting? then s
      else s.(cache := FailClosedStep(s.cache, error), tasks := s.tasks[i := Finished(t.highWater, false)])
    case WorkerLost(_) => if !t.Waiting? then s else s.(tasks := s.tasks[i := Finished(t.highWater, false)])
    case Deadline(_) =>
      if !t.Waiting? && !t.Loaded? then s
      else s.(cache := FailClosedStep(s.cache, ObservationDeadlineExceeded),
          tasks := s.tasks[i := Abandoned(t.highWater)])
    case GiveUp(_, workerLost) =>
      if !t.Abandoned? then s
      else s.(cache := if workerLost then FailClosedStep(s.cache, BlockingOperationFailed) else s.cache,
              tasks := s.tasks[i := Finished(t.highWater, false)])
    case Publish(_, valid) =>
      if !t.Loaded? then s
      else s.(cache := PublishStep(s.cache, t.generation, t.snapshot, valid),
              tasks := s.tasks[i := PublishedTask(s.cache, t.highWater, t.generation, valid)])
    case Send(_) =>
      if !t.MustSend? then s
      else s.(cache := s.cache.(version := s.cache.version + 1), tasks := s.tasks[i := Finished(t.highWater, true)])
    case _ => s
  }

  predicate Busy(tasks: map<nat, Task>, i: nat) {
    i in tasks && !tasks[i].Finished?
  }

  predicate OnTask(a: Action) {
    a.Load? || a.LoadFails? || a.WorkerLost? || a.Deadline? || a.GiveUp? || a.Publish? || a.Send?
  }

  function Apply(s: State, a: Action): State
    requires s.history != []
  {
    match a
    case Commit(store) => s.(history := s.history + [store])
    case Tick(now) => if now < s.clock then s else s.(clock := now)
    case Begin(i, highWater, asOf) =>
      if Busy(s.tasks, i) || highWater >= |s.history| || asOf > s.clock then s
      else s.(tasks := s.tasks[i := Waiting(highWater, asOf)])
    case FailClosed(error) => s.(cache := FailClosedStep(s.cache, error))
    case Purge => s.(cache := s.cache.(registry :=
        s.cache.registry.(grants := Unexpired(s.cache.registry.grants, s.clock))))
    case Subscribe(i, grant) =>
      if i in s.waiters then s else s.(waiters := s.waiters[i := Checking(grant, s.cache.version)])
    case Check(i) =>
      if i !in s.waiters then s else s.(waiters := s.waiters[i := CheckStep(s.cache, s.waiters[i], s.clock)])
    case Changed(i) =>
      if i !in s.waiters then s else s.(waiters := s.waiters[i := ChangedStep(s.cache.version, s.waiters[i])])
    case _ => if a.task !in s.tasks then s else TaskStep(s, a.task, a)
  }

  // ------------------------------------------------------------------ invariants

  /** Projection and registry are both images of `store`; what the registry lacks has expired. */
  ghost predicate Mirrors(p: Projection, r: Registry, store: Store, clock: nat) {
    && p.policy == store.policy && p.issuers == store.issuers && p.suspended == store.suspended
    && r.issuers == store.issuers
    && Expires(store.grants, r.grants, clock)
  }

  ghost predicate Expires(all: set<Grant>, kept: set<Grant>, clock: nat) {
    && kept <= all
    && forall g :: g in all && g !in kept ==> g.expires <= clock
  }

  ghost predicate Coherent(history: seq<Store>, clock: nat, c: Cache) {
    && c.projection.generation < |history|
    && Mirrors(c.projection, c.registry, history[c.projection.generation], clock)
  }

  ghost predicate TaskOk(history: seq<Store>, clock: nat, generation: nat, t: Task) {
    match t
    case Waiting(highWater, asOf) => highWater < |history| && asOf <= clock
    case Loaded(highWater, loaded, snapshot) =>
      && highWater <= loaded < |history|
      && snapshot == history[loaded].(grants := snapshot.grants)
      && Expires(history[loaded].grants, snapshot.grants, clock)
    case MustSend(highWater) => highWater <= generation
    case Finished(highWater, ok) => ok ==> highWater <= generation
    case Abandoned(_) => true
  }

  ghost predicate TasksOk(history: seq<Store>, clock: nat, generation: nat, tasks: map<nat, Task>) {
    forall i :: i in tasks ==> TaskOk(history, clock, generation, tasks[i])
  }

  ghost predicate WaiterOk(history: seq<Store>, version: nat, w: Waiter) {
    match w
    case Answered(grant, authorized, generation, at) =>
      generation < |history| && (authorized <==> grant in history[generation].grants && grant.expires > at)
    case _ => w.seen <= version
  }

  ghost predicate WaitersOk(history: seq<Store>, version: nat, waiters: map<nat, Waiter>) {
    forall i :: i in waiters ==> WaiterOk(history, version, waiters[i])
  }

  ghost predicate SenderExists(tasks: map<nat, Task>) {
    exists i :: i in tasks && tasks[i].MustSend?
  }

  /** Nobody sleeps through a recovery. */
  ghost predicate NobodyStranded(c: Cache, tasks: map<nat, Task>, waiters: map<nat, Waiter>) {
    c.projection.failure.None? && !SenderExists(tasks) ==>
      forall i :: i in waiters && waiters[i].Parked? ==> waiters[i].seen < c.version
  }

  ghost predicate Inv(s: State) {
    && s.history != []
    && Coherent(s.history, s.clock, s.cache)
    && TasksOk(s.history, s.clock, s.cache.projection.generation, s.tasks)
    && WaitersOk(s.history, s.cache.version, s.waiters)
    && NobodyStranded(s.cache, s.tasks, s.waiters)
  }

  // ------------------------------------------------------------------ preservation

  lemma HistoryGrows(s: State, store: Store)
    requires Inv(s)
    ensures Inv(Apply(s, Commit(store)))
  {
  }

  lemma ClockMoves(s: State, now: nat)
    requires Inv(s)
    ensures Inv(Apply(s, Tick(now)))
  {
  }

  /** A new cache that keeps coherence and does not go back keeps all the rest. */
  lemma CacheMoves(s: State, c: Cache)
    requires Inv(s)
    requires Coherent(s.history, s.clock, c)
    requires s.cache.projection.generation <= c.projection.generation
    requires s.cache.version <= c.version
    ensures TasksOk(s.history, s.clock, c.projection.generation, s.tasks)
    ensures WaitersOk(s.history, c.version, s.waiters)
  {
  }

  lemma TaskMoves(history: seq<Store>, clock: nat, generation: nat, tasks: map<nat, Task>, i: nat, t: Task)
    requires TasksOk(history, clock, generation, tasks) && TaskOk(history, clock, generation, t)
    ensures TasksOk(history, clock, generation, tasks[i := t])
  {
  }

  /** Replacing task `i` keeps every pending sender other than `i` itself. */
  lemma SenderStays(tasks: map<nat, Task>, i: nat, t: Task)
    requires i in tasks ==> !tasks[i].MustSend?
    ensures SenderExists(tasks) ==> SenderExists(tasks[i := t])
    ensures t.MustSend? ==> SenderExists(tasks[i := t])
  {
    if SenderExists(tasks) {
      var k :| k in tasks && tasks[k].MustSend?;
      assert k in tasks[i := t] && tasks[i := t][k].MustSend?;
    }
    assert i in tasks[i := t] && tasks[i := t][i] == t;
  }

  lemma FailClosedKeepsInv(s: State, error: Failure)
    requires Inv(s)
    ensures Inv(s.(cache := FailClosedStep(s.cache, error)))
  {
  }

  /** Moving one refresh that is not about to send, while the cache stays put. */
  lemma MoveTaskKeepsInv(s: State, i: nat, t: Task)
    requires Inv(s)
    requires i in s.tasks ==> !s.tasks[i].MustSend?
    requires TaskOk(s.history, s.clock, s.cache.projection.generation, t)
    ensures Inv(s.(tasks := s.tasks[i := t]))
  {
    TaskMoves(s.history, s.clock, s.cache.projection.generation, s.tasks, i, t);
    SenderStays(s.tasks, i, t);
  }

  lemma LoadKeepsInv(s: State, i: nat)
    requires Inv(s) && i in s.tasks
    ensures Inv(TaskStep(s, i, Load(i)))
  {
    var t := s.tasks[i];
    if t.Waiting? {
      assert TaskOk(s.history, s.clock, s.cache.projection.generation, t);
      MoveTaskKeepsInv(s, i, LoadTask(s.history, t));
    } else {
      assert s.tasks[i := t] == s.tasks;
    }
  }

  lemma PublishKeepsInv(s: State, i: nat, valid: bool)
    requires Inv(s) && i in s.tasks
    ensures Inv(TaskStep(s, i, Publish(i, valid)))
  {
    var t := s.tasks[i];
    if t.Loaded? {
      assert TaskOk(s.history, s.clock, s.cache.projection.generation, t);
      var next := PublishedTask(s.cache, t.highWater, t.generation, valid);
      var c := PublishStep(s.cache, t.generation, t.snapshot, valid);
      assert Coherent(s.history, s.clock, c);
      CacheMoves(s, c);
      TaskMoves(s.history, s.clock, c.projection.generation, s.tasks, i, next);
      SenderStays(s.tasks, i, next);
    }
  }

  lemma SendKeepsInv(s: State, i: nat)
    requires Inv(s) && i in s.tasks
    ensures Inv(TaskStep(s, i, Send(i)))
  {
  }

  /** A refresh ends without publishing; the cache may fail closed at the same time. */
  lemma EndTaskKeepsInv(s: State, i: nat, error: Option<Failure>, t: Task)
    requires Inv(s) && i in s.tasks && !s.tasks[i].MustSend?
    requires t.Abandoned? || (t.Finished? && !t.ok)
    ensures var c := if error.Some? then FailClosedStep(s.cache, error.value) else s.cache;
            Inv(s.(cache := c, tasks := s.tasks[i := t]))
  {
    if error.Some? {
      FailClosedKeepsInv(s, error.value);
      MoveTaskKeepsInv(s.(cache := FailClosedStep(s.cache, error.value)), i, t);
    } else {
      MoveTaskKeepsInv(s, i, t);
    }
  }

  lemma FailedStepKeepsInv(s: State, i: nat, a: Action)
    requires Inv(s) && i in s.tasks && (a.LoadFails? || a.WorkerLost? || a.Deadline? || a.GiveUp?)
    ensures Inv(TaskStep(s, i, a))
  {
    var t := s.tasks[i];
    if !t.MustSend? {
      var failed := Finished(t.highWater, false);
      match a
      case LoadFails(_, error) => EndTaskKeepsInv(s, i, Some(error), failed);
      case WorkerLost(_) => EndTaskKeepsInv(s, i, None, failed);
      case Deadline(_) => EndTaskKeepsInv(s, i, Some(ObservationDeadlineExceeded), Abandoned(t.highWater));
      case GiveUp(_, workerLost) =>
        EndTaskKeepsInv(s, i, if workerLost then Some(BlockingOperationFailed) else None, failed);
    }
  }

  lemma TaskStepKeepsInv(s: State, i: nat, a: Action)
    requires Inv(s) && i in s.tasks
    ensures Inv(TaskStep(s, i, a))
  {
    match a
    case Load(_) => LoadKeepsInv(s, i);
    case Publish(_, valid) => PublishKeepsInv(s, i, valid);
    case Send(_) => SendKeepsInv(s, i);
    case LoadFails(_, _) => FailedStepKeepsInv(s, i, a);
    case WorkerLost(_) => FailedStepKeepsInv(s, i, a);
    case Deadline(_) => FailedStepKeepsInv(s, i, a);
    case GiveUp(_, _) => FailedStepKeepsInv(s, i, a);
    case _ =>
  }

  lemma PurgeKeepsInv(s: State)
    requires Inv(s)
    ensures Inv(Apply(s, Purge))
  {
  }

  lemma WaiterKeepsInv(s: State, i: nat, w: Waiter)
    requires Inv(s) && WaiterOk(s.history, s.cache.version, w)
    requires w.Parked? ==>
               s.cache.projection.failure.Some? || w.seen < s.cache.version || (i in s.waiters && s.waiters[i] == w)
    ensures Inv(s.(waiters := s.waiters[i := w]))
  {
  }

  lemma CheckKeepsInv(s: State, i: nat)
    requires Inv(s) && i in s.waiters
    ensures Inv(Apply(s, Check(i)))
  {
  }

  lemma ChangedKeepsInv(s: State, i: nat)
    requires Inv(s) && i in s.waiters
    ensures Inv(Apply(s, Changed(i)))
  {
  }

  /** Every atomic section of every task and waiter keeps the invariant. */
  lemma ApplyKeepsInv(s: State, a: Action)
    requires Inv(s)
    ensures Inv(Apply(s, a))
  {
    match a
    case Commit(store) => HistoryGrows(s, store);
    case Tick(now) => ClockMoves(s, now);
    case Begin(i, highWater, asOf) =>
      if !Busy(s.tasks, i) && highWater < |s.history| && asOf <= s.clock {
        MoveTaskKeepsInv(s, i, Waiting(highWater, asOf));
      }
    case FailClosed(error) => FailClosedKeepsInv(s, error);
    case Purge => PurgeKeepsInv(s);
    case Subscribe(i, grant) =>
      if i !in s.waiters {
        WaiterKeepsInv(s, i, Checking(grant, s.cache.version));
      }
    case Check(i) =>
      if i in s.waiters {
        CheckKeepsInv(s, i);
      }
    case Changed(i) =>
      if i in s.waiters {
        ChangedKeepsInv(s, i);
      }
    case _ =>
      if a.task in s.tasks {
        TaskStepKeepsInv(s, a.task, a);
      }
  }

  // ------------------------------------------------------------------ theorems over all runs

  /** The runtime just opened from the newest generation. */
  function Opened(history: seq<Store>, now: nat): State
    requires history != []
  {
    var store := history[|history| - 1];
    State(history, now,
          Cache(Projection(|history| - 1, store.policy, store.issuers, store.suspended, None),
                Registry(store.issuers, Unexpired(store.grants, now)), 0),
          map[], map[])
  }

  lemma StepAdvances(s: State, a: Action)
    requires s.history != []
    ensures var t := Apply(s, a);
            && s.history <= t.history
            && s.clock <= t.clock
            && s.cache.version <= t.cache.version
            && s.cache.projection.generation <= t.cache.projection.generation
  {
  }

  function Run(s: State, actions: seq<Action>): (t: State)
    requires s.history != []
    ensures t.history != []
  {
    if actions == [] then s
    else
      var before := Run(s, actions[..|actions| - 1]);
      StepAdvances(before, actions[|actions| - 1]);
      Apply(before, actions[|actions| - 1])
  }

  lemma {:induction false} RunKeepsInv(s: State, actions: seq<Action>)
    requires Inv(s)
    ensures Inv(Run(s, actions))
  {
    if actions != [] {
      RunKeepsInv(s, actions[..|actions| - 1]);
      ApplyKeepsInv(Run(s, actions[..|actions| - 1]), actions[|actions| - 1]);
    }
  }

  /** Concurrent refreshes never take the projection back to an older generation. */
  lemma {:induction false} RunAdvances(s: State, actions: seq<Action>, k: nat)
    requires s.history != [] && k <= |actions|
    ensures var earlier, later := Run(s, actions[..k]), Run(s, actions);
            && earlier.history <= later.history
            && earlier.cache.projection.generation <= later.cache.projection.generation
            && earlier.cache.version <= later.cache.version
    decreases |actions|
  {
    if k == |actions| {
      assert actions[..k] == actions;
    } else {
      var shorter := actions[..|actions| - 1];
      RunAdvances(s, shorter, k);
      assert shorter[..k] == actions[..k];
      StepAdvances(Run(s, shorter), actions[|actions| - 1]);
    }
  }

  /** Coherence: whatever the failure flag says, projection and registry mirror one and the
      same store generation, so an authorization answer is the store's own answer. */
  lemma CoherentAlways(history: seq<Store>, now: nat, actions: seq<Action>, grant: Grant)
    requires history != []
    ensures var s := Run(Opened(history, now), actions);
            && Coherent(s.history, s.clock, s.cache)
            && (Authorizes(s.cache.registry, grant, s.clock) <==>
                  grant in s.history[s.cache.projection.generation].grants && grant.expires > s.clock)
  {
    RunKeepsInv(Opened(history, now), actions);
  }

  /** No resurrection: once the projection has reached generation `g`, a grant that no
      generation from `g` on contains is never authorized again, whichever snapshot arrives late. */
  lemma NoResurrection(history: seq<Store>, now: nat, actions: seq<Action>, k: nat, g: nat, grant: Grant)
    requires history != [] && k <= |actions|
    requires Run(Opened(history, now), actions[..k]).cache.projection.generation >= g
    requires var h := Run(Opened(history, now), actions).history;
             forall i :: g <= i < |h| ==> grant !in h[i].grants
    ensures !Authorizes(Run(Opened(history, now), actions).cache.registry, grant,
        Run(Opened(history, now), actions).clock)
  {
    RunAdvances(Opened(history, now), actions, k);
    CoherentAlways(history, now, actions, grant);
  }

  /** Every handshake answer ever given was the store's answer at one of its generations. */
  lemma AnswersComeFromTheStore(history: seq<Store>, now: nat, actions: seq<Action>, i: nat)
    requires history != []
    requires var s := Run(Opened(history, now), actions); i in s.waiters && s.waiters[i].Answered?
    ensures var s := Run(Opened(history, now), actions);
            var w := s.waiters[i];
            w.generation < |s.history| && (w.authorized
                <==> w.grant in s.history[w.generation].grants && w.grant.expires > w.at)
  {
    RunKeepsInv(Opened(history, now), actions);
    var s := Run(Opened(history, now), actions);
    assert WaiterOk(s.history, s.cache.version, s.waiters[i]);
  }

  lemma FinishedTaskReached(s: State, i: nat)
    requires Inv(s) && i in s.tasks && s.tasks[i].Finished? && s.tasks[i].ok
    ensures s.tasks[i].highWater <= s.cache.projection.generation
  {
  }

  /** Read your writes: a refresh that returned Ok left the projection at or past the
      generation its caller asked for, and it stays there. */
  lemma ReadYourWrites(history: seq<Store>, now: nat, actions: seq<Action>, k: nat, i: nat)
    requires history != [] && k <= |actions|
    requires var s := Run(Opened(history, now), actions[..k]); i in s.tasks && s.tasks[i].Finished? && s.tasks[i].ok
    ensures Run(Opened(history, now), actions[..k]).tasks[i].highWater
              <= Run(Opened(history, now), actions).cache.projection.generation
  {
    RunKeepsInv(Opened(history, now), actions[..k]);
    FinishedTaskReached(Run(Opened(history, now), actions[..k]), i);
    RunAdvances(Opened(history, now), actions, k);
  }

  /** No waiter sleeps through a recovery: a parked waiter under a cleared failure either has
      an unseen status already, or a publisher is still between unlock and send. */
  lemma ParkedWaiterIsSignalled(history: seq<Store>, now: nat, actions: seq<Action>, w: nat)
    requires history != []
    requires var s := Run(Opened(history, now), actions);
             w in s.waiters && s.waiters[w].Parked? && s.cache.projection.failure.None?
    ensures var s := Run(Opened(history, now), actions);
            s.waiters[w].seen < s.cache.version || SenderExists(s.tasks)
  {
    RunKeepsInv(Opened(history, now), actions);
  }

  /** And that is enough: the send, the wake-up and the next check give it an answer. */
  lemma SignalledWaiterAnswers(s: State, w: nat, i: nat)
    requires Inv(s)
    requires w in s.waiters && s.waiters[w].Parked? && s.cache.projection.failure.None?
    requires s.waiters[w].seen < s.cache.version || (i in s.tasks && s.tasks[i].MustSend?)
    ensures var t := Apply(Apply(Apply(s, Send(i)), Changed(w)), Check(w));
            w in t.waiters && t.waiters[w].Answered? && t.waiters[w].generation == s.cache.projection.generation
  {
  }
}

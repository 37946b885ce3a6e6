/** `LiveAuthorizationRuntime` as the object whose locked fields the source updates.

    Between any two of its awaits the rest of the process may do anything: `world(n)` is what
    everybody else does at the n-th await of the operations below. The object keeps an honest
    trace of what it did, and the contracts of its operations speak about that trace. */
module AuthorizationRuntime {
  import opened Wrappers
  import opened AuthorizationCache
  import opened Issuance
  import opened AuthorizationTrace

  const GRANT_IDENTIFIER_ATTEMPTS: nat := 4

  datatype LoadEnding = Loads | LoadError(error: Failure) | Panics | Late(workerLost: bool)

  /** How the load of one refresh ends, whether the registry takes its snapshot, and the clock
      it reads. */
  datatype Weather = Weather(ending: LoadEnding, valid: bool, asOf: nat)

  datatype Round = Round(id: nat, oracle: Oracle, weather: Weather)

  /** `s` is where the honest trace leads, and nothing is owed. */
  ghost predicate Sound(start: State, s: State, trace: seq<Event>, me: nat) {
    Inv(start) && s == After(start, trace) && Honest(start, trace, me) && Complete(start, trace)
  }

  lemma SoundKeepsInv(start: State, s: State, trace: seq<Event>, me: nat)
    requires Sound(start, s, trace, me)
    ensures Inv(s)
  {
    HonestIsAdmissible(start, trace, me);
  }

  /** Nobody else acts on this operation's refresh. */
  ghost predicate WorldOk(world: nat -> seq<Action>, me: nat) {
    forall n, i :: 0 <= i < |world(n)| ==> !TaskOf(world(n)[i], me)
  }

  function Grown(history: seq<Store>, next: Option<Store>): seq<Store> {
    if next.Some? then history + [next.value] else history
  }

  /** `grant` is what the store, with history `asked`, answered to `s`, and a projection at
      `generation` shows that answer. */
  ghost predicate ShowsAnswer(asked: seq<Store>, history: seq<Store>, generation: nat, s: Submission, grant: Grant) {
    && asked != []
    && var answer := StoreIssue(asked, s.q, s.candidate, s.now, s.oracle);
       && Grown(asked, answer.next) <= history && |Grown(asked, answer.next)| - 1 <= generation
       && ((answer.verdict.Applied? && grant == s.candidate) || answer.verdict == Replayed(grant))
  }

  /** What an answer is worth. An issued grant is the candidate, committed onto a generation that
      itself permits the request under the candidate's policy, and the projection has reached
      the generation that holds it. A replayed grant was recorded before, for the same issuer
      and profile, and the projection has reached what was newest then. */
  lemma AnswerIsSound(asked: seq<Store>, history: seq<Store>, generation: nat, s: Submission, grant: Grant)
    requires ShowsAnswer(asked, history, generation, s, grant)
    ensures |asked| - 1 <= generation
    ensures || (Recorded(asked, grant) && s.oracle == Repeats(grant)
                && grant.issuer == s.candidate.issuer && grant.profile == s.candidate.profile)
            || (grant == s.candidate && |asked| <= generation && |asked| < |history| && grant in history[|asked|].grants
                && Permits(Newest(asked), s.q) && grant.policyVersion == Newest(asked).policy.version
                && !IdUsed(asked, grant.id))
  {
    var answer := StoreIssue(asked, s.q, s.candidate, s.now, s.oracle);
    if answer.verdict.Applied? {
      IssuedIsPermitted(asked, s.q, s.candidate, s.now, s.oracle);
      assert Grown(asked, answer.next)[|asked|] == answer.next.value;
    }
  }

  lemma RetirementIsSound(asked: seq<Store>, grown: seq<Store>, id: nat, now: nat, known: bool, oracle: Oracle)
    requires asked != [] && grown == Grown(asked, StoreRetire(asked, id, now, known, oracle).next)
    ensures StoreRetire(asked, id, now, known, oracle).verdict.Applied? ==>
              && HoldsLive(Newest(asked), id, now) && |grown| == |asked| + 1
              && !HoldsId(grown[|asked|], id)
    ensures var v := StoreRetire(asked, id, now, known, oracle).verdict;
            (v.Unchanged? || v == Refused(StoreNotFound) ==> !HoldsLive(Newest(asked), id, now))
            && (v == Refused(StoreNotFound) ==> !known)
  {
  }

  /** The projection, unfailed, grants the request under the expected policy. */
  predicate Grants(p: Projection, q: Request, expected: Option<nat>) {
    var c := IssuanceContext(p, q);
    c.Ok? && (expected.Some? ==> c.value.policyVersion == expected.value)
  }

  /** Every submission is for this request, under the identifier and the policy version the
      caller fixed, if it did. */
  predicate ForRequest(subs: seq<Submission>, q: Request, fixed: Option<nat>, expected: Option<nat>) {
    forall i :: 0 <= i < |subs| ==>
      && subs[i].q == q
      && (fixed.Some? ==> subs[i].candidate.id == fixed.value)
      && (expected.Some? ==> subs[i].candidate.policyVersion == expected.value)
  }

  /** The operation's own refresh has not moved. */
  predicate SameTask(before: map<nat, Task>, after: map<nat, Task>, me: nat) {
    (me in after <==> me in before) && (me in after ==> after[me] == before[me])
  }

  /** Where a refresh goes by its own step. */
  function NextTask(history: seq<Store>, c: Cache, t: Task, a: Action): Task
    requires history != []
  {
    match a
    case Load(_) => LoadTask(history, t)
    case LoadFails(_, _) => if t.Waiting? then Finished(t.highWater, false) else t
    case WorkerLost(_) => if t.Waiting? then Finished(t.highWater, false) else t
    case Deadline(_) => if t.Waiting? || t.Loaded? then Abandoned(t.highWater) else t
    case GiveUp(_, _) => if t.Abandoned? then Finished(t.highWater, false) else t
    case Publish(_, valid) => if t.Loaded? then PublishedTask(c, t.highWater, t.generation, valid) else t
    case Send(_) => if t.MustSend? then Finished(t.highWater, true) else t
    case _ => t
  }

  lemma NextTaskIs(s: State, i: nat, a: Action)
    requires s.history != [] && i in s.tasks && OnTask(a) && a.task == i
    ensures i in Apply(s, a).tasks && Apply(s, a).tasks[i] == NextTask(s.history, s.cache, s.tasks[i], a)
  {
  }

  class LiveAuthorizationRuntime {
    const me: nat
    const world: nat -> seq<Action>
    ghost const start: State

    var history: seq<Store>
    var clock: nat
    var projection: Projection
    var registry: Registry
    var version: nat
    var tasks: map<nat, Task>
    var waiters: map<nat, Waiter>
    var awaits: nat
    ghost var trace: seq<Event>

    ghost function View(): State
      reads this
    {
      State(history, clock, Cache(projection, registry, version), tasks, waiters)
    }

    /** The object is in the state its trace leads to; the trace is honest, the store has
        committed whatever it answered, and the other participants' actions in it are
        exactly those of the awaits so far. */
    ghost predicate Live()
      reads this
    {
      && Sound(start, View(), trace, me)
      && TheirsOf(trace) == Awaited(world, awaits)
      && WorldOk(world, me)
    }

    /** Time only moves forward: the trace is extended, history, clock and projection
        generation do not go back. */
    twostate predicate Forward()
      reads this
    {
      && old(trace) <= trace
      && old(history) <= history
      && old(clock) <= clock
      && old(projection.generation) <= projection.generation
    }

    /** Nothing was put to the store, and no generation was committed by this operation. */
    twostate predicate Quiet()
      reads this
    {
      && Submitted(trace) == old(Submitted(trace)) && OwnCommits(trace) == old(OwnCommits(trace))
      && LastRead(trace) == old(LastRead(trace))
    }

    constructor (history: seq<Store>, now: nat, me: nat, world: nat -> seq<Action>)
      requires history != [] && WorldOk(world, me)
      ensures View() == Opened(history, now) && Live() && trace == []
    {
      var store := history[|history| - 1];
      this.me, this.world, awaits := me, world, 0;
      this.history, clock, version, tasks, waiters := history, now, 0, map[], map[];
      registry := Registry(store.issuers, Unexpired(store.grants, now));
      projection := Projection(|history| - 1, store.policy, store.issuers, store.suspended, None);
      start, trace := Opened(history, now), [];
    }

    method FailClosedLocked(error: Failure)
      modifies this`projection, this`version
      ensures Cache(projection, registry, version) == FailClosedStep(old(Cache(projection, registry, version)), error)
    {
      if projection.failure == Some(error) {
        return;
      }
      projection := projection.(failure := Some(error));
      version := version + 1;
    }

    /** The write-locked part of publish; true when a status send must follow. */
    method PublishLocked(generation: nat, snapshot: Store, valid: bool) returns (ok: bool, send: bool)
      modifies this`projection, this`registry, this`version
      ensures Cache(projection, registry, version)
                == PublishStep(old(Cache(projection, registry, version)), generation, snapshot, valid)
      ensures ok <==> generation < old(projection.generation) || valid
      ensures send <==> generation >= old(projection.generation) && valid
    {
      if generation < projection.generation {
        return true, false;
      }
      if !valid {
        FailClosedLocked(InvalidProjection);
        return false, false;
      }
      registry := Registry(snapshot.issuers, snapshot.grants);
      projection := Projection(generation, snapshot.policy, snapshot.issuers, snapshot.suspended, None);
      return true, true;
    }

    method PerformOnTask(i: nat, a: Action)
      requires history != [] && i in tasks
      modifies this`history, this`clock, this`projection, this`registry, this`version, this`tasks, this`waiters
      ensures View() == TaskStep(old(View()), i, a)
    {
      var t := tasks[i];
      match a
      case Load(_) => tasks := tasks[i := LoadTask(history, t)];
      case LoadFails(_, error) =>
        if t.Waiting? {
          FailClosedLocked(error);
          tasks := tasks[i := Finished(t.highWater, false)];
        }
      case WorkerLost(_) =>
        if t.Waiting? {
          tasks := tasks[i := Finished(t.highWater, false)];
        }
      case Deadline(_) =>
        if t.Waiting? || t.Loaded? {
          FailClosedLocked(ObservationDeadlineExceeded);
          tasks := tasks[i := Abandoned(t.highWater)];
        }
      case GiveUp(_, workerLost) =>
        if t.Abandoned? {
          if workerLost {
            FailClosedLocked(BlockingOperationFailed);
          }
          tasks := tasks[i := Finished(t.highWater, false)];
        }
      case Publish(_, valid) =>
        if t.Loaded? {
          var ok, send := PublishLocked(t.generation, t.snapshot, valid);
          tasks := tasks[i := if send then MustSend(t.highWater) else Finished(t.highWater, ok)];
        }
      case Send(_) =>
        if t.MustSend? {
          version := version + 1;
          tasks := tasks[i := Finished(t.highWater, true)];
        }
      case _ =>
    }

    method Perform(a: Action)
      requires history != []
      modifies this`history, this`clock, this`projection, this`registry, this`version, this`tasks, this`waiters
      ensures View() == Apply(old(View()), a)
    {
      match a
      case Commit(store) => history := history + [store];
      case Tick(now) =>
        if now >= clock {
          clock := now;
        }
      case Begin(i, highWater, asOf) =>
        if !Busy(tasks, i) && highWater < |history| && asOf <= clock {
          tasks := tasks[i := Waiting(highWater, asOf)];
        }
      case FailClosed(error) => FailClosedLocked(error);
      case Purge => registry := registry.(grants := Unexpired(registry.grants, clock));
      case Subscribe(i, grant) =>
        if i !in waiters {
          waiters := waiters[i := Checking(grant, version)];
        }
      case Check(i) =>
        if i in waiters {
          waiters := waiters[i := CheckStep(Cache(projection, registry, version), waiters[i], clock)];
        }
      case Changed(i) =>
        if i in waiters {
          waiters := waiters[i := ChangedStep(version, waiters[i])];
        }
      case _ =>
        if a.task in tasks {
          PerformOnTask(a.task, a);
        }
    }

    /** A context that was read is noted in the trace. */
    ghost method NoteRead(q: Request, context: Context)
      requires Live() && IssuanceContext(projection, q) == Ok(context)
      modifies this`trace
      ensures Live() && trace == old(trace) + [Read(q, context)] && LastRead(trace) == Some(Read(q, context))
      ensures Submitted(trace) == old(Submitted(trace)) && OwnCommits(trace) == old(OwnCommits(trace))
    {
      Extend(start, trace, Read(q, context), me);
      trace := trace + [Read(q, context)];
    }

    /** One action of everybody else. */
    method Watch(a: Action)
      requires Sound(start, View(), trace, me) && !TaskOf(a, me)
      modifies this
      ensures Sound(start, View(), trace, me) && TheirsOf(trace) == old(TheirsOf(trace)) + [a]
      ensures Forward() && Quiet() && awaits == old(awaits) && SameTask(old(tasks), tasks, me)
    {
      ghost var before := View();
      Extend(start, trace, Theirs(a), me);
      Perform(a);
      trace := trace + [Theirs(a)];
      StepAdvances(before, a);
      ForeignLeavesTask(before, a, me);
    }

    /** Everybody else takes these actions. */
    method WatchAll(actions: seq<Action>)
      requires Sound(start, View(), trace, me) && forall i :: 0 <= i < |actions| ==> !TaskOf(actions[i], me)
      modifies this
      ensures Sound(start, View(), trace, me) && TheirsOf(trace) == old(TheirsOf(trace)) + actions
      ensures Forward() && Quiet() && awaits == old(awaits) && SameTask(old(tasks), tasks, me)
    {
      if actions != [] {
        ghost var before := TheirsOf(trace);
        Watch(actions[0]);
        WatchAll(actions[1..]);
        assert before + [actions[0]] + actions[1..] == before + actions;
      }
    }

    /** An await: everybody else runs for a while. */
    method Await()
      requires Live()
      modifies this
      ensures Live() && Forward() && Quiet() && SameTask(old(tasks), tasks, me)
    {
      WatchAll(world(awaits));
      awaits := awaits + 1;
    }

    /** One step of the operation itself that commits nothing. */
    method Do(a: Action)
      requires Live() && !a.Commit? && (TaskOf(a, me) || a.FailClosed?)
      modifies this
      ensures Live() && Forward() && Quiet() && View() == Apply(old(View()), a)
    {
      ghost var before := View();
      Extend(start, trace, Mine(a), me);
      Perform(a);
      trace := trace + [Mine(a)];
      StepAdvances(before, a);
    }

    /** One step of the operation's own refresh. */
    method Step(a: Action)
      requires Live() && me in tasks && OnTask(a) && a.task == me
      modifies this
      ensures Live() && Forward() && Quiet() && me in tasks
      ensures tasks[me] == NextTask(old(history), old(Cache(projection, registry, version)), old(tasks)[me], a)
    {
      NextTaskIs(View(), me, a);
      Do(a);
    }

    /** The load misses its deadline: the cache fails closed at once, everybody else runs while
        the worker gets its second chance, and the refresh fails either way. */
    method MissDeadline(workerLost: bool)
      requires Live() && me in tasks && tasks[me].Waiting?
      modifies this
      ensures Live() && Forward() && Quiet() && me in tasks && tasks[me].Finished?
    {
      Step(Deadline(me));
      assert tasks[me].Abandoned?;
      Await();
      Step(GiveUp(me, workerLost));
    }

    /** The unsuccessful endings of a load. */
    method FailLoad(ending: LoadEnding)
      requires Live() && me in tasks && tasks[me].Waiting? && !ending.Loads?
      modifies this
      ensures Live() && Forward() && Quiet() && me in tasks && tasks[me].Finished?
    {
      match ending
      case LoadError(error) => Step(LoadFails(me, error));
      case Panics => Step(WorkerLost(me));
      case Late(workerLost) => MissDeadline(workerLost);
      case Loads =>
    }

    /** publish, with the unlock-to-send gap open to everybody else. */
    method PublishLoaded(valid: bool)
      requires Live() && me in tasks && tasks[me].Loaded?
      modifies this
      ensures Live() && Forward() && Quiet() && me in tasks && tasks[me].Finished?
      ensures tasks[me].highWater == old(tasks[me].highWater)
    {
      Step(Publish(me, valid));
      Await();
      if tasks[me].MustSend? {
        Step(Send(me));
      }
    }

    method BeginRefresh(highWater: nat, asOf: nat)
      requires Live() && !Busy(tasks, me) && highWater < |history|
      modifies this
      ensures Live() && Forward() && Quiet()
      ensures me in tasks && tasks[me].Waiting? && tasks[me].highWater == highWater
    {
      Do(Begin(me, highWater, if asOf <= clock then asOf else clock));
    }

    /** The successful ending: the snapshot is read, then published unless it is already old. */
    method LoadAndPublish(valid: bool) returns (ok: bool)
      requires Live() && me in tasks && tasks[me].Waiting?
      modifies this
      ensures Live() && Forward() && Quiet() && me in tasks && tasks[me].Finished?
      ensures ok ==> old(tasks[me].highWater) <= projection.generation
    {
      Step(Load(me));
      Await();
      if tasks[me].Loaded? {
        PublishLoaded(valid);
      }
      ok := tasks[me].ok;
      if ok {
        SoundKeepsInv(start, View(), trace, me);
        FinishedTaskReached(View(), me);
      }
    }

    /** refresh_locked: Ok means the projection has reached the caller's generation. */
    method RefreshLocked(highWater: nat, w: Weather) returns (ok: bool)
      requires Live() && !Busy(tasks, me) && highWater < |history|
      modifies this
      ensures Live() && Forward() && Quiet() && !Busy(tasks, me)
      ensures ok ==> highWater <= projection.generation
    {
      BeginRefresh(highWater, w.asOf);
      Await();
      if !w.ending.Loads? {
        FailLoad(w.ending);
        return false;
      }
      ok := LoadAndPublish(w.valid);
    }

    /** map_mutation_error: a broken store fails the cache closed. */
    method MapMutationError(e: StoreError) returns (code: ErrorCode)
      requires Live()
      modifies this
      ensures Live() && Forward() && Quiet() && tasks == old(tasks)
      ensures code == MapStoreError(e)
      ensures e.StoreBroken? ==> projection.failure == Some(StoreFailure(e.code))
      ensures !e.StoreBroken? ==> View() == old(View()) && trace == old(trace)
    {
      if e.StoreBroken? {
        Do(FailClosed(StoreFailure(e.code)));
      }
      code := MapStoreError(e);
    }

    /** One transaction of the store: it answers from its newest generation and commits its
        answer. `ask` is what is asked. */
    method AskStore(ask: Event) returns (verdict: Verdict, generation: nat)
      requires Live() && (ask.Put? || ask.Retire?) && (ask.Put? ==> BuiltFrom(ask.submission, LastRead(trace)))
      modifies this
      ensures Live() && Forward() && tasks == old(tasks) && projection == old(projection) && clock == old(clock)
      ensures Submitted(trace) == if ask.Put? then old(Submitted(trace)) + [ask.submission] else old(Submitted(trace))
      ensures LastRead(trace) == old(LastRead(trace))
      ensures verdict == AnswerTo(old(history), ask).verdict
      ensures history == Grown(old(history), AnswerTo(old(history), ask).next)
      ensures OwnCommits(trace) == old(OwnCommits(trace)) + |history| - |old(history)|
      ensures generation == |history| - 1
    {
      ghost var before := View();
      var answer := AnswerTo(history, ask);
      verdict := answer.verdict;
      Extend(start, trace, ask, me);
      trace := trace + [ask];
      if answer.next.Some? {
        CommitOwed(answer.next.value);
      }
      generation := |history| - 1;
    }

    /** The store commits what it has answered. */
    method CommitOwed(next: Store)
      requires Inv(start) && View() == After(start, trace) && Honest(start, trace, me)
      requires Owed(history, trace) == Some(next)
      modifies this`history, this`trace
      ensures Sound(start, View(), trace, me) && history == old(history) + [next]
      ensures old(trace) <= trace && Submitted(trace) == old(Submitted(trace))
      ensures LastRead(trace) == old(LastRead(trace)) && TheirsOf(trace) == old(TheirsOf(trace))
      ensures OwnCommits(trace) == old(OwnCommits(trace)) + 1
    {
      Extend(start, trace, Mine(Commit(next)), me);
      history := history + [next];
      trace := trace + [Mine(Commit(next))];
    }

    /** issuance_context, and the caller's expectation of the policy version. */
    method ReadContext(q: Request, expected: Option<nat>) returns (r: Result<Context, ErrorCode>)
      requires Live()
      modifies this`trace
      ensures Live() && Forward()
      ensures Submitted(trace) == old(Submitted(trace)) && OwnCommits(trace) == old(OwnCommits(trace))
      ensures r.Ok? ==>
                && projection.failure.None? && r.value.generation == projection.generation < |history|
                && LastRead(trace) == Some(Read(q, r.value))
                && (expected.Some? ==> r.value.policyVersion == expected.value)
      ensures r.Ok? <==> Grants(projection, q, expected)
      ensures IssuanceContext(projection, q).Err? ==> r == IssuanceContext(projection, q) && trace == old(trace)
    {
      r := IssuanceContext(projection, q);
      if r.Ok? {
        SoundKeepsInv(start, View(), trace, me);
        NoteRead(q, r.value);
        if expected.Some? && expected.value != r.value.policyVersion {
          r := Err(Conflict);
        }
      }
    }

    /** A refresh after the store's answer, up to the point where the loop retries or returns. */
    method Settle(verdict: Verdict, candidate: Grant, answered: nat, context: Context, w: Weather)
      returns (done: bool, r: Result<Grant, ErrorCode>)
      requires Live() && !Busy(tasks, me) && context.generation < |history| && answered < |history|
      modifies this
      ensures Live() && Forward() && Quiet() && !Busy(tasks, me)
      ensures !done ==> verdict == Refused(StoreConflict) && context.generation <= projection.generation
      ensures done && r.Ok? ==>
                && answered <= projection.generation
                && ((verdict.Applied? && r.value == candidate) || verdict == Replayed(r.value))
    {
      done, r := true, Err(Internal);
      match verdict
      case Applied =>
        var ok := RefreshLocked(answered, w);
        r := if ok then Ok(candidate) else Err(Internal);
      case Replayed(existing) =>
        var ok := RefreshLocked(answered, w);
        r := if ok then Ok(existing) else Err(Internal);
      case Unchanged =>
      case Refused(e) =>
        if e == StoreConflict || RefreshesAfter(e) {
          var ok := RefreshLocked(context.generation, w);
          if !ok {
            return;
          }
        }
        if e == StoreConflict {
          done := false;
        } else {
          var code := MapMutationError(e);
          r := Err(code);
        }
      case Died => Do(FailClosed(BlockingOperationFailed));
    }

    /** Submits a candidate and settles the answer; `asked` is the store's history when it was
        asked. */
    method SubmitOne(s: Submission, w: Weather)
      returns (done: bool, r: Result<Grant, ErrorCode>, ghost asked: seq<Store>)
      requires Live() && !Busy(tasks, me) && s.context.generation < |history| && BuiltFrom(s, LastRead(trace))
      modifies this
      ensures Live() && Forward() && !Busy(tasks, me)
      ensures Submitted(trace) == old(Submitted(trace)) + [s]
      ensures !done ==> s.context.generation <= projection.generation
      ensures done && r.Ok? ==> old(history) <= asked && ShowsAnswer(asked, history, projection.generation, s, r.value)
    {
      Await();
      asked := history;
      var verdict, generation := AskStore(Put(s));
      ghost var grown := history;
      done, r := Settle(verdict, s.candidate, generation, s.context, w);
      assert grown == Grown(asked, AnswerTo(asked, Put(s)).next);
    }

    /** The last context read is for `q`, of a stored generation, with the expected policy. */
    ghost predicate Usable(q: Request, expected: Option<nat>, context: Context)
      reads this
    {
      && LastRead(trace) == Some(Read(q, context)) && context.generation < |history|
      && (expected.Some? ==> context.policyVersion == expected.value)
    }

    /** One turn of the retry loop: on a conflict the context for the next turn is read. */
    method TryOnce(s: Submission, expected: Option<nat>, w: Weather)
      returns (done: bool, r: Result<Grant, ErrorCode>, next: Context, ghost asked: seq<Store>)
      requires Live() && !Busy(tasks, me) && s.context.generation < |history| && BuiltFrom(s, LastRead(trace))
      modifies this
      ensures Live() && Forward() && !Busy(tasks, me)
      ensures Submitted(trace) == old(Submitted(trace)) + [s]
      ensures !done ==> Usable(s.q, expected, next)
      ensures done && r.Ok? ==> old(history) <= asked && ShowsAnswer(asked, history, projection.generation, s, r.value)
    {
      next := s.context;
      done, r, asked := SubmitOne(s, w);
      if !done {
        var again := ReadContext(s.q, expected);
        if again.Err? {
          done, r := true, Err(again.error);
        } else {
          next := again.value;
        }
      }
    }

    /** The retry loop. */
    method Attempts(
      q: Request, fixed: Option<nat>, expected: Option<nat>, expires: nat, now: nat, rounds: seq<Round>, first: Context)
      returns (r: Result<Grant, ErrorCode>, ghost subs: seq<Submission>, ghost asked: seq<Store>)
      requires Live() && !Busy(tasks, me) && Usable(q, expected, first)
      modifies this
      ensures Live() && Forward()
      ensures Submitted(trace) == old(Submitted(trace)) + subs
      ensures |subs| <= |rounds| && (rounds != [] ==> subs != []) && ForRequest(subs, q, fixed, expected)
      ensures r.Ok? ==>
                && subs != [] && old(history) <= asked
                && ShowsAnswer(asked, history, projection.generation, subs[|subs| - 1], r.value)
    {
      subs, asked := [], history;
      var context := first;
      ghost var before := Submitted(trace);
      for n := 0 to |rounds|
        invariant Live() && Forward() && !Busy(tasks, me) && Usable(q, expected, context)
        invariant |subs| == n && Submitted(trace) == before + subs && ForRequest(subs, q, fixed, expected)
      {
        var id := if fixed.Some? then fixed.value else rounds[n].id;
        var candidate := Grant(id, q.key, q.profile, context.policyVersion, expires);
        var s := Submission(q, candidate, context, now, rounds[n].oracle);
        var done;
        done, r, context, asked := TryOnce(s, expected, rounds[n].weather);
        assert before + subs + [s] == before + (subs + [s]);
        subs := subs + [s];
        if done {
          return r, subs, asked;
        }
      }
      r := Err(Conflict);
    }

    /** issue_grant_locked. A candidate is submitted if and only if the unfailed projection grants
        the request at entry; at most four are, all for this request and each admissible where
        it was built; and Ok is the store's answer to the last of them, given during the call
        and shown by the projection. */
    method IssueGrantLocked(
      q: Request, fixed: Option<nat>, expected: Option<nat>, expires: nat, now: nat, rounds: seq<Round>)
      returns (r: Result<Grant, ErrorCode>, ghost subs: seq<Submission>, ghost asked: seq<Store>)
      requires Live() && !Busy(tasks, me) && |rounds| == GRANT_IDENTIFIER_ATTEMPTS
      modifies this
      ensures Live() && Forward()
      ensures Submitted(trace) == old(Submitted(trace)) + subs
      ensures |subs| <= (if fixed.Some? then 1 else GRANT_IDENTIFIER_ATTEMPTS) && ForRequest(subs, q, fixed, expected)
      ensures AllOk(history, Submitted(trace)) && Ordered(Submitted(trace))
      ensures subs != [] <==> Grants(old(projection), q, expected)
      ensures IssuanceContext(old(projection), q).Err? ==>
                r == Err(IssuanceContext(old(projection), q).error) && trace == old(trace)
      ensures r.Ok? ==>
                && subs != [] && old(history) <= asked
                && ShowsAnswer(asked, history, projection.generation, subs[|subs| - 1], r.value)
    {
      subs, asked := [], history;
      var first := ReadContext(q, expected);
      if first.Err? {
        SubmissionsAdmissible(start, trace, me);
        return Err(first.error), subs, asked;
      }
      var attempts := if fixed.Some? then 1 else GRANT_IDENTIFIER_ATTEMPTS;
      r, subs, asked := Attempts(q, fixed, expected, expires, now, rounds[..attempts], first.value);
      SubmissionsAdmissible(start, trace, me);
    }

    /** retire_grant. Ok(true): the store held the grant live when it was asked, during this call,
        committed a generation without that identifier, and the projection has reached it.
        Ok(false): it did not hold it live when it was asked; and if it still had a record of
        it, the projection has reached what was newest by then. */
    method RetireGrant(id: nat, now: nat, known: bool, oracle: Oracle, w: Weather)
      returns (r: Result<bool, ErrorCode>, ghost asked: seq<Store>)
      requires Live() && !Busy(tasks, me)
      modifies this
      ensures Live() && Forward() && Submitted(trace) == old(Submitted(trace))
      ensures r.Ok? ==> old(history) <= asked <= history && asked != []
      ensures r == Ok(true) ==>
                && HoldsLive(Newest(asked), id, now) && |asked| <= projection.generation < |history|
                && !HoldsId(history[|asked|], id)
      ensures r == Ok(false) ==>
                !HoldsLive(Newest(asked), id, now) && (known ==> |asked| - 1 <= projection.generation)
    {
      Await();
      asked := history;
      var verdict, generation := AskStore(Retire(id, now, known, oracle));
      ghost var grown := history;
      r := SettleRetirement(verdict, generation, w);
      if r.Ok? {
        RetirementIsSound(asked, grown, id, now, known, oracle);
      }
    }

    /** The refresh after the store's answer to a retirement. */
    method SettleRetirement(verdict: Verdict, generation: nat, w: Weather) returns (r: Result<bool, ErrorCode>)
      requires Live() && !Busy(tasks, me) && generation < |history|
      modifies this
      ensures Live() && Forward() && Quiet()
      ensures r == Ok(true) ==> verdict.Applied? && generation <= projection.generation < |history|
      ensures r == Ok(false) ==>
                (verdict.Unchanged? && generation <= projection.generation) || verdict == Refused(StoreNotFound)
    {
      r := Err(Internal);
      SoundKeepsInv(start, View(), trace, me);
      match verdict
      case Applied =>
        var ok := RefreshLocked(generation, w);
        SoundKeepsInv(start, View(), trace, me);
        r := if ok then Ok(true) else Err(Internal);
      case Unchanged =>
        var ok := RefreshLocked(generation, w);
        r := if ok then Ok(false) else Err(Internal);
      case Replayed(_) =>
      case Refused(e) =>
        if e != StoreNotFound {
          var code := MapMutationError(e);
          r := Err(code);
        } else if projection.failure.None? {
          var ok := RefreshLocked(projection.generation, w);
          r := if ok then Ok(false) else Err(Internal);
        }
      case Died => Do(FailClosed(BlockingOperationFailed));
    }
  }

  lemma ForeignLeavesTask(s: State, a: Action, me: nat)
    requires s.history != [] && !TaskOf(a, me)
    ensures var t := Apply(s, a);
            SameTask(s.tasks, t.tasks, me)
  {
  }
}

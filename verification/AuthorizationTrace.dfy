/** What one operation of the runtime really did: its own steps, what everybody else did at its
    awaits, the contexts it read and the requests it put to the store.

    A trace is honest if every entry is true of the state in which it was made, so a contract
    over an honest trace cannot be met by inventing entries. */
module AuthorizationTrace {
  import opened Wrappers
  import opened AuthorizationCache
  import opened Issuance

  datatype Submission = Submission(q: Request, candidate: Grant, context: Context, now: nat, oracle: Oracle)

  datatype Event =
    | Theirs(action: Action)
    | Mine(action: Action)
    | Read(q: Request, context: Context)   // issuance_context succeeded
    | Put(submission: Submission)          // a candidate is put to the store
    | Retire(id: nat, now: nat, known: bool, oracle: Oracle)

  // ------------------------------------------------------------------ what a trace says

  /** The state after the trace. */
  function After(start: State, trace: seq<Event>): (s: State)
    requires start.history != []
    ensures s.history != []
  {
    if trace == [] then start
    else
      var s, e := After(start, trace[..|trace| - 1]), trace[|trace| - 1];
      if e.Theirs? || e.Mine? then
        StepAdvances(s, e.action);
        Apply(s, e.action)
      else s
  }

  function Actions(trace: seq<Event>): seq<Action> {
    if trace == [] then []
    else
      var a, e := Actions(trace[..|trace| - 1]), trace[|trace| - 1];
      if e.Theirs? || e.Mine? then a + [e.action] else a
  }

  /** So every theorem about runs is one about traces. */
  lemma {:induction false} AfterIsRun(start: State, trace: seq<Event>)
    requires start.history != []
    ensures After(start, trace) == Run(start, Actions(trace))
  {
    if trace != [] {
      var n := |trace| - 1;
      AfterIsRun(start, trace[..n]);
      if trace[n].Theirs? || trace[n].Mine? {
        assert Actions(trace)[..|Actions(trace)| - 1] == Actions(trace[..n]);
      }
    }
  }

  function TheirsOf(trace: seq<Event>): seq<Action> {
    if trace == [] then []
    else
      var a, e := TheirsOf(trace[..|trace| - 1]), trace[|trace| - 1];
      if e.Theirs? then a + [e.action] else a
  }

  function Submitted(trace: seq<Event>): seq<Submission> {
    if trace == [] then []
    else
      var a, e := Submitted(trace[..|trace| - 1]), trace[|trace| - 1];
      if e.Put? then a + [e.submission] else a
  }

  /** How many generations this operation has committed itself. */
  function OwnCommits(trace: seq<Event>): nat {
    if trace == [] then 0
    else
      var e := trace[|trace| - 1];
      OwnCommits(trace[..|trace| - 1]) + (if e.Mine? && e.action.Commit? then 1 else 0)
  }

  function LastRead(trace: seq<Event>): Option<Event> {
    if trace == [] then None
    else if trace[|trace| - 1].Read? then Some(trace[|trace| - 1])
    else LastRead(trace[..|trace| - 1])
  }

  /** What everybody else does at the first `n` awaits. */
  function Awaited(world: nat -> seq<Action>, n: nat): seq<Action> {
    if n == 0 then [] else Awaited(world, n - 1) + world(n - 1)
  }

  // ------------------------------------------------------------------ honesty

  /** What the store answers to a request, from its history at that moment. */
  function AnswerTo(history: seq<Store>, e: Event): Answer
    requires history != [] && (e.Put? || e.Retire?)
  {
    if e.Put? then StoreIssue(history, e.submission.q, e.submission.candidate, e.submission.now, e.submission.oracle)
    else StoreRetire(history, e.id, e.now, e.known, e.oracle)
  }

  /** The generation the store still has to commit for the last request. */
  function Owed(history: seq<Store>, trace: seq<Event>): Option<Store>
    requires history != []
  {
    if trace == [] || !(trace[|trace| - 1].Put? || trace[|trace| - 1].Retire?) then None
    else AnswerTo(history, trace[|trace| - 1]).next
  }

  /** The candidate is made from the request and from the last context that was read for it. */
  predicate BuiltFrom(s: Submission, read: Option<Event>) {
    && read == Some(Read(s.q, s.context))
    && s.candidate.issuer == s.q.key && s.candidate.profile == s.q.profile
    && s.candidate.policyVersion == s.context.policyVersion
  }

  predicate TaskOf(a: Action, me: nat) {
    (OnTask(a) || a.Begin?) && a.task == me
  }

  /** `e` is true of the state `s` that `trace` has led to. */
  predicate EventOk(s: State, trace: seq<Event>, e: Event, me: nat)
    requires s.history != []
  {
    && (Owed(s.history, trace).Some? ==> e == Mine(Commit(Owed(s.history, trace).value)))
    && match e
       case Theirs(a) => !TaskOf(a, me)
       case Mine(a) =>
         if a.Commit? then Owed(s.history, trace) == Some(a.store) else TaskOf(a, me) || a.FailClosed?
       case Read(q, context) => IssuanceContext(s.cache.projection, q) == Ok(context)
       case Put(submission) => BuiltFrom(submission, LastRead(trace))
       case Retire(_, _, _, _) => true
  }

  predicate Honest(start: State, trace: seq<Event>, me: nat)
    requires start.history != []
  {
    trace == [] ||
    (Honest(start, trace[..|trace| - 1], me)
     && EventOk(After(start, trace[..|trace| - 1]), trace[..|trace| - 1], trace[|trace| - 1], me))
  }

  /** The store has committed whatever it answered. */
  predicate Complete(start: State, trace: seq<Event>)
    requires start.history != []
  {
    Owed(After(start, trace).history, trace).None?
  }

  // ------------------------------------------------------------------ one more entry

  lemma Extend(start: State, trace: seq<Event>, e: Event, me: nat)
    requires start.history != [] && Honest(start, trace, me) && EventOk(After(start, trace), trace, e, me)
    ensures Honest(start, trace + [e], me)
    ensures var s := After(start, trace);
            After(start, trace + [e]) == if e.Theirs? || e.Mine? then Apply(s, e.action) else s
    ensures TheirsOf(trace + [e]) == if e.Theirs? then TheirsOf(trace) + [e.action] else TheirsOf(trace)
    ensures Submitted(trace + [e]) == if e.Put? then Submitted(trace) + [e.submission] else Submitted(trace)
    ensures OwnCommits(trace + [e]) == OwnCommits(trace) + (if e.Mine? && e.action.Commit? then 1 else 0)
    ensures LastRead(trace + [e]) == if e.Read? then Some(e) else LastRead(trace)
  {
    assert (trace + [e])[..|trace|] == trace;
  }

  // ------------------------------------------------------------------ what honesty implies

  /** The generation the context names permits the request under that policy. */
  ghost predicate ContextOk(history: seq<Store>, q: Request, c: Context) {
    && c.generation < |history| && Permits(history[c.generation], q)
    && c.policyVersion == history[c.generation].policy.version
  }

  ghost predicate Ordered(subs: seq<Submission>) {
    forall i, j :: 0 <= i < j < |subs| ==> subs[i].context.generation <= subs[j].context.generation
  }

  ghost predicate AllOk(history: seq<Store>, subs: seq<Submission>) {
    forall i :: 0 <= i < |subs| ==>
      && ContextOk(history, subs[i].q, subs[i].context)
      && subs[i].candidate.issuer == subs[i].q.key && subs[i].candidate.profile == subs[i].q.profile
      && subs[i].candidate.policyVersion == subs[i].context.policyVersion
  }

  ghost predicate UpTo(subs: seq<Submission>, generation: nat) {
    forall i :: 0 <= i < |subs| ==> subs[i].context.generation <= generation
  }

  /** What was read last is admissible, not ahead of the projection, and not behind anything
      that was submitted. */
  ghost predicate ReadOk(history: seq<Store>, generation: nat, subs: seq<Submission>, read: Option<Event>) {
    if read.None? then subs == []
    else
      && read.value.Read? && ContextOk(history, read.value.q, read.value.context)
      && read.value.context.generation <= generation
      && UpTo(subs, read.value.context.generation)
  }

  ghost predicate Admissible(history: seq<Store>, generation: nat, subs: seq<Submission>, read: Option<Event>) {
    AllOk(history, subs) && Ordered(subs) && ReadOk(history, generation, subs, read)
  }

  /** The store and the projection only move forward. */
  lemma ForwardKeepsAdmissible(
    history: seq<Store>, generation: nat, longer: seq<Store>, later: nat, subs: seq<Submission>, read: Option<Event>)
    requires Admissible(history, generation, subs, read) && history <= longer && generation <= later
    ensures Admissible(longer, later, subs, read)
  {
  }

  lemma ReadKeepsAdmissible(
    history: seq<Store>, clock: nat, c: Cache, subs: seq<Submission>, read: Option<Event>, q: Request, context: Context)
    requires Coherent(history, clock, c) && Admissible(history, c.projection.generation, subs, read)
    requires IssuanceContext(c.projection, q) == Ok(context)
    ensures Admissible(history, c.projection.generation, subs, Some(Read(q, context)))
  {
    ContextIsThePermit(history, clock, c, q);
  }

  lemma PutKeepsAdmissible(
    history: seq<Store>, generation: nat, subs: seq<Submission>, read: Option<Event>, submission: Submission)
    requires Admissible(history, generation, subs, read) && BuiltFrom(submission, read)
    ensures Admissible(history, generation, subs + [submission], read)
  {
  }

  lemma {:induction false} HonestIsAdmissible(start: State, trace: seq<Event>, me: nat)
    requires Inv(start) && Honest(start, trace, me)
    ensures Inv(After(start, trace))
    ensures var s := After(start, trace);
            Admissible(s.history, s.cache.projection.generation, Submitted(trace), LastRead(trace))
  {
    if trace != [] {
      var n := |trace| - 1;
      var before, e := trace[..n], trace[n];
      var s, subs, read := After(start, before), Submitted(before), LastRead(before);
      HonestIsAdmissible(start, before, me);
      match e
      case Read(q, context) => ReadKeepsAdmissible(s.history, s.clock, s.cache, subs, read, q, context);
      case Put(sub) => PutKeepsAdmissible(s.history, s.cache.projection.generation, subs, read, sub);
      case Retire(_, _, _, _) =>
      case _ =>
        ApplyKeepsInv(s, e.action);
        StepAdvances(s, e.action);
        var t := Apply(s, e.action);
        ForwardKeepsAdmissible(
          s.history, s.cache.projection.generation, t.history, t.cache.projection.generation, subs, read);
    }
  }

  /** Every candidate ever put to the store was built from a context that an unfailed projection
      granted, is permitted by that context's generation under its policy, and the generations
      never go back from one candidate to the next. */
  lemma SubmissionsAdmissible(start: State, trace: seq<Event>, me: nat)
    requires Inv(start) && Honest(start, trace, me)
    ensures AllOk(After(start, trace).history, Submitted(trace)) && Ordered(Submitted(trace))
  {
    HonestIsAdmissible(start, trace, me);
  }
}

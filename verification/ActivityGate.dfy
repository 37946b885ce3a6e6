/** The admission gate and the guards that worker closures keep alive after their requester
    is cancelled.

    An admission and a submission guard are reference counted. The model records, for each
    live reference, which guard it refers to; a guard is dropped with its last reference.
    A requester that is cancelled or returns drops its own and its host's references only; a
    closure drops its references when its callback is over. */
module ActivityGate {
  import opened Wrappers

  datatype Gate = Gate(closing: bool, inFlight: nat)
  datatype Holder = Requester(r: nat) | Host(h: nat) | Worker(w: nat)

  /** Which guard each live reference refers to. */
  type Refs = map<Holder, nat>

  /** Closures handed to the workers. A policy transition is mapped to the requester that
      would get the policy guard back. */
  type Closures = map<nat, Option<nat>>

  datatype State = State(
    gate: Gate,
    admissions: Refs,
    submissions: Refs,          // guards of the one submission mutex
    policy: Option<Holder>,     // who owns the guard of the policy mutex
    requesters: set<nat>,
    arrivals: nat,              // requesters below this have arrived; ids are not reused
    closures: Closures,
    running: set<nat>,          // closures whose callback has been spawned
    workersClosing: bool)

  datatype Action =
    | Arrive(requester: nat)
    | Admit(requester: nat, admission: nat)
    | Reuse(requester: nat, from: nat)          // with_admission: share an outer admission
    | LockSubmission(requester: nat, guard: nat)
    | MakeHost(requester: nat)
    | MoveToHost(requester: nat)                // the host is the only owner left
    | Submit(requester: nat, closure: nat)      // DaemonNativeHost::run
    | LockPolicy(requester: nat)
    | SubmitPolicy(requester: nat, closure: nat)
    | Spawn(closure: nat)
    | Discard(closure: nat)                     // refused or cancelled before it was spawned
    | Finish(closure: nat, accepted: bool)      // the callback returned Ok or Err
    | Leave(requester: nat)                     // returned or cancelled
    | TryBeginClosing
    | BeginClosing
    | ShutdownWorkers

  const WORKER_CAPACITY: nat := 32

  // ------------------------------------------------------------------ activity.rs

  function TryBegin(g: Gate): Gate {
    if g.closing then g else g.(inFlight := g.inFlight + 1)
  }

  function DropGuard(g: Gate): Gate {
    g.(inFlight := if g.inFlight == 0 then 0 else g.inFlight - 1)
  }

  function TryClose(g: Gate): Gate {
    if g.inFlight > 0 then g else g.(closing := true)
  }

  /** The gate object: every method is one atomic `send_if_modified`. */
  class ProfileActivity {
    var closing: bool
    var inFlight: nat

    function View(): Gate
      reads this
    {
      Gate(closing, inFlight)
    }

    constructor ()
      ensures View() == Gate(false, 0)
    {
      closing, inFlight := false, 0;
    }

    method Begin() returns (admitted: bool)
      modifies this
      ensures View() == TryBegin(old(View()))
      ensures admitted <==> !old(closing)
    {
      if closing {
        return false;
      }
      inFlight := inFlight + 1;
      admitted := true;
    }

    /** Either wins outright with nothing in flight, or changes nothing. */
    method TryBeginClosing() returns (closed: bool)
      modifies this
      ensures View() == TryClose(old(View()))
      ensures closed <==> old(inFlight) == 0
      ensures closed ==> closing
    {
      if inFlight > 0 {
        return false;
      }
      closing := true;
      closed := true;
    }

    method BeginClosing()
      modifies this
      ensures View() == old(View()).(closing := true)
    {
      closing := true;
    }

    method Release()
      modifies this
      ensures View() == DropGuard(old(View()))
    {
      if inFlight > 0 {
        inFlight := inFlight - 1;
      }
    }
  }

  // ------------------------------------------------------------------ references

  /** Holder `h` gets a clone of what `from` holds, if it holds anything. */
  function Share(m: Refs, from: Holder, h: Holder): Refs {
    if from in m then m[h := m[from]] else m
  }

  predicate LastRef(m: Refs, h: Holder) {
    h in m && m[h] !in (m - {h}).Values
  }

  lemma NewValues(m: Refs, h: Holder, k: nat)
    requires h !in m
    ensures m[h := k].Values == m.Values + {k}
  {
    var n := m[h := k];
    assert n[h] == k;
    assert forall h' :: h' in m ==> n[h'] == m[h'];
  }

  lemma SharedValues(m: Refs, from: Holder, h: Holder)
    requires h !in m
    ensures Share(m, from, h).Values == m.Values
  {
    if from in m {
      NewValues(m, h, m[from]);
    }
  }

  lemma LeftValues(m: Refs, h: Holder)
    ensures (m - {h}).Values == if LastRef(m, h) then m.Values - {m[h]} else m.Values
  {
    var n := m - {h};
    assert forall h' :: h' in n ==> n[h'] == m[h'];
    assert forall h' :: h' in m && h' != h ==> h' in n;
  }

  // ------------------------------------------------------------------ steps

  function DropAdmission(s: State, h: Holder): State {
    s.(admissions := s.admissions - {h},
       gate := if LastRef(s.admissions, h) then DropGuard(s.gate) else s.gate)
  }

  /** Reference `h` to either guard goes away. */
  function DropHolder(s: State, h: Holder): State {
    DropAdmission(s, h).(submissions := s.submissions - {h})
  }

  /** `h` gets clones of both guards of `from`. */
  function CloneHolder(s: State, from: Holder, h: Holder): State {
    s.(admissions := Share(s.admissions, from, h), submissions := Share(s.submissions, from, h))
  }

  /** A closure is gone: the policy guard goes to `heir` and its references are dropped. */
  function EndClosure(s: State, w: nat, heir: Option<Holder>): State
    requires w in s.closures
  {
    DropHolder(s, Worker(w)).(
      closures := s.closures - {w},
      running := s.running - {w},
      policy := if s.closures[w].Some? then heir else s.policy)
  }

  /** A transition that returned Ok hands the guard back to its requester, if there still
      is one; in every other case the guard is dropped with the closure or its result. */
  function Heir(s: State, w: nat, accepted: bool): Option<Holder>
    requires w in s.closures
  {
    var p := s.closures[w];
    if accepted && p.Some? && p.value in s.requesters then Some(Requester(p.value)) else None
  }

  function LeaveStep(s: State, r: nat): State {
    DropHolder(DropHolder(s, Host(r)), Requester(r)).(
      requesters := s.requesters - {r},
      policy := if s.policy == Some(Requester(r)) then None else s.policy)
  }

  /** An action that is not possible in `s` leaves it unchanged. */
  function Apply(s: State, a: Action): State {
    match a
    case Arrive(r) =>
      if r < s.arrivals then s else s.(requesters := s.requesters + {r}, arrivals := r + 1)
    case Admit(r, k) =>
      if r in s.requesters && Requester(r) !in s.admissions && k !in s.admissions.Values && !s.gate.closing then
        s.(gate := TryBegin(s.gate), admissions := s.admissions[Requester(r) := k])
      else s
    case Reuse(r, from) =>
      if r in s.requesters && Requester(r) !in s.admissions then
        s.(admissions := Share(s.admissions, Requester(from), Requester(r)))
      else s
    case LockSubmission(r, g) =>
      if r in s.requesters && s.submissions == map[] then s.(submissions := map[Requester(r) := g]) else s
    case MakeHost(r) =>
      if r in s.requesters && Requester(r) in s.admissions && Host(r) !in s.admissions + s.submissions then
        CloneHolder(s, Requester(r), Host(r))
      else s
    case MoveToHost(r) => if Host(r) in s.admissions then DropHolder(s, Requester(r)) else s
    case Submit(r, w) =>
      if Host(r) in s.admissions && w !in s.closures then
        CloneHolder(s, Host(r), Worker(w)).(closures := s.closures[w := None])
      else s
    case LockPolicy(r) =>
      if r in s.requesters && s.policy.None? then s.(policy := Some(Requester(r))) else s
    case SubmitPolicy(r, w) =>
      if s.policy == Some(Requester(r)) && w !in s.closures then
        s.(policy := Some(Worker(w)), closures := s.closures[w := Some(r)])
      else s
    case Spawn(w) =>
      if w in s.closures && !s.workersClosing
          && |s.running| < WORKER_CAPACITY then s.(running := s.running + {w}) else s
    case Discard(w) =>
      if w in s.closures && w !in s.running then EndClosure(s, w, None) else s
    case Finish(w, accepted) =>
      if w in s.closures && w in s.running then EndClosure(s, w, Heir(s, w, accepted)) else s
    case Leave(r) => if r in s.requesters then LeaveStep(s, r) else s
    case TryBeginClosing => s.(gate := TryClose(s.gate))
    case BeginClosing => s.(gate := s.gate.(closing := true))
    case ShutdownWorkers => s.(workersClosing := true)
  }

  function Run(s: State, actions: seq<Action>): State {
    if actions == [] then s else Apply(Run(s, actions[..|actions| - 1]), actions[|actions| - 1])
  }

  const INITIAL := State(Gate(false, 0), map[], map[], None, {}, 0, map[], {}, false)

  // ------------------------------------------------------------------ invariant

  predicate Alive(requesters: set<nat>, closures: Closures, h: Holder) {
    match h
    case Requester(r) => r in requesters
    case Host(r) => r in requesters
    case Worker(w) => w in closures
  }

  predicate AllAlive(m: Refs, requesters: set<nat>, closures: Closures) {
    forall h :: h in m ==> Alive(requesters, closures, h)
  }

  predicate OneGuard(m: Refs) {
    forall h, h' :: h in m && h' in m ==> m[h] == m[h']
  }

  predicate PolicyExact(policy: Option<Holder>, requesters: set<nat>, closures: Closures) {
    && (forall w :: w in closures && closures[w].Some? ==> policy == Some(Worker(w)))
    && (policy.Some? ==>
      match policy.value
      case Requester(r) => r in requesters
      case Host(_) => false
      case Worker(w) => w in closures && closures[w].Some?)
  }

  /** A callback is either a policy transition or holds an admission. */
  predicate Sourced(closures: Closures, admissions: Refs) {
    forall w :: w in closures ==> (closures[w].None? <==> Worker(w) in admissions)
  }

  predicate Counted(gate: Gate, admissions: Refs) {
    gate.inFlight == |admissions.Values|
  }

  predicate Capped(running: set<nat>, closures: Closures) {
    running <= closures.Keys && |running| <= WORKER_CAPACITY
  }

  predicate Inv(s: State) {
    && Counted(s.gate, s.admissions)
    && AllAlive(s.admissions, s.requesters, s.closures)
    && AllAlive(s.submissions, s.requesters, s.closures)
    && OneGuard(s.submissions)
    && PolicyExact(s.policy, s.requesters, s.closures)
    && Sourced(s.closures, s.admissions)
    && Capped(s.running, s.closures)
  }

  // ------------------------------------------------------------------ every step keeps it

  lemma DropAdmissionCounts(s: State, h: Holder)
    requires Counted(s.gate, s.admissions)
    ensures Counted(DropAdmission(s, h).gate, DropAdmission(s, h).admissions)
    ensures LastRef(s.admissions, h) ==> s.gate.inFlight > 0
  {
    LeftValues(s.admissions, h);
    if LastRef(s.admissions, h) {
      assert s.admissions[h] in s.admissions.Values;
    }
  }

  lemma AdmitKeepsInv(s: State, r: nat, k: nat)
    requires Inv(s)
    ensures Inv(Apply(s, Admit(r, k)))
  {
    if Requester(r) !in s.admissions {
      NewValues(s.admissions, Requester(r), k);
    }
  }

  lemma CloneKeepsInv(s: State, from: Holder, h: Holder)
    requires Inv(s) && h !in s.admissions && Alive(s.requesters, s.closures, h) && !h.Worker?
    ensures Inv(s.(admissions := Share(s.admissions, from, h)))
    ensures Inv(CloneHolder(s, from, h))
  {
    SharedValues(s.admissions, from, h);
  }

  lemma ShareKeepsInv(s: State, r: nat, from: nat)
    requires Inv(s)
    ensures Inv(Apply(s, Reuse(r, from)))
    ensures Inv(Apply(s, MakeHost(r)))
  {
    if r in s.requesters {
      if Requester(r) !in s.admissions {
        CloneKeepsInv(s, Requester(from), Requester(r));
      } else if Host(r) !in s.admissions {
        CloneKeepsInv(s, Requester(r), Host(r));
      }
    }
  }

  /** A new closure disturbs nobody who is alive. */
  lemma ClosureAdded(s: State, w: nat, c: Option<nat>)
    requires Inv(s) && w !in s.closures
    ensures AllAlive(s.admissions, s.requesters, s.closures[w := c])
    ensures AllAlive(s.submissions, s.requesters, s.closures[w := c])
    ensures Capped(s.running, s.closures[w := c])
    ensures c.None? ==> PolicyExact(s.policy, s.requesters, s.closures[w := c])
  {
  }

  lemma SubmitKeepsInv(s: State, r: nat, w: nat)
    requires Inv(s)
    ensures Inv(Apply(s, Submit(r, w)))
  {
    if w !in s.closures {
      assert !Alive(s.requesters, s.closures, Worker(w));
      SharedValues(s.admissions, Host(r), Worker(w));
      ClosureAdded(s, w, None);
      assert OneGuard(Share(s.submissions, Host(r), Worker(w)));
    }
  }

  lemma SubmitPolicyKeepsInv(s: State, r: nat, w: nat)
    requires Inv(s)
    ensures Inv(Apply(s, SubmitPolicy(r, w)))
  {
    if w !in s.closures {
      assert !Alive(s.requesters, s.closures, Worker(w));
    }
  }

  lemma EndAlive(m: Refs, requesters: set<nat>, closures: Closures, w: nat)
    requires AllAlive(m, requesters, closures)
    ensures AllAlive(m - {Worker(w)}, requesters, closures - {w})
  {
  }

  lemma EndSourced(closures: Closures, admissions: Refs, w: nat)
    requires Sourced(closures, admissions)
    ensures Sourced(closures - {w}, admissions - {Worker(w)})
  {
  }

  lemma EndPolicy(policy: Option<Holder>, requesters: set<nat>, closures: Closures, w: nat, heir: Option<Holder>)
    requires PolicyExact(policy, requesters, closures) && w in closures
    requires heir.Some? ==> heir.value.Requester? && heir.value.r in requesters
    ensures PolicyExact(if closures[w].Some? then heir else policy, requesters, closures - {w})
  {
  }

  lemma EndClosureKeepsInv(s: State, w: nat, heir: Option<Holder>)
    requires Inv(s) && w in s.closures
    requires heir.Some? ==> heir.value.Requester? && heir.value.r in s.requesters
    ensures Inv(EndClosure(s, w, heir))
  {
    var t := EndClosure(s, w, heir);
    assert Counted(t.gate, t.admissions) by { DropAdmissionCounts(s, Worker(w)); }
    EndAlive(s.admissions, s.requesters, s.closures, w);
    EndAlive(s.submissions, s.requesters, s.closures, w);
    assert OneGuard(t.submissions);
    EndPolicy(s.policy, s.requesters, s.closures, w, heir);
    EndSourced(s.closures, s.admissions, w);
    assert Capped(t.running, t.closures);
  }

  lemma MoveKeepsInv(s: State, r: nat)
    requires Inv(s)
    ensures Inv(DropHolder(s, Requester(r)))
    ensures Inv(DropHolder(s, Host(r)))
  {
    DropAdmissionCounts(s, Requester(r));
    DropAdmissionCounts(s, Host(r));
  }

  lemma GoneKeepsInv(s: State, r: nat)
    requires Inv(s) && Requester(r) !in s.admissions && Requester(r) !in s.submissions
    requires Host(r) !in s.admissions && Host(r) !in s.submissions
    ensures Inv(s.(requesters := s.requesters - {r}, policy := if s.policy == Some(Requester(r))
        then None else s.policy))
  {
  }

  lemma LeaveKeepsInv(s: State, r: nat)
    requires Inv(s)
    ensures Inv(LeaveStep(s, r))
  {
    var t := DropHolder(s, Host(r));
    assert Inv(t) by { MoveKeepsInv(s, r); }
    var u := DropHolder(t, Requester(r));
    assert Inv(u) by { MoveKeepsInv(t, r); }
    GoneKeepsInv(u, r);
  }

  lemma MoveToHostKeepsInv(s: State, r: nat)
    requires Inv(s)
    ensures Inv(Apply(s, MoveToHost(r)))
  {
    MoveKeepsInv(s, r);
  }

  lemma DepartKeepsInv(s: State, r: nat)
    requires Inv(s)
    ensures Inv(Apply(s, Leave(r)))
  {
    LeaveKeepsInv(s, r);
  }

  lemma ArriveKeepsInv(s: State, r: nat)
    requires Inv(s)
    ensures Inv(Apply(s, Arrive(r)))
  {
  }

  lemma LocksKeepInv(s: State, r: nat, g: nat)
    requires Inv(s)
    ensures Inv(Apply(s, LockSubmission(r, g)))
    ensures Inv(Apply(s, LockPolicy(r)))
  {
  }

  lemma SpawnKeepsInv(s: State, w: nat)
    requires Inv(s)
    ensures Inv(Apply(s, Spawn(w)))
  {
  }

  lemma ClosuresKeepInv(s: State, w: nat, accepted: bool)
    requires Inv(s)
    ensures Inv(Apply(s, Discard(w)))
    ensures Inv(Apply(s, Finish(w, accepted)))
  {
    if w in s.closures {
      EndClosureKeepsInv(s, w, None);
      EndClosureKeepsInv(s, w, Heir(s, w, accepted));
    }
  }

  lemma ClosingKeepsInv(s: State)
    requires Inv(s)
    ensures Inv(Apply(s, TryBeginClosing))
    ensures Inv(Apply(s, BeginClosing))
    ensures Inv(Apply(s, ShutdownWorkers))
  {
  }

  lemma ApplyKeepsInv(s: State, a: Action)
    requires Inv(s)
    ensures Inv(Apply(s, a))
  {
    match a
    case Arrive(r) => ArriveKeepsInv(s, r);
    case Admit(r, k) => AdmitKeepsInv(s, r, k);
    case Reuse(r, from) => ShareKeepsInv(s, r, from);
    case LockSubmission(r, g) => LocksKeepInv(s, r, g);
    case MakeHost(r) => ShareKeepsInv(s, r, r);
    case MoveToHost(r) => MoveToHostKeepsInv(s, r);
    case Submit(r, w) => SubmitKeepsInv(s, r, w);
    case LockPolicy(r) => LocksKeepInv(s, r, 0);
    case SubmitPolicy(r, w) => SubmitPolicyKeepsInv(s, r, w);
    case Spawn(w) => SpawnKeepsInv(s, w);
    case Discard(w) => ClosuresKeepInv(s, w, false);
    case Finish(w, accepted) => ClosuresKeepInv(s, w, accepted);
    case Leave(r) => DepartKeepsInv(s, r);
    case TryBeginClosing => ClosingKeepsInv(s);
    case BeginClosing => ClosingKeepsInv(s);
    case ShutdownWorkers => ClosingKeepsInv(s);
  }

  lemma {:induction false} RunKeepsInv(s: State, actions: seq<Action>)
    requires Inv(s)
    ensures Inv(Run(s, actions))
  {
    if actions != [] {
      RunKeepsInv(s, actions[..|actions| - 1]);
      ApplyKeepsInv(Run(s, actions[..|actions| - 1]), actions[|actions| - 1]);
    }
  }

  lemma Reached(actions: seq<Action>)
    ensures Inv(Run(INITIAL, actions))
  {
    RunKeepsInv(INITIAL, actions);
  }

  // ------------------------------------------------------------------ theorems

  lemma {:induction false} RunSplit(s: State, first: seq<Action>, later: seq<Action>)
    ensures Run(s, first + later) == Run(Run(s, first), later)
  {
    if later == [] {
      assert first + later == first;
    } else {
      var n := |later| - 1;
      assert (first + later)[..|first| + n] == first + later[..n];
      assert (first + later)[|first| + n] == later[n];
      RunSplit(s, first, later[..n]);
    }
  }

  /** The count is the number of admissions that some live requester, host or closure still
      refers to, so dropping a last reference never meets a zero count. */
  lemma InFlightCountsLiveAdmissions(actions: seq<Action>, h: Holder)
    ensures var s := Run(INITIAL, actions);
      && s.gate.inFlight == |s.admissions.Values|
      && (forall h :: h in s.admissions ==> Alive(s.requesters, s.closures, h))
      && (LastRef(s.admissions, h) ==> DropGuard(s.gate).inFlight + 1 == s.gate.inFlight)
  {
    Reached(actions);
    DropAdmissionCounts(Run(INITIAL, actions), h);
  }

  /** When every requester is gone and no closure is left, nothing is in flight. */
  lemma NothingLeaks(actions: seq<Action>)
    ensures var s := Run(INITIAL, actions); s.requesters == {} && s.closures == map[] ==> s.gate.inFlight == 0
  {
    Reached(actions);
    var s := Run(INITIAL, actions);
    if s.requesters == {} && s.closures == map[] {
      assert forall h :: h in s.admissions ==> Alive(s.requesters, s.closures, h);
      assert s.admissions == map[];
    }
  }

  /** Callback `w` still owns the guards it captured. */
  predicate Keeps(s: State, w: nat, admissions: Refs, submissions: Refs) {
    w in s.closures && KeepsRef(s.admissions, Worker(w), admissions) && KeepsRef(s.submissions, Worker(w), submissions)
  }

  predicate KeepsRef(m: Refs, h: Holder, was: Refs) {
    h in was ==> h in m && m[h] == was[h]
  }

  lemma CloneKeeps(s: State, w: nat, admissions: Refs, submissions: Refs, from: Holder, h: Holder)
    requires Keeps(s, w, admissions, submissions) && h != Worker(w)
    ensures Keeps(CloneHolder(s, from, h), w, admissions, submissions)
    ensures Keeps(s.(admissions := Share(s.admissions, from, h)), w, admissions, submissions)
    ensures Keeps(DropHolder(s, h), w, admissions, submissions)
  {
  }

  predicate Ends(a: Action, w: nat) {
    a == Discard(w) || (a.Finish? && a.closure == w)
  }

  lemma KeepsClosure(s: State, w: nat, admissions: Refs, submissions: Refs, v: nat, accepted: bool)
    requires Keeps(s, w, admissions, submissions) && v != w && v in s.closures
    ensures Keeps(EndClosure(s, v, None), w, admissions, submissions)
    ensures Keeps(EndClosure(s, v, Heir(s, v, accepted)), w, admissions, submissions)
  {
  }

  lemma KeepsShared(s: State, w: nat, admissions: Refs, submissions: Refs, a: Action)
    requires Keeps(s, w, admissions, submissions)
    requires a.Reuse? || a.MakeHost? || a.MoveToHost? || a.Submit? || a.Leave?
    ensures Keeps(Apply(s, a), w, admissions, submissions)
  {
    match a
    case Reuse(r, from) => CloneKeeps(s, w, admissions, submissions, Requester(from), Requester(r));
    case MakeHost(r) => CloneKeeps(s, w, admissions, submissions, Requester(r), Host(r));
    case MoveToHost(r) => CloneKeeps(s, w, admissions, submissions, Host(r), Requester(r));
    case Submit(r, v) =>
      if v != w {
        CloneKeeps(s, w, admissions, submissions, Host(r), Worker(v));
      }
    case Leave(r) =>
      CloneKeeps(s, w, admissions, submissions, Host(r), Host(r));
      CloneKeeps(DropHolder(s, Host(r)), w, admissions, submissions, Host(r), Requester(r));
  }

  lemma KeepsSimple(s: State, w: nat, admissions: Refs, submissions: Refs, a: Action)
    requires Keeps(s, w, admissions, submissions)
    requires a.Arrive? || a.Admit? || a.LockSubmission? || a.LockPolicy? || a.SubmitPolicy? || a.Spawn?
    ensures Keeps(Apply(s, a), w, admissions, submissions)
  {
  }

  lemma KeepsStep(s: State, w: nat, admissions: Refs, submissions: Refs, a: Action)
    requires Keeps(s, w, admissions, submissions) && !Ends(a, w)
    ensures Keeps(Apply(s, a), w, admissions, submissions)
  {
    match a
    case Discard(v) =>
      if v in s.closures {
        KeepsClosure(s, w, admissions, submissions, v, false);
      }
    case Finish(v, accepted) =>
      if v in s.closures {
        KeepsClosure(s, w, admissions, submissions, v, accepted);
      }
    case TryBeginClosing =>
    case BeginClosing =>
    case ShutdownWorkers =>
    case Arrive(_) => KeepsSimple(s, w, admissions, submissions, a);
    case Admit(_, _) => KeepsSimple(s, w, admissions, submissions, a);
    case LockSubmission(_, _) => KeepsSimple(s, w, admissions, submissions, a);
    case LockPolicy(_) => KeepsSimple(s, w, admissions, submissions, a);
    case SubmitPolicy(_, _) => KeepsSimple(s, w, admissions, submissions, a);
    case Spawn(_) => KeepsSimple(s, w, admissions, submissions, a);
    case _ => KeepsShared(s, w, admissions, submissions, a);
  }

  /** Nothing but the end of the callback itself, in particular no cancellation, releases
      the admission or the submission guard it captured. */
  lemma {:induction false} GuardsOutliveCancellation(s: State, w: nat, actions: seq<Action>)
    requires w in s.closures
    requires forall i :: 0 <= i < |actions| ==> !Ends(actions[i], w)
    ensures Keeps(Run(s, actions), w, s.admissions, s.submissions)
  {
    if actions != [] {
      var n := |actions| - 1;
      GuardsOutliveCancellation(s, w, actions[..n]);
      KeepsStep(Run(s, actions[..n]), w, s.admissions, s.submissions, actions[n]);
    }
  }

  predicate Closed(s: State) {
    s.gate.closing && s.gate.inFlight == 0
  }

  predicate NoCallback(s: State) {
    forall w :: w in s.closures ==> s.closures[w].Some?
  }

  lemma ClosedHasNoCallback(s: State)
    requires Inv(s) && Closed(s)
    ensures s.admissions == map[] && NoCallback(s)
  {
    assert |s.admissions.Values| == 0;
    assert forall h :: h in s.admissions ==> s.admissions[h] in s.admissions.Values;
  }

  lemma ClosedStep(s: State, a: Action)
    requires Inv(s) && Closed(s)
    ensures Closed(Apply(s, a))
  {
    ClosedHasNoCallback(s);
    GateAfterIs(s, a);
  }

  lemma {:induction false} ClosedStays(s: State, actions: seq<Action>)
    requires Inv(s) && Closed(s)
    ensures Closed(Run(s, actions))
  {
    if actions != [] {
      var n := |actions| - 1;
      ClosedStays(s, actions[..n]);
      RunKeepsInv(s, actions[..n]);
      ClosedStep(Run(s, actions[..n]), actions[n]);
    }
  }

  /** Closing with nothing in flight is permanent: no admission exists at that point or at
      any later one, and neither does any page-processing or submission callback. */
  lemma ClosingIsPermanent(before: seq<Action>, after: seq<Action>)
    requires Closed(Run(INITIAL, before))
    ensures var s := Run(INITIAL, before + after); Closed(s) && s.admissions == map[] && NoCallback(s)
  {
    RunSplit(INITIAL, before, after);
    Reached(before);
    ClosedStays(Run(INITIAL, before), after);
    Reached(before + after);
    ClosedHasNoCallback(Run(INITIAL, before + after));
  }

  /** Callbacks of two submissions never coexist, running or not, however their requesters
      were cancelled; and a callback that holds the lock keeps others from taking it. */
  lemma SubmissionsSerialized(actions: seq<Action>, w: nat, v: nat, r: nat, g: nat)
    ensures var s := Run(INITIAL, actions);
      Worker(w) in s.submissions && Worker(v) in s.submissions ==> s.submissions[Worker(w)] == s.submissions[Worker(v)]
    ensures var s := Run(INITIAL, actions);
      Worker(w) in s.submissions ==> w in s.closures && Apply(s, LockSubmission(r, g)) == s
  {
    Reached(actions);
    var s := Run(INITIAL, actions);
    if Worker(w) in s.submissions {
      assert Alive(s.requesters, s.closures, Worker(w));
      assert s.submissions != map[];
    }
  }

  /** Two policy transitions never have their bodies in the workers together, and the
      policy lock is not free while one is. */
  lemma PolicySerialized(actions: seq<Action>, w: nat, v: nat)
    ensures var s := Run(INITIAL, actions);
      w in s.closures && v in s.closures && s.closures[w].Some? && s.closures[v].Some? ==>
          w == v && s.policy == Some(Worker(w))
  {
    Reached(actions);
  }

  /** A callback handed to the workers holds what its host holds: the admission, and the
      submission guard if the host has one. The host holds what its requester held. */
  lemma CallbackInheritsGuards(actions: seq<Action>, r: nat, w: nat)
    ensures var s := Run(INITIAL, actions); var t := Apply(s, Submit(r, w));
      Host(r) in s.admissions && w !in s.closures ==>
        && Worker(w) in t.admissions && t.admissions[Worker(w)] == s.admissions[Host(r)]
        && (Worker(w) in t.submissions <==> Host(r) in s.submissions)
        && (Host(r) in s.submissions ==> t.submissions[Worker(w)] == s.submissions[Host(r)])
    ensures var s := Run(INITIAL, actions); var t := Apply(s, MakeHost(r));
      t != s ==>
        && Host(r) in t.admissions && t.admissions[Host(r)] == s.admissions[Requester(r)]
        && (Requester(r) in s.submissions ==>
            Host(r) in t.submissions && t.submissions[Host(r)] == s.submissions[Requester(r)])
  {
    Reached(actions);
    var s := Run(INITIAL, actions);
    if w !in s.closures {
      assert !Alive(s.requesters, s.closures, Worker(w));
    }
  }

  /** The policy lock belongs to `r`: it holds the guard, or its transition does. */
  predicate PolicyOf(s: State, r: nat) {
    && r in s.requesters && s.policy.Some?
    && match s.policy.value
       case Requester(q) => q == r
       case Host(_) => false
       case Worker(w) => w in s.closures && s.closures[w] == Some(r)
  }

  /** `r` goes away, or its transition fails or is never spawned. */
  predicate GivesUp(s: State, a: Action, r: nat) {
    || a == Leave(r)
    || (a.Discard? && a.closure in s.closures && s.closures[a.closure] == Some(r))
    || (a.Finish? && a.closure in s.closures && s.closures[a.closure] == Some(r) && !a.accepted)
  }

  lemma EndKeepsPolicy(s: State, w: nat, accepted: bool, r: nat)
    requires PolicyOf(s, r) && PolicyExact(s.policy, s.requesters, s.closures)
    ensures w in s.closures && s.closures[w] != Some(r) ==>
              PolicyOf(EndClosure(s, w, None), r) && PolicyOf(EndClosure(s, w, Heir(s, w, accepted)), r)
    ensures w in s.closures && s.closures[w] == Some(r) && accepted ==>
        PolicyOf(EndClosure(s, w, Heir(s, w, accepted)), r)
  {
  }

  lemma PolicyStep(s: State, a: Action, r: nat)
    requires PolicyOf(s, r) && PolicyExact(s.policy, s.requesters, s.closures) && !GivesUp(s, a, r)
    ensures PolicyOf(Apply(s, a), r)
  {
    match a
    case Discard(w) => EndKeepsPolicy(s, w, false, r);
    case Finish(w, accepted) => EndKeepsPolicy(s, w, accepted, r);
    case Leave(q) => assert q != r;
    case _ =>
  }

  /** A policy operation keeps the lock from taking it, across its blocking transition and
      back, until it leaves or the transition does not return Ok. */
  lemma {:induction false} PolicyHeldThroughout(before: seq<Action>, r: nat, actions: seq<Action>)
    requires PolicyOf(Run(INITIAL, before), r)
    requires forall k :: 0 <= k < |actions| ==> !GivesUp(Run(Run(INITIAL, before), actions[..k]), actions[k], r)
    ensures PolicyOf(Run(Run(INITIAL, before), actions), r)
  {
    if actions != [] {
      var n := |actions| - 1;
      var s := Run(INITIAL, before);
      assert forall k :: 0 <= k < n ==> actions[..n][..k] == actions[..k];
      PolicyHeldThroughout(before, r, actions[..n]);
      Reached(before);
      RunKeepsInv(s, actions[..n]);
      PolicyStep(Run(s, actions[..n]), actions[n], r);
    }
  }

  // ------------------------------------------------------------------ the gate object in a run

  function ReleaseIf(last: bool, g: Gate): Gate {
    if last then DropGuard(g) else g
  }

  /** What the gate becomes when the run takes `a` from `s`. */
  function GateAfter(s: State, a: Action): Gate {
    match a
    case Admit(r, k) =>
      if r in s.requesters && Requester(r) !in s.admissions
          && k !in s.admissions.Values then TryBegin(s.gate) else s.gate
    case MoveToHost(r) => ReleaseIf(Host(r) in s.admissions && LastRef(s.admissions, Requester(r)), s.gate)
    case Discard(w) => ReleaseIf(w in s.closures && w !in s.running && LastRef(s.admissions, Worker(w)), s.gate)
    case Finish(w, _) => ReleaseIf(w in s.closures && w in s.running && LastRef(s.admissions, Worker(w)), s.gate)
    case Leave(r) =>
      if r in s.requesters then
        ReleaseIf(LastRef(s.admissions - {Host(r)}, Requester(r)), ReleaseIf(LastRef(s.admissions, Host(r)), s.gate))
      else s.gate
    case TryBeginClosing => TryClose(s.gate)
    case BeginClosing => s.gate.(closing := true)
    case _ => s.gate
  }

  lemma GateAfterIs(s: State, a: Action)
    ensures Apply(s, a).gate == GateAfter(s, a)
  {
  }

  /** The calls that the step makes on the gate object. */
  method Perform(gate: ProfileActivity, s: State, a: Action)
    requires gate.View() == s.gate
    modifies gate
    ensures gate.View() == GateAfter(s, a)
  {
    match a
    case Admit(r, k) =>
      if r in s.requesters && Requester(r) !in s.admissions && k !in s.admissions.Values {
        var admitted := gate.Begin();
      }
    case MoveToHost(r) =>
      if Host(r) in s.admissions && LastRef(s.admissions, Requester(r)) {
        gate.Release();
      }
    case Discard(w) =>
      if w in s.closures && w !in s.running && LastRef(s.admissions, Worker(w)) {
        gate.Release();
      }
    case Finish(w, _) =>
      if w in s.closures && w in s.running && LastRef(s.admissions, Worker(w)) {
        gate.Release();
      }
    case Leave(r) =>
      if r in s.requesters {
        if LastRef(s.admissions, Host(r)) {
          gate.Release();
        }
        if LastRef(s.admissions - {Host(r)}, Requester(r)) {
          gate.Release();
        }
      }
    case TryBeginClosing => var closed := gate.TryBeginClosing();
    case BeginClosing => gate.BeginClosing();
    case _ =>
  }

  /** The gate object follows any schedule and its counter is the number of live admissions. */
  method Follow(actions: seq<Action>) returns (gate: ProfileActivity, s: State)
    ensures s == Run(INITIAL, actions) && fresh(gate) && gate.View() == s.gate
    ensures gate.inFlight == |s.admissions.Values|
  {
    gate := new ProfileActivity();
    s := INITIAL;
    for i := 0 to |actions|
      invariant s == Run(INITIAL, actions[..i]) && fresh(gate) && gate.View() == s.gate
    {
      assert actions[..i + 1][..i] == actions[..i];
      Perform(gate, s, actions[i]);
      GateAfterIs(s, actions[i]);
      s := Apply(s, actions[i]);
    }
    assert actions[..|actions|] == actions;
    Reached(actions);
  }
}

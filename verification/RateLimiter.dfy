/** The fixed-window enrollment limiter over every sequence of calls on a monotone clock.

    The mutex serializes the calls. Each call reads the clock once for the elapsed time and
    once more when it opens a new window; times are clock ticks since an arbitrary origin. */
module RateLimiter {
  const MAX_ENROLLMENTS_PER_WINDOW: nat := 16

  /** One second of nanosecond ticks. */
  const ENROLLMENT_RATE_WINDOW: nat := 1_000_000_000

  datatype Window = Window(started: nat, requests: nat)

  /** The two clock reads of a call; the second is made only on a reset. */
  datatype Call = Call(now: nat, again: nat)

  /** An admission, by its last clock read and the start of its window. */
  datatype Admission = Admission(time: nat, start: nat)

  predicate Expired(w: Window, c: Call) {
    c.now >= w.started && c.now - w.started >= ENROLLMENT_RATE_WINDOW
  }

  function Current(w: Window, c: Call): Window {
    if Expired(w, c) then Window(c.again, 0) else w
  }

  function Admits(w: Window, c: Call): bool {
    Current(w, c).requests < MAX_ENROLLMENTS_PER_WINDOW
  }

  function AfterCall(w: Window, c: Call): Window {
    var v := Current(w, c);
    if v.requests < MAX_ENROLLMENTS_PER_WINDOW then v.(requests := v.requests + 1) else v
  }

  function Stamp(w: Window, c: Call): nat {
    if Expired(w, c) then c.again else c.now
  }

  class EnrollmentRateLimiter {
    var started: nat
    var requests: nat

    function View(): Window
      reads this
    {
      Window(started, requests)
    }

    constructor (now: nat)
      ensures View() == Window(now, 0)
    {
      started, requests := now, 0;
    }

    /** A poisoned lock refuses and changes nothing. */
    method TryAcquire(c: Call, poisoned: bool) returns (admitted: bool)
      modifies this
      ensures poisoned ==> !admitted && View() == old(View())
      ensures !poisoned ==> admitted == Admits(old(View()), c) && View() == AfterCall(old(View()), c)
    {
      if poisoned {
        return false;
      }
      if c.now >= started && c.now - started >= ENROLLMENT_RATE_WINDOW {
        started := c.again;
        requests := 0;
      }
      if requests >= MAX_ENROLLMENTS_PER_WINDOW {
        return false;
      }
      requests := requests + 1;
      admitted := true;
    }
  }

  // ------------------------------------------------------------------ runs

  datatype History = History(window: Window, log: seq<Admission>, clock: nat)

  function Step(h: History, c: Call): History {
    History(AfterCall(h.window, c),
      if Admits(h.window, c) then h.log + [Admission(Stamp(h.window, c), Current(h.window, c).started)] else h.log,
      Stamp(h.window, c))
  }

  function Run(opening: nat, calls: seq<Call>): History {
    if calls == [] then History(Window(opening, 0), [], opening)
    else Step(Run(opening, calls[..|calls| - 1]), calls[|calls| - 1])
  }

  /** The clock never goes back, within a call or between two calls. */
  predicate Monotone(opening: nat, calls: seq<Call>) {
    && (forall i :: 0 <= i < |calls| ==> opening <= calls[i].now <= calls[i].again)
    && (forall i, j :: 0 <= i < j < |calls| ==> calls[i].again <= calls[j].now)
  }

  /** Every admission lies inside its window, and the log is in time order. */
  predicate Ordered(log: seq<Admission>) {
    && (forall i :: 0 <= i < |log| ==> log[i].start <= log[i].time < log[i].start + ENROLLMENT_RATE_WINDOW)
    && (forall i, j :: 0 <= i <= j < |log| ==> log[i].time <= log[j].time)
  }

  /** Sixteen admissions later the window is another one. */
  ghost predicate Spaced(log: seq<Admission>) {
    forall i, j :: 0 <= i < j < |log| && j == i + MAX_ENROLLMENTS_PER_WINDOW ==>
        log[i].start + ENROLLMENT_RATE_WINDOW <= log[j].start
  }

  /** The open window's admissions are the last `requests`; all others are a window older. */
  predicate Tail(w: Window, log: seq<Admission>) {
    && w.requests <= |log| && w.requests <= MAX_ENROLLMENTS_PER_WINDOW
    && (forall i :: |log| - w.requests <= i < |log| ==> log[i].start == w.started)
    && (forall i :: 0 <= i < |log| - w.requests ==> log[i].start + ENROLLMENT_RATE_WINDOW <= w.started)
  }

  predicate UpTo(log: seq<Admission>, clock: nat) {
    forall i :: 0 <= i < |log| ==> log[i].time <= clock
  }

  ghost predicate Inv(h: History) {
    Ordered(h.log) && Spaced(h.log) && Tail(h.window, h.log) && UpTo(h.log, h.clock) && h.window.started <= h.clock
  }

  lemma AdmissionKeepsOrder(log: seq<Admission>, w: Window, time: nat)
    requires Ordered(log) && UpTo(log, time)
    requires w.started <= time < w.started + ENROLLMENT_RATE_WINDOW
    ensures Ordered(log + [Admission(time, w.started)]) && UpTo(log + [Admission(time, w.started)], time)
  {
  }

  lemma AdmissionKeepsSpacing(log: seq<Admission>, w: Window, time: nat)
    requires Spaced(log) && Tail(w, log) && w.requests < MAX_ENROLLMENTS_PER_WINDOW
    ensures Spaced(log + [Admission(time, w.started)])
    ensures Tail(w.(requests := w.requests + 1), log + [Admission(time, w.started)])
  {
  }

  lemma StepKeepsInv(h: History, c: Call)
    requires Inv(h) && h.clock <= c.now <= c.again
    ensures Inv(Step(h, c)) && Step(h, c).clock <= c.again
  {
    var w, time := Current(h.window, c), Stamp(h.window, c);
    assert Tail(w, h.log);
    assert UpTo(h.log, time);
    if Admits(h.window, c) {
      AdmissionKeepsOrder(h.log, w, time);
      AdmissionKeepsSpacing(h.log, w, time);
    }
  }

  lemma {:induction false} RunKeepsInv(opening: nat, calls: seq<Call>)
    requires Monotone(opening, calls)
    ensures Inv(Run(opening, calls))
    ensures Run(opening, calls).clock <= if calls == [] then opening else calls[|calls| - 1].again
  {
    if calls != [] {
      var n := |calls| - 1;
      RunKeepsInv(opening, calls[..n]);
      assert n > 0 ==> calls[..n][n - 1].again <= calls[n].now;
      StepKeepsInv(Run(opening, calls[..n]), calls[n]);
    }
  }

  // ------------------------------------------------------------------ the bound

  lemma {:induction false} StartsSpread(log: seq<Admission>, i: nat, k: nat)
    requires Spaced(log) && i + MAX_ENROLLMENTS_PER_WINDOW * k < |log|
    ensures log[i].start + k * ENROLLMENT_RATE_WINDOW <= log[i + MAX_ENROLLMENTS_PER_WINDOW * k].start
  {
    if k > 0 {
      StartsSpread(log, i, k - 1);
    }
  }

  function Ceiling(length: nat): nat {
    (length + ENROLLMENT_RATE_WINDOW - 1) / ENROLLMENT_RATE_WINDOW
  }

  /** The admissions in the half-open interval [from, from + length). */
  function During(log: seq<Admission>, from: nat, length: nat): set<nat> {
    set i | 0 <= i < |log| && from <= log[i].time < from + length
  }

  function Bound(length: nat): nat {
    MAX_ENROLLMENTS_PER_WINDOW * (Ceiling(length) + 1)
  }

  /** Two admissions that far apart in the log are more than `length` apart in time. */
  lemma FarApart(log: seq<Admission>, i: nat, length: nat)
    requires Ordered(log) && Spaced(log) && i + Bound(length) < |log|
    ensures log[i].time + length < log[i + Bound(length)].time
  {
    StartsSpread(log, i, Ceiling(length) + 1);
  }

  lemma {:induction false} FirstSince(log: seq<Admission>, from: nat) returns (first: nat)
    requires Ordered(log)
    ensures first <= |log|
    ensures forall i :: 0 <= i < |log| ==> (log[i].time < from <==> i < first)
  {
    if log == [] {
      first := 0;
    } else {
      var n := |log| - 1;
      first := FirstSince(log[..n], from);
      if log[n].time < from {
        assert forall i :: 0 <= i < n ==> log[..n][i] == log[i];
        first := n + 1;
      } else {
        assert forall i :: 0 <= i < n ==> log[..n][i] == log[i];
      }
    }
  }

  lemma {:induction false} RangeSize(s: set<nat>, lo: nat, k: nat)
    requires forall i :: i in s ==> lo <= i < lo + k
    ensures |s| <= k
  {
    if k == 0 {
      assert s == {};
    } else {
      var t := s - {lo + k - 1};
      RangeSize(t, lo, k - 1);
      assert s == t || s == t + {lo + k - 1};
    }
  }

  /** Any half-open interval of `length` ticks has at most 16 * (ceil(length / window) + 1)
      admissions, in every run. */
  lemma RateBound(opening: nat, calls: seq<Call>, from: nat, length: nat)
    requires Monotone(opening, calls)
    ensures |During(Run(opening, calls).log, from, length)| <= Bound(length)
  {
    RunKeepsInv(opening, calls);
    var log := Run(opening, calls).log;
    var first := FirstSince(log, from);
    forall i | i in During(log, from, length)
      ensures first <= i < first + Bound(length)
    {
      if i >= first + Bound(length) {
        FarApart(log, i - Bound(length), length);
      }
    }
    RangeSize(During(log, from, length), first, Bound(length));
  }

  /** At most 32 admissions in any one-second interval. */
  lemma OneSecond(opening: nat, calls: seq<Call>, from: nat)
    requires Monotone(opening, calls)
    ensures |During(Run(opening, calls).log, from, ENROLLMENT_RATE_WINDOW)| <= 32
  {
    RateBound(opening, calls, from, ENROLLMENT_RATE_WINDOW);
  }

  /** A call is refused only if sixteen admissions were made in the second before it. */
  lemma RefusedOnlyWhenFull(opening: nat, calls: seq<Call>, c: Call)
    requires Monotone(opening, calls + [c])
    requires !Admits(Run(opening, calls).window, c)
    ensures var log := Run(opening, calls).log;
      && |log| >= MAX_ENROLLMENTS_PER_WINDOW
      && forall i :: |log| - MAX_ENROLLMENTS_PER_WINDOW <= i < |log| ==>
           log[i].time <= c.now && c.now < log[i].time + ENROLLMENT_RATE_WINDOW
  {
    var all := calls + [c];
    assert forall i :: 0 <= i < |calls| ==> all[i] == calls[i];
    assert all[|calls|] == c;
    RunKeepsInv(opening, calls);
    var h := Run(opening, calls);
    assert h.clock <= c.now;
    assert h.window.requests == MAX_ENROLLMENTS_PER_WINDOW && !Expired(h.window, c);
  }

  // ------------------------------------------------------------------ the bound is reached

  /** `k` calls at one instant. */
  function Burst(now: nat, k: nat): seq<Call> {
    seq(k, _ => Call(now, now))
  }

  lemma {:induction false} BurstAdmits(opening: nat, calls: seq<Call>, now: nat, k: nat)
    requires var w := Run(opening, calls).window;
      w.started <= now < w.started + ENROLLMENT_RATE_WINDOW && w.requests + k <= MAX_ENROLLMENTS_PER_WINDOW
    ensures var h, g := Run(opening, calls), Run(opening, calls + Burst(now, k));
      && g.window == h.window.(requests := h.window.requests + k)
      && g.log == h.log + seq(k, _ => Admission(now, h.window.started))
  {
    if k == 0 {
      assert calls + Burst(now, k) == calls;
    } else {
      BurstAdmits(opening, calls, now, k - 1);
      var all := calls + Burst(now, k);
      assert all[..|all| - 1] == calls + Burst(now, k - 1);
      assert all[|all| - 1] == Call(now, now);
    }
  }

  function Indices(n: nat): (s: set<nat>)
    ensures |s| == n && forall i :: i in s <==> 0 <= i < n
  {
    if n == 0 then {} else Indices(n - 1) + {n - 1}
  }

  lemma AllDuring(log: seq<Admission>, from: nat, length: nat)
    requires forall i :: 0 <= i < |log| ==> from <= log[i].time < from + length
    ensures |During(log, from, length)| == |log|
  {
    assert During(log, from, length) == Indices(|log|);
  }

  lemma BurstRuns(opening: nat, calls: seq<Call>, now: nat, k: nat)
    requires Monotone(opening, calls) && opening <= now && forall i :: 0 <= i < |calls| ==> calls[i].again <= now
    ensures Monotone(opening, calls + Burst(now, k))
  {
  }

  /** Sixteen calls at the last tick of a window and sixteen at the first tick of the next
      are all admitted: one second can hold the full 32. */
  lemma BoundIsReached() returns (calls: seq<Call>)
    ensures Monotone(0, calls)
    ensures |During(Run(0, calls).log, ENROLLMENT_RATE_WINDOW - 1, ENROLLMENT_RATE_WINDOW)| == 32
  {
    var last := ENROLLMENT_RATE_WINDOW - 1;
    BurstAdmits(0, [], last, 16);
    var early := [] + Burst(last, 16);
    BurstRuns(0, [], last, 16);
    var reset := early + Burst(last + 1, 1);
    BurstRuns(0, early, last + 1, 1);
    NextWindow(early);
    BurstAdmits(0, reset, last + 1, 15);
    BurstRuns(0, reset, last + 1, 15);
    calls := reset + Burst(last + 1, 15);
    AllDuring(Run(0, calls).log, last, ENROLLMENT_RATE_WINDOW);
  }

  lemma NextWindow(early: seq<Call>)
    requires Run(0, early).window.started == 0
    ensures var now := ENROLLMENT_RATE_WINDOW; var h := Run(0, early + Burst(now, 1));
      h.window == Window(now, 1) && h.log == Run(0, early).log + [Admission(now, now)]
  {
  }

  lemma RunNext(opening: nat, calls: seq<Call>, i: nat)
    requires i < |calls|
    ensures Run(opening, calls[..i + 1]) == Step(Run(opening, calls[..i]), calls[i])
  {
    assert calls[..i + 1][..i] == calls[..i];
  }

  /** The limiter object serves any sequence of calls as the run says. */
  method Serve(opening: nat, calls: seq<Call>) returns (admitted: seq<bool>)
    ensures |admitted| == |calls|
    ensures forall i :: 0 <= i < |calls| ==> admitted[i] == Admits(Run(opening, calls[..i]).window, calls[i])
  {
    var limiter := new EnrollmentRateLimiter(opening);
    admitted := [];
    for i := 0 to |calls|
      invariant |admitted| == i && limiter.View() == Run(opening, calls[..i]).window && fresh(limiter)
      invariant forall j :: 0 <= j < i ==> admitted[j] == Admits(Run(opening, calls[..j]).window, calls[j])
    {
      var ok := limiter.TryAcquire(calls[i], false);
      RunNext(opening, calls, i);
      admitted := admitted + [ok];
    }
  }
}

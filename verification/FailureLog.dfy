/** The bounded failure log: record writers, a bounded queue, and one worker that appends
    whole records to a size-capped file and drains the queue when it is told to stop.

    One action is one shared access of a producer or of the worker, so a producer that saw
    the log still open may enqueue after the stop, and the worker may still be waiting on
    the queue when the stop arrives. */
module FailureLog {
  import opened Wrappers

  type Bytes = seq<bv8>

  const MAX_LOG_BYTES: nat := 64 * 1024
  const MAX_RECORD_BYTES: nat := 2048
  const MAX_PENDING_RECORDS: nat := 64

  // ------------------------------------------------------------------ the file

  /** Which call of append_record fails, if any; a write may fail after some bytes. */
  datatype Fault = NoFault | Metadata | SetLen | Rewind | Write(written: nat) | Flush

  /** Appending one record: the whole file is dropped first when it would overflow. */
  function Appended(file: Bytes, record: Bytes): Bytes {
    if |file| + |record| > MAX_LOG_BYTES then record else file + record
  }

  /** The file after appending `records` to `base` one by one. */
  function Written(base: Bytes, records: seq<Bytes>): Bytes {
    if records == [] then base
    else Appended(Written(base, records[..|records| - 1]), records[|records| - 1])
  }

  function Concat(records: seq<Bytes>): Bytes {
    if records == [] then [] else Concat(records[..|records| - 1]) + records[|records| - 1]
  }

  predicate Sized(records: seq<Bytes>) {
    forall i :: 0 <= i < |records| ==> 0 < |records[i]| <= MAX_RECORD_BYTES
  }

  /** The last reset happened just before record `k`, or never if `k` is zero and the
      opening contents are still there. */
  predicate WholeSince(base: Bytes, records: seq<Bytes>, k: nat) {
    k <= |records| && (Written(base, records) == Concat(records[k..])
        || (k == 0 && Written(base, records) == base + Concat(records)))
  }

  lemma {:induction false} ConcatSnoc(records: seq<Bytes>, k: nat)
    requires k < |records|
    ensures Concat(records[k..]) == Concat(records[k..|records| - 1]) + records[|records| - 1]
  {
    var t := records[k..];
    assert t[..|t| - 1] == records[k..|records| - 1];
    assert t[|t| - 1] == records[|records| - 1];
  }

  /** A reset leaves just the newest record. */
  lemma ResetIsWhole(base: Bytes, records: seq<Bytes>)
    requires records != []
    requires |Written(base, records[..|records| - 1])| + |records[|records| - 1]| > MAX_LOG_BYTES
    ensures WholeSince(base, records, |records| - 1)
  {
    var n := |records| - 1;
    ConcatSnoc(records, n);
    assert records[n..n] == [];
  }

  lemma Associates(a: Bytes, b: Bytes, c: Bytes)
    ensures a + b + c == a + (b + c)
  {
  }

  /** An append that fits extends the run of whole records by one. */
  lemma AppendIsWhole(base: Bytes, records: seq<Bytes>, k: nat)
    requires records != [] && k < |records| && WholeSince(base, records[..|records| - 1], k)
    requires |Written(base, records[..|records| - 1])| + |records[|records| - 1]| <= MAX_LOG_BYTES
    ensures WholeSince(base, records, k)
  {
    var n := |records| - 1;
    var front := records[..n];
    assert front[k..] == records[k..n];
    if Written(base, front) == Concat(front[k..]) {
      ConcatSnoc(records, k);
    } else {
      Associates(base, Concat(front), records[n]);
    }
  }

  /** The file never exceeds its cap and always is a run of whole records since the last
      reset, up to the newest one. */
  lemma {:induction false} FileIsWholeRecords(base: Bytes, records: seq<Bytes>) returns (k: nat)
    requires |base| <= MAX_LOG_BYTES && Sized(records)
    ensures |Written(base, records)| <= MAX_LOG_BYTES
    ensures WholeSince(base, records, k)
    ensures k < |records| || records == []
  {
    k := 0;
    if records == [] {
      assert base + Concat(records) == base;
    } else {
      var n := |records| - 1;
      k := FileIsWholeRecords(base, records[..n]);
      if |Written(base, records[..n])| + |records[n]| > MAX_LOG_BYTES {
        k := n;
        ResetIsWhole(base, records);
      } else {
        AppendIsWhole(base, records, k);
      }
    }
  }

  /** Nothing is dropped before the cap is reached. */
  lemma {:induction false} NoResetBelowCap(base: Bytes, records: seq<Bytes>)
    requires |base| + |Concat(records)| <= MAX_LOG_BYTES
    ensures Written(base, records) == base + Concat(records)
  {
    if records == [] {
      assert base + Concat(records) == base;
    } else {
      var n := |records| - 1;
      NoResetBelowCap(base, records[..n]);
      assert base + Concat(records) == base + Concat(records[..n]) + records[n];
    }
  }

  class LogFile {
    var contents: Bytes
    var position: nat

    predicate AtEnd()
      reads this
    {
      position == |contents| <= MAX_LOG_BYTES
    }

    /** Opens the file: contents over the cap are discarded and writing starts at the end. */
    constructor (found: Bytes)
      ensures AtEnd()
      ensures contents == if |found| > MAX_LOG_BYTES then [] else found
    {
      contents := if |found| > MAX_LOG_BYTES then [] else found;
      new;
      position := |contents|;
    }

    /** Writes at the position: a gap is filled with zeros, and bytes already there are replaced. */
    method WriteAt(bytes: Bytes)
      modifies this
      ensures old(position) == |old(contents)| ==> contents == old(contents) + bytes
      ensures position == old(position) + |bytes|
    {
      var kept := if position <= |contents|
          then contents[..position] else contents + seq(position - |contents|, _ => 0);
      var after := position + |bytes|;
      var rest := if after <= |contents| then contents[after..] else [];
      contents := kept + bytes + rest;
      position := after;
    }

    /** Succeeds exactly when the record fits its bound and no call fails. A failure may
        leave part of the record or an empty file, but never more than the cap. */
    method AppendRecord(record: Bytes, fault: Fault) returns (ok: bool)
      requires AtEnd()
      modifies this
      ensures |contents| <= MAX_LOG_BYTES
      ensures |record| > MAX_RECORD_BYTES ==> !ok && contents == old(contents) && AtEnd()
      ensures |record| <= MAX_RECORD_BYTES && fault.NoFault? ==> ok
      ensures ok ==> AtEnd() && contents == Appended(old(contents), record)
    {
      if |record| > MAX_RECORD_BYTES {
        return false;
      }
      if fault.Metadata? {
        return false;
      }
      if |contents| + |record| > MAX_LOG_BYTES {
        if fault.SetLen? {
          return false;
        }
        contents := [];
        if fault.Rewind? {
          return false;
        }
        position := 0;
      }
      if fault.Write? {
        var n := if fault.written <= |record| then fault.written else |record|;
        WriteAt(record[..n]);
        return false;
      }
      WriteAt(record);
      ok := !fault.Flush?;
    }
  }

  // ------------------------------------------------------------------ record writers

  /** What dropping a writer does once it has seen that the log is not stopping. */
  datatype Drop = Nothing | Report | TrySend(record: Bytes)

  function DropOutcome(bytes: Bytes, oversized: bool): Drop {
    if oversized then Report else if bytes == [] then Nothing else TrySend(bytes)
  }

  /** One record under construction. `attempts` are the writes made so far. */
  class RecordWriter {
    var bytes: Bytes
    var oversized: bool
    ghost var attempts: seq<Bytes>

    ghost predicate Valid()
      reads this
    {
      && |bytes| <= MAX_RECORD_BYTES
      && (oversized <==> |Concat(attempts)| > MAX_RECORD_BYTES)
      && (!oversized ==> bytes == Concat(attempts))
    }

    constructor ()
      ensures Valid() && attempts == [] && !oversized
    {
      bytes, oversized, attempts := [], false, [];
    }

    method Write(more: Bytes) returns (ok: bool)
      requires Valid()
      modifies this
      ensures Valid() && attempts == old(attempts) + [more]
      ensures ok <==> |old(bytes)| + |more| <= MAX_RECORD_BYTES
      ensures bytes == if ok then old(bytes) + more else old(bytes)
    {
      ghost var after := attempts + [more];
      assert after[..|attempts|] == attempts;
      attempts := after;
      if |bytes| + |more| > MAX_RECORD_BYTES {
        oversized := true;
        return false;
      }
      bytes := bytes + more;
      ok := true;
    }

    /** A record is handed over only whole and within its bound; anything longer is reported. */
    method Close() returns (outcome: Drop)
      requires Valid()
      ensures outcome == DropOutcome(bytes, oversized)
      ensures outcome.TrySend? ==> outcome.record == Concat(attempts) && Sized([outcome.record])
      ensures outcome.Report? <==> |Concat(attempts)| > MAX_RECORD_BYTES
      ensures outcome.Nothing? <==> Concat(attempts) == []
    {
      outcome := if oversized then Report else if bytes == [] then Nothing else TrySend(bytes);
    }
  }

  // ------------------------------------------------------------------ the running log

  datatype Producer = Writing(bytes: Bytes, oversized: bool) | Sending(record: Bytes)

  /** Where the worker is: about to load the stop flag, in recv_timeout, in try_recv, in
      append_record, or gone with or without a failed append. */
  datatype Phase = Top | Waiting | Trying | Appending(record: Bytes) | Exited(clean: bool)

  datatype State = State(
    producers: map<nat, Producer>,
    open: bool,                 // some sender is alive
    queue: seq<Bytes>,
    stopping: bool,
    failed: bool,
    phase: Phase,
    drained: nat,
    file: Bytes,
    // history: what was enqueued, what reached append_record, how much was enqueued when
    // the stop came, and how much had been received when the worker first saw it
    enqueued: seq<Bytes>,
    received: seq<Bytes>,
    atStop: Option<nat>,
    atSight: Option<nat>)

  datatype Action =
    | MakeWriter(p: nat)
    | WriteBytes(p: nat, bytes: Bytes)
    | CheckStop(p: nat)         // dropping a writer begins by loading the stop flag
    | Send(p: nat)              // and may end with try_send
    | HangUp                    // the last sender is dropped
    | Stop                      // the guard is dropped
    | Look
    | Receive
    | Append(failure: Option<Bytes>)   // what a failed append leaves in the file

  function WriteStep(producer: Producer, more: Bytes): Producer
    requires producer.Writing?
  {
    if |producer.bytes| + |more| > MAX_RECORD_BYTES then producer.(oversized := true)
    else producer.(bytes := producer.bytes + more)
  }

  function CheckStep(s: State, p: nat): State
    requires p in s.producers && s.producers[p].Writing?
  {
    var gone := s.(producers := s.producers - {p});
    if s.stopping then gone
    else
      match DropOutcome(s.producers[p].bytes, s.producers[p].oversized)
      case Nothing => gone
      case Report => gone.(failed := true)
      case TrySend(record) => s.(producers := s.producers[p := Sending(record)])
  }

  function SendStep(s: State, p: nat): State
    requires p in s.producers && s.producers[p].Sending?
  {
    var gone := s.(producers := s.producers - {p});
    var record := s.producers[p].record;
    if s.phase.Exited? || |s.queue| == MAX_PENDING_RECORDS then gone.(failed := true)
    else gone.(queue := s.queue + [record], enqueued := s.enqueued + [record])
  }

  function LookStep(s: State): State {
    if !s.stopping then s.(phase := Waiting)
    else
      var seen := s.(atSight := if s.atSight.None? then Some(|s.received|) else s.atSight);
      if s.drained == MAX_PENDING_RECORDS then seen.(phase := Exited(true))
      else seen.(drained := s.drained + 1, phase := Trying)
  }

  function ReceiveStep(s: State): State {
    if s.queue != [] then
      s.(queue := s.queue[1..], received := s.received + [s.queue[0]], phase := Appending(s.queue[0]))
    else if s.phase.Trying? || !s.open then s.(phase := Exited(true))
    else s.(phase := Top)
  }

  function AppendStep(s: State, failure: Option<Bytes>): State
    requires s.phase.Appending?
  {
    if failure.Some? then s.(file := failure.value, failed := true, phase := Exited(false))
    else if |s.phase.record| > MAX_RECORD_BYTES then s.(failed := true, phase := Exited(false))
    else s.(file := Appended(s.file, s.phase.record), phase := Top)
  }

  /** A failed append leaves at most a full file. */
  predicate Possible(failure: Option<Bytes>) {
    failure.Some? ==> |failure.value| <= MAX_LOG_BYTES
  }

  function Apply(s: State, a: Action): State {
    match a
    case MakeWriter(p) =>
      if s.open && p !in s.producers then s.(producers := s.producers[p := Writing([], false)]) else s
    case WriteBytes(p, bytes) =>
      if p in s.producers && s.producers[p].Writing? then
        s.(producers := s.producers[p := WriteStep(s.producers[p], bytes)])
      else s
    case CheckStop(p) => if p in s.producers && s.producers[p].Writing? then CheckStep(s, p) else s
    case Send(p) => if p in s.producers && s.producers[p].Sending? then SendStep(s, p) else s
    case HangUp => if s.producers == map[] then s.(open := false) else s
    case Stop =>
      if s.stopping then s else s.(stopping := true, atStop := Some(|s.enqueued|))
    case Look => if s.phase.Top? then LookStep(s) else s
    case Receive => if s.phase.Waiting? || s.phase.Trying? then ReceiveStep(s) else s
    case Append(failure) => if s.phase.Appending? && Possible(failure) then AppendStep(s, failure) else s
  }

  function Run(s: State, actions: seq<Action>): State {
    if actions == [] then s else Apply(Run(s, actions[..|actions| - 1]), actions[|actions| - 1])
  }

  function Opened(base: Bytes): State {
    State(map[], true, [], false, false, Top, 0, base, [], [], None, None)
  }

  // ------------------------------------------------------------------ invariant

  predicate ProducersOk(producers: map<nat, Producer>) {
    forall p :: p in producers ==>
      match producers[p]
      case Writing(bytes, _) => |bytes| <= MAX_RECORD_BYTES
      case Sending(record) => 0 < |record| <= MAX_RECORD_BYTES
  }

  predicate Fifo(received: seq<Bytes>, queue: seq<Bytes>, enqueued: seq<Bytes>) {
    received + queue == enqueued && |queue| <= MAX_PENDING_RECORDS && Sized(enqueued)
  }

  /** Try_recv calls that have returned a record since the stop was first seen. */
  function Pops(phase: Phase, drained: nat): int {
    if phase.Trying? then drained - 1 else drained
  }

  /** What was enqueued by the stop is received, or still within the drain's budget. */
  predicate Budget(phase: Phase, drained: nat, received: nat, enqueued: nat, atStop: Option<nat>) {
    && drained <= MAX_PENDING_RECORDS
    && (phase.Trying? ==> drained > 0)
    && (atStop.None? ==> drained == 0 && (phase == Exited(true) ==> received == enqueued))
    && (atStop.Some? ==> atStop.value <= enqueued)
    && (atStop.Some? && phase == Exited(true) ==> atStop.value <= received)
    && (atStop.Some? ==> atStop.value <= received + MAX_PENDING_RECORDS - Pops(phase, drained) || phase.Exited?)
  }

  predicate Sight(phase: Phase, drained: nat, received: nat, atSight: Option<nat>) {
    && (atSight.None? ==> drained == 0)
    && (atSight.Some? ==> received <= atSight.value + Pops(phase, drained))
  }

  predicate FileOk(base: Bytes, file: Bytes, received: seq<Bytes>, phase: Phase) {
    match phase
    case Appending(record) => received != [] && record == received[|received| - 1]
        && file == Written(base, received[..|received| - 1])
    case Exited(clean) => if clean then file == Written(base, received) else |file| <= MAX_LOG_BYTES
    case _ => file == Written(base, received)
  }

  predicate Inv(base: Bytes, s: State) {
    && ProducersOk(s.producers)
    && Fifo(s.received, s.queue, s.enqueued)
    && (s.stopping <==> s.atStop.Some?)
    && (s.phase.Trying? ==> s.atSight.Some?)
    && (s.atSight.Some? ==> s.stopping)
    && (s.atSight.Some? ==> !s.phase.Waiting?)
    && Budget(s.phase, s.drained, |s.received|, |s.enqueued|, s.atStop)
    && Sight(s.phase, s.drained, |s.received|, s.atSight)
    && FileOk(base, s.file, s.received, s.phase)
  }

  lemma CheckKeepsInv(base: Bytes, s: State, p: nat)
    requires Inv(base, s) && p in s.producers && s.producers[p].Writing?
    ensures Inv(base, CheckStep(s, p))
  {
  }

  lemma FifoAfterSend(received: seq<Bytes>, queue: seq<Bytes>, enqueued: seq<Bytes>, record: Bytes)
    requires Fifo(received, queue, enqueued) && |queue| < MAX_PENDING_RECORDS && 0 < |record| <= MAX_RECORD_BYTES
    ensures Fifo(received, queue + [record], enqueued + [record])
  {
    assert received + (queue + [record]) == enqueued + [record];
  }

  lemma SendKeepsInv(base: Bytes, s: State, p: nat)
    requires Inv(base, s) && p in s.producers && s.producers[p].Sending?
    ensures Inv(base, SendStep(s, p))
  {
    assert ProducersOk(s.producers - {p});
    if |s.queue| < MAX_PENDING_RECORDS {
      FifoAfterSend(s.received, s.queue, s.enqueued, s.producers[p].record);
    }
  }

  lemma LookKeepsInv(base: Bytes, s: State)
    requires Inv(base, s) && s.phase.Top?
    ensures Inv(base, LookStep(s))
  {
  }

  lemma ReceiveKeepsInv(base: Bytes, s: State)
    requires Inv(base, s) && (s.phase.Waiting? || s.phase.Trying?)
    ensures Inv(base, ReceiveStep(s))
  {
    if s.queue != [] {
      var t := ReceiveStep(s);
      assert t.received + t.queue == s.received + s.queue;
      assert t.received[..|t.received| - 1] == s.received;
    }
  }

  lemma AppendKeepsInv(base: Bytes, s: State, failure: Option<Bytes>)
    requires Inv(base, s) && s.phase.Appending? && Possible(failure)
    ensures Inv(base, AppendStep(s, failure))
  {
    assert s.enqueued[|s.received| - 1] == s.phase.record;
  }

  lemma ApplyKeepsInv(base: Bytes, s: State, a: Action)
    requires Inv(base, s)
    ensures Inv(base, Apply(s, a))
  {
    match a
    case CheckStop(p) => if p in s.producers && s.producers[p].Writing? { CheckKeepsInv(base, s, p); }
    case Send(p) => if p in s.producers && s.producers[p].Sending? { SendKeepsInv(base, s, p); }
    case Look => if s.phase.Top? { LookKeepsInv(base, s); }
    case Receive => if s.phase.Waiting? || s.phase.Trying? { ReceiveKeepsInv(base, s); }
    case Append(failure) => if s.phase.Appending? && Possible(failure) { AppendKeepsInv(base, s, failure); }
    case _ =>
  }

  lemma {:induction false} Reached(base: Bytes, actions: seq<Action>)
    ensures Inv(base, Run(Opened(base), actions))
  {
    if actions != [] {
      var n := |actions| - 1;
      Reached(base, actions[..n]);
      ApplyKeepsInv(base, Run(Opened(base), actions[..n]), actions[n]);
    }
  }

  // ------------------------------------------------------------------ theorems

  /** Received records are the enqueued ones in order, at every point of every run. */
  lemma FifoAlways(base: Bytes, actions: seq<Action>)
    ensures var s := Run(Opened(base), actions); s.received + s.queue == s.enqueued && Sized(s.enqueued)
  {
    Reached(base, actions);
  }

  /** A worker that ended without an I/O failure received everything enqueued before the
      stop, and its file is the result of appending exactly what it received. */
  lemma ShutdownDrains(base: Bytes, actions: seq<Action>)
    ensures var s := Run(Opened(base), actions);
      s.phase == Exited(true) && s.stopping ==>
        && s.atStop.Some? && s.atStop.value <= |s.received| <= |s.enqueued|
        && s.received[..s.atStop.value] == s.enqueued[..s.atStop.value]
        && s.file == Written(base, s.received)
  {
    Reached(base, actions);
    var s := Run(Opened(base), actions);
    if s.phase == Exited(true) && s.stopping {
      assert (s.received + s.queue)[..s.atStop.value] == s.received[..s.atStop.value];
    }
  }

  /** However long producers go on, the worker receives at most MAX_PENDING_RECORDS records
      after it has seen the stop. */
  lemma DrainIsBounded(base: Bytes, actions: seq<Action>)
    ensures var s := Run(Opened(base), actions);
      s.atSight.Some? ==> |s.received| <= s.atSight.value + MAX_PENDING_RECORDS
  {
    Reached(base, actions);
  }

  lemma ReceivedSized(base: Bytes, s: State)
    requires Inv(base, s)
    ensures Sized(s.received)
  {
    assert forall i :: 0 <= i < |s.received| ==> s.received[i] == s.enqueued[i];
  }

  /** A record that reaches append_record always fits its own bound, so only an I/O failure
      ends the worker early. */
  lemma OnlyFaultsFail(base: Bytes, actions: seq<Action>)
    ensures var s := Run(Opened(base), actions); s.phase.Appending? ==> Apply(s, Append(None)).phase == Top
  {
    Reached(base, actions);
    var s := Run(Opened(base), actions);
    ReceivedSized(base, s);
  }

  /** The records whose append is over. */
  function Done(s: State): seq<Bytes>
    requires s.phase.Appending? ==> s.received != []
  {
    if s.phase.Appending? then s.received[..|s.received| - 1] else s.received
  }

  /** The file stays under its cap, with or without failures, and until an append fails it
      holds whole records only: those since its last reset, ending with the newest. */
  lemma FileBounded(base: Bytes, actions: seq<Action>) returns (k: nat)
    requires |base| <= MAX_LOG_BYTES
    ensures var s := Run(Opened(base), actions);
      && |s.file| <= MAX_LOG_BYTES
      && (s.phase.Appending? ==> s.received != [])
      && (s.phase != Exited(false) ==> s.file == Written(base, Done(s)) && WholeSince(base, Done(s), k))
  {
    Reached(base, actions);
    var s := Run(Opened(base), actions);
    k := 0;
    if s.phase != Exited(false) {
      ReceivedSized(base, s);
      k := FileIsWholeRecords(base, Done(s));
    }
  }

  lemma StepRemembers(s: State, a: Action)
    ensures s.failed ==> Apply(s, a).failed
    ensures s.enqueued <= Apply(s, a).enqueued
  {
  }

  lemma {:induction false} RunRemembers(s: State, actions: seq<Action>)
    ensures s.failed ==> Run(s, actions).failed
    ensures s.enqueued <= Run(s, actions).enqueued
  {
    if actions != [] {
      var n := |actions| - 1;
      RunRemembers(s, actions[..n]);
      StepRemembers(Run(s, actions[..n]), actions[n]);
    }
  }

  /** No record is lost silently: a writer dropped while the log was open either enqueues its
      record or leaves the failure flag set for good; so does one that was oversized. */
  lemma NoSilentLoss(s: State, p: nat, after: seq<Action>)
    requires p in s.producers
    ensures s.producers[p].Sending? ==>
      var t := Run(Apply(s, Send(p)), after); t.failed || s.producers[p].record in t.enqueued
    ensures s.producers[p].Writing? && s.producers[p].oversized && !s.stopping ==>
        Run(Apply(s, CheckStop(p)), after).failed
    ensures s.producers[p].Writing? && !s.producers[p].oversized && s.producers[p].bytes != [] && !s.stopping ==>
      p in Apply(s, CheckStop(p)).producers && Apply(s, CheckStop(p)).producers[p] == Sending(s.producers[p].bytes)
  {
    RunRemembers(Apply(s, Send(p)), after);
    RunRemembers(Apply(s, CheckStop(p)), after);
    if s.producers[p].Sending? && !Apply(s, Send(p)).failed {
      assert Apply(s, Send(p)).enqueued[|s.enqueued|] == s.producers[p].record;
    }
  }

  predicate WorkerTurn(s: State, a: Action) {
    match s.phase
    case Top => a.Look?
    case Waiting => a.Receive?
    case Trying => a.Receive?
    case Appending(_) => a.Append? && Possible(a.failure)
    case Exited(_) => false
  }

  /** Bounds the steps the worker can still take once the stop flag is set. */
  function Remaining(phase: Phase, drained: nat): int {
    match phase
    case Top => 3 * (MAX_PENDING_RECORDS + 1 - drained)
    case Appending(_) => 3 * (MAX_PENDING_RECORDS + 1 - drained) + 1
    case Waiting => 3 * (MAX_PENDING_RECORDS + 1 - drained) + 2
    case Trying => 3 * (MAX_PENDING_RECORDS + 1 - drained) + 2
    case Exited(_) => 0
  }

  function WorkerSteps(s: State, actions: seq<Action>): nat {
    if actions == [] then 0
    else
      var n := |actions| - 1;
      WorkerSteps(s, actions[..n]) + (if WorkerTurn(Run(s, actions[..n]), actions[n]) then 1 else 0)
  }

  predicate ByProducer(a: Action) {
    !a.Look? && !a.Receive? && !a.Append?
  }

  lemma ProducersLeaveWorker(s: State, a: Action)
    requires ByProducer(a)
    ensures Apply(s, a).phase == s.phase && Apply(s, a).drained == s.drained && Apply(s, a).file == s.file
    ensures s.stopping ==> Apply(s, a).stopping
  {
  }

  lemma StepSpends(s: State, a: Action)
    requires s.stopping && s.drained <= MAX_PENDING_RECORDS && (s.phase.Trying? ==> s.drained > 0)
    ensures Apply(s, a).stopping
    ensures 0 <= Remaining(s.phase, s.drained)
    ensures Remaining(Apply(s, a).phase, Apply(s, a).drained) + (if WorkerTurn(s, a)
        then 1 else 0) <= Remaining(s.phase, s.drained)
  {
    if ByProducer(a) {
      ProducersLeaveWorker(s, a);
    }
  }

  /** After a stop the worker takes at most 197 more steps, so joining it returns whatever
      the producers do. */
  lemma {:induction false} StopTerminates(base: Bytes, before: seq<Action>, after: seq<Action>)
    requires Run(Opened(base), before).stopping
    ensures var s := Run(Opened(base), before);
      && WorkerSteps(s, after) + Remaining(Run(s, after).phase, Run(s, after).drained) <= Remaining(s.phase,
          s.drained) <= 197
      && Inv(base, Run(s, after)) && Run(s, after).stopping
      && 0 <= Remaining(Run(s, after).phase, Run(s, after).drained)
  {
    var s := Run(Opened(base), before);
    Reached(base, before);
    if after == [] {
      StepSpends(s, Look);
    } else {
      var n := |after| - 1;
      StopTerminates(base, before, after[..n]);
      StepSpends(Run(s, after[..n]), after[n]);
      ApplyKeepsInv(base, Run(s, after[..n]), after[n]);
      StepSpends(Run(s, after), Look);
    }
  }

  // ------------------------------------------------------------------ the worker on a real file

  /** The schedule as it happened: each append succeeded or failed as the file decided. */
  predicate Matches(schedule: seq<Action>, trace: seq<Action>) {
    |schedule| == |trace| && forall i :: 0 <= i < |schedule| ==> Matching(schedule[i], trace[i])
  }

  predicate Matching(a: Action, b: Action) {
    if a.Append? then b.Append? else b == a
  }

  predicate InStep(file: LogFile, s: State)
    reads file
  {
    s.file == file.contents && |file.contents| <= MAX_LOG_BYTES && (s.phase == Exited(false) || file.AtEnd())
  }

  method AppendOn(file: LogFile, s: State, fault: Fault, ghost base: Bytes) returns (failure: Option<Bytes>)
    requires InStep(file, s) && Inv(base, s)
    modifies file
    ensures InStep(file, Apply(s, Append(failure)))
    ensures s.phase.Appending? && fault.NoFault? ==> failure.None?
  {
    failure := None;
    if s.phase.Appending? {
      ReceivedSized(base, s);
      var ok := file.AppendRecord(s.phase.record, fault);
      if !ok {
        failure := Some(file.contents);
      }
    }
  }

  lemma OthersLeaveFile(s: State, a: Action)
    requires !a.Append?
    ensures Apply(s, a).file == s.file && (Apply(s, a).phase == Exited(false) <==> s.phase == Exited(false))
  {
    if !a.Look? && !a.Receive? {
      ProducersLeaveWorker(s, a);
    }
  }

  method Step(file: LogFile, s: State, a: Action, fault: Fault, ghost base: Bytes) returns (t: State, b: Action)
    requires InStep(file, s) && Inv(base, s)
    modifies file
    ensures t == Apply(s, b) && Matching(a, b) && InStep(file, t) && Inv(base, t)
    ensures fault.NoFault? && s.phase != Exited(false) ==> t.phase != Exited(false)
  {
    b := a;
    if a.Append? {
      var failure := AppendOn(file, s, fault, base);
      b := Append(failure);
      ReceivedSized(base, s);
    } else {
      OthersLeaveFile(s, a);
    }
    t := Apply(s, b);
    ApplyKeepsInv(base, s, b);
  }

  /** The worker's appends go to one file object, whatever the schedule and the faults; with
      no fault it never ends early. */
  method Work(found: Bytes, schedule: seq<Action>, faults: seq<Fault>)
    returns (file: LogFile, s: State, ghost trace: seq<Action>)
    requires |faults| == |schedule|
    ensures fresh(file) && InStep(file, s) && Matches(schedule, trace)
    ensures s == Run(Opened(if |found| > MAX_LOG_BYTES then [] else found), trace)
    ensures (forall i :: 0 <= i < |faults| ==> faults[i].NoFault?) ==> s.phase != Exited(false)
  {
    file := new LogFile(found);
    ghost var base := file.contents;
    s, trace := Opened(file.contents), [];
    Reached(base, []);
    for i := 0 to |schedule|
      invariant fresh(file) && InStep(file, s) && Inv(base, s)
      invariant s == Run(Opened(base), trace) && Matches(schedule[..i], trace)
      invariant (forall j :: 0 <= j < i ==> faults[j].NoFault?) ==> s.phase != Exited(false)
    {
      var t, b := Step(file, s, schedule[i], faults[i], base);
      assert (trace + [b])[..i] == trace;
      s, trace := t, trace + [b];
    }
    assert schedule[..|schedule|] == schedule;
  }
}

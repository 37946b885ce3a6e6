/** The relay's watch protocol: a session tails one route's durable log.

    The durable log, the lossy broadcast of "cursor advanced" events and the watch
    session are one state. Every step that runs without an `await` in the source is one
    action, and any sequence of actions is a run: an action that is not enabled changes
    nothing. So a statement about `Run(Subscribed(relay, route), actions)` for every `actions`
    holds for every interleaving of submitters, cancellations, broadcast lag, timers and
    page sizes. */
module RelayWatch {
  import opened Wrappers

  const EVENT_CAPACITY: nat := 1024
  const MAX_CURSOR: nat := 0x7FFF_FFFF_FFFF_FFFF

  /** Commits move the route's epoch, proposals are bound to it, anything else ignores it. */
  datatype Delivery = GroupCommit | GroupProposal | Unordered

  datatype Envelope = Envelope(
    id: nat, body: string, expires: nat, delivery: Delivery, parentEpoch: Option<nat>)
  datatype Entry = Entry(cursor: nat, envelope: Envelope)
  datatype Event = Event(route: nat, cursor: nat)
  datatype Page = Page(entries: seq<Entry>, nextCursor: nat, hasMore: bool)

  datatype Phase =
    | Handshake            // subscribed, waiting for the replay request
    | Idle                 // parked in the select loop
    | Draining             // entered drain_replay, page not read yet
    | Sending(page: Page)  // page read, write to the socket in progress
    | Closed

  datatype Relay = Relay(
    log: seq<Entry>,        // committed envelopes of the watched route
    nextCursor: nat,
    epoch: nat,
    inFlight: set<nat>,     // committed, publish_if_new not reached yet
    lost: set<nat>,         // committed, submitter dropped before publish_if_new
    events: seq<Event>)     // everything ever sent on the broadcast channel

  datatype Session = Session(
    route: nat,
    position: nat,          // the receiver's next index into events
    phase: Phase,
    initial: nat,
    cursor: nat,
    limit: nat,
    replayPending: bool,
    sent: seq<Entry>,       // envelopes written to the socket so far
    seen: nat)              // length of the log at the most recent page read

  datatype State = State(relay: Relay, session: Session)

  datatype Action =
    | Submit(envelope: Envelope, now: nat)
    | Publish(cursor: nat)
    | Abandon(cursor: nat)
    | OtherRoute(event: Event)
    | Request(after: nat, limit: nat)
    | Wake
    | Receive
    | SafetyTick
    | Load(take: nat)
    | Sent
    | Close

  /** The state right after `subscribe`, which precedes the replay request. */
  function Subscribed(relay: Relay, route: nat): State {
    State(relay, Session(route, |relay.events|, Handshake, 0, 0, 1, false, [], 0))
  }

  // ------------------------------------------------------------------ the durable log

  ghost predicate Increasing(log: seq<Entry>) {
    forall i, j :: 0 <= i < j < |log| ==> log[i].cursor < log[j].cursor
  }

  /** How many of the first `n` entries lie at or below `cursor`. */
  function CountUpTo(log: seq<Entry>, cursor: nat, n: nat): (k: nat)
    requires n <= |log|
    ensures k <= n
    ensures k > 0 ==> log[k - 1].cursor <= cursor
    ensures forall i :: k <= i < n ==> cursor < log[i].cursor
  {
    if n == 0 || log[n - 1].cursor <= cursor then n else CountUpTo(log, cursor, n - 1)
  }

  /** Where replay after `cursor` starts. */
  function Position(log: seq<Entry>, cursor: nat): (n: nat) {
    CountUpTo(log, cursor, |log|)
  }

  /** The page holding the first `take` entries after `cursor`, or fewer at the end. */
  function PageAt(log: seq<Entry>, cursor: nat, take: nat): (page: Page) {
    var from := Position(log, cursor);
    var upto := if from + take < |log| then from + take else |log|;
    Page(log[from..upto], if from < upto then log[upto - 1].cursor else cursor, upto < |log|)
  }

  // ------------------------------------------------------------------ one step

  predicate Known(log: seq<Entry>, id: nat) {
    exists i :: 0 <= i < |log| && log[i].envelope.id == id
  }

  /** The cursor allocation finds the route in the epoch the envelope expects. */
  predicate EpochFits(epoch: nat, e: Envelope) {
    match e.delivery
    case GroupCommit => e.parentEpoch == Some(epoch) && epoch < MAX_CURSOR
    case GroupProposal => e.parentEpoch == Some(epoch)
    case Unordered => true
  }

  /** One submit transaction: a known envelope id, an expired envelope, a stale epoch or an
      exhausted sequence adds nothing. */
  function SubmitStep(r: Relay, e: Envelope, now: nat): Relay {
    if Known(r.log, e.id) || e.expires <= now || !EpochFits(r.epoch, e) || r.nextCursor >= MAX_CURSOR then r
    else r.(log := r.log + [Entry(r.nextCursor, e)],
            nextCursor := r.nextCursor + 1,
            epoch := if e.delivery.GroupCommit? then r.epoch + 1 else r.epoch,
            inFlight := r.inFlight + {r.nextCursor})
  }

  function PublishStep(r: Relay, route: nat, c: nat): Relay {
    if c !in r.inFlight then r
    else r.(inFlight := r.inFlight - {c}, events := r.events + [Event(route, c)])
  }

  function AbandonStep(r: Relay, c: nat): Relay {
    if c !in r.inFlight then r else r.(inFlight := r.inFlight - {c}, lost := r.lost + {c})
  }

  function RequestStep(s: Session, after: nat, limit: nat): Session {
    if s.phase != Handshake || !(1 <= limit <= 100) then s
    else s.(phase := Draining, initial := after, cursor := after, limit := limit)
  }

  /** `recv` on the broadcast channel: an event, or the lag signal once more than
      EVENT_CAPACITY events are waiting. */
  function ReceiveStep(r: Relay, s: Session): Session {
    if s.phase != Idle || s.position >= |r.events| then s
    else if |r.events| - s.position > EVENT_CAPACITY then
      s.(position := |r.events| - EVENT_CAPACITY, phase := Draining)
    else
      var e := r.events[s.position];
      if e.route == s.route && e.cursor > s.cursor then s.(position := s.position + 1, phase := Draining)
      else s.(position := s.position + 1)
  }

  /** One replay page read; `take` is how many rows the byte budget let through. */
  function LoadStep(log: seq<Entry>, s: Session, take: nat): Session {
    if s.phase != Draining || !(1 <= take <= s.limit) then s
    else s.(phase := Sending(PageAt(log, s.cursor, take)), seen := |log|)
  }

  predicate InvalidTransition(cursor: nat, page: Page) {
    || (|page.entries| == 0 && page.nextCursor != cursor)
    || (|page.entries| > 0 && page.nextCursor <= cursor)
  }

  /** The socket write finished: drain_replay checks and stores the new cursor. */
  function SentStep(s: Session): Session {
    match s.phase
    case Sending(page) =>
      if InvalidTransition(s.cursor, page) then s.(sent := s.sent + page.entries, phase := Closed)
      else s.(sent := s.sent + page.entries, phase := Idle, cursor := page.nextCursor, replayPending := page.hasMore)
    case _ => s
  }

  function Apply(s: State, a: Action): State {
    match a
    case Submit(e, now) => s.(relay := SubmitStep(s.relay, e, now))
    case Publish(c) => s.(relay := PublishStep(s.relay, s.session.route, c))
    case Abandon(c) => s.(relay := AbandonStep(s.relay, c))
    case OtherRoute(e) =>
      if e.route == s.session.route then s else s.(relay := s.relay.(events := s.relay.events + [e]))
    case Request(after, limit) => s.(session := RequestStep(s.session, after, limit))
    case Wake =>
      if s.session.phase == Idle && s.session.replayPending then s.(session := s.session.(phase := Draining)) else s
    case Receive => s.(session := ReceiveStep(s.relay, s.session))
    case SafetyTick => if s.session.phase == Idle then s.(session := s.session.(phase := Draining)) else s
    case Load(take) => s.(session := LoadStep(s.relay.log, s.session, take))
    case Sent => s.(session := SentStep(s.session))
    case Close => s.(session := s.session.(phase := Closed))
  }

  /** The state reached from `s` by performing `actions` in order. */
  function Run(s: State, actions: seq<Action>): State {
    if actions == [] then s
    else Apply(Run(s, actions[..|actions| - 1]), actions[|actions| - 1])
  }

  // ------------------------------------------------------------------ invariants

  ghost predicate LogInv(log: seq<Entry>, nextCursor: nat) {
    && Increasing(log)
    && (forall i :: 0 <= i < |log| ==> log[i].cursor < nextCursor)
  }

  /** An event, an unfinished submit or an abandoned submit accounts for `cursor`. */
  ghost predicate Covered(r: Relay, route: nat, position: nat, cursor: nat) {
    || cursor in r.inFlight
    || cursor in r.lost
    || exists i :: position <= i < |r.events| && r.events[i] == Event(route, cursor)
  }

  /** Every log entry above `cursor` is accounted for, and was committed after the last page read. */
  ghost predicate NothingForgotten(r: Relay, route: nat, position: nat, seen: nat, cursor: nat) {
    forall j :: 0 <= j < |r.log| && cursor < r.log[j].cursor ==>
      Covered(r, route, position, r.log[j].cursor) && seen <= j
  }

  /** The envelopes sent are exactly the log entries in (initial, cursor], in order. */
  ghost predicate ExactDelivery(log: seq<Entry>, initial: nat, cursor: nat, sent: seq<Entry>) {
    && Position(log, initial) <= Position(log, cursor)
    && sent == log[Position(log, initial)..Position(log, cursor)]
  }

  ghost predicate DeliveryInv(log: seq<Entry>, nextCursor: nat, initial: nat, cursor: nat, sent: seq<Entry>) {
    && initial <= cursor
    && (cursor == initial || cursor < nextCursor)
    && ExactDelivery(log, initial, cursor, sent)
  }

  /** A page in flight is a slice of the current log that starts right after the cursor. */
  ghost predicate PageInv(log: seq<Entry>, cursor: nat, page: Page) {
    var from := Position(log, cursor);
    && from + |page.entries| <= |log|
    && page.entries == log[from..from + |page.entries|]
    && page.nextCursor == (if page.entries == [] then cursor else page.entries[|page.entries| - 1].cursor)
  }

  ghost predicate WakeInv(r: Relay, s: Session) {
    match s.phase
    case Idle => s.replayPending || NothingForgotten(r, s.route, s.position, s.seen, s.cursor)
    case Sending(page) =>
      && PageInv(r.log, s.cursor, page)
      && (page.hasMore || NothingForgotten(r, s.route, s.position, s.seen, page.nextCursor))
    case _ => true
  }

  ghost predicate Inv(s: State) {
    var r, w := s.relay, s.session;
    && LogInv(r.log, r.nextCursor)
    && w.position <= |r.events|
    && w.seen <= |r.log|
    && 1 <= w.limit
    && (w.phase == Handshake ==> w.sent == [] && w.initial == w.cursor)
    && DeliveryInv(r.log, r.nextCursor, w.initial, w.cursor, w.sent)
    && WakeInv(r, w)
  }

  // ------------------------------------------------------------------ preservation

  lemma PositionUnique(log: seq<Entry>, cursor: nat, n: nat)
    requires Increasing(log) && n <= |log|
    requires n == 0 || log[n - 1].cursor <= cursor
    requires n == |log| || cursor < log[n].cursor
    ensures Position(log, cursor) == n
  {
  }

  lemma PositionAppend(log: seq<Entry>, e: Entry, cursor: nat)
    requires Increasing(log + [e])
    ensures Position(log + [e], cursor) == if e.cursor <= cursor then |log| + 1 else Position(log, cursor)
  {
    var longer := log + [e];
    assert forall i :: 0 <= i < |log| ==> log[i] == longer[i];
    PositionUnique(longer, cursor, if e.cursor <= cursor then |log| + 1 else Position(log, cursor));
  }

  lemma SubmitKeepsLog(r: Relay, e: Envelope, now: nat)
    requires LogInv(r.log, r.nextCursor)
    ensures LogInv(SubmitStep(r, e, now).log, SubmitStep(r, e, now).nextCursor)
  {
  }

  lemma SubmitKeepsDelivery(r: Relay, e: Envelope, now: nat, initial: nat, cursor: nat, sent: seq<Entry>)
    requires LogInv(r.log, r.nextCursor)
    requires DeliveryInv(r.log, r.nextCursor, initial, cursor, sent)
    ensures DeliveryInv(SubmitStep(r, e, now).log, SubmitStep(r, e, now).nextCursor, initial, cursor, sent)
  {
    var t := SubmitStep(r, e, now);
    if t != r {
      var entry := Entry(r.nextCursor, e);
      SubmitKeepsLog(r, e, now);
      PositionAppend(r.log, entry, initial);
      PositionAppend(r.log, entry, cursor);
      if cursor < r.nextCursor {
        var from, to := Position(r.log, initial), Position(r.log, cursor);
        assert (r.log + [entry])[from..to] == r.log[from..to];
      }
    }
  }

  lemma SubmitKeepsCoverage(r: Relay, e: Envelope, now: nat, route: nat, position: nat, seen: nat, cursor: nat)
    requires seen <= |r.log|
    requires NothingForgotten(r, route, position, seen, cursor)
    ensures NothingForgotten(SubmitStep(r, e, now), route, position, seen, cursor)
  {
  }

  lemma SubmitKeepsPage(r: Relay, e: Envelope, now: nat, cursor: nat, page: Page)
    requires LogInv(r.log, r.nextCursor) && PageInv(r.log, cursor, page)
    requires cursor < r.nextCursor || page.entries == []
    ensures PageInv(SubmitStep(r, e, now).log, cursor, page)
  {
    if SubmitStep(r, e, now) != r {
      assert forall i :: 0 <= i < |r.log| ==> SubmitStep(r, e, now).log[i] == r.log[i];
      PositionAppend(r.log, Entry(r.nextCursor, e), cursor);
    }
  }

  /** A page ends at its last cursor, and nothing follows it unless `hasMore` says so. */
  lemma PageAtEnds(log: seq<Entry>, cursor: nat, take: nat)
    requires Increasing(log) && 1 <= take
    ensures var page := PageAt(log, cursor, take);
            && PageInv(log, cursor, page)
            && Position(log, page.nextCursor) == Position(log, cursor) + |page.entries|
            && (page.hasMore <==> Position(log, page.nextCursor) < |log|)
            && (page.entries == [] <==> Position(log, cursor) == |log|)
  {
  }

  lemma LoadKeepsWake(r: Relay, w: Session, take: nat)
    requires LogInv(r.log, r.nextCursor) && w.phase == Draining && 1 <= take <= w.limit
    ensures WakeInv(r, LoadStep(r.log, w, take))
  {
    PageAtEnds(r.log, w.cursor, take);
  }

  lemma LoadKeepsInv(s: State, take: nat)
    requires Inv(s)
    ensures Inv(Apply(s, Load(take)))
  {
    if s.session.phase == Draining && 1 <= take <= s.session.limit {
      LoadKeepsWake(s.relay, s.session, take);
    }
  }

  /** Writing a page advances the exact-delivery window by exactly that page. */
  lemma SentKeepsDelivery(log: seq<Entry>, nextCursor: nat, initial: nat, cursor: nat, sent: seq<Entry>, page: Page)
    requires LogInv(log, nextCursor) && DeliveryInv(log, nextCursor, initial, cursor, sent)
    requires PageInv(log, cursor, page)
    ensures !InvalidTransition(cursor, page)
    ensures DeliveryInv(log, nextCursor, initial, page.nextCursor, sent + page.entries)
  {
  }

  lemma SentKeepsInv(s: State)
    requires Inv(s)
    ensures Inv(Apply(s, Sent))
    ensures s.session.phase.Sending? ==> Apply(s, Sent).session.phase == Idle
  {
    var r, w := s.relay, s.session;
    if w.phase.Sending? {
      SentKeepsDelivery(r.log, r.nextCursor, w.initial, w.cursor, w.sent, w.phase.page);
    }
  }

  lemma SubmitKeepsInv(s: State, e: Envelope, now: nat)
    requires Inv(s)
    ensures Inv(Apply(s, Submit(e, now)))
  {
    var r, w := s.relay, s.session;
    SubmitKeepsLog(r, e, now);
    SubmitKeepsDelivery(r, e, now, w.initial, w.cursor, w.sent);
    if w.phase == Idle && !w.replayPending {
      SubmitKeepsCoverage(r, e, now, w.route, w.position, w.seen, w.cursor);
    }
    if w.phase.Sending? {
      SubmitKeepsPage(r, e, now, w.cursor, w.phase.page);
      if !w.phase.page.hasMore {
        SubmitKeepsCoverage(r, e, now, w.route, w.position, w.seen, w.phase.page.nextCursor);
      }
    }
  }

  /** An event that does not wake the session covers nothing above its cursor. */
  lemma SkipKeepsCoverage(r: Relay, route: nat, position: nat, seen: nat, cursor: nat)
    requires position < |r.events| && NothingForgotten(r, route, position, seen, cursor)
    requires r.events[position].route != route || r.events[position].cursor <= cursor
    ensures NothingForgotten(r, route, position + 1, seen, cursor)
  {
    forall j | 0 <= j < |r.log| && cursor < r.log[j].cursor
      ensures Covered(r, route, position + 1, r.log[j].cursor) && seen <= j
    {
      assert Covered(r, route, position, r.log[j].cursor);
    }
  }

  lemma ReceiveKeepsInv(s: State)
    requires Inv(s)
    ensures Inv(Apply(s, Receive))
  {
    var r, w := s.relay, s.session;
    if ReceiveStep(r, w).phase == Idle && w.position < |r.events| && !w.replayPending {
      SkipKeepsCoverage(r, w.route, w.position, w.seen, w.cursor);
    }
  }

  lemma BroadcastKeepsInv(s: State, t: Relay)
    requires Inv(s)
    requires t.log == s.relay.log && t.nextCursor == s.relay.nextCursor && s.relay.events <= t.events
    requires forall c :: c in s.relay.inFlight || c in s.relay.lost ==>
        Covered(t, s.session.route, s.session.position, c)
    ensures Inv(s.(relay := t))
  {
  }

  lemma PublishKeepsInv(s: State, c: nat)
    requires Inv(s)
    ensures Inv(Apply(s, Publish(c)))
  {
    var t := PublishStep(s.relay, s.session.route, c);
    if t != s.relay {
      assert t.events[|s.relay.events|] == Event(s.session.route, c);
      BroadcastKeepsInv(s, t);
    }
  }

  lemma RequestKeepsInv(s: State, after: nat, limit: nat)
    requires Inv(s)
    ensures Inv(Apply(s, Request(after, limit)))
  {
  }

  lemma PhaseKeepsInv(s: State, a: Action)
    requires Inv(s) && (a == Wake || a == SafetyTick || a == Close)
    ensures Inv(Apply(s, a))
  {
  }

  /** Every step of every participant keeps the invariant. */
  lemma ApplyKeepsInv(s: State, a: Action)
    requires Inv(s)
    ensures Inv(Apply(s, a))
  {
    match a
    case Submit(e, now) => SubmitKeepsInv(s, e, now);
    case Load(take) => LoadKeepsInv(s, take);
    case Sent => SentKeepsInv(s);
    case Receive => ReceiveKeepsInv(s);
    case Publish(c) => PublishKeepsInv(s, c);
    case Abandon(c) => BroadcastKeepsInv(s, AbandonStep(s.relay, c));
    case OtherRoute(e) => BroadcastKeepsInv(s, Apply(s, a).relay);
    case Request(after, limit) => RequestKeepsInv(s, after, limit);
    case _ => PhaseKeepsInv(s, a);
  }

  // ------------------------------------------------------------------ theorems over all runs

  ghost predicate Started(r: Relay) {
    && LogInv(r.log, r.nextCursor)
    && DistinctIds(r.log)
  }

  ghost predicate DistinctIds(log: seq<Entry>) {
    forall i, j :: 0 <= i < j < |log| ==> log[i].envelope.id != log[j].envelope.id
  }

  lemma {:induction false} RunKeepsInv(r: Relay, route: nat, actions: seq<Action>)
    requires Started(r)
    ensures Inv(Run(Subscribed(r, route), actions))
  {
    if actions != [] {
      RunKeepsInv(r, route, actions[..|actions| - 1]);
      ApplyKeepsInv(Run(Subscribed(r, route), actions[..|actions| - 1]), actions[|actions| - 1]);
    }
  }

  ghost predicate LagPending(s: State) {
    |s.relay.events| - s.session.position > EVENT_CAPACITY
  }

  /** The event is among the ones the receiver can still read. */
  ghost predicate Queued(s: State, cursor: nat) {
    exists i :: s.session.position <= i < |s.relay.events| && |s.relay.events| - i <= EVENT_CAPACITY
      && s.relay.events[i] == Event(s.session.route, cursor)
  }

  /** How far the session gets without being woken: to its cursor, or to the end of the page
      it is writing. */
  function Reaching(w: Session): nat {
    if w.phase.Sending? then w.phase.page.nextCursor else w.cursor
  }

  /** The session reads another page by itself. */
  predicate ReadsOn(w: Session) {
    match w.phase
    case Idle => w.replayPending
    case Sending(page) => page.hasMore
    case Handshake => true
    case Draining => true
    case Closed => false
  }

  /** No lost wakeup: in every state of an open session, each committed cursor beyond what it
      reaches is on its way, and an abandoned submit hides only what was committed after the
      last page read. */
  lemma NoLostWakeup(r: Relay, route: nat, actions: seq<Action>, j: nat)
    requires Started(r)
    requires var s := Run(Subscribed(r, route), actions);
             s.session.phase != Closed && j < |s.relay.log| && Reaching(s.session) < s.relay.log[j].cursor
    ensures var s := Run(Subscribed(r, route), actions);
            var c := s.relay.log[j].cursor;
            || ReadsOn(s.session)
            || c in s.relay.inFlight
            || Queued(s, c)
            || LagPending(s)
            || (c in s.relay.lost && s.session.seen <= j)
  {
    RunKeepsInv(r, route, actions);
    var s := Run(Subscribed(r, route), actions);
    if !ReadsOn(s.session) {
      RouteFixed(r, route, actions);
      assert Covered(s.relay, route, s.session.position, s.relay.log[j].cursor);
    }
  }

  lemma {:induction false} RouteFixed(r: Relay, route: nat, actions: seq<Action>)
    ensures Run(Subscribed(r, route), actions).session.route == route
  {
    if actions != [] {
      RouteFixed(r, route, actions[..|actions| - 1]);
    }
  }

  /** Exact delivery: after any run the socket has carried the log entries in
      (initial, cursor], in order, without gap or repetition. */
  lemma ExactDeliveryAlways(r: Relay, route: nat, actions: seq<Action>)
    requires Started(r)
    ensures var s := Run(Subscribed(r, route), actions);
            && ExactDelivery(s.relay.log, s.session.initial, s.session.cursor, s.session.sent)
            && DistinctIds(s.session.sent)
            && Increasing(s.session.sent)
  {
    RunKeepsInv(r, route, actions);
    IdsStayDistinct(r, route, actions);
    var s := Run(Subscribed(r, route), actions);
    SliceOfLog(s.relay.log, Position(s.relay.log, s.session.initial), Position(s.relay.log, s.session.cursor));
  }

  lemma SliceOfLog(log: seq<Entry>, from: nat, to: nat)
    requires Increasing(log) && DistinctIds(log) && from <= to <= |log|
    ensures Increasing(log[from..to]) && DistinctIds(log[from..to])
  {
  }

  lemma {:induction false} IdsStayDistinct(r: Relay, route: nat, actions: seq<Action>)
    requires Started(r)
    ensures DistinctIds(Run(Subscribed(r, route), actions).relay.log)
  {
    if actions != [] {
      IdsStayDistinct(r, route, actions[..|actions| - 1]);
      var s := Run(Subscribed(r, route), actions[..|actions| - 1]);
      var t := Apply(s, actions[|actions| - 1]);
      assert t.relay.log == s.relay.log
          || (|t.relay.log| == |s.relay.log| + 1 && s.relay.log == t.relay.log[..|s.relay.log|]);
    }
  }

  /** The cursor never goes back, what was sent stays sent, and the log only grows. */
  lemma {:induction false} RunOnlyAdvances(r: Relay, route: nat, actions: seq<Action>, k: nat)
    requires Started(r) && k <= |actions|
    ensures var s, t := Run(Subscribed(r, route), actions[..k]), Run(Subscribed(r, route), actions);
            && s.relay.log <= t.relay.log
            && s.session.sent <= t.session.sent
            && (s.session.phase != Handshake ==>
                s.session.cursor <= t.session.cursor && s.session.initial == t.session.initial)
    decreases |actions| - k
  {
    if k == |actions| {
      assert actions[..k] == actions;
    } else {
      RunOnlyAdvances(r, route, actions, k + 1);
      assert actions[..k + 1][..k] == actions[..k];
      RunKeepsInv(r, route, actions[..k]);
      var s := Run(Subscribed(r, route), actions[..k]);
      if s.session.phase.Sending? {
        PageInFlightIsValid(s);
      }
      StepAdvances(s, actions[k]);
    }
  }

  /** The "invalid cursor transition" exit of drain_replay is unreachable. */
  lemma PageInFlightIsValid(s: State)
    requires Inv(s) && s.session.phase.Sending?
    ensures !InvalidTransition(s.session.cursor, s.session.phase.page)
  {
  }

  lemma StepAdvances(s: State, a: Action)
    requires s.session.phase.Sending? ==> !InvalidTransition(s.session.cursor, s.session.phase.page)
    ensures var t := Apply(s, a);
            && s.relay.log <= t.relay.log
            && s.session.sent <= t.session.sent
            && (s.session.phase != Handshake ==>
                  s.session.cursor <= t.session.cursor && s.session.initial == t.session.initial
                      && t.session.phase != Handshake)
  {
  }

  /** A parked session with nothing queued, nothing in flight and no abandoned submit has
      delivered the whole log after its initial cursor. */
  lemma QuiescentIsComplete(r: Relay, route: nat, actions: seq<Action>)
    requires Started(r)
    requires var s := Run(Subscribed(r, route), actions);
             && s.session.phase == Idle && !s.session.replayPending
             && s.session.position == |s.relay.events|
             && s.relay.inFlight == {} && s.relay.lost == {}
    ensures var s := Run(Subscribed(r, route), actions);
            s.session.sent == s.relay.log[Position(s.relay.log, s.session.initial)..]
  {
    RunKeepsInv(r, route, actions);
    var s := Run(Subscribed(r, route), actions);
    assert forall j :: 0 <= j < |s.relay.log| ==> s.relay.log[j].cursor <= s.session.cursor;
    assert Position(s.relay.log, s.session.cursor) == |s.relay.log|;
  }

  // ------------------------------------------------------------------ the safety timer catches up

  /** One full drain of a parked session: wake for `reason`, read a page, write it. */
  function Drain(s: State, reason: Action, take: nat): State {
    Apply(Apply(Apply(s, reason), Load(take)), Sent)
  }

  /** `rounds` further drains, each started only by `replay_pending`; drain `n` takes
      `takes(n)` entries. */
  function KeepDraining(s: State, takes: nat -> nat, n: nat, rounds: nat): State
    decreases rounds
  {
    if rounds == 0 then s else KeepDraining(Drain(s, Wake, takes(n)), takes, n + 1, rounds - 1)
  }

  /** Every page holds at least one entry and at most the requested limit. */
  ghost predicate PageSizes(takes: nat -> nat, limit: nat) {
    forall n :: 1 <= takes(n) <= limit
  }

  /** What one drain does to a parked session, in terms of the page it read. */
  lemma DrainAdvances(s: State, reason: Action, take: nat)
    requires Increasing(s.relay.log) && s.session.phase == Idle && 1 <= take <= s.session.limit
    requires reason == SafetyTick || (reason == Wake && s.session.replayPending)
    ensures var t := Drain(s, reason, take);
            var page := PageAt(s.relay.log, s.session.cursor, take);
            && t.relay == s.relay && t.session.limit == s.session.limit && t.session.initial == s.session.initial
            && t.session.phase == Idle
            && t.session.cursor == page.nextCursor && t.session.sent == s.session.sent + page.entries
            && t.session.replayPending == page.hasMore
  {
    PageAtEnds(s.relay.log, s.session.cursor, take);
    assert Apply(s, reason).session == s.session.(phase := Draining);
  }

  /** A parked session that has delivered exactly, and reads on exactly while anything is left. */
  ghost predicate Parked(s: State) {
    var r, w := s.relay, s.session;
    && w.phase == Idle && LogInv(r.log, r.nextCursor)
    && DeliveryInv(r.log, r.nextCursor, w.initial, w.cursor, w.sent)
    && (w.replayPending <==> Position(r.log, w.cursor) < |r.log|)
  }

  /** A drain leaves the session parked, and strictly further unless nothing is left. */
  lemma DrainParks(s: State, reason: Action, take: nat)
    requires s.session.phase == Idle && LogInv(s.relay.log, s.relay.nextCursor) && 1 <= take <= s.session.limit
    requires DeliveryInv(s.relay.log, s.relay.nextCursor, s.session.initial, s.session.cursor, s.session.sent)
    requires reason == SafetyTick || (reason == Wake && s.session.replayPending)
    ensures var t := Drain(s, reason, take);
            && Parked(t) && t.relay == s.relay && t.session.limit == s.session.limit
            && t.session.initial == s.session.initial
            && var n := Position(s.relay.log, t.session.cursor);
               n == |s.relay.log| || n > Position(s.relay.log, s.session.cursor)
  {
    var r, w := s.relay, s.session;
    DrainAdvances(s, reason, take);
    PageAtEnds(r.log, w.cursor, take);
    SentKeepsDelivery(r.log, r.nextCursor, w.initial, w.cursor, w.sent, PageAt(r.log, w.cursor, take));
  }

  lemma ParkedStays(s: State, take: nat)
    requires s.session.phase == Idle && !s.session.replayPending
    ensures Drain(s, Wake, take) == s
  {
  }

  lemma {:induction false} KeepDrainingFinishes(s: State, takes: nat -> nat, n: nat, rounds: nat)
    requires Parked(s) && PageSizes(takes, s.session.limit)
    requires |s.relay.log| - Position(s.relay.log, s.session.cursor) <= rounds
    ensures var t := KeepDraining(s, takes, n, rounds);
            && t.relay == s.relay && t.session.initial == s.session.initial
            && Parked(t) && !t.session.replayPending
    decreases rounds
  {
    if rounds > 0 {
      if s.session.replayPending {
        DrainParks(s, Wake, takes(n));
      } else {
        ParkedStays(s, takes(n));
      }
      KeepDrainingFinishes(Drain(s, Wake, takes(n)), takes, n + 1, rounds - 1);
    }
  }

  lemma CatchUp(s: State, takes: nat -> nat)
    requires s.session.phase == Idle && LogInv(s.relay.log, s.relay.nextCursor) && PageSizes(takes, s.session.limit)
    requires DeliveryInv(s.relay.log, s.relay.nextCursor, s.session.initial, s.session.cursor, s.session.sent)
    ensures var t := KeepDraining(Drain(s, SafetyTick, takes(0)), takes, 1, |s.relay.log|);
            && t.relay == s.relay && t.session.initial == s.session.initial
            && Parked(t) && !t.session.replayPending
  {
    DrainParks(s, SafetyTick, takes(0));
    KeepDrainingFinishes(Drain(s, SafetyTick, takes(0)), takes, 1, |s.relay.log|);
  }

  /** Whatever was lost before it, one safety tick followed by the session's own drains
      delivers the whole log, however many entries each of the pages carries. */
  lemma SafetyTickCatchesUp(r: Relay, route: nat, actions: seq<Action>, takes: nat -> nat)
    requires Started(r)
    requires var s := Run(Subscribed(r, route), actions);
             s.session.phase == Idle && PageSizes(takes, s.session.limit)
    ensures var s := Run(Subscribed(r, route), actions);
            var t := KeepDraining(Drain(s, SafetyTick, takes(0)), takes, 1, |s.relay.log|);
            && t.session.phase == Idle && !t.session.replayPending
            && t.session.sent == s.relay.log[Position(s.relay.log, s.session.initial)..]
  {
    RunKeepsInv(r, route, actions);
    CatchUp(Run(Subscribed(r, route), actions), takes);
  }
}

/** The relay application and one watch session as the objects the source updates in place.

    Each method is one stretch of source code without an `await`; its contract names the
    step of `RelayWatch` it performs. `WatchSession.Follow` is the select loop driven by an
    arbitrary schedule. */
module WatchSessions {
  import opened RelayWatch
  import opened ReplayPages

  /** Why a submit adds nothing; NotAllocated is a stale epoch or an exhausted sequence. */
  datatype Refusal = IdempotencyConflict | ExpiredEnvelope | NotAllocated
  datatype Outcome = Rejected(reason: Refusal) | Duplicate(existing: nat) | Accepted(cursor: nat)

  ghost predicate InvalidRowAhead(log: seq<Entry>, cursor: nat) {
    exists i :: Position(log, cursor) <= i < |log| && !ValidLength(|log[i].envelope.body|)
  }

  /** The scheduled action happened; only a page read decides its own size, or fails. */
  predicate Performs(choice: Action, action: Action) {
    action == choice || (choice.Load? && (action.Load? || action == Close))
  }

  ghost predicate Performed(schedule: seq<Action>, performed: seq<Action>) {
    |performed| == |schedule| && forall i :: 0 <= i < |schedule| ==> Performs(schedule[i], performed[i])
  }

  lemma PerformedNext(schedule: seq<Action>, performed: seq<Action>, action: Action)
    requires |performed| < |schedule| && Performed(schedule[..|performed|], performed)
    requires Performs(schedule[|performed|], action)
    ensures Performed(schedule[..|performed| + 1], performed + [action])
  {
  }

  class RelayApplication {
    var log: seq<Entry>
    var nextCursor: nat
    var epoch: nat
    var inFlight: set<nat>
    ghost var lost: set<nat>
    var events: seq<Event>

    ghost function View(): Relay
      reads this
    {
      Relay(log, nextCursor, epoch, inFlight, lost, events)
    }

    constructor ()
      ensures View() == Relay([], 1, 0, {}, {}, [])
      ensures Started(View())
    {
      log, nextCursor, epoch, inFlight, lost, events := [], 1, 0, {}, {}, [];
    }

    /** The idempotent submit transaction. A repeated identical envelope reports its cursor
        even after it has expired; only a new one is checked for expiry and epoch. */
    method SubmitEncoded(e: Envelope, now: nat) returns (outcome: Outcome)
      modifies this
      ensures View() == SubmitStep(old(View()), e, now)
      ensures outcome.Accepted? <==> View() != old(View())
      ensures outcome.Accepted? ==> log == old(log) + [Entry(outcome.cursor, e)] && outcome.cursor == old(nextCursor)
      ensures outcome.Duplicate? ==>
                exists i :: 0 <= i < |log| && log[i].cursor == outcome.existing && log[i].envelope == e
      ensures outcome == Rejected(IdempotencyConflict) ==> Known(log, e.id)
      ensures outcome == Rejected(ExpiredEnvelope) <==> !Known(log, e.id) && e.expires <= now
      ensures outcome == Rejected(NotAllocated) <==>
                !Known(log, e.id) && e.expires > now && (!EpochFits(epoch, e) || nextCursor >= MAX_CURSOR)
                && View() == old(View())
    {
      var i := 0;
      while i < |log|
        invariant 0 <= i <= |log|
        invariant forall k :: 0 <= k < i ==> log[k].envelope.id != e.id
      {
        if log[i].envelope.id == e.id {
          return if log[i].envelope == e then Duplicate(log[i].cursor) else Rejected(IdempotencyConflict);
        }
        i := i + 1;
      }
      if e.expires <= now {
        return Rejected(ExpiredEnvelope);
      }
      if !EpochFits(epoch, e) || nextCursor >= MAX_CURSOR {
        return Rejected(NotAllocated);
      }
      ghost var before := log;
      log := log + [Entry(nextCursor, e)];
      assert log[|before|].envelope.id == e.id;
      inFlight := inFlight + {nextCursor};
      nextCursor := nextCursor + 1;
      if e.delivery.GroupCommit? {
        epoch := epoch + 1;
      }
      outcome := Accepted(nextCursor - 1);
    }

    /** The submitter of `cursor` resumes after its commit and notifies the channel. */
    method PublishIfNew(route: nat, cursor: nat)
      modifies this
      ensures View() == PublishStep(old(View()), route, cursor)
    {
      if cursor in inFlight {
        inFlight := inFlight - {cursor};
        events := events + [Event(route, cursor)];
      }
    }

    /** The submitter of `cursor` is dropped between its commit and its notification. */
    method DropSubmitter(cursor: nat)
      modifies this
      ensures View() == AbandonStep(old(View()), cursor)
    {
      if cursor in inFlight {
        inFlight := inFlight - {cursor};
        lost := lost + {cursor};
      }
    }

    method NotifyOther(event: Event)
      modifies this
      ensures View() == old(View()).(events := old(events) + [event])
    {
      events := events + [event];
    }
  }

  class WatchSession {
    const relay: RelayApplication
    const route: nat
    var position: nat
    var phase: Phase
    ghost var initial: nat
    var cursor: nat
    var limit: nat
    var replayPending: bool
    ghost var sent: seq<Entry>
    ghost var seen: nat

    ghost function View(): Session
      reads this
    {
      Session(route, position, phase, initial, cursor, limit, replayPending, sent, seen)
    }

    ghost function Whole(): State
      reads this, relay
    {
      State(relay.View(), View())
    }

    /** Subscribing comes first: every later notification is at or after `position`. */
    constructor (relay: RelayApplication, route: nat)
      ensures this.relay == relay && Whole() == Subscribed(relay.View(), route)
    {
      this.relay, this.route := relay, route;
      position, phase := |relay.events|, Handshake;
      initial, cursor, limit, replayPending, sent, seen := 0, 0, 1, false, [], 0;
    }

    method Start(after: nat, requested: nat)
      modifies this
      ensures View() == RequestStep(old(View()), after, requested)
    {
      if phase == Handshake && 1 <= requested <= 100 {
        phase, initial, cursor, limit := Draining, after, after, requested;
      }
    }

    method ReceiveEvent()
      modifies this
      ensures View() == ReceiveStep(relay.View(), old(View()))
    {
      if phase != Idle || position >= |relay.events| {
        return;
      }
      if |relay.events| - position > EVENT_CAPACITY {
        position, phase := |relay.events| - EVENT_CAPACITY, Draining;
      } else {
        var event := relay.events[position];
        position := position + 1;
        if event.route == route && event.cursor > cursor {
          phase := Draining;
        }
      }
    }

    /** First half of drain_replay: read the page that will be written. */
    method ReadPage() returns (ghost action: Action)
      requires 1 <= limit
      modifies this
      ensures action.Load? || action == Close
      ensures action == Close ==> InvalidRowAhead(relay.log, cursor)
      ensures old(phase) == Draining && action.Load? ==> phase.Sending? && Maximal(relay.log, cursor, limit, phase.page)
      ensures action.Load? ==> View() == LoadStep(relay.log, old(View()), action.take)
      ensures action == Close ==> View() == old(View()).(phase := Closed)
    {
      if phase != Draining {
        return Load(1);
      }
      var loaded, take := LoadReplayEntries(relay.log, cursor, limit);
      match loaded
      case LoadFailed =>
        phase := Closed;
        action := Close;
      case LoadedPage(page) =>
        phase, seen := Sending(page), |relay.log|;
        action := Load(take);
    }

    /** Second half of drain_replay: the write succeeded. */
    method FinishPage()
      modifies this
      ensures View() == SentStep(old(View()))
    {
      if phase.Sending? {
        var page := phase.page;
        sent := sent + page.entries;
        if InvalidTransition(cursor, page) {
          phase := Closed;
        } else {
          phase, cursor, replayPending := Idle, page.nextCursor, page.hasMore;
        }
      }
    }

    /** One turn of whichever participant `choice` names; a page read picks its own size. */
    method Turn(choice: Action) returns (ghost action: Action)
      requires 1 <= limit
      modifies this, relay
      ensures Performs(choice, action)
      ensures Whole() == Apply(old(Whole()), action)
    {
      action := choice;
      match choice
      case Submit(e, now) => var _ := relay.SubmitEncoded(e, now);
      case Publish(c) => relay.PublishIfNew(route, c);
      case Abandon(c) => relay.DropSubmitter(c);
      case OtherRoute(event) =>
        if event.route != route {
          relay.NotifyOther(event);
        }
      case Request(after, requested) => Start(after, requested);
      case Wake =>
        if phase == Idle && replayPending {
          phase := Draining;
        }
      case Receive => ReceiveEvent();
      case SafetyTick =>
        if phase == Idle {
          phase := Draining;
        }
      case Load(_) => action := ReadPage();
      case Sent => FinishPage();
      case Close => phase := Closed;
    }

    /** Any schedule whatsoever keeps exact delivery and never forgets a committed cursor. */
    method Follow(schedule: seq<Action>) returns (ghost performed: seq<Action>)
      requires Inv(Whole())
      modifies this, relay
      ensures Inv(Whole()) && |performed| == |schedule|
      ensures Performed(schedule, performed)
      ensures Whole() == Run(old(Whole()), performed)
      ensures ExactDelivery(relay.log, initial, cursor, sent)
    {
      performed := [];
      ghost var start := Whole();
      for n := 0 to |schedule|
        invariant Inv(Whole()) && |performed| == n && Whole() == Run(start, performed)
        invariant Performed(schedule[..n], performed)
      {
        ghost var before := Whole();
        ghost var action := Turn(schedule[n]);
        ApplyKeepsInv(before, action);
        assert (performed + [action])[..n] == performed;
        PerformedNext(schedule, performed, action);
        performed := performed + [action];
      }
      assert schedule[..|schedule|] == schedule;
    }
  }
}

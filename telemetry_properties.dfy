/**
 What the tracking session promises over whole traces of actions: the
 invariant is kept, identifiers never change, the buffer and the logs only
 grow, the scroll watermark and the reported active time never go down,
 the init beacon goes out at most once, an in-flight snapshot send blocks
 every other one, and the cooldown flag is cleared only by its timeout.
 */
module TelemetryProperties {
  import opened TelemetryTypes
  import opened TelemetrySpec
  import opened TelemetryInvariant

  // ---------------------------------------------------------------------
  // The invariant, identity, append-only state and monotone accumulators

  /** Every trace from a new session keeps the session invariant. */
  lemma InvariantHolds(visitUid: string, sessionId: string, now: int, trace: seq<Timed>)
    requires visitUid != "" && sessionId != ""
    ensures Inv(Run(NewSession(visitUid, sessionId, now), trace))
  {
    RunKeeps(NewSession(visitUid, sessionId, now), trace);
  }

  /** `visitUid`, `sessionId` and the start time are assigned once and never change. */
  lemma IdentifiersNeverChange(s: Session, trace: seq<Timed>)
    ensures Run(s, trace).visitUid == s.visitUid
    ensures Run(s, trace).sessionId == s.sessionId
    ensures Run(s, trace).startTime == s.startTime
  {
    RunKeeps(s, trace);
  }

  /** The scroll watermark never decreases. */
  lemma ScrollDepthNeverDecreases(s: Session, trace: seq<Timed>)
    ensures s.scrollDepth <= Run(s, trace).scrollDepth
  {
    RunKeeps(s, trace);
  }

  /**
   Events are only ever appended: earlier events keep their place and
   content, and every event in the buffer belongs to this visit.
   */
  lemma EventsAppendOnly(s: Session, trace: seq<Timed>)
    requires Inv(s)
    ensures s.events <= Run(s, trace).events
    ensures forall i :: 0 <= i < |Run(s, trace).events| ==> Run(s, trace).events[i].visitUid == s.visitUid
  {
    RunKeeps(s, trace);
  }

  /** Both fallback logs only grow at the end. */
  lemma FallbackLogsAppendOnly(s: Session, trace: seq<Timed>)
    ensures s.trackingLog <= Run(s, trace).trackingLog
    ensures s.initLog <= Run(s, trace).initLog
  {
    RunKeeps(s, trace);
  }

  // ---------------------------------------------------------------------
  // What a single action leaves alone

  /**
   An in-flight snapshot send is left as it was: still in flight at the
   same stage, nothing more transmitted, same captured events.
   */
  predicate SendHeld(s: Session, r: Session)
  {
    s.isSending ==>
      && r.isSending && r.awaitingReply == s.awaitingReply
      && r.trackingRequests == s.trackingRequests && r.sendEvents == s.sendEvents
  }

  /** A set cooldown flag stays set. */
  predicate CooldownHeld(s: Session, r: Session)
  {
    s.hasSentBeforeUnload ==> r.hasSentBeforeUnload
  }

  /** The action is a continuation of an in-flight snapshot send: its IP lookup resolving, or its reply. */
  predicate AdvancesSend(a: Action)
  {
    a.Invoke? && (a.call.TrackingPosts? || a.call.TrackingReplies?)
  }

  /** The action is the cooldown timeout. */
  predicate ResetsCooldown(a: Action)
  {
    a.Fire? && a.callback.CooldownReset?
  }

  lemma InputHoldsSend(s: Session, at: int, a: Input)
    ensures SendHeld(s, InputStep(s, at, a))
    ensures !s.isSending ==> !InputStep(s, at, a).isSending
  {
    match a
    case OnFocus =>
    case OnBlur =>
    case OnVisibilityChange(hidden) =>
    case OnScroll(percent) =>
    case OnClick =>
    case OnMouseMove =>
    case OnLoad(loadTime) =>
  }

  lemma InputHoldsCooldown(s: Session, at: int, a: Input)
    ensures CooldownHeld(s, InputStep(s, at, a))
  {
  }

  lemma CallbackHolds(s: Session, at: int, a: Callback)
    ensures SendHeld(s, CallbackStep(s, at, a))
    ensures !s.isSending ==> !CallbackStep(s, at, a).isSending
    ensures !a.CooldownReset? ==> CooldownHeld(s, CallbackStep(s, at, a))
  {
    match a
    case ScrollDebounce =>
    case MouseDebounce =>
    case CooldownReset =>
    case Refresh(ipAddress) =>
  }

  lemma CallHolds(s: Session, at: int, a: Call)
    ensures !a.TrackingPosts? && !a.TrackingReplies? ==> SendHeld(s, CallStep(s, at, a))
    ensures CooldownHeld(s, CallStep(s, at, a))
  {
  }

  lemma LifecycleHolds(s: Session, at: int, a: Lifecycle)
    ensures SendHeld(s, LifecycleStep(s, at, a)) && CooldownHeld(s, LifecycleStep(s, at, a))
  {
  }

  /** Timer handlers move active time between the accumulator and the running span; the rest leave the timer alone. */
  lemma InputKeepsActiveTime(s: Session, at: int, a: Input)
    ensures ReportedActiveTime(InputStep(s, at, a), at) == ReportedActiveTime(s, at)
  {
  }

  lemma CallbackKeepsActiveTime(s: Session, at: int, a: Callback)
    ensures ReportedActiveTime(CallbackStep(s, at, a), at) == ReportedActiveTime(s, at)
  {
    match a
    case ScrollDebounce =>
    case MouseDebounce =>
    case CooldownReset =>
    case Refresh(ipAddress) =>
  }

  lemma CallKeepsActiveTime(s: Session, at: int, a: Call)
    ensures ReportedActiveTime(CallStep(s, at, a), at) == ReportedActiveTime(s, at)
  {
    match a
    case PageViewIncrement =>
    case SendTracking =>
    case TrackingPosts(ipAddress, config, storageWritable) =>
    case TrackingReplies(ipAddress, reply, storageWritable) =>
    case SendInit(config, reply, storageWritable) =>
  }

  lemma LifecycleKeepsActiveTime(s: Session, at: int, a: Lifecycle)
    ensures ReportedActiveTime(LifecycleStep(s, at, a), at) == ReportedActiveTime(s, at)
  {
  }

  /**
   Only the continuations of a send advance or end it, only the cooldown timeout clears the
   cooldown flag, and no action changes the active time reported at the
   moment it happens.
   */
  lemma StepHolds(s: Session, t: Timed)
    ensures !AdvancesSend(t.action) ==> SendHeld(s, Step(s, t))
    ensures !ResetsCooldown(t.action) ==> CooldownHeld(s, Step(s, t))
    ensures ReportedActiveTime(Step(s, t), t.at) == ReportedActiveTime(s, t.at)
  {
    match t.action
    case Page(a) => InputHoldsSend(s, t.at, a); InputHoldsCooldown(s, t.at, a); InputKeepsActiveTime(s, t.at, a);
    case Fire(a) => CallbackHolds(s, t.at, a); CallbackKeepsActiveTime(s, t.at, a);
    case Invoke(a) => CallHolds(s, t.at, a); CallKeepsActiveTime(s, t.at, a);
    case Life(a) => LifecycleHolds(s, t.at, a); LifecycleKeepsActiveTime(s, t.at, a);
  }

  // ---------------------------------------------------------------------
  // The init beacon

  /** Once the init flag is set, nothing is ever sent or logged for the beacon again. */
  lemma InitFlagFreezesBeacon(s: Session, trace: seq<Timed>)
    requires s.hasSentInitTracking
    ensures Run(s, trace).hasSentInitTracking
    ensures Run(s, trace).initRequests == s.initRequests
    ensures Run(s, trace).initLog == s.initLog
  {
    RunKeeps(s, trace);
  }

  /** Over a whole session the beacon is transmitted at most once and logged at most once. */
  lemma InitBeaconAtMostOnce(visitUid: string, sessionId: string, now: int, trace: seq<Timed>)
    requires visitUid != "" && sessionId != ""
    ensures |Run(NewSession(visitUid, sessionId, now), trace).initRequests| <= 1
    ensures |Run(NewSession(visitUid, sessionId, now), trace).initLog| <= 1
  {
    RunKeeps(NewSession(visitUid, sessionId, now), trace);
  }

  /**
   Two calls in succession with the endpoint configured: the second is
   skipped and exactly one beacon is transmitted, whatever the first reply.
   */
  lemma InitTwiceSendsOnce(s: Session, now: int, later: int, config: Config,
                           reply: Reply, laterReply: Reply, storageWritable: bool)
    requires !s.hasSentInitTracking && Configured(config.endpoint)
    ensures InitOutcome(SendInitTracking(s, now, config, reply, storageWritable), config, laterReply) == Skipped
    ensures SendInitTracking(SendInitTracking(s, now, config, reply, storageWritable), later, config, laterReply, storageWritable).initRequests
            == s.initRequests + [Beacon(s, config, now)]
  {
  }

  // ---------------------------------------------------------------------
  // The single-flight snapshot send

  /** No action of the trace is a continuation of the snapshot send. */
  predicate NoSendAdvance(trace: seq<Timed>)
  {
    forall i :: 0 <= i < |trace| ==> !AdvancesSend(trace[i].action)
  }

  /**
   While a snapshot send is in flight, no other send can start: until it
   advances, `isSending` stays set at the same stage, nothing further is transmitted and the
   captured event list stays the one the first call took.
   */
  lemma {:induction false} InFlightSendBlocksOthers(s: Session, trace: seq<Timed>)
    requires s.isSending && NoSendAdvance(trace)
    ensures Run(s, trace).isSending && Run(s, trace).awaitingReply == s.awaitingReply
    ensures Run(s, trace).trackingRequests == s.trackingRequests
    ensures Run(s, trace).sendEvents == s.sendEvents
    decreases |trace|
  {
    if trace != [] {
      assert !AdvancesSend(trace[0].action);
      StepHolds(s, trace[0]);
      assert NoSendAdvance(trace[1..]) by {
        forall i | 0 <= i < |trace[1..]| ensures !AdvancesSend(trace[1..][i].action) {
          assert trace[1..][i] == trace[i + 1];
        }
      }
      InFlightSendBlocksOthers(Step(s, trace[0]), trace[1..]);
    }
  }

  /**
   The payload is fixed when the IP lookup resolves: whatever happens while
   the POST is out (clicks, scrolls, further calls), the posted snapshot is
   the one taken at that moment and the send stays in flight.
   */
  lemma PayloadFixedWhilePosted(s: Session, now: int, ipAddress: Option<string>, config: Config,
                                storageWritable: bool, trace: seq<Timed>)
    requires s.isSending && !s.awaitingReply && ConfigError(config).None? && NoSendAdvance(trace)
    ensures Run(PostSendTracking(s, now, ipAddress, config, storageWritable), trace).isSending
    ensures Run(PostSendTracking(s, now, ipAddress, config, storageWritable), trace).awaitingReply
    ensures Run(PostSendTracking(s, now, ipAddress, config, storageWritable), trace).trackingRequests ==
      s.trackingRequests + [TrackingPayload(TakeSnapshot(s, now, ipAddress), s.sendEvents, config.accessToken.value, config.pixelId.value)]
  {
    InFlightSendBlocksOthers(PostSendTracking(s, now, ipAddress, config, storageWritable), trace);
  }

  /** Calling `sendTrackingData` again right away changes nothing. */
  lemma BeginIsIdempotent(s: Session)
    ensures BeginSendTracking(BeginSendTracking(s)) == BeginSendTracking(s)
  {
  }

  // ---------------------------------------------------------------------
  // The teardown cooldown

  /** No action of the trace is the cooldown timeout. */
  predicate NoCooldownReset(trace: seq<Timed>)
  {
    forall i :: 0 <= i < |trace| ==> !ResetsCooldown(trace[i].action)
  }

  /** `hasSentBeforeUnload`, once set, stays set until a cooldown timeout fires. */
  lemma {:induction false} CooldownClearedOnlyByReset(s: Session, trace: seq<Timed>)
    requires s.hasSentBeforeUnload && NoCooldownReset(trace)
    ensures Run(s, trace).hasSentBeforeUnload
    decreases |trace|
  {
    if trace != [] {
      assert !ResetsCooldown(trace[0].action);
      StepHolds(s, trace[0]);
      assert NoCooldownReset(trace[1..]) by {
        forall i | 0 <= i < |trace[1..]| ensures !ResetsCooldown(trace[1..][i].action) {
          assert trace[1..][i] == trace[i + 1];
        }
      }
      CooldownClearedOnlyByReset(Step(s, trace[0]), trace[1..]);
    }
  }

  /**
   After a snapshot send has started, `beforeunload` and cleanup send
   nothing until a cooldown timeout fires: they only stop the timer.
   */
  lemma TeardownSuppressedAfterSend(s: Session, trace: seq<Timed>, now: int)
    requires !s.isSending && NoCooldownReset(trace)
    ensures HandleBeforeUnload(Run(BeginSendTracking(s), trace), now) == StopTimer(Run(BeginSendTracking(s), trace), now)
    ensures Cleanup(Run(BeginSendTracking(s), trace)) == Run(BeginSendTracking(s), trace)
  {
    CooldownClearedOnlyByReset(BeginSendTracking(s), trace);
  }

  /**
   The cooldown reset timeouts are never cancelled, so the timeout of an
   earlier send clears the flag a later send raised: with that earlier
   timeout still pending, a send that completes is followed, once the
   earlier timeout fires, by a teardown that sends again although the
   later send's own 5 s have not elapsed.
   */
  lemma EarlierResetClearsLaterCooldown(s: Session, t1: int, t2: int, now: int, ipAddress: Option<string>,
                                        config: Config, storageWritable: bool)
    requires !s.isSending && !s.awaitingReply && s.pendingCooldownResets > 0
    requires ConfigError(config).None?
    ensures var sent := ReplySendTracking(PostSendTracking(BeginSendTracking(s), t1, ipAddress, config, storageWritable),
                                          t2, ipAddress, Accepted, storageWritable);
            var reset := CooldownResetFires(sent);
            |sent.trackingRequests| == |s.trackingRequests| + 1 &&
            reset.pendingCooldownResets > 0 && TeardownSends(reset) &&
            HandleBeforeUnload(reset, now).isSending && HandleBeforeUnload(reset, now).sendEvents == s.events
  {
  }

  // ---------------------------------------------------------------------
  // The activity timer

  /** The actions happen at non-decreasing times, from `from` up to `until`. */
  predicate ClockRuns(trace: seq<Timed>, from: int, until: int)
    decreases |trace|
  {
    if trace == [] then from <= until
    else from <= trace[0].at && ClockRuns(trace[1..], trace[0].at, until)
  }

  /** Read later, the active time of an unchanged session is never less. */
  lemma ReportedGrowsWithClock(s: Session, from: int, until: int)
    requires from <= until
    ensures ReportedActiveTime(s, from) <= ReportedActiveTime(s, until)
  {
  }

  /**
   With a clock that never goes back, the reported active time never
   decreases across any trace of actions.
   */
  lemma {:induction false} ActiveTimeNeverDecreases(s: Session, trace: seq<Timed>, from: int, until: int)
    requires ClockRuns(trace, from, until)
    ensures ReportedActiveTime(s, from) <= ReportedActiveTime(Run(s, trace), until)
    decreases |trace|
  {
    if trace == [] {
      ReportedGrowsWithClock(s, from, until);
    } else {
      ReportedGrowsWithClock(s, from, trace[0].at);
      StepHolds(s, trace[0]);
      ActiveTimeNeverDecreases(Step(s, trace[0]), trace[1..], trace[0].at, until);
    }
  }

  /**
   A session starts at 0, the page is hidden at 10 s and visible again at
   15 s; a snapshot at 20 s reports 15 s of active time.
   */
  lemma ActiveTimeExample()
    ensures ReportedActiveTime(
              Run(NewSession("visit", "session", 0),
                  [Timed(10000, Page(OnVisibilityChange(true))), Timed(15000, Page(OnVisibilityChange(false)))]),
              20000) == 15000
  {
    var trace := [Timed(10000, Page(OnVisibilityChange(true))), Timed(15000, Page(OnVisibilityChange(false)))];
    var s0 := NewSession("visit", "session", 0);
    var s1 := Step(s0, trace[0]);
    var s2 := Step(s1, trace[1]);
    assert trace[1..] == [trace[1]] && trace[1..][1..] == [];
    assert Run(s0, trace) == Run(s1, trace[1..]) == Run(s2, []) == s2;
  }

  // ---------------------------------------------------------------------
  // Mouse movements

  /** `k` mouse movements in a row, within one debounce period. */
  function MoveMouse(s: Session, k: nat): (r: Session)
  {
    if k == 0 then s else HandleMouseMove(MoveMouse(s, k - 1))
  }

  lemma {:induction false} MoveMouseCounts(s: Session, k: nat)
    ensures MoveMouse(s, k).mouseMovementCount == s.mouseMovementCount + k
    ensures MoveMouse(s, k).events == s.events && MoveMouse(s, k).visitUid == s.visitUid
    ensures k > 0 ==> MoveMouse(s, k).mouseTimerArmed
  {
    if k > 0 {
      MoveMouseCounts(s, k - 1);
    }
  }

  /**
   A burst of movements followed by a quiet second buffers one event when
   the count reached is a multiple of ten, and none otherwise.
   */
  lemma BurstThenQuiet(s: Session, k: nat, now: int)
    requires k > 0
    ensures MouseDebounceFires(MoveMouse(s, k), now).events ==
      if (s.mouseMovementCount + k) % MouseEventPeriod == 0
      then s.events + [Event(Scroll, MouseMovements(s.mouseMovementCount + k), now, s.visitUid)]
      else s.events
  {
    MoveMouseCounts(s, k);
  }

  /** Ten movements from a fresh count produce exactly one buffered event, with count ten. */
  lemma TenMovesOneEvent(s: Session, now: int)
    requires s.mouseMovementCount == 0
    ensures MouseDebounceFires(MoveMouse(s, 10), now).events ==
      s.events + [Event(Scroll, MouseMovements(10), now, s.visitUid)]
  {
    BurstThenQuiet(s, 10, now);
  }

  /** `k` movements, each followed by a quiet second. */
  function MoveAndSettle(s: Session, k: nat, now: int): (r: Session)
  {
    if k == 0 then s else MouseDebounceFires(HandleMouseMove(MoveAndSettle(s, k - 1, now)), now)
  }

  /** How many of the counts `count + 1`, ..., `count + k` are multiples of ten. */
  function MultiplesOfPeriod(count: nat, k: nat): nat
  {
    if k == 0 then 0
    else MultiplesOfPeriod(count, k - 1) + (if (count + k) % MouseEventPeriod == 0 then 1 else 0)
  }

  /** One movement followed by a quiet second buffers an event exactly when the new count is a multiple of ten. */
  lemma SpacedMove(s: Session, now: int)
    ensures MouseDebounceFires(HandleMouseMove(s), now).mouseMovementCount == s.mouseMovementCount + 1
    ensures |MouseDebounceFires(HandleMouseMove(s), now).events| ==
      |s.events| + if (s.mouseMovementCount + 1) % MouseEventPeriod == 0 then 1 else 0
  {
  }

  /** Spaced-out movements buffer one event per multiple of ten reached. */
  lemma {:induction false} SpacedMovesCount(s: Session, k: nat, now: int)
    ensures MoveAndSettle(s, k, now).mouseMovementCount == s.mouseMovementCount + k
    ensures |MoveAndSettle(s, k, now).events| == |s.events| + MultiplesOfPeriod(s.mouseMovementCount, k)
  {
    if k > 0 {
      SpacedMovesCount(s, k - 1, now);
      SpacedMove(MoveAndSettle(s, k - 1, now), now);
    }
  }

  /** Ten spaced-out movements from a fresh count also produce exactly one event. */
  lemma TenSpacedMovesOneEvent(s: Session, now: int)
    requires s.mouseMovementCount == 0
    ensures |MoveAndSettle(s, 10, now).events| == |s.events| + 1
  {
    SpacedMovesCount(s, 10, now);
    assert MultiplesOfPeriod(0, 10) == 1;
  }

  // ---------------------------------------------------------------------
  // The event list a teardown send ships

  /**
   `beforeunload` as the provider is written: the listener registered on
   mount holds the first render's `sendTrackingData`, and the event list
   that closure sees is the initial empty one, so a teardown send captures
   no events whatever has been buffered.
   */
  function HandleBeforeUnloadAsWritten(s: Session, now: int): (r: Session)
    ensures TeardownSends(s) ==> r.isSending && r.hasSentBeforeUnload && r.sendEvents == []
    ensures r.(sendEvents := HandleBeforeUnload(s, now).sendEvents) == HandleBeforeUnload(s, now)
  {
    var stopped := StopTimer(s, now);
    if TeardownSends(stopped) then BeginSendTracking(stopped).(sendEvents := []) else stopped
  }

  /** The effect's cleanup as written: the same stale closure, so the same empty event list. */
  function CleanupAsWritten(s: Session): (r: Session)
    ensures TeardownSends(s) ==> r.isSending && r.hasSentBeforeUnload && r.sendEvents == []
    ensures r.(sendEvents := Cleanup(s).sendEvents) == Cleanup(s)
  {
    if TeardownSends(s) then BeginSendTracking(s).(sendEvents := []) else s
  }

  /**
   As written, both teardown paths start a send that ships an empty event
   list, so every event buffered before leaving the page is lost.
   */
  lemma TeardownDropsEventsAsWritten(s: Session, now: int)
    requires TeardownSends(s) && s.events != []
    ensures HandleBeforeUnloadAsWritten(s, now).isSending && CleanupAsWritten(s).isSending
    ensures HandleBeforeUnloadAsWritten(s, now).sendEvents == [] && CleanupAsWritten(s).sendEvents == []
    ensures HandleBeforeUnloadAsWritten(s, now).sendEvents != s.events && CleanupAsWritten(s).sendEvents != s.events
  {
  }

  /** In the model, both teardown paths ship exactly the events buffered so far. */
  lemma TeardownShipsBufferedEvents(s: Session, now: int)
    requires TeardownSends(s)
    ensures HandleBeforeUnload(s, now).sendEvents == s.events
    ensures Cleanup(s).sendEvents == s.events
  {
  }
}

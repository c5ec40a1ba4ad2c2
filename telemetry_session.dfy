/**
 The tracking provider as an object: its refs are the fields of a class,
 and each handler, timer callback and interface function is a method that
 updates them in place. Each such method is specified by a function of
 module TelemetrySpec (`State()` is the value the fields hold): the new
 state is that function of the old one. Those methods also require and
 ensure the invariant `Valid()`, using the matching lemma of module
 TelemetryInvariant. The internal stages they are built from (MarkSending,
 ScheduleCooldownReset, PostPayload, SaveToLocalStorage, PostInit,
 SaveInitToLocalStorage, AttemptInit, AttemptInitOnce) state only their
 effect on `State()`, and a stage on its own may leave `Valid()` false.
 */
module TelemetrySession {
  import opened TelemetryTypes
  import opened TelemetrySpec
  import opened TelemetryInvariant

  class TrackingSession {
    // identity, fixed at creation
    const visitUid: string
    const sessionId: string
    const startTime: int
    // the activity timer
    var isActive: bool
    var totalActiveTime: int
    var lastActivityTime: int
    // interaction accumulators
    var scrollDepth: real
    var clickCount: nat
    var mouseMovementCount: nat
    var pageViews: nat
    // the event buffer
    var events: seq<Event>
    // guard flags
    var isSending: bool
    var hasSentBeforeUnload: bool
    var hasSentInitTracking: bool
    var isInitialized: bool
    // timers that are scheduled and have not fired yet
    var pendingCooldownResets: nat
    var scrollTimerArmed: bool
    var mouseTimerArmed: bool
    // the event list the in-flight snapshot send closes over
    var sendEvents: seq<Event>
    // the POST of the in-flight snapshot send is out and its reply outstanding
    var awaitingReply: bool
    // the last snapshot published to observers
    var published: Option<Snapshot>
    // POST bodies handed to the network, and the two fallback logs
    var trackingRequests: seq<TrackingPayload>
    var initRequests: seq<InitPayload>
    var trackingLog: seq<TrackingRecord>
    var initLog: seq<InitRecord>

    /** The value the fields currently hold. */
    function State(): Session
      reads this
    {
      Session(visitUid, sessionId, startTime,
              isActive, totalActiveTime, lastActivityTime,
              scrollDepth, clickCount, mouseMovementCount, pageViews,
              events,
              isSending, hasSentBeforeUnload, hasSentInitTracking, isInitialized,
              pendingCooldownResets, scrollTimerArmed, mouseTimerArmed,
              sendEvents, awaitingReply,
              published,
              trackingRequests, initRequests,
              trackingLog, initLog)
    }

    ghost predicate Valid()
      reads this
    {
      Inv(State())
    }

    /** The provider's refs at creation, with the generated identifiers. */
    constructor (visit: string, session: string, now: int)
      requires visit != "" && session != ""
      ensures Valid()
      ensures State() == NewSession(visit, session, now)
    {
      visitUid, sessionId, startTime := visit, session, now;
      isActive, totalActiveTime, lastActivityTime := true, 0, now;
      scrollDepth, clickCount, mouseMovementCount, pageViews := 0.0, 0, 0, 1;
      events := [];
      isSending, hasSentBeforeUnload, hasSentInitTracking, isInitialized := false, false, false, false;
      pendingCooldownResets, scrollTimerArmed, mouseTimerArmed := 0, false, false;
      sendEvents, awaitingReply := [], false;
      published := None;
      trackingRequests, initRequests := [], [];
      trackingLog, initLog := [], [];
    }

    // -------------------------------------------------------------------
    // Reads

    method GetSessionId() returns (id: string)
      requires Valid()
      ensures id == sessionId && id != ""
    {
      id := sessionId;
    }

    method GetVisitUid() returns (id: string)
      requires Valid()
      ensures id == visitUid && id != ""
    {
      id := visitUid;
    }

    /** The buffered events: every one of them belongs to this visit. */
    method GetEvents() returns (buffered: seq<Event>)
      requires Valid()
      ensures buffered == events
      ensures forall i :: 0 <= i < |buffered| ==> buffered[i].visitUid == visitUid
    {
      buffered := events;
    }

    /** The lazy active-time read: the accumulator plus the open interval while active. */
    method ActiveTime(now: int) returns (t: int)
      ensures t == ReportedActiveTime(State(), now)
    {
      if isActive {
        t := totalActiveTime + (now - lastActivityTime);
      } else {
        t := totalActiveTime;
      }
    }

    /** The session-owned part of `getTrackingData`, given the result of the IP lookup. */
    method GetTrackingData(now: int, ipAddress: Option<string>) returns (snap: Snapshot)
      ensures snap == TakeSnapshot(State(), now, ipAddress)
      ensures snap.visitUid == visitUid && snap.sessionId == sessionId
    {
      var active := ActiveTime(now);
      snap := Snapshot(visitUid, ipAddress, startTime, active, lastActivityTime,
                       pageViews, clickCount, scrollDepth, mouseMovementCount, sessionId, now);
    }

    // -------------------------------------------------------------------
    // The timer, the accumulators and the event buffer

    method StartTimer(now: int)
      requires Valid()
      modifies this
      ensures Valid()
      ensures State() == TelemetrySpec.StartTimer(old(State()), now)
    {
      if !isActive {
        isActive := true;
        lastActivityTime := now;
      }
      StartTimerKeeps(old(State()), now);
    }

    method StopTimer(now: int)
      requires Valid()
      modifies this
      ensures Valid()
      ensures State() == TelemetrySpec.StopTimer(old(State()), now)
    {
      if isActive {
        totalActiveTime := totalActiveTime + (now - lastActivityTime);
        isActive := false;
      }
      StopTimerKeeps(old(State()), now);
    }

    method AddEvent(kind: EventType, data: EventData, now: int)
      requires Valid()
      modifies this
      ensures Valid()
      ensures State() == TelemetrySpec.AddEvent(old(State()), kind, data, now)
    {
      events := events + [Event(kind, data, now, visitUid)];
      AddEventKeeps(old(State()), kind, data, now);
    }

    /** The scroll high-watermark, given the scroll position as a percentage. */
    method UpdateScrollDepth(percent: real)
      requires Valid()
      modifies this
      ensures Valid()
      ensures State() == TelemetrySpec.UpdateScrollDepth(old(State()), percent)
    {
      if percent > scrollDepth {
        scrollDepth := percent;
      }
    }

    method IncrementPageViews()
      requires Valid()
      modifies this
      ensures Valid()
      ensures State() == TelemetrySpec.IncrementPageViews(old(State()))
    {
      pageViews := pageViews + 1;
    }

    // -------------------------------------------------------------------
    // Window and document handlers

    method HandleFocus(now: int)
      requires Valid()
      modifies this
      ensures Valid()
      ensures State() == TelemetrySpec.HandleFocus(old(State()), now)
    {
      StartTimer(now);
      AddEvent(Focus, NoData, now);
      HandleFocusKeeps(old(State()), now);
    }

    method HandleBlur(now: int)
      requires Valid()
      modifies this
      ensures Valid()
      ensures State() == TelemetrySpec.HandleBlur(old(State()), now)
    {
      StopTimer(now);
      AddEvent(Blur, NoData, now);
      HandleBlurKeeps(old(State()), now);
    }

    method HandleVisibilityChange(hidden: bool, now: int)
      requires Valid()
      modifies this
      ensures Valid()
      ensures State() == TelemetrySpec.HandleVisibilityChange(old(State()), hidden, now)
    {
      if hidden {
        StopTimer(now);
      } else {
        StartTimer(now);
      }
    }

    method HandleScroll(percent: real)
      requires Valid()
      modifies this
      ensures Valid()
      ensures State() == TelemetrySpec.HandleScroll(old(State()), percent)
    {
      UpdateScrollDepth(percent);
      scrollTimerArmed := true;
      HandleScrollKeeps(old(State()), percent);
    }

    method ScrollDebounceFires(now: int)
      requires Valid()
      modifies this
      ensures Valid()
      ensures State() == TelemetrySpec.ScrollDebounceFires(old(State()), now)
    {
      if scrollTimerArmed {
        scrollTimerArmed := false;
        AddEvent(Scroll, ScrollDepth(scrollDepth), now);
      }
      ScrollDebounceKeeps(old(State()), now);
    }

    method HandleClick(now: int)
      requires Valid()
      modifies this
      ensures Valid()
      ensures State() == TelemetrySpec.HandleClick(old(State()), now)
    {
      clickCount := clickCount + 1;
      AddEvent(Click, Clicks(clickCount), now);
      HandleClickKeeps(old(State()), now);
    }

    method HandleMouseMove()
      requires Valid()
      modifies this
      ensures Valid()
      ensures State() == TelemetrySpec.HandleMouseMove(old(State()))
    {
      mouseMovementCount := mouseMovementCount + 1;
      mouseTimerArmed := true;
    }

    method MouseDebounceFires(now: int)
      requires Valid()
      modifies this
      ensures Valid()
      ensures State() == TelemetrySpec.MouseDebounceFires(old(State()), now)
    {
      if mouseTimerArmed {
        mouseTimerArmed := false;
        if mouseMovementCount % MouseEventPeriod == 0 {
          AddEvent(Scroll, MouseMovements(mouseMovementCount), now);
        }
      }
      MouseDebounceKeeps(old(State()), now);
    }

    method HandleLoad(loadTime: Option<int>, now: int)
      requires Valid()
      modifies this
      ensures Valid()
      ensures State() == TelemetrySpec.HandleLoad(old(State()), loadTime, now)
    {
      if loadTime.Some? {
        AddEvent(PageView, PageLoadTime(loadTime.value), now);
      }
      HandleLoadKeeps(old(State()), loadTime, now);
    }

    /** The 30 s refresh publishes a fresh snapshot to observers. */
    method RefreshTick(now: int, ipAddress: Option<string>)
      requires Valid()
      modifies this
      ensures Valid()
      ensures State() == TelemetrySpec.RefreshTick(old(State()), now, ipAddress)
    {
      var snap := GetTrackingData(now, ipAddress);
      published := Some(snap);
      RefreshKeeps(old(State()), now, ipAddress);
    }

    // -------------------------------------------------------------------
    // Sending the session snapshot

    /** Raises the single-flight flag and the cooldown flag. */
    method MarkSending()
      modifies this
      ensures State() == old(State()).(isSending := true, hasSentBeforeUnload := true)
    {
      isSending := true;
      hasSentBeforeUnload := true;
    }

    /** Schedules the 5 s timeout that clears the cooldown flag. */
    method ScheduleCooldownReset()
      modifies this
      ensures State() == old(State()).(pendingCooldownResets := old(pendingCooldownResets) + 1)
    {
      pendingCooldownResets := pendingCooldownResets + 1;
    }

    /**
     The call of `sendTrackingData`: skipped while a send is in flight;
     otherwise both flags are raised, the cooldown reset is scheduled and
     the event list is captured for the payload.
     */
    method SendTrackingData() returns (r: CallResult)
      requires Valid()
      modifies this
      ensures Valid()
      ensures State() == BeginSendTracking(old(State()))
      ensures r == if old(isSending) then Skipped else Started
    {
      if isSending {
        return Skipped;
      }
      MarkSending();
      ScheduleCooldownReset();
      sendEvents := events;
      r := Started;
      BeginSendKeeps(old(State()));
    }

    /** Appends one record to the `trackingData` log, when storage accepts the write. */
    method SaveToLocalStorage(record: TrackingRecord, storageWritable: bool)
      modifies this
      ensures State() == old(State()).(trackingLog := AppendIf(storageWritable, old(trackingLog), record))
    {
      if storageWritable {
        trackingLog := trackingLog + [record];
      }
    }

    /** Hands the payload to the network; the send now awaits the reply. */
    method PostPayload(payload: TrackingPayload)
      modifies this
      ensures State() == old(State()).(awaitingReply := true, trackingRequests := old(trackingRequests) + [payload])
    {
      trackingRequests := trackingRequests + [payload];
      awaitingReply := true;
    }

    /**
     The IP lookup of the in-flight send resolves and the snapshot is taken.
     A missing setting raises before anything is posted: the failure is
     logged and `isSending` cleared. Otherwise the payload is posted and
     the send awaits the reply.
     */
    method PostTrackingData(now: int, ipAddress: Option<string>, config: Config, storageWritable: bool)
      returns (r: CallResult)
      requires Valid() && isSending && !awaitingReply
      modifies this
      ensures Valid()
      ensures State() == PostSendTracking(old(State()), now, ipAddress, config, storageWritable)
      ensures r == PostOutcome(config)
    {
      var snap := GetTrackingData(now, ipAddress);
      var missing := ConfigError(config);
      if missing.Some? {
        SaveToLocalStorage(TrackingRecord(snap, sendEvents, now), storageWritable);
        isSending := false;
        r := Raised(missing.value);
      } else {
        PostPayload(TrackingPayload(snap, sendEvents, config.accessToken.value, config.pixelId.value));
        r := Posted;
      }
      PostSendKeeps(old(State()), now, ipAddress, config, storageWritable);
    }

    /**
     The reply to the POST arrives: a rejection is logged with a fresh
     snapshot and raised; `isSending` is cleared either way.
     */
    method ReplyTrackingData(now: int, ipAddress: Option<string>, reply: Reply, storageWritable: bool)
      returns (r: CallResult)
      requires Valid() && awaitingReply
      modifies this
      ensures Valid()
      ensures State() == ReplySendTracking(old(State()), now, ipAddress, reply, storageWritable)
      ensures r == ReplyOutcome(reply)
    {
      if reply == Rejected {
        var snap := GetTrackingData(now, ipAddress);
        SaveToLocalStorage(TrackingRecord(snap, sendEvents, now), storageWritable);
        r := Raised(RequestFailed);
      } else {
        r := Delivered;
      }
      isSending := false;
      awaitingReply := false;
      ReplyKeeps(old(State()), now, ipAddress, reply, storageWritable);
    }

    /** The 5 s timeout clears the cooldown flag. */
    method CooldownResetFires()
      requires Valid()
      modifies this
      ensures Valid()
      ensures State() == TelemetrySpec.CooldownResetFires(old(State()))
    {
      if pendingCooldownResets > 0 {
        hasSentBeforeUnload := false;
        pendingCooldownResets := pendingCooldownResets - 1;
      }
      CooldownResetKeeps(old(State()));
    }

    // -------------------------------------------------------------------
    // The init beacon

    /** The endpoint check and the POST of the init beacon. */
    method PostInit(beacon: InitPayload, config: Config, reply: Reply) returns (r: CallResult)
      modifies this
      ensures r == if !Configured(config.endpoint) then Raised(EndpointMissing)
                   else if reply == Accepted then Delivered else Raised(RequestFailed)
      ensures State() == old(State()).(initRequests :=
        if Configured(config.endpoint) then old(initRequests) + [beacon] else old(initRequests))
    {
      if !Configured(config.endpoint) {
        return Raised(EndpointMissing);
      }
      initRequests := initRequests + [beacon];
      r := if reply == Accepted then Delivered else Raised(RequestFailed);
    }

    /** Appends one record to the `initTrackingData` log, when storage accepts the write. */
    method SaveInitToLocalStorage(record: InitRecord, storageWritable: bool)
      modifies this
      ensures State() == old(State()).(initLog := AppendIf(storageWritable, old(initLog), record))
    {
      if storageWritable {
        initLog := initLog + [record];
      }
    }

    /** The first call of `sendInitTracking`: set the flag, post the beacon, log a failure. */
    method AttemptInit(now: int, config: Config, reply: Reply, storageWritable: bool) returns (r: CallResult)
      requires !hasSentInitTracking
      modifies this
      ensures State() == TelemetrySpec.SendInitTracking(old(State()), now, config, reply, storageWritable)
      ensures r == InitOutcome(old(State()), config, reply)
    {
      hasSentInitTracking := true;
      var beacon := InitPayload(visitUid, sessionId, OrNull(config.pixelId), now,
                                OrNull(config.accessToken), OrNull(config.pixelId));
      r := PostInit(beacon, config, reply);
      if r.Raised? {
        SaveInitToLocalStorage(InitRecord(beacon, now), storageWritable);
      }
    }

    /** `sendInitTracking` without the invariant: the guard, then the first attempt. */
    method AttemptInitOnce(now: int, config: Config, reply: Reply, storageWritable: bool) returns (r: CallResult)
      modifies this
      ensures State() == TelemetrySpec.SendInitTracking(old(State()), now, config, reply, storageWritable)
      ensures r == InitOutcome(old(State()), config, reply)
    {
      if hasSentInitTracking {
        return Skipped;
      }
      r := AttemptInit(now, config, reply, storageWritable);
    }

    /** `sendInitTracking`: only the first call posts the beacon; a failure is logged and raised. */
    method SendInitTracking(now: int, config: Config, reply: Reply, storageWritable: bool) returns (r: CallResult)
      requires Valid()
      modifies this
      ensures Valid()
      ensures State() == TelemetrySpec.SendInitTracking(old(State()), now, config, reply, storageWritable)
      ensures r == InitOutcome(old(State()), config, reply)
    {
      r := AttemptInitOnce(now, config, reply, storageWritable);
      SendInitKeeps(old(State()), now, config, reply, storageWritable);
    }

    /** The mount effect: runs once, and sends the init beacon. */
    method Mount(now: int, config: Config, reply: Reply, storageWritable: bool)
      requires Valid()
      modifies this
      ensures Valid()
      ensures State() == TelemetrySpec.Mount(old(State()), now, config, reply, storageWritable)
    {
      if isInitialized {
        return;
      }
      isInitialized := true;
      var _ := AttemptInitOnce(now, config, reply, storageWritable);
      MountKeeps(old(State()), now, config, reply, storageWritable);
    }

    // -------------------------------------------------------------------
    // Teardown

    /** `beforeunload`: stop the timer, then send unless a send is in flight or within the cooldown. */
    method HandleBeforeUnload(now: int)
      requires Valid()
      modifies this
      ensures Valid()
      ensures State() == TelemetrySpec.HandleBeforeUnload(old(State()), now)
    {
      StopTimer(now);
      if !isSending && !hasSentBeforeUnload {
        var _ := SendTrackingData();
      }
    }

    /** The effect's cleanup: the same guarded send. */
    method Cleanup()
      requires Valid()
      modifies this
      ensures Valid()
      ensures State() == TelemetrySpec.Cleanup(old(State()))
    {
      if !isSending && !hasSentBeforeUnload {
        var _ := SendTrackingData();
      }
    }
  }
}

/**
 The per-visit tracking session as a value, one function per operation of
 the tracking provider. The class in module TelemetrySession updates its
 fields in place and is specified by these functions; the lemmas in module
 TelemetryProperties are stated about them.

 The clock is the `now` parameter. A POST is modelled by appending its body
 to an outbox sequence (`trackingRequests`, `initRequests`) and by a `Reply`
 input saying how it ended. The two local-storage logs are sequences of
 records. Each timer callback (the 5 s cooldown reset, the 100 ms scroll and
 1000 ms mouse debounces, the 30 s refresh) is an operation of its own.
 */
module TelemetrySpec {
  import opened TelemetryTypes

  /** The refs and state of one tracking provider. */
  datatype Session = Session(
    // identity, fixed at creation
    visitUid: string,
    sessionId: string,
    startTime: int,
    // the activity timer
    isActive: bool,
    totalActiveTime: int,
    lastActivityTime: int,
    // interaction accumulators
    scrollDepth: real,
    clickCount: nat,
    mouseMovementCount: nat,
    pageViews: nat,
    // the event buffer
    events: seq<Event>,
    // guard flags
    isSending: bool,
    hasSentBeforeUnload: bool,
    hasSentInitTracking: bool,
    isInitialized: bool,
    // timers that are scheduled and have not fired yet
    pendingCooldownResets: nat,
    scrollTimerArmed: bool,
    mouseTimerArmed: bool,
    // the event list the in-flight snapshot send closes over
    sendEvents: seq<Event>,
    // the POST of the in-flight snapshot send is out and its reply outstanding
    awaitingReply: bool,
    // the last snapshot published to observers
    published: Option<Snapshot>,
    // POST bodies handed to the network, in order
    trackingRequests: seq<TrackingPayload>,
    initRequests: seq<InitPayload>,
    // the `trackingData` and `initTrackingData` fallback logs
    trackingLog: seq<TrackingRecord>,
    initLog: seq<InitRecord>)

  /** Every event of the list belongs to the visit `visitUid`. */
  predicate Stamped(events: seq<Event>, visitUid: string)
  {
    forall i :: 0 <= i < |events| ==> events[i].visitUid == visitUid
  }

  /** Every snapshot payload carries the two identifiers and only events of the visit. */
  predicate PayloadsCorrelated(requests: seq<TrackingPayload>, visitUid: string, sessionId: string)
  {
    forall i :: 0 <= i < |requests| ==>
      requests[i].trackingData.visitUid == visitUid &&
      requests[i].trackingData.sessionId == sessionId &&
      Stamped(requests[i].events, visitUid)
  }

  /** Every `trackingData` record carries the two identifiers and only events of the visit. */
  predicate RecordsCorrelated(log: seq<TrackingRecord>, visitUid: string, sessionId: string)
  {
    forall i :: 0 <= i < |log| ==>
      log[i].trackingData.visitUid == visitUid &&
      log[i].trackingData.sessionId == sessionId &&
      Stamped(log[i].events, visitUid)
  }

  /** Every init beacon sent or logged carries the two identifiers. */
  predicate BeaconsCorrelated(requests: seq<InitPayload>, log: seq<InitRecord>, visitUid: string, sessionId: string)
  {
    && (forall i :: 0 <= i < |requests| ==> requests[i].visitUid == visitUid && requests[i].sessionId == sessionId)
    && (forall i :: 0 <= i < |log| ==> log[i].beacon.visitUid == visitUid && log[i].beacon.sessionId == sessionId)
  }

  /** At most one init beacon is sent and at most one logged, and either only once the flag is set. */
  predicate BeaconOnce(requests: seq<InitPayload>, log: seq<InitRecord>, hasSentInitTracking: bool)
  {
    && |requests| <= 1 && |log| <= 1
    && (requests != [] || log != [] ==> hasSentInitTracking)
  }

  /**
   The session invariant: non-empty identifiers, every buffered, sent or
   logged item correlated with them, at most one init beacon sent and at
   most one logged, both only once the init flag is set (which mounting
   sets), a reply is awaited only while a send is in flight, and a set
   cooldown flag always has a reset pending.
   */
  predicate Inv(s: Session)
  {
    && s.visitUid != "" && s.sessionId != ""
    && Stamped(s.events, s.visitUid)
    && Stamped(s.sendEvents, s.visitUid)
    && PayloadsCorrelated(s.trackingRequests, s.visitUid, s.sessionId)
    && RecordsCorrelated(s.trackingLog, s.visitUid, s.sessionId)
    && BeaconsCorrelated(s.initRequests, s.initLog, s.visitUid, s.sessionId)
    && BeaconOnce(s.initRequests, s.initLog, s.hasSentInitTracking)
    && (s.isInitialized ==> s.hasSentInitTracking)
    && (s.awaitingReply ==> s.isSending)
    && (s.hasSentBeforeUnload ==> s.pendingCooldownResets > 0)
  }

  /**
   `r` is a later state of the session `s`: the same identifiers; the event
   buffer, both outboxes and both fallback logs extended at the end; the
   scroll watermark and the counters no lower; the once-only flags still
   set; and nothing more sent or logged for the init beacon once its flag
   was set.
   */
  predicate Extends(s: Session, r: Session)
  {
    && r.visitUid == s.visitUid && r.sessionId == s.sessionId && r.startTime == s.startTime
    && s.events <= r.events
    && s.trackingRequests <= r.trackingRequests && s.initRequests <= r.initRequests
    && s.trackingLog <= r.trackingLog && s.initLog <= r.initLog
    && s.scrollDepth <= r.scrollDepth
    && s.clickCount <= r.clickCount && s.mouseMovementCount <= r.mouseMovementCount && s.pageViews <= r.pageViews
    && (s.hasSentInitTracking ==> r.hasSentInitTracking && r.initRequests == s.initRequests && r.initLog == s.initLog)
    && (s.isInitialized ==> r.isInitialized)
  }

  /**
   The snapshot send and its cooldown are untouched: same flags, same stage,
   same outbox and same captured events.
   */
  predicate SendUntouched(s: Session, r: Session)
  {
    && r.isSending == s.isSending && r.awaitingReply == s.awaitingReply
    && r.hasSentBeforeUnload == s.hasSentBeforeUnload
    && r.trackingRequests == s.trackingRequests && r.sendEvents == s.sendEvents
  }

  /** A provider created at time `now` with the generated identifiers. */
  function NewSession(visitUid: string, sessionId: string, now: int): (s: Session)
    requires visitUid != "" && sessionId != ""
    ensures Inv(s)
    ensures s.visitUid == visitUid && s.sessionId == sessionId && s.startTime == now
    ensures s.isActive && s.lastActivityTime == now && s.totalActiveTime == 0
    ensures s.pageViews == 1 && s.clickCount == 0 && s.mouseMovementCount == 0 && s.scrollDepth == 0.0
    ensures s.events == [] && s.trackingLog == [] && s.initLog == []
    ensures !s.isSending && !s.awaitingReply && !s.hasSentBeforeUnload && !s.hasSentInitTracking
    ensures !s.isInitialized && !s.scrollTimerArmed && !s.mouseTimerArmed && s.pendingCooldownResets == 0
    ensures s.sendEvents == [] && s.published.None? && s.trackingRequests == [] && s.initRequests == []
  {
    Session(visitUid, sessionId, now,
            true, 0, now,
            0.0, 0, 0, 1,
            [],
            false, false, false, false,
            0, false, false,
            [], false,
            None,
            [], [],
            [], [])
  }

  // ---------------------------------------------------------------------
  // The activity timer

  /** Active time as a snapshot reports it: the accumulator, finalised lazily while active. */
  function ReportedActiveTime(s: Session, now: int): (t: int)
    ensures s.isActive ==> t == s.totalActiveTime + (now - s.lastActivityTime)
    ensures !s.isActive ==> t == s.totalActiveTime
  {
    if s.isActive then s.totalActiveTime + (now - s.lastActivityTime) else s.totalActiveTime
  }

  /** Inactive to Active: the watermark moves to `now`; an active timer is left alone. */
  function StartTimer(s: Session, now: int): (r: Session)
    ensures r.isActive
    ensures s.isActive ==> r == s
    ensures !s.isActive ==> r.lastActivityTime == now
    ensures r.totalActiveTime == s.totalActiveTime
    ensures ReportedActiveTime(r, now) == ReportedActiveTime(s, now)
    ensures SendUntouched(s, r)
  {
    if !s.isActive then s.(isActive := true, lastActivityTime := now) else s
  }

  /** Active to Inactive: the elapsed time is flushed into the accumulator; an inactive timer is left alone. */
  function StopTimer(s: Session, now: int): (r: Session)
    ensures !r.isActive
    ensures !s.isActive ==> r == s
    ensures s.isActive ==> r.totalActiveTime == s.totalActiveTime + (now - s.lastActivityTime)
    ensures ReportedActiveTime(r, now) == ReportedActiveTime(s, now)
    ensures SendUntouched(s, r)
  {
    if s.isActive then
      s.(totalActiveTime := s.totalActiveTime + (now - s.lastActivityTime), isActive := false)
    else s
  }

  // ---------------------------------------------------------------------
  // Accumulators and the event buffer

  /** The scroll high-watermark. */
  function UpdateScrollDepth(s: Session, percent: real): (r: Session)
    ensures r.scrollDepth >= s.scrollDepth && r.scrollDepth >= percent
    ensures r.scrollDepth == s.scrollDepth || r.scrollDepth == percent
    ensures SendUntouched(s, r)
  {
    s.(scrollDepth := if percent > s.scrollDepth then percent else s.scrollDepth)
  }

  /** Appends one event stamped with the visit; earlier events stay as they were. */
  function AddEvent(s: Session, kind: EventType, data: EventData, now: int): (r: Session)
    ensures |r.events| == |s.events| + 1
    ensures r.events[..|s.events|] == s.events
    ensures r.events[|s.events|] == Event(kind, data, now, s.visitUid)
    ensures SendUntouched(s, r)
  {
    s.(events := s.events + [Event(kind, data, now, s.visitUid)])
  }

  function IncrementPageViews(s: Session): (r: Session)
    ensures r.pageViews == s.pageViews + 1
    ensures SendUntouched(s, r)
  {
    s.(pageViews := s.pageViews + 1)
  }

  // ---------------------------------------------------------------------
  // Window and document handlers

  function HandleFocus(s: Session, now: int): (r: Session)
    ensures r.isActive && r.totalActiveTime == s.totalActiveTime
    ensures r.events == s.events + [Event(Focus, NoData, now, s.visitUid)]
    ensures SendUntouched(s, r)
  {
    AddEvent(StartTimer(s, now), Focus, NoData, now)
  }

  function HandleBlur(s: Session, now: int): (r: Session)
    ensures !r.isActive && ReportedActiveTime(r, now) == ReportedActiveTime(s, now)
    ensures r.events == s.events + [Event(Blur, NoData, now, s.visitUid)]
    ensures SendUntouched(s, r)
  {
    AddEvent(StopTimer(s, now), Blur, NoData, now)
  }

  /** Hidden stops the timer, visible starts it; no event is buffered. */
  function HandleVisibilityChange(s: Session, hidden: bool, now: int): (r: Session)
    ensures r.isActive == !hidden
    ensures ReportedActiveTime(r, now) == ReportedActiveTime(s, now)
    ensures r.events == s.events
    ensures SendUntouched(s, r)
  {
    if hidden then StopTimer(s, now) else StartTimer(s, now)
  }

  /** A scroll raises the watermark at once and (re)arms the 100 ms debounce. */
  function HandleScroll(s: Session, percent: real): (r: Session)
    ensures r.scrollDepth >= s.scrollDepth && r.scrollDepth >= percent
    ensures r.scrollDepth == s.scrollDepth || r.scrollDepth == percent
    ensures r.scrollTimerArmed && r.events == s.events
    ensures SendUntouched(s, r)
  {
    UpdateScrollDepth(s, percent).(scrollTimerArmed := true)
  }

  /** The scroll debounce fires: one `scroll` event with the current watermark. */
  function ScrollDebounceFires(s: Session, now: int): (r: Session)
    ensures !r.scrollTimerArmed
    ensures !s.scrollTimerArmed ==> r == s
    ensures s.scrollTimerArmed ==> r.events == s.events + [Event(Scroll, ScrollDepth(s.scrollDepth), now, s.visitUid)]
    ensures SendUntouched(s, r)
  {
    if s.scrollTimerArmed then
      AddEvent(s.(scrollTimerArmed := false), Scroll, ScrollDepth(s.scrollDepth), now)
    else s
  }

  /** A click counts first, then buffers a `click` event carrying the new count. */
  function HandleClick(s: Session, now: int): (r: Session)
    ensures r.clickCount == s.clickCount + 1
    ensures r.events == s.events + [Event(Click, Clicks(r.clickCount), now, s.visitUid)]
    ensures SendUntouched(s, r)
  {
    var counted := s.(clickCount := s.clickCount + 1);
    AddEvent(counted, Click, Clicks(counted.clickCount), now)
  }

  /** Every movement counts and (re)arms the 1000 ms debounce; no event yet. */
  function HandleMouseMove(s: Session): (r: Session)
    ensures r.mouseMovementCount == s.mouseMovementCount + 1
    ensures r.mouseTimerArmed && r.events == s.events
    ensures SendUntouched(s, r)
  {
    s.(mouseMovementCount := s.mouseMovementCount + 1, mouseTimerArmed := true)
  }

  /**
   The mouse debounce fires: an event, typed `scroll`, is buffered only when
   the movement count is a multiple of ten.
   */
  function MouseDebounceFires(s: Session, now: int): (r: Session)
    ensures !r.mouseTimerArmed
    ensures r.mouseMovementCount == s.mouseMovementCount
    ensures r.events ==
      if s.mouseTimerArmed && s.mouseMovementCount % MouseEventPeriod == 0
      then s.events + [Event(Scroll, MouseMovements(s.mouseMovementCount), now, s.visitUid)]
      else s.events
    ensures SendUntouched(s, r)
  {
    if !s.mouseTimerArmed then s
    else if s.mouseMovementCount % MouseEventPeriod == 0 then
      AddEvent(s.(mouseTimerArmed := false), Scroll, MouseMovements(s.mouseMovementCount), now)
    else s.(mouseTimerArmed := false)
  }

  /** The load signal: a `page_view` event with the load duration, when navigation timing exists. */
  function HandleLoad(s: Session, loadTime: Option<int>, now: int): (r: Session)
    ensures loadTime.None? ==> r == s
    ensures loadTime.Some? ==> r.events == s.events + [Event(PageView, PageLoadTime(loadTime.value), now, s.visitUid)]
    ensures SendUntouched(s, r)
  {
    match loadTime
    case None => s
    case Some(millis) => AddEvent(s, PageView, PageLoadTime(millis), now)
  }

  // ---------------------------------------------------------------------
  // Snapshots

  /** The session-owned fields of a freshly computed snapshot. */
  function TakeSnapshot(s: Session, now: int, ipAddress: Option<string>): (snap: Snapshot)
    ensures snap.visitUid == s.visitUid && snap.sessionId == s.sessionId
    ensures snap.totalActiveTime == ReportedActiveTime(s, now)
    ensures snap.timestamp == now && snap.ipAddress == ipAddress
    ensures snap.sessionStartTime == s.startTime && snap.lastActivityTime == s.lastActivityTime
    ensures snap.pageViews == s.pageViews && snap.clicks == s.clickCount
    ensures snap.scrollDepth == s.scrollDepth && snap.mouseMovements == s.mouseMovementCount
  {
    Snapshot(s.visitUid, ipAddress, s.startTime, ReportedActiveTime(s, now), s.lastActivityTime,
             s.pageViews, s.clickCount, s.scrollDepth, s.mouseMovementCount, s.sessionId, now)
  }

  /** The 30 s interval: publish a snapshot to observers, transmit nothing. */
  function RefreshTick(s: Session, now: int, ipAddress: Option<string>): (r: Session)
    ensures r.published == Some(TakeSnapshot(s, now, ipAddress))
    ensures r.trackingRequests == s.trackingRequests && r.trackingLog == s.trackingLog
    ensures SendUntouched(s, r)
  {
    s.(published := Some(TakeSnapshot(s, now, ipAddress)))
  }

  // ---------------------------------------------------------------------
  // Sending the session snapshot

  /** The first missing setting, checked in the order endpoint, access token, pixel id. */
  function ConfigError(config: Config): (e: Option<SendError>)
    ensures e.None? <==> Configured(config.endpoint) && Configured(config.accessToken) && Configured(config.pixelId)
    ensures !Configured(config.endpoint) ==> e == Some(EndpointMissing)
    ensures Configured(config.endpoint) && !Configured(config.accessToken) ==> e == Some(AccessTokenMissing)
    ensures Configured(config.endpoint) && Configured(config.accessToken) && !Configured(config.pixelId) ==>
      e == Some(PixelIdMissing)
    ensures e != Some(RequestFailed)
  {
    if !Configured(config.endpoint) then Some(EndpointMissing)
    else if !Configured(config.accessToken) then Some(AccessTokenMissing)
    else if !Configured(config.pixelId) then Some(PixelIdMissing)
    else None
  }

  /**
   The synchronous part of `sendTrackingData`: skipped while a send is in
   flight; otherwise it raises `isSending` and the cooldown flag, schedules
   the 5 s reset and captures the event list. Nothing is transmitted yet.
   */
  function BeginSendTracking(s: Session): (r: Session)
    ensures s.isSending ==> r == s
    ensures r.isSending
    ensures !s.isSending ==> r.hasSentBeforeUnload && r.pendingCooldownResets == s.pendingCooldownResets + 1
    ensures !s.isSending ==> r.sendEvents == s.events
    ensures r.trackingRequests == s.trackingRequests && r.events == s.events
  {
    if s.isSending then s
    else s.(isSending := true, hasSentBeforeUnload := true,
            pendingCooldownResets := s.pendingCooldownResets + 1, sendEvents := s.events)
  }

  /**
   The IP lookup of an in-flight `sendTrackingData` resolves, and the
   snapshot is taken. A missing setting raises before anything is
   transmitted: the failure is logged and `isSending` cleared. Otherwise
   the payload is posted and the send awaits the reply.
   */
  function PostSendTracking(s: Session, now: int, ipAddress: Option<string>, config: Config,
                            storageWritable: bool): (r: Session)
    requires s.isSending && !s.awaitingReply
    ensures r.events == s.events && r.sendEvents == s.sendEvents
    ensures ConfigError(config).None? ==>
      && r.isSending && r.awaitingReply
      && r.trackingRequests == s.trackingRequests +
           [TrackingPayload(TakeSnapshot(s, now, ipAddress), s.sendEvents, config.accessToken.value, config.pixelId.value)]
      && r.trackingLog == s.trackingLog
    ensures ConfigError(config).Some? ==>
      && !r.isSending && !r.awaitingReply
      && r.trackingRequests == s.trackingRequests
      && r.trackingLog == AppendIf(storageWritable, s.trackingLog, FallbackRecord(s, now, ipAddress))
  {
    if ConfigError(config).None?
    then s.(awaitingReply := true, trackingRequests := Transmitted(s, now, ipAddress, config))
    else s.(isSending := false, trackingLog := AppendIf(storageWritable, s.trackingLog, FallbackRecord(s, now, ipAddress)))
  }

  /** The snapshot outbox once the payload of the in-flight send is posted. */
  function Transmitted(s: Session, now: int, ipAddress: Option<string>, config: Config): seq<TrackingPayload>
    requires ConfigError(config).None?
  {
    s.trackingRequests + [TrackingPayload(TakeSnapshot(s, now, ipAddress), s.sendEvents, config.accessToken.value, config.pixelId.value)]
  }

  /** The `trackingData` record of a failed send: a snapshot, the captured events and the clock. */
  function FallbackRecord(s: Session, now: int, ipAddress: Option<string>): (rec: TrackingRecord)
    ensures rec.trackingData == TakeSnapshot(s, now, ipAddress)
    ensures rec.events == s.sendEvents && rec.timestamp == now
  {
    TrackingRecord(TakeSnapshot(s, now, ipAddress), s.sendEvents, now)
  }

  /**
   The reply to the POST of the in-flight send arrives. A rejection is
   logged (the fallback reads a fresh snapshot, hence `ipAddress`), and
   `isSending` is cleared either way.
   */
  function ReplySendTracking(s: Session, now: int, ipAddress: Option<string>, reply: Reply,
                             storageWritable: bool): (r: Session)
    requires s.awaitingReply
    ensures !r.isSending && !r.awaitingReply
    ensures r.events == s.events && r.trackingRequests == s.trackingRequests
    ensures reply == Accepted ==> r.trackingLog == s.trackingLog
    ensures reply == Rejected ==> r.trackingLog == AppendIf(storageWritable, s.trackingLog, FallbackRecord(s, now, ipAddress))
  {
    s.(isSending := false, awaitingReply := false,
       trackingLog := AppendIf(reply == Rejected && storageWritable, s.trackingLog, FallbackRecord(s, now, ipAddress)))
  }

  /** What the resolved IP lookup leads to: the first missing setting raises, else the payload is posted. */
  function PostOutcome(config: Config): (r: CallResult)
    ensures r == Posted <==> ConfigError(config).None?
    ensures r != Posted ==> r == Raised(ConfigError(config).value)
  {
    if ConfigError(config).Some? then Raised(ConfigError(config).value) else Posted
  }

  /** What the reply leads to: delivered exactly when the collector accepts, else a request failure. */
  function ReplyOutcome(reply: Reply): (r: CallResult)
    ensures r == Delivered <==> reply == Accepted
    ensures r != Delivered ==> r == Raised(RequestFailed)
  {
    if reply == Accepted then Delivered else Raised(RequestFailed)
  }

  /** The read/push/write-back append of a fallback log; a failed write leaves the log as it was. */
  function AppendIf<T>(storageWritable: bool, log: seq<T>, record: T): (r: seq<T>)
    ensures storageWritable ==> |r| == |log| + 1 && r[..|log|] == log && r[|log|] == record
    ensures !storageWritable ==> r == log
  {
    if storageWritable then log + [record] else log
  }

  /** The 5 s timeout scheduled by a send clears the cooldown flag, whatever became of the send. */
  function CooldownResetFires(s: Session): (r: Session)
    ensures s.pendingCooldownResets == 0 ==> r == s
    ensures s.pendingCooldownResets > 0 ==>
      !r.hasSentBeforeUnload && r.pendingCooldownResets == s.pendingCooldownResets - 1
  {
    if s.pendingCooldownResets == 0 then s
    else s.(hasSentBeforeUnload := false, pendingCooldownResets := s.pendingCooldownResets - 1)
  }

  // ---------------------------------------------------------------------
  // The init beacon

  /** The init beacon: missing token or pixel id are sent as null; `page_id` repeats the pixel id. */
  function Beacon(s: Session, config: Config, now: int): (b: InitPayload)
    ensures b.visitUid == s.visitUid && b.sessionId == s.sessionId && b.timestamp == now
    ensures b.pageId == b.pixelId
    ensures b.accessToken.Some? <==> Configured(config.accessToken)
    ensures b.pixelId.Some? <==> Configured(config.pixelId)
    ensures Configured(config.accessToken) ==> b.accessToken == config.accessToken
    ensures Configured(config.pixelId) ==> b.pixelId == config.pixelId
  {
    InitPayload(s.visitUid, s.sessionId, OrNull(config.pixelId), now, OrNull(config.accessToken), OrNull(config.pixelId))
  }

  /**
   What `sendInitTracking` returns or raises: every call after the first is
   skipped; the first raises for a missing endpoint, else the reply decides.
   */
  function InitOutcome(s: Session, config: Config, reply: Reply): (r: CallResult)
    ensures s.hasSentInitTracking <==> r == Skipped
    ensures !s.hasSentInitTracking && !Configured(config.endpoint) ==> r == Raised(EndpointMissing)
    ensures r == Delivered <==> !s.hasSentInitTracking && Configured(config.endpoint) && reply == Accepted
    ensures r.Raised? ==> r == Raised(EndpointMissing) || r == Raised(RequestFailed)
  {
    if s.hasSentInitTracking then Skipped
    else if !Configured(config.endpoint) then Raised(EndpointMissing)
    else if reply == Accepted then Delivered
    else Raised(RequestFailed)
  }

  /**
   `sendInitTracking`: only the first call does anything. The flag is set
   before the attempt; a missing endpoint raises without transmitting;
   otherwise the beacon is transmitted. A failure appends one record to
   the `initTrackingData` log (when storage accepts the write).
   */
  function SendInitTracking(s: Session, now: int, config: Config, reply: Reply, storageWritable: bool): (r: Session)
    ensures s.hasSentInitTracking ==> r == s
    ensures r.hasSentInitTracking
    ensures !s.hasSentInitTracking && Configured(config.endpoint) ==> r.initRequests == s.initRequests + [Beacon(s, config, now)]
    ensures !Configured(config.endpoint) ==> r.initRequests == s.initRequests
    ensures r.initLog ==
      AppendIf(InitOutcome(s, config, reply).Raised? && storageWritable, s.initLog, InitRecord(Beacon(s, config, now), now))
  {
    if s.hasSentInitTracking then s
    else
      var beacon := Beacon(s, config, now);
      var transmitted := if Configured(config.endpoint) then s.initRequests + [beacon] else s.initRequests;
      var logged := AppendIf(InitOutcome(s, config, reply).Raised? && storageWritable, s.initLog, InitRecord(beacon, now));
      s.(hasSentInitTracking := true, initRequests := transmitted, initLog := logged)
  }

  /** The provider's mount effect: it runs once, and sends the init beacon. */
  function Mount(s: Session, now: int, config: Config, reply: Reply, storageWritable: bool): (r: Session)
    ensures r.isInitialized
    ensures !s.isInitialized ==> r.hasSentInitTracking
    ensures s.isInitialized ==> r == s
    ensures !s.isInitialized ==> r == SendInitTracking(s.(isInitialized := true), now, config, reply, storageWritable)
  {
    if s.isInitialized then s
    else SendInitTracking(s.(isInitialized := true), now, config, reply, storageWritable)
  }

  // ---------------------------------------------------------------------
  // Teardown

  /** The teardown guard: no send in flight and none started within the cooldown. */
  predicate TeardownSends(s: Session)
  {
    !s.isSending && !s.hasSentBeforeUnload
  }

  /**
   `beforeunload`: the timer is stopped first; a snapshot send starts only
   when TeardownSends holds.
   */
  function HandleBeforeUnload(s: Session, now: int): (r: Session)
    ensures !r.isActive
    ensures ReportedActiveTime(r, now) == ReportedActiveTime(s, now)
    ensures !TeardownSends(s) ==> r == StopTimer(s, now)
    ensures TeardownSends(s) ==> r == BeginSendTracking(StopTimer(s, now))
    ensures r.trackingRequests == s.trackingRequests
  {
    var stopped := StopTimer(s, now);
    if TeardownSends(stopped) then BeginSendTracking(stopped) else stopped
  }

  /** The effect's cleanup: the same guarded send, without stopping the timer. */
  function Cleanup(s: Session): (r: Session)
    ensures !TeardownSends(s) ==> r == s
    ensures TeardownSends(s) ==> r == BeginSendTracking(s)
    ensures r.trackingRequests == s.trackingRequests
  {
    if TeardownSends(s) then BeginSendTracking(s) else s
  }

  // ---------------------------------------------------------------------
  // Traces

  /** A signal from the page: window focus and blur, visibility, scroll, click, mouse movement, load. */
  datatype Input =
    | OnFocus
    | OnBlur
    | OnVisibilityChange(hidden: bool)
    | OnScroll(percent: real)
    | OnClick
    | OnMouseMove
    | OnLoad(loadTime: Option<int>)

  /** A timer the provider scheduled fires. */
  datatype Callback =
    | ScrollDebounce
    | MouseDebounce
    | CooldownReset
    | Refresh(ipAddress: Option<string>)

  /**
   A call through the provider's interface, or the continuation of one:
   `TrackingPosts` is the moment the IP lookup of an in-flight
   `sendTrackingData` resolves, `TrackingReplies` the moment its POST
   is answered.
   */
  datatype Call =
    | PageViewIncrement
    | SendTracking
    | TrackingPosts(ipAddress: Option<string>, config: Config, storageWritable: bool)
    | TrackingReplies(ipAddress: Option<string>, reply: Reply, storageWritable: bool)
    | SendInit(config: Config, reply: Reply, storageWritable: bool)

  /** The provider's mount effect, the page unloading, and the effect's cleanup. */
  datatype Lifecycle =
    | OnMount(config: Config, reply: Reply, storageWritable: bool)
    | OnBeforeUnload
    | OnCleanup

  /** Everything that can happen to a session, as seen by the provider. */
  datatype Action =
    | Page(input: Input)
    | Fire(callback: Callback)
    | Invoke(call: Call)
    | Life(stage: Lifecycle)

  /** An action and the clock reading when it happens. */
  datatype Timed = Timed(at: int, action: Action)

  function InputStep(s: Session, at: int, a: Input): Session
  {
    match a
    case OnFocus => HandleFocus(s, at)
    case OnBlur => HandleBlur(s, at)
    case OnVisibilityChange(hidden) => HandleVisibilityChange(s, hidden, at)
    case OnScroll(percent) => HandleScroll(s, percent)
    case OnClick => HandleClick(s, at)
    case OnMouseMove => HandleMouseMove(s)
    case OnLoad(loadTime) => HandleLoad(s, loadTime, at)
  }

  function CallbackStep(s: Session, at: int, a: Callback): Session
  {
    match a
    case ScrollDebounce => ScrollDebounceFires(s, at)
    case MouseDebounce => MouseDebounceFires(s, at)
    case CooldownReset => CooldownResetFires(s)
    case Refresh(ipAddress) => RefreshTick(s, at, ipAddress)
  }

  /** Each continuation of a send happens only at its own stage of an in-flight send. */
  function CallStep(s: Session, at: int, a: Call): Session
  {
    match a
    case PageViewIncrement => IncrementPageViews(s)
    case SendTracking => BeginSendTracking(s)
    case TrackingPosts(ipAddress, config, storageWritable) =>
      if s.isSending && !s.awaitingReply then PostSendTracking(s, at, ipAddress, config, storageWritable) else s
    case TrackingReplies(ipAddress, reply, storageWritable) =>
      if s.awaitingReply then ReplySendTracking(s, at, ipAddress, reply, storageWritable) else s
    case SendInit(config, reply, storageWritable) => SendInitTracking(s, at, config, reply, storageWritable)
  }

  function LifecycleStep(s: Session, at: int, a: Lifecycle): Session
  {
    match a
    case OnMount(config, reply, storageWritable) => Mount(s, at, config, reply, storageWritable)
    case OnBeforeUnload => HandleBeforeUnload(s, at)
    case OnCleanup => Cleanup(s)
  }

  /** One action. */
  function Step(s: Session, t: Timed): Session
  {
    match t.action
    case Page(a) => InputStep(s, t.at, a)
    case Fire(a) => CallbackStep(s, t.at, a)
    case Invoke(a) => CallStep(s, t.at, a)
    case Life(a) => LifecycleStep(s, t.at, a)
  }

  /** A trace of actions, applied in order. */
  function Run(s: Session, trace: seq<Timed>): Session
    decreases |trace|
  {
    if trace == [] then s else Run(Step(s, trace[0]), trace[1..])
  }
}

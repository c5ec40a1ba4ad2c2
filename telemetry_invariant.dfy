/**
 Every operation of the tracking session keeps the session invariant and
 only ever takes the session to a later state of itself (`Extends`): one
 lemma per operation, one per group of actions, one for `Step` and one
 for whole traces.
 */
module TelemetryInvariant {
  import opened TelemetryTypes
  import opened TelemetrySpec

  /** `r` is a later state of `s`, and satisfies the invariant whenever `s` does. */
  predicate Keeps(s: Session, r: Session)
  {
    Extends(s, r) && (Inv(s) ==> Inv(r))
  }

  lemma KeepsTransitive(s: Session, m: Session, r: Session)
    requires Keeps(s, m) && Keeps(m, r)
    ensures Keeps(s, r)
  {
  }

  /** An appended event keeps a buffer stamped exactly when it carries the visit itself. */
  lemma StampedAppend(events: seq<Event>, e: Event, visitUid: string)
    ensures Stamped(events + [e], visitUid) <==> Stamped(events, visitUid) && e.visitUid == visitUid
  {
    assert forall i :: 0 <= i < |events| ==> (events + [e])[i] == events[i];
    assert (events + [e])[|events|] == e;
  }

  // ---------------------------------------------------------------------
  // One lemma per operation

  lemma StartTimerKeeps(s: Session, now: int)
    ensures Keeps(s, StartTimer(s, now))
  {
  }

  lemma StopTimerKeeps(s: Session, now: int)
    ensures Keeps(s, StopTimer(s, now))
  {
  }

  lemma AddEventKeeps(s: Session, kind: EventType, data: EventData, now: int)
    ensures Keeps(s, AddEvent(s, kind, data, now))
  {
    StampedAppend(s.events, Event(kind, data, now, s.visitUid), s.visitUid);
  }

  lemma HandleFocusKeeps(s: Session, now: int)
    ensures Keeps(s, HandleFocus(s, now))
  {
    StartTimerKeeps(s, now);
    AddEventKeeps(StartTimer(s, now), Focus, NoData, now);
    KeepsTransitive(s, StartTimer(s, now), HandleFocus(s, now));
  }

  lemma HandleBlurKeeps(s: Session, now: int)
    ensures Keeps(s, HandleBlur(s, now))
  {
    StopTimerKeeps(s, now);
    AddEventKeeps(StopTimer(s, now), Blur, NoData, now);
    KeepsTransitive(s, StopTimer(s, now), HandleBlur(s, now));
  }

  lemma HandleScrollKeeps(s: Session, percent: real)
    ensures Keeps(s, HandleScroll(s, percent))
  {
  }

  lemma ScrollDebounceKeeps(s: Session, now: int)
    ensures Keeps(s, ScrollDebounceFires(s, now))
  {
    if s.scrollTimerArmed {
      AddEventKeeps(s.(scrollTimerArmed := false), Scroll, ScrollDepth(s.scrollDepth), now);
    }
  }

  lemma HandleClickKeeps(s: Session, now: int)
    ensures Keeps(s, HandleClick(s, now))
  {
    AddEventKeeps(s.(clickCount := s.clickCount + 1), Click, Clicks(s.clickCount + 1), now);
  }

  lemma MouseDebounceKeeps(s: Session, now: int)
    ensures Keeps(s, MouseDebounceFires(s, now))
  {
    if s.mouseTimerArmed && s.mouseMovementCount % MouseEventPeriod == 0 {
      AddEventKeeps(s.(mouseTimerArmed := false), Scroll, MouseMovements(s.mouseMovementCount), now);
    }
  }

  lemma HandleLoadKeeps(s: Session, loadTime: Option<int>, now: int)
    ensures Keeps(s, HandleLoad(s, loadTime, now))
  {
    if loadTime.Some? {
      AddEventKeeps(s, PageView, PageLoadTime(loadTime.value), now);
    }
  }

  lemma RefreshKeeps(s: Session, now: int, ipAddress: Option<string>)
    ensures Keeps(s, RefreshTick(s, now, ipAddress))
  {
  }

  lemma BeginSendKeeps(s: Session)
    ensures Keeps(s, BeginSendTracking(s))
  {
  }

  lemma PostSendKeeps(s: Session, now: int, ipAddress: Option<string>, config: Config, storageWritable: bool)
    requires s.isSending && !s.awaitingReply
    ensures Keeps(s, PostSendTracking(s, now, ipAddress, config, storageWritable))
  {
    if ConfigError(config).None? {
      PostedKeeps(s, now, ipAddress, config, storageWritable);
    } else {
      var r := s.(isSending := false, trackingLog := AppendIf(storageWritable, s.trackingLog, FallbackRecord(s, now, ipAddress)));
      assert PostSendTracking(s, now, ipAddress, config, storageWritable) == r;
      if Inv(s) {
        assert forall i :: 0 <= i < |s.trackingLog| ==> r.trackingLog[i] == s.trackingLog[i];
      }
    }
  }

  lemma PostedKeeps(s: Session, now: int, ipAddress: Option<string>, config: Config, storageWritable: bool)
    requires s.isSending && !s.awaitingReply && ConfigError(config).None?
    ensures Keeps(s, PostSendTracking(s, now, ipAddress, config, storageWritable))
  {
    var p := TrackingPayload(TakeSnapshot(s, now, ipAddress), s.sendEvents, config.accessToken.value, config.pixelId.value);
    var r := s.(awaitingReply := true, trackingRequests := s.trackingRequests + [p]);
    assert PostSendTracking(s, now, ipAddress, config, storageWritable) == r;
    if Inv(s) {
      assert forall i :: 0 <= i < |s.trackingRequests| ==> r.trackingRequests[i] == s.trackingRequests[i];
    }
  }

  lemma ReplyKeeps(s: Session, now: int, ipAddress: Option<string>, reply: Reply, storageWritable: bool)
    requires s.awaitingReply
    ensures Keeps(s, ReplySendTracking(s, now, ipAddress, reply, storageWritable))
  {
    var r := ReplySendTracking(s, now, ipAddress, reply, storageWritable);
    if Inv(s) {
      assert forall i :: 0 <= i < |s.trackingLog| ==> r.trackingLog[i] == s.trackingLog[i];
    }
  }

  lemma CooldownResetKeeps(s: Session)
    ensures Keeps(s, CooldownResetFires(s))
  {
  }

  lemma SendInitKeeps(s: Session, now: int, config: Config, reply: Reply, storageWritable: bool)
    ensures Keeps(s, SendInitTracking(s, now, config, reply, storageWritable))
  {
  }

  lemma MountKeeps(s: Session, now: int, config: Config, reply: Reply, storageWritable: bool)
    ensures Keeps(s, Mount(s, now, config, reply, storageWritable))
  {
    if !s.isInitialized {
      SendInitKeeps(s.(isInitialized := true), now, config, reply, storageWritable);
    }
  }

  lemma BeforeUnloadKeeps(s: Session, now: int)
    ensures Keeps(s, HandleBeforeUnload(s, now))
  {
    StopTimerKeeps(s, now);
    if TeardownSends(StopTimer(s, now)) {
      BeginSendKeeps(StopTimer(s, now));
      KeepsTransitive(s, StopTimer(s, now), HandleBeforeUnload(s, now));
    }
  }

  lemma CleanupKeeps(s: Session)
    ensures Keeps(s, Cleanup(s))
  {
  }

  // ---------------------------------------------------------------------
  // Groups of actions, one action, whole traces

  lemma InputKeeps(s: Session, at: int, a: Input)
    ensures Keeps(s, InputStep(s, at, a))
  {
    match a
    case OnFocus => HandleFocusKeeps(s, at);
    case OnBlur => HandleBlurKeeps(s, at);
    case OnVisibilityChange(hidden) => StopTimerKeeps(s, at); StartTimerKeeps(s, at);
    case OnScroll(percent) => HandleScrollKeeps(s, percent);
    case OnClick => HandleClickKeeps(s, at);
    case OnMouseMove =>
    case OnLoad(loadTime) => HandleLoadKeeps(s, loadTime, at);
  }

  lemma CallbackKeeps(s: Session, at: int, a: Callback)
    ensures Keeps(s, CallbackStep(s, at, a))
  {
    match a
    case ScrollDebounce => ScrollDebounceKeeps(s, at);
    case MouseDebounce => MouseDebounceKeeps(s, at);
    case CooldownReset => CooldownResetKeeps(s);
    case Refresh(ipAddress) => RefreshKeeps(s, at, ipAddress);
  }

  lemma CallKeeps(s: Session, at: int, a: Call)
    ensures Keeps(s, CallStep(s, at, a))
  {
    match a
    case PageViewIncrement =>
    case SendTracking => BeginSendKeeps(s);
    case TrackingPosts(ipAddress, config, storageWritable) =>
      if s.isSending && !s.awaitingReply {
        PostSendKeeps(s, at, ipAddress, config, storageWritable);
      }
    case TrackingReplies(ipAddress, reply, storageWritable) =>
      if s.awaitingReply {
        ReplyKeeps(s, at, ipAddress, reply, storageWritable);
      }
    case SendInit(config, reply, storageWritable) => SendInitKeeps(s, at, config, reply, storageWritable);
  }

  lemma LifecycleKeeps(s: Session, at: int, a: Lifecycle)
    ensures Keeps(s, LifecycleStep(s, at, a))
  {
    match a
    case OnMount(config, reply, storageWritable) => MountKeeps(s, at, config, reply, storageWritable);
    case OnBeforeUnload => BeforeUnloadKeeps(s, at);
    case OnCleanup => CleanupKeeps(s);
  }

  lemma StepKeeps(s: Session, t: Timed)
    ensures Keeps(s, Step(s, t))
  {
    match t.action
    case Page(a) => InputKeeps(s, t.at, a);
    case Fire(a) => CallbackKeeps(s, t.at, a);
    case Invoke(a) => CallKeeps(s, t.at, a);
    case Life(a) => LifecycleKeeps(s, t.at, a);
  }

  /** Any trace keeps the invariant and takes the session to a later state of itself. */
  lemma {:induction false} RunKeeps(s: Session, trace: seq<Timed>)
    ensures Keeps(s, Run(s, trace))
    decreases |trace|
  {
    if trace != [] {
      StepKeeps(s, trace[0]);
      RunKeeps(Step(s, trace[0]), trace[1..]);
      KeepsTransitive(s, Step(s, trace[0]), Run(s, trace));
    }
  }
}

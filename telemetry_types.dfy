/**
 Values exchanged by the visit-telemetry collector: buffered interaction
 events, the session snapshot, the two request bodies, the records of the
 two local fallback logs, the partner configuration and the outcome of a
 call.
 */
module TelemetryTypes {

  datatype Option<+T> = None | Some(value: T)

  /** Only every this-many-th mouse movement may produce an event. */
  const MouseEventPeriod: nat := 10

  /** The fixed enumeration of event types ('page_view', 'click', ...). */
  datatype EventType = PageView | Click | Scroll | Focus | Blur | SessionEnd

  /** The partial snapshot an event carries: at most one field is ever set. */
  datatype EventData =
    | NoData
    | Clicks(clicks: nat)
    | ScrollDepth(depth: real)
    | MouseMovements(movements: nat)
    | PageLoadTime(millis: int)

  /** A buffered interaction event, stamped with the visit it belongs to. */
  datatype Event = Event(kind: EventType, data: EventData, timestamp: int, visitUid: string)

  /**
   The session-owned part of a snapshot. The browser and device fields
   (user agent, screen, connection, timezone, ...) are read from the
   environment and are not modelled; the IP address is the result of the
   best-effort lookup.
   */
  datatype Snapshot = Snapshot(
    visitUid: string,
    ipAddress: Option<string>,
    sessionStartTime: int,
    totalActiveTime: int,
    lastActivityTime: int,
    pageViews: nat,
    clicks: nat,
    scrollDepth: real,
    mouseMovements: nat,
    sessionId: string,
    timestamp: int)

  /** The three environment-provided settings, read at call time. */
  datatype Config = Config(endpoint: Option<string>, accessToken: Option<string>, pixelId: Option<string>)

  /** A setting counts as configured when it is present and not the empty string. */
  predicate Configured(setting: Option<string>)
  {
    setting.Some? && |setting.value| > 0
  }

  /** `setting || null`: an unconfigured setting is sent as null. */
  function OrNull(setting: Option<string>): Option<string>
  {
    if Configured(setting) then setting else None
  }

  /** Body of `POST {endpoint}/tracking`. */
  datatype TrackingPayload = TrackingPayload(trackingData: Snapshot, events: seq<Event>, accessToken: string, pixelId: string)

  /** A record of the `trackingData` fallback log. */
  datatype TrackingRecord = TrackingRecord(trackingData: Snapshot, events: seq<Event>, timestamp: int)

  /** Body of `POST {endpoint}/init-tracking`. */
  datatype InitPayload = InitPayload(
    visitUid: string,
    sessionId: string,
    pageId: Option<string>,
    timestamp: int,
    accessToken: Option<string>,
    pixelId: Option<string>)

  /** A record of the `initTrackingData` fallback log: the beacon plus its creation time. */
  datatype InitRecord = InitRecord(beacon: InitPayload, createdAt: int)

  /** How a POST ends: the collector accepts it, or it rejects (the 10 s timeout, an error status, no network). */
  datatype Reply = Accepted | Rejected

  /** The error a send raises to its caller. */
  datatype SendError = EndpointMissing | AccessTokenMissing | PixelIdMissing | RequestFailed

  /**
   What one of the send operations, or one stage of it, yields to its
   caller: skipped by a guard, started and awaiting the IP lookup, posted
   and awaiting the reply, delivered, or raised.
   */
  datatype CallResult = Skipped | Started | Posted | Delivered | Raised(error: SendError)
}

/**
 * `pollRingEvents` and `startPolling`: one polling tick classifies the active
 * dings, the history entries of each location and the state of each camera
 * into events, and routes every one of them through the admission pipeline.
 * Every send of a tick swallows its own rejection, so a tick is exactly the
 * run of the flat list of events it classifies; a failed fetch removes only
 * the events that depended on it.
 */
module Polling {
  import opened JsText
  import opened JsValue
  import opened Deduplication
  import opened Admission
  import Camera

  const DoorbellPressType := "doorbell_press"
  const UnknownEventType := "unknown_event"

  /** What a camera's fetches settled to during one tick. */
  datatype CameraProbe = CameraProbe(
    device: Data,
    health: Settled<Value>,
    snapshot: Settled<Value>,
    motionEvents: Settled<seq<Value>>)

  /**
   * What a location's fetches settled to during one tick: `getHistory` (a
   * `null` result reads as no entries) and `getDevices`.
   */
  datatype LocationProbe = LocationProbe(name: Value, history: Settled<seq<Value>>, devices: Settled<seq<CameraProbe>>)

  /** The events of `o`, if any. */
  function Listed(o: Option<Event>): (r: seq<Event>)
    ensures |r| <= 1 && (r != [] <==> o.Some?)
  {
    if o.Some? then [o.value] else []
  }

  // ---------------------------------------------------------------------------
  // Active dings
  // ---------------------------------------------------------------------------

  /** The `eventData` of a polled active ding. */
  function DingData(ding: Value, now: int, toIso: Value -> string): Data
  {
    map["id" := Or(Field(ding, "id_str"), Field(ding, "id")), "deviceName" := Field(ding, "doorbot_description"),
        "deviceId" := Field(ding, "doorbot_id"), "kind" := Field(ding, "kind"),
        "timestamp" := Str(toIso(Or(Field(ding, "created_at"), Num(now)))),
        "detectionMethod" := Str("direct_api_polling"), "dingData" := ding]
  }

  /** The event a polled active ding becomes: only motions and rings count. */
  function DingEvent(ding: Value, now: int, toIso: Value -> string): (r: Option<Event>)
    ensures r.Some? <==> Truthy(ding) && (Field(ding, "kind") == Str("motion") || Field(ding, "kind") == Str("ding"))
    ensures r.Some? ==> r.value.eventType == (if Field(ding, "kind") == Str("motion") then MotionType else DoorbellPressType)
    ensures r.Some? ==> r.value.data == DingData(ding, now, toIso)
  {
    if Truthy(ding) && (Field(ding, "kind") == Str("motion") || Field(ding, "kind") == Str("ding")) then
      var t := if Field(ding, "kind") == Str("motion") then MotionType else DoorbellPressType;
      Some(Event(t, DingData(ding, now, toIso)))
    else None
  }

  function DingEvents(dings: seq<Value>, now: int, toIso: Value -> string): (r: seq<Event>)
    ensures |r| <= |dings|
    decreases |dings|
  {
    if dings == [] then []
    else DingEvents(dings[..|dings| - 1], now, toIso) + Listed(DingEvent(dings[|dings| - 1], now, toIso))
  }

  // ---------------------------------------------------------------------------
  // History entries
  // ---------------------------------------------------------------------------

  /** `event.id || event.ding_id_str || event.doorbot_id`. */
  predicate HasIds(entry: Value)
  {
    Truthy(Field(entry, "id")) || Truthy(Field(entry, "ding_id_str")) || Truthy(Field(entry, "doorbot_id"))
  }

  /** The event type of a history entry. */
  function HistoryType(entry: Value): string
  {
    var kind := Field(entry, "kind");
    if kind == Str("motion") then MotionType
    else if kind == Str("ding") then DoorbellPressType
    else if Truthy(kind) then ToText(kind)
    else UnknownEventType
  }

  /** The `eventData` of a history entry. */
  function HistoryData(location: Value, entry: Value, now: int, toIso: Value -> string): Data
  {
    map["id" := Field(entry, "id"), "dingId" := Field(entry, "ding_id_str"), "deviceId" := Field(entry, "doorbot_id"),
        "locationName" := location, "deviceName" := Or(Field(entry, "doorbot_description"), Str("unknown")),
        "kind" := Field(entry, "kind"), "createdAt" := Field(entry, "created_at"),
        "timestamp" := Str(toIso(Num(now))), "detectionMethod" := Str("history_polling"), "eventData" := entry]
  }

  /** The event a history entry becomes: none for a falsy entry or one without any id. */
  function HistoryEvent(location: Value, entry: Value, now: int, toIso: Value -> string): (r: Option<Event>)
    ensures r.Some? <==> Truthy(entry) && HasIds(entry)
    ensures r.Some? ==> r.value == Event(HistoryType(entry), HistoryData(location, entry, now, toIso))
  {
    if !Truthy(entry) || !HasIds(entry) then None
    else Some(Event(HistoryType(entry), HistoryData(location, entry, now, toIso)))
  }

  /**
   * A motion entry is `motion_detected`, a ring `doorbell_press`, any other
   * truthy kind its own name, and a falsy kind `unknown_event`.
   */
  lemma HistoryClassification(entry: Value)
    ensures var kind, t := Field(entry, "kind"), HistoryType(entry);
      (kind == Str("motion") ==> t == MotionType) &&
      (kind == Str("ding") ==> t == DoorbellPressType) &&
      (Truthy(kind) && kind != Str("motion") && kind != Str("ding") ==> t == ToText(kind)) &&
      (!Truthy(kind) ==> t == UnknownEventType)
  {
  }

  /** The history and the active-ding path give a motion or a ring the same event type. */
  lemma ChannelsClassifyAlike(location: Value, entry: Value, now: int, toIso: Value -> string)
    requires Truthy(entry) && HasIds(entry)
    requires Field(entry, "kind") == Str("motion") || Field(entry, "kind") == Str("ding")
    ensures DingEvent(entry, now, toIso).value.eventType == HistoryEvent(location, entry, now, toIso).value.eventType
  {
  }

  function HistoryEvents(location: Value, entries: seq<Value>, now: int, toIso: Value -> string): (r: seq<Event>)
    ensures |r| <= |entries|
    decreases |entries|
  {
    if entries == [] then []
    else HistoryEvents(location, entries[..|entries| - 1], now, toIso) +
         Listed(HistoryEvent(location, entries[|entries| - 1], now, toIso))
  }

  // ---------------------------------------------------------------------------
  // Cameras
  // ---------------------------------------------------------------------------

  /** `deviceType` is one of `doorbot`, `floodlight_v2`, `stickup_cam`. */
  predicate IsCamera(device: Data)
  {
    Get(device, "deviceType") == Str("doorbot") || Get(device, "deviceType") == Str("floodlight_v2") ||
    Get(device, "deviceType") == Str("stickup_cam")
  }

  /** The cameras among the devices, in order. */
  function Cameras(ds: seq<CameraProbe>): (r: seq<CameraProbe>)
    ensures |r| <= |ds|
    decreases |ds|
  {
    if ds == [] then []
    else
      var last := ds[|ds| - 1];
      Cameras(ds[..|ds| - 1]) + (if IsCamera(last.device) then [last] else [])
  }

  /** A device is polled as a camera exactly when it is one of the devices and has a camera type. */
  lemma {:induction false} CamerasIff(ds: seq<CameraProbe>, c: CameraProbe)
    ensures c in Cameras(ds) <==> c in ds && IsCamera(c.device)
    decreases |ds|
  {
    if ds != [] {
      var before := ds[..|ds| - 1];
      CamerasIff(before, c);
      assert ds == before + [ds[|ds| - 1]];
    }
  }

  /** `camera.hasMotion || (camera.data && camera.data.motion) || (health && health.motion) || camera.motion === true`. */
  function MotionSignal(device: Data, health: Value): Value
  {
    Or(Or(Or(Get(device, "hasMotion"), And(Get(device, "data"), Field(Get(device, "data"), "motion"))),
          And(health, Field(health, "motion"))),
       Bool(Get(device, "motion") == Bool(true)))
  }

  /** Any one of the four signs is enough for a direct motion report. */
  lemma MotionSignalIff(device: Data, health: Value)
    ensures Truthy(MotionSignal(device, health)) <==>
      Truthy(Get(device, "hasMotion")) ||
      (Truthy(Get(device, "data")) && Truthy(Field(Get(device, "data"), "motion"))) ||
      (Truthy(health) && Truthy(Field(health, "motion"))) ||
      Get(device, "motion") == Bool(true)
  {
  }

  /** `camera.name || camera.id`. */
  function CameraLabel(device: Data): Value
  {
    Or(Get(device, "name"), Get(device, "id"))
  }

  /** The `eventData` of a direct motion report. */
  function DirectData(location: Value, device: Data, now: int, toIso: Value -> string): Data
  {
    map["id" := Str("direct-motion-" + ToText(Get(device, "id")) + "-" + IntText(now)),
        "cameraName" := CameraLabel(device), "cameraId" := Get(device, "id"), "locationName" := location,
        "timestamp" := Str(toIso(Num(now))), "detectionMethod" := Str("direct_camera_check")]
  }

  /** The `eventData` of the most recent motion event of a camera. */
  function LatestData(location: Value, device: Data, latest: Value, now: int, toIso: Value -> string): Data
  {
    map["id" := Str("event-motion-" + ToText(Get(device, "id")) + "-" + ToText(Or(Field(latest, "created_at"), Num(now)))),
        "cameraName" := CameraLabel(device), "cameraId" := Get(device, "id"), "locationName" := location,
        "timestamp" := Str(toIso(Num(now))), "eventCreatedAt" := Field(latest, "created_at"),
        "detectionMethod" := Str("camera_events_history")]
  }

  /**
   * The event taken from `getEvents`: only the first entry is looked at, and
   * reading `created_at` of a `null` or `undefined` one throws, which the
   * surrounding `try` swallows.
   */
  function LatestEvent(location: Value, c: CameraProbe, now: int, toIso: Value -> string): (r: Option<Event>)
    ensures r.Some? <==> c.motionEvents.Ok? && |c.motionEvents.value| > 0 &&
                         c.motionEvents.value[0] != Null && c.motionEvents.value[0] != Undefined
    ensures r.Some? ==> r.value == Event(MotionType, LatestData(location, c.device, c.motionEvents.value[0], now, toIso))
  {
    if c.motionEvents.Ok? && |c.motionEvents.value| > 0 &&
       c.motionEvents.value[0] != Null && c.motionEvents.value[0] != Undefined
    then Some(Event(MotionType, LatestData(location, c.device, c.motionEvents.value[0], now, toIso)))
    else None
  }

  /** The direct motion report, if the health fetch succeeded and a sign of motion is present. */
  function DirectEvent(location: Value, c: CameraProbe, now: int, toIso: Value -> string): (r: Option<Event>)
    ensures r.Some? <==> c.health.Ok? && Truthy(MotionSignal(c.device, c.health.value))
  {
    if c.health.Ok? && Truthy(MotionSignal(c.device, c.health.value))
    then Some(Event(MotionType, DirectData(location, c.device, now, toIso)))
    else None
  }

  /** Every event of `es` is `motion_detected`. */
  predicate AllMotion(es: seq<Event>)
  {
    forall i :: 0 <= i < |es| ==> es[i].eventType == MotionType
  }

  /** The events one camera contributes: nothing at all when its health fetch throws. */
  function CameraEvents(location: Value, c: CameraProbe, now: int, toIso: Value -> string): (r: seq<Event>)
    ensures |r| <= 2
    ensures AllMotion(r)
  {
    if c.health.Threw? then []
    else Listed(DirectEvent(location, c, now, toIso)) + Listed(LatestEvent(location, c, now, toIso))
  }

  function CamerasEvents(location: Value, cs: seq<CameraProbe>, now: int, toIso: Value -> string): (r: seq<Event>)
    ensures |r| <= 2 * |cs|
    decreases |cs|
  {
    if cs == [] then []
    else CamerasEvents(location, cs[..|cs| - 1], now, toIso) + CameraEvents(location, cs[|cs| - 1], now, toIso)
  }

  /**
   * A camera's events ignore its snapshot; a failed events fetch removes only
   * the event taken from it; and of the motion events fetched only the first
   * one matters.
   */
  lemma CameraFailuresAreIsolated(location: Value, c: CameraProbe, now: int, toIso: Value -> string)
    ensures forall s :: CameraEvents(location, c.(snapshot := s), now, toIso) == CameraEvents(location, c, now, toIso)
    ensures c.health.Ok? ==>
      CameraEvents(location, c.(motionEvents := Threw), now, toIso) == Listed(DirectEvent(location, c, now, toIso))
    ensures forall es :: c.motionEvents.Ok? && |c.motionEvents.value| > 0 && |es| > 0 &&
                         es[0] == c.motionEvents.value[0] ==>
      CameraEvents(location, c.(motionEvents := Ok(es)), now, toIso) == CameraEvents(location, c, now, toIso)
  {
    forall s ensures CameraEvents(location, c.(snapshot := s), now, toIso) == CameraEvents(location, c, now, toIso) {
      assert DirectEvent(location, c.(snapshot := s), now, toIso) == DirectEvent(location, c, now, toIso);
      assert LatestEvent(location, c.(snapshot := s), now, toIso) == LatestEvent(location, c, now, toIso);
    }
    if c.health.Ok? {
      assert LatestEvent(location, c.(motionEvents := Threw), now, toIso) == None;
      assert DirectEvent(location, c.(motionEvents := Threw), now, toIso) == DirectEvent(location, c, now, toIso);
    }
  }

  // ---------------------------------------------------------------------------
  // Locations and the whole tick
  // ---------------------------------------------------------------------------

  /**
   * The events of one location: its history entries, then its cameras. A
   * failed history fetch drops both; a failed device fetch only the cameras.
   */
  function LocationEvents(loc: LocationProbe, now: int, toIso: Value -> string): (r: seq<Event>)
    ensures loc.history.Threw? ==> r == []
    ensures loc.history.Ok? && loc.devices.Threw? ==> r == HistoryEvents(loc.name, loc.history.value, now, toIso)
  {
    if loc.history.Threw? then []
    else HistoryEvents(loc.name, loc.history.value, now, toIso) +
         (if loc.devices.Threw? then [] else CamerasEvents(loc.name, Cameras(loc.devices.value), now, toIso))
  }

  /** `LocationEvents` at time `now`, as a function of the location. */
  function PerLocation(now: int, toIso: Value -> string): LocationProbe -> seq<Event>
  {
    loc => LocationEvents(loc, now, toIso)
  }

  /**
   * The events of a list of locations: those of each location in turn, so
   * that whatever fails at one location changes nothing at another.
   */
  function LocationsEvents(locs: seq<LocationProbe>, now: int, toIso: Value -> string): seq<Event>
  {
    Flat(PerLocation(now, toIso), locs)
  }

  /** The events of one polling tick, in the order they are sent. */
  function PollEvents(dings: seq<Value>, locs: seq<LocationProbe>, now: int, toIso: Value -> string): seq<Event>
  {
    DingEvents(dings, now, toIso) + LocationsEvents(locs, now, toIso)
  }

  /**
   * A location whose history fetch throws contributes nothing, and the
   * others contribute what they would have anyway.
   */
  lemma FailedLocationIsSkipped(dings: seq<Value>, a: seq<LocationProbe>, loc: LocationProbe, b: seq<LocationProbe>,
                                now: int, toIso: Value -> string)
    requires loc.history.Threw?
    ensures PollEvents(dings, a + [loc] + b, now, toIso) == PollEvents(dings, a + b, now, toIso)
  {
    var f := PerLocation(now, toIso);
    var x := Flat(f, a);
    assert f(loc) == LocationEvents(loc, now, toIso) == [];
    FlatSingle(f, loc);
    FlatAppend(f, a, [loc]);
    assert x + [] == x;
    assert Flat(f, a + [loc]) == x;
    FlatAppend(f, a + [loc], b);
    FlatAppend(f, a, b);
  }

  // ---------------------------------------------------------------------------
  // Keys across channels
  // ---------------------------------------------------------------------------

  /**
   * Polling reports a ring as `doorbell_press` and the subscription as
   * `doorbell_pressed`: their keys never coincide, so the two channels never
   * deduplicate each other's rings.
   */
  lemma DoorbellChannelsNeverMeet(env: Env, d1: Data, d2: Data, n1: int, n2: int)
    ensures KeyOf(env, Event(DoorbellPressType, d1), n1) != KeyOf(env, Event(Camera.DoorbellPressedType, d2), n2)
  {
    var k1, k2 := KeyOf(env, Event(DoorbellPressType, d1), n1), KeyOf(env, Event(Camera.DoorbellPressedType, d2), n2);
    assert k1[..15] == "doorbell_press-";
    assert k2[..17] == "doorbell_pressed-";
    assert k1[14] == '-' && k2[14] == 'e';
  }

  /**
   * A motion ding polled directly and the same ding pushed to the
   * subscription are keyed alike by its `id_str`, so the later one within a
   * TTL is blocked as a duplicate.
   */
  lemma MotionChannelsMeet(env: Env, camera: Data, location: Value, ding: Data, now: int, later: int)
    requires Truthy(Get(ding, "id_str")) && Get(ding, "kind") == Str("motion")
    ensures DingEvent(Obj(ding), now, env.toIso).Some?
    ensures KeyOf(env, DingEvent(Obj(ding), now, env.toIso).value, now) ==
            KeyOf(env, Camera.MotionDingEvent(camera, location, ding, env.toIso), later)
  {
    var polled := DingEvent(Obj(ding), now, env.toIso).value;
    assert Get(polled.data, "id") == Get(ding, "id_str");
    Camera.MotionDingKey(camera, location, ding, later, env);
  }

  // ---------------------------------------------------------------------------
  // The tick, step by step
  // ---------------------------------------------------------------------------

  lemma DingEventsSnoc(dings: seq<Value>, i: nat, now: int, toIso: Value -> string)
    requires i < |dings|
    ensures DingEvents(dings[..i + 1], now, toIso) == DingEvents(dings[..i], now, toIso) + Listed(DingEvent(dings[i], now, toIso))
  {
    assert dings[..i + 1][..i] == dings[..i];
  }

  lemma HistoryEventsSnoc(location: Value, entries: seq<Value>, k: nat, now: int, toIso: Value -> string)
    requires k < |entries|
    ensures HistoryEvents(location, entries[..k + 1], now, toIso) ==
            HistoryEvents(location, entries[..k], now, toIso) + Listed(HistoryEvent(location, entries[k], now, toIso))
  {
    assert entries[..k + 1][..k] == entries[..k];
  }

  lemma SkippedEntry(location: Value, entries: seq<Value>, k: nat, now: int, toIso: Value -> string)
    requires k < |entries| && !(Truthy(entries[k]) && HasIds(entries[k]))
    ensures HistoryEvents(location, entries[..k + 1], now, toIso) == HistoryEvents(location, entries[..k], now, toIso)
  {
    HistoryEventsSnoc(location, entries, k, now, toIso);
    var es := HistoryEvents(location, entries[..k], now, toIso);
    assert es + [] == es;
  }

  /** One element of the loop over the active dings. */
  method PollDing(b: Bridge, dings: seq<Value>, i: nat, now: int, ghost w0: World)
    requires i < |dings|
    requires b.Snapshot() == Run(b.env, w0, DingEvents(dings[..i], now, b.env.toIso), now)
    modifies b.stats, b.recent, b.sink
    ensures b.Snapshot() == Run(b.env, w0, DingEvents(dings[..i + 1], now, b.env.toIso), now)
  {
    DingEventsSnoc(dings, i, now, b.env.toIso);
    var ding := dings[i];
    if Truthy(ding) && (Field(ding, "kind") == Str("motion") || Field(ding, "kind") == Str("ding")) {
      var eventType := if Field(ding, "kind") == Str("motion") then MotionType else DoorbellPressType;
      var e := Event(eventType, DingData(ding, now, b.env.toIso));
      assert Listed(DingEvent(ding, now, b.env.toIso)) == [e];
      RunSnoc(b.env, w0, DingEvents(dings[..i], now, b.env.toIso), e, now);
      var _ := b.Emit(e, now);
    } else {
      var es := DingEvents(dings[..i], now, b.env.toIso);
      assert Listed(DingEvent(ding, now, b.env.toIso)) == [] && es + [] == es;
    }
  }

  /** One element of the loop over a location's history; `return` is the source's `continue`. */
  method PollEntry(b: Bridge, location: Value, entries: seq<Value>, k: nat, now: int, ghost w0: World)
    requires k < |entries|
    requires b.Snapshot() == Run(b.env, w0, HistoryEvents(location, entries[..k], now, b.env.toIso), now)
    modifies b.stats, b.recent, b.sink
    ensures b.Snapshot() == Run(b.env, w0, HistoryEvents(location, entries[..k + 1], now, b.env.toIso), now)
  {
    HistoryEventsSnoc(location, entries, k, now, b.env.toIso);
    var entry := entries[k];
    if !Truthy(entry) {
      SkippedEntry(location, entries, k, now, b.env.toIso);
      return;
    }
    if !(Truthy(Field(entry, "id")) || Truthy(Field(entry, "ding_id_str")) || Truthy(Field(entry, "doorbot_id"))) {
      SkippedEntry(location, entries, k, now, b.env.toIso);
      return;
    }
    var eventType := UnknownEventType;
    if Field(entry, "kind") == Str("motion") {
      eventType := MotionType;
    } else if Field(entry, "kind") == Str("ding") {
      eventType := DoorbellPressType;
    } else if Truthy(Field(entry, "kind")) {
      eventType := ToText(Field(entry, "kind"));
    }
    var e := Event(eventType, HistoryData(location, entry, now, b.env.toIso));
    assert Listed(HistoryEvent(location, entry, now, b.env.toIso)) == [e];
    RunSnoc(b.env, w0, HistoryEvents(location, entries[..k], now, b.env.toIso), e, now);
    var _ := b.Emit(e, now);
  }

  /** The checks of one camera; a throwing health fetch ends them (the camera's own `catch`). */
  method PollCamera(b: Bridge, location: Value, c: CameraProbe, now: int)
    modifies b.stats, b.recent, b.sink
    ensures b.Snapshot() == Run(b.env, old(b.Snapshot()), CameraEvents(location, c, now, b.env.toIso), now)
  {
    if c.health.Threw? {
      return;
    }
    var health := c.health.value;
    // The snapshot is fetched and only logged; its failure is caught.
    var hasMotion := MotionSignal(c.device, health);
    ghost var w0 := b.Snapshot();
    var direct: seq<Event> := [];
    if Truthy(hasMotion) {
      var e := Event(MotionType, DirectData(location, c.device, now, b.env.toIso));
      RunSingle(b.env, w0, e, now);
      var _ := b.Emit(e, now);
      direct := [e];
    }
    assert direct == Listed(DirectEvent(location, c, now, b.env.toIso));
    ghost var w1 := b.Snapshot();
    var latest: seq<Event> := [];
    if c.motionEvents.Ok? && |c.motionEvents.value| > 0 {
      var first := c.motionEvents.value[0];
      if first != Null && first != Undefined {
        var e := Event(MotionType, LatestData(location, c.device, first, now, b.env.toIso));
        RunSingle(b.env, w1, e, now);
        var _ := b.Emit(e, now);
        latest := [e];
      }
    }
    assert latest == Listed(LatestEvent(location, c, now, b.env.toIso));
    RunAppend(b.env, w0, direct, latest, now);
  }

  /** The history part of one location. */
  method PollHistory(b: Bridge, location: Value, entries: seq<Value>, now: int)
    modifies b.stats, b.recent, b.sink
    ensures b.Snapshot() == Run(b.env, old(b.Snapshot()), HistoryEvents(location, entries, now, b.env.toIso), now)
  {
    ghost var w0 := b.Snapshot();
    var k := 0;
    while k < |entries|
      invariant k <= |entries|
      invariant b.Snapshot() == Run(b.env, w0, HistoryEvents(location, entries[..k], now, b.env.toIso), now)
    {
      PollEntry(b, location, entries, k, now, w0);
      k := k + 1;
    }
    assert entries[..k] == entries;
  }

  lemma CamerasSnoc(location: Value, cs: seq<CameraProbe>, m: nat, now: int, toIso: Value -> string)
    requires m < |cs|
    ensures CamerasEvents(location, cs[..m + 1], now, toIso) ==
            CamerasEvents(location, cs[..m], now, toIso) + CameraEvents(location, cs[m], now, toIso)
  {
    assert cs[..m + 1][..m] == cs[..m];
  }

  /** The loop over a location's cameras. */
  method PollCameras(b: Bridge, location: Value, cams: seq<CameraProbe>, now: int)
    modifies b.stats, b.recent, b.sink
    ensures b.Snapshot() == Run(b.env, old(b.Snapshot()), CamerasEvents(location, cams, now, b.env.toIso), now)
  {
    ghost var w0 := b.Snapshot();
    var m := 0;
    while m < |cams|
      invariant m <= |cams|
      invariant b.Snapshot() == Run(b.env, w0, CamerasEvents(location, cams[..m], now, b.env.toIso), now)
    {
      ghost var before := b.Snapshot();
      PollCamera(b, location, cams[m], now);
      CamerasSnoc(location, cams, m, now, b.env.toIso);
      RunAppend(b.env, w0, CamerasEvents(location, cams[..m], now, b.env.toIso),
                CameraEvents(location, cams[m], now, b.env.toIso), now);
      m := m + 1;
    }
    assert cams[..m] == cams;
  }

  /** One location: its history, then its cameras; each fetch failure is caught where the source catches it. */
  method PollLocation(b: Bridge, loc: LocationProbe, now: int)
    modifies b.stats, b.recent, b.sink
    ensures b.Snapshot() == Run(b.env, old(b.Snapshot()), LocationEvents(loc, now, b.env.toIso), now)
  {
    if loc.history.Threw? {
      return;
    }
    ghost var w0 := b.Snapshot();
    PollHistory(b, loc.name, loc.history.value, now);
    var history := HistoryEvents(loc.name, loc.history.value, now, b.env.toIso);
    if loc.devices.Threw? {
      assert history + [] == history;
      return;
    }
    var cams := Cameras(loc.devices.value);
    PollCameras(b, loc.name, cams, now);
    RunAppend(b.env, w0, history, CamerasEvents(loc.name, cams, now, b.env.toIso), now);
  }

  lemma LocationsSnoc(locs: seq<LocationProbe>, j: nat, now: int, toIso: Value -> string)
    requires j < |locs|
    ensures LocationsEvents(locs[..j + 1], now, toIso) == LocationsEvents(locs[..j], now, toIso) + LocationEvents(locs[j], now, toIso)
  {
    FlatSnoc(PerLocation(now, toIso), locs, j);
  }

  /**
   * `pollRingEvents(ringApi, locations)` at time `now`, `dings` being what
   * `getActiveDings` returned: the tick sends exactly its classified events.
   */
  method PollRingEvents(b: Bridge, dings: seq<Value>, locations: seq<LocationProbe>, now: int)
    modifies b.stats, b.recent, b.sink
    ensures b.Snapshot() == Run(b.env, old(b.Snapshot()), PollEvents(dings, locations, now, b.env.toIso), now)
  {
    ghost var w0 := b.Snapshot();
    var i := 0;
    while i < |dings|
      invariant i <= |dings|
      invariant b.Snapshot() == Run(b.env, w0, DingEvents(dings[..i], now, b.env.toIso), now)
    {
      PollDing(b, dings, i, now, w0);
      i := i + 1;
    }
    assert dings[..i] == dings;
    ghost var w1 := b.Snapshot();
    var j := 0;
    while j < |locations|
      invariant j <= |locations|
      invariant b.Snapshot() == Run(b.env, w1, LocationsEvents(locations[..j], now, b.env.toIso), now)
    {
      PollLocation(b, locations[j], now);
      LocationsSnoc(locations, j, now, b.env.toIso);
      RunAppend(b.env, w1, LocationsEvents(locations[..j], now, b.env.toIso),
                LocationEvents(locations[j], now, b.env.toIso), now);
      j := j + 1;
    }
    assert locations[..j] == locations;
    RunAppend(b.env, w0, DingEvents(dings, now, b.env.toIso), LocationsEvents(locations, now, b.env.toIso), now);
  }

  /** The interval timer `startPolling` returns, with the period it was given. */
  datatype Timer = Timer(periodMs: Option<int>)

  /**
   * `startPolling(ringApi, locations)`: without locations, no timer and no
   * poll; otherwise one immediate poll and a timer at `pollingInterval`.
   */
  method StartPolling(b: Bridge, dings: seq<Value>, locations: seq<LocationProbe>, now: int)
    returns (timer: Option<Timer>)
    modifies b.stats, b.recent, b.sink
    ensures locations == [] ==> timer == None && b.Snapshot() == old(b.Snapshot())
    ensures locations != [] ==>
      timer == Some(Timer(b.env.config.pollingInterval)) &&
      b.Snapshot() == Run(b.env, old(b.Snapshot()), PollEvents(dings, locations, now, b.env.toIso), now)
  {
    if |locations| > 0 {
      PollRingEvents(b, dings, locations, now);
      return Some(Timer(b.env.config.pollingInterval));
    }
    return None;
  }
}

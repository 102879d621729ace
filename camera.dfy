/**
 * `setupCameraHandlers`: the four subscriptions a camera can offer (doorbell
 * presses, motion flags, active dings and raw data ticks) and what each of
 * their callbacks routes through the admission pipeline. The data-tick
 * callback keeps `lastMotionState` and reports motion on its rising edge only.
 */
module Camera {
  import opened JsText
  import opened JsValue
  import opened Deduplication
  import opened Webhook
  import opened Admission
  import AppConfig

  const DoorbellPressedType := "doorbell_pressed"
  const ActiveDingType := "active_ding"
  const StatusType := "camera_status_update"

  /** The subscriptions `setupCameraHandlers` can attach. */
  datatype Feed = DoorbellFeed | MotionFeed | ActiveDingsFeed | DataFeed

  /** The feeds a camera gets a callback on: each handler subscribes only when its observable exists. */
  function Feeds(camera: Data): (r: set<Feed>)
    ensures DoorbellFeed in r <==> Truthy(Get(camera, "isDoorbot")) && Truthy(Get(camera, "onDoorbellPressed"))
    ensures MotionFeed in r <==> Truthy(Get(camera, "onMotionDetected"))
    ensures ActiveDingsFeed in r <==> Truthy(Get(camera, "onActiveDings"))
    ensures DataFeed in r <==> Truthy(Get(camera, "onData"))
  {
    (if Truthy(Get(camera, "isDoorbot")) && Truthy(Get(camera, "onDoorbellPressed")) then {DoorbellFeed} else {}) +
    (if Truthy(Get(camera, "onMotionDetected")) then {MotionFeed} else {}) +
    (if Truthy(Get(camera, "onActiveDings")) then {ActiveDingsFeed} else {}) +
    (if Truthy(Get(camera, "onData")) then {DataFeed} else {})
  }

  // ---------------------------------------------------------------------------
  // Doorbell presses
  // ---------------------------------------------------------------------------

  /** The `eventData` of a doorbell press. */
  function DoorbellData(camera: Data, location: Value, ding: Data, toIso: Value -> string): Data
  {
    map["cameraName" := Get(camera, "name"), "cameraId" := Get(camera, "id"), "locationName" := location,
        "batteryLevel" := Get(camera, "batteryLevel"), "timestamp" := Str(toIso(Get(ding, "created_at"))),
        "dingId" := Get(ding, "id_str"), "kind" := Get(ding, "kind"), "snapshotUrl" := Get(ding, "snapshot_url")]
  }

  function DoorbellEvent(camera: Data, location: Value, ding: Data, toIso: Value -> string): Event
  {
    Event(DoorbellPressedType, DoorbellData(camera, location, ding, toIso))
  }

  /**
   * A press carries neither `id` nor `alarmId`, so it is keyed by the first
   * 50 characters of its serialized data: presses whose serializations share
   * that prefix are one event for dedup.
   */
  lemma DoorbellKey(camera: Data, location: Value, ding: Data, now: int, env: Env)
    ensures KeyOf(env, DoorbellEvent(camera, location, ding, env.toIso), now) ==
            DoorbellPressedType + "-" + Take(env.serialize(DoorbellData(camera, location, ding, env.toIso)), 50)
  {
  }

  // ---------------------------------------------------------------------------
  // Motion flags
  // ---------------------------------------------------------------------------

  /** The `eventData` of a motion flag. */
  function MotionData(camera: Data, location: Value, now: int, toIso: Value -> string): Data
  {
    map["cameraName" := Get(camera, "name"), "cameraId" := Get(camera, "id"), "locationName" := location,
        "batteryLevel" := Get(camera, "batteryLevel"), "timestamp" := Str(toIso(Num(now))),
        "lastMotion" := Get(camera, "lastMotion"), "detectionMethod" := Str("onMotionDetected")]
  }

  /** The events a pushed motion flag makes the callback attempt. */
  function MotionFlagEvents(camera: Data, location: Value, detected: Value, now: int, toIso: Value -> string)
    : (r: seq<Event>)
    ensures |r| <= 1
    ensures r != [] <==> Truthy(detected)
    ensures r != [] ==> r[0].eventType == MotionType && Get(r[0].data, "detectionMethod") == Str("onMotionDetected")
  {
    if Truthy(detected) then [Event(MotionType, MotionData(camera, location, now, toIso))] else []
  }

  /** A flag event has no id but a camera id and a timestamp, which key it. */
  lemma MotionFlagKey(camera: Data, location: Value, now: int, env: Env)
    requires Truthy(Get(camera, "id")) && env.toIso(Num(now)) != ""
    ensures KeyOf(env, Event(MotionType, MotionData(camera, location, now, env.toIso)), now) ==
            "motion-" + ToText(Get(camera, "id")) + "-" + env.toIso(Num(now))
  {
  }

  // ---------------------------------------------------------------------------
  // Active dings
  // ---------------------------------------------------------------------------

  /** The `eventData` of an active ding. */
  function ActiveDingData(camera: Data, location: Value, ding: Data, toIso: Value -> string): Data
  {
    map["cameraName" := Get(camera, "name"), "cameraId" := Get(camera, "id"), "locationName" := location,
        "dingId" := Get(ding, "id_str"), "kind" := Get(ding, "kind"),
        "timestamp" := Str(toIso(Get(ding, "created_at"))), "snapshotUrl" := Get(ding, "snapshot_url"),
        "detectionMethod" := Str("onActiveDings")]
  }

  /** The copy of a motion ding's data sent as `motion_detected`. */
  function MotionDingData(camera: Data, location: Value, ding: Data, toIso: Value -> string): Data
  {
    ActiveDingData(camera, location, ding, toIso)["detectionMethod" := Str("onActiveDings_motion")]
  }

  function ActiveDingEvent(camera: Data, location: Value, ding: Data, toIso: Value -> string): Event
  {
    Event(ActiveDingType, ActiveDingData(camera, location, ding, toIso))
  }

  function MotionDingEvent(camera: Data, location: Value, ding: Data, toIso: Value -> string): Event
  {
    Event(MotionType, MotionDingData(camera, location, ding, toIso))
  }

  /** `ding.kind === 'motion' || ding.kind === 'motion_detected'`. */
  predicate IsMotionKind(ding: Data)
  {
    Get(ding, "kind") == Str("motion") || Get(ding, "kind") == Str("motion_detected")
  }

  /**
   * The `motion_detected` copy of an active ding is the same record but for
   * its `detectionMethod`.
   */
  lemma MotionDingCopiesActiveDing(camera: Data, location: Value, ding: Data, toIso: Value -> string)
    ensures var a, m := ActiveDingData(camera, location, ding, toIso), MotionDingData(camera, location, ding, toIso);
      a.Keys == m.Keys &&
      (forall k :: k in a && k != "detectionMethod" ==> a[k] == m[k]) &&
      a["detectionMethod"] == Str("onActiveDings") && m["detectionMethod"] == Str("onActiveDings_motion")
  {
  }

  /** A motion ding with a truthy `id_str` is keyed by that id alone. */
  lemma MotionDingKey(camera: Data, location: Value, ding: Data, now: int, env: Env)
    requires Truthy(Get(ding, "id_str"))
    ensures KeyOf(env, MotionDingEvent(camera, location, ding, env.toIso), now) ==
            "motion-" + ToText(Get(ding, "id_str"))
  {
  }

  /**
   * The two attempts a motion ding makes never share a key, so neither can
   * block the other as a duplicate.
   */
  lemma DingKeysDiffer(camera: Data, location: Value, ding: Data, n1: int, n2: int, env: Env)
    ensures KeyOf(env, ActiveDingEvent(camera, location, ding, env.toIso), n1) !=
            KeyOf(env, MotionDingEvent(camera, location, ding, env.toIso), n2)
  {
    var k1 := KeyOf(env, ActiveDingEvent(camera, location, ding, env.toIso), n1);
    var k2 := KeyOf(env, MotionDingEvent(camera, location, ding, env.toIso), n2);
    assert k1[..|ActiveDingType| + 1] == ActiveDingType + "-";
    assert k2[..7] == "motion-";
    assert k1[0] == 'a' && k2[0] == 'm';
  }

  /** The outcome of the `active_ding` attempt, of the `motion_detected` one if made, and the new state. */
  datatype DingReport = DingReport(active: Outcome, motion: Option<Outcome>, world: World)

  /**
   * The callback for one ding. A rejected `await sendToN8n` for the
   * `active_ding` event ends that ding's callback before the second attempt.
   */
  function DingStep(env: Env, w: World, camera: Data, location: Value, ding: Data, now: int): (r: DingReport)
    ensures r.active == Step(env, w, ActiveDingEvent(camera, location, ding, env.toIso), now).outcome
    ensures r.motion.Some? <==> IsMotionKind(ding) && r.active != Attempted(Failed)
  {
    var a := Step(env, w, ActiveDingEvent(camera, location, ding, env.toIso), now);
    if a.outcome == Attempted(Failed) || !IsMotionKind(ding) then DingReport(a.outcome, None, a.world)
    else
      var m := Step(env, a.world, MotionDingEvent(camera, location, ding, env.toIso), now);
      DingReport(a.outcome, Some(m.outcome), m.world)
  }

  /** The shared state after the callbacks for `dings`, in order. */
  function DingsRun(env: Env, w: World, camera: Data, location: Value, dings: seq<Data>, now: int): World
    decreases |dings|
  {
    if dings == [] then w
    else DingStep(env, DingsRun(env, w, camera, location, dings[..|dings| - 1], now), camera, location,
                  dings[|dings| - 1], now).world
  }

  /** The events one ding's callback attempts when nothing is rejected. */
  function DingEvents(camera: Data, location: Value, ding: Data, toIso: Value -> string): (r: seq<Event>)
    ensures |r| >= 1 && r[0].eventType == ActiveDingType
    ensures |r| == 2 <==> IsMotionKind(ding)
    ensures |r| == 2 ==> r[1].eventType == MotionType
  {
    [ActiveDingEvent(camera, location, ding, toIso)] +
    (if IsMotionKind(ding) then [MotionDingEvent(camera, location, ding, toIso)] else [])
  }

  /** All the events of a batch of dings, ding by ding. */
  function BatchEvents(camera: Data, location: Value, dings: seq<Data>, toIso: Value -> string): (r: seq<Event>)
    ensures |r| >= |dings|
    decreases |dings|
  {
    if dings == [] then []
    else BatchEvents(camera, location, dings[..|dings| - 1], toIso) + DingEvents(camera, location, dings[|dings| - 1], toIso)
  }

  /** No POST the pipeline makes is rejected: there is no URL, or every POST succeeds. */
  ghost predicate NeverFails(env: Env)
  {
    !AppConfig.IsSet(env.config.webhookUrl) || forall n :: env.network(n)
  }

  lemma NoFailure(env: Env, w: World, e: Event, now: int)
    requires NeverFails(env)
    ensures Step(env, w, e, now).outcome != Attempted(Failed)
  {
    if !(e.eventType in env.config.excludedEvents) && !IsDuplicate(w.recent, KeyOf(env, e, now), now) {
      assert AppConfig.IsSet(env.config.webhookUrl) ==> env.network(|w.requests|);
    }
  }

  lemma DingStepHealthy(env: Env, w: World, camera: Data, location: Value, ding: Data, now: int)
    requires NeverFails(env)
    ensures DingStep(env, w, camera, location, ding, now).world == Run(env, w, DingEvents(camera, location, ding, env.toIso), now)
  {
    var a := ActiveDingEvent(camera, location, ding, env.toIso);
    NoFailure(env, w, a, now);
    if IsMotionKind(ding) {
      RunPair(env, w, a, MotionDingEvent(camera, location, ding, env.toIso), now);
    } else {
      RunSingle(env, w, a, now);
    }
  }

  /** The state after one ding's sends, given the state before them and the first send's outcome. */
  lemma DingRun(env: Env, w0: World, w: World, o: Outcome, w1: World, w2: World, camera: Data, location: Value,
                dings: seq<Data>, i: nat, now: int)
    requires i < |dings|
    requires w == DingsRun(env, w0, camera, location, dings[..i], now)
    requires Report(o, w1) == Step(env, w, ActiveDingEvent(camera, location, dings[i], env.toIso), now)
    requires w2 == if o != Attempted(Failed) && IsMotionKind(dings[i])
                   then Step(env, w1, MotionDingEvent(camera, location, dings[i], env.toIso), now).world
                   else w1
    ensures w2 == DingsRun(env, w0, camera, location, dings[..i + 1], now)
  {
    assert dings[..i + 1][..i] == dings[..i];
  }

  /**
   * With a webhook that never rejects, a batch of dings is exactly the flat
   * list of its events: each ding's `active_ding`, followed by its
   * `motion_detected` copy when it is a motion ding.
   */
  lemma {:induction false} HealthyBatchIsFlat(env: Env, w: World, camera: Data, location: Value, dings: seq<Data>,
                                              now: int)
    requires NeverFails(env)
    ensures DingsRun(env, w, camera, location, dings, now) == Run(env, w, BatchEvents(camera, location, dings, env.toIso), now)
    decreases |dings|
  {
    if dings != [] {
      var before := dings[..|dings| - 1];
      var last := dings[|dings| - 1];
      HealthyBatchIsFlat(env, w, camera, location, before, now);
      var mid := DingsRun(env, w, camera, location, before, now);
      DingStepHealthy(env, mid, camera, location, last, now);
      RunAppend(env, w, BatchEvents(camera, location, before, env.toIso), DingEvents(camera, location, last, env.toIso), now);
    }
  }

  // ---------------------------------------------------------------------------
  // Data ticks
  // ---------------------------------------------------------------------------

  /** The four signs of motion the data handler accepts, on a truthy `data`. */
  predicate HasMotion(data: Value)
  {
    Truthy(data) &&
    (Field(data, "motion") == Bool(true) || Field(data, "motion_status") == Str("detected") ||
     Field(data, "motion_detected") == Bool(true) || Field(data, "motion_state") == Str("active"))
  }

  /** `data && data.motion === false`: the only way the motion state goes back to false. */
  predicate Resets(data: Value)
  {
    Truthy(data) && Field(data, "motion") == Bool(false)
  }

  /** `hasMotion && hasMotion !== lastMotionState`. */
  predicate IsEdge(last: bool, data: Value)
  {
    HasMotion(data) && !last
  }

  /** `lastMotionState` after a tick. */
  function NextMotionState(last: bool, data: Value): (r: bool)
    ensures r <==> IsEdge(last, data) || (last && !Resets(data))
    ensures IsEdge(last, data) ==> r
    ensures !IsEdge(last, data) && !Resets(data) ==> r == last
  {
    if IsEdge(last, data) then true
    else if Resets(data) then false
    else last
  }

  /** The `id` of a motion edge, `motion-{camera.id}-{Date.now()}`. */
  function EdgeId(camera: Data, now: int): string
  {
    "motion-" + ToText(Get(camera, "id")) + "-" + IntText(now)
  }

  /** An edge id tells the clock it was made at. */
  lemma EdgeIdsDiffer(camera: Data, n1: int, n2: int)
    ensures EdgeId(camera, n1) == EdgeId(camera, n2) <==> n1 == n2
  {
    var p := "motion-" + ToText(Get(camera, "id")) + "-";
    var k1, k2 := EdgeId(camera, n1), EdgeId(camera, n2);
    assert k1 == p + IntText(n1) && k2 == p + IntText(n2);
    if k1 == k2 {
      assert k1[|p|..] == IntText(n1);
      assert k2[|p|..] == IntText(n2);
      ParseIntText(n1);
      ParseIntText(n2);
    }
  }

  /** The `eventData` of a motion edge: its `id` embeds the camera id and the clock. */
  function EdgeData(camera: Data, location: Value, now: int, toIso: Value -> string): Data
  {
    map["id" := Str(EdgeId(camera, now)),
        "cameraName" := Get(camera, "name"), "cameraId" := Get(camera, "id"), "locationName" := location,
        "batteryLevel" := Get(camera, "batteryLevel"), "timestamp" := Str(toIso(Num(now))),
        "detectionMethod" := Str("onData")]
  }

  /** The `statusData` of a tick; `hasMotion` is `data && data.motion === true`. */
  function StatusData(camera: Data, location: Value, data: Value, now: int, toIso: Value -> string): Data
  {
    map["cameraName" := Get(camera, "name"), "cameraId" := Get(camera, "id"), "locationName" := location,
        "batteryLevel" := Get(camera, "batteryLevel"), "hasLight" := Get(camera, "hasLight"),
        "hasSiren" := Get(camera, "hasSiren"), "isOffline" := Get(camera, "isOffline"),
        "isCharging" := Get(camera, "isCharging"),
        "hasMotion" := And(data, Bool(Field(data, "motion") == Bool(true))),
        "timestamp" := Str(toIso(Num(now)))]
  }

  /**
   * The events a tick attempts: a motion event on a rising edge, then always
   * exactly one status update.
   */
  function TickEvents(camera: Data, location: Value, last: bool, data: Value, now: int, toIso: Value -> string)
    : (r: seq<Event>)
    ensures |r| == if IsEdge(last, data) then 2 else 1
    ensures r[|r| - 1] == Event(StatusType, StatusData(camera, location, data, now, toIso))
    ensures |r| == 2 ==> r[0].eventType == MotionType && Get(r[0].data, "detectionMethod") == Str("onData")
  {
    (if IsEdge(last, data) then [Event(MotionType, EdgeData(camera, location, now, toIso))] else []) +
    [Event(StatusType, StatusData(camera, location, data, now, toIso))]
  }

  /** The state after a tick's sends, given the state after its optional motion event. */
  lemma TickRun(env: Env, w0: World, w1: World, w2: World, camera: Data, location: Value, last: bool,
                data: Value, now: int)
    requires w1 == if IsEdge(last, data) then Step(env, w0, Event(MotionType, EdgeData(camera, location, now, env.toIso)), now).world
                   else w0
    requires w2 == Step(env, w1, Event(StatusType, StatusData(camera, location, data, now, env.toIso)), now).world
    ensures w2 == Run(env, w0, TickEvents(camera, location, last, data, now, env.toIso), now)
  {
    var edge := Event(MotionType, EdgeData(camera, location, now, env.toIso));
    var status := Event(StatusType, StatusData(camera, location, data, now, env.toIso));
    if IsEdge(last, data) {
      assert TickEvents(camera, location, last, data, now, env.toIso) == [edge, status];
      RunPair(env, w0, edge, status, now);
    } else {
      assert TickEvents(camera, location, last, data, now, env.toIso) == [status];
      RunSingle(env, w0, status, now);
    }
  }

  /**
   * The status update's `hasMotion` looks at `motion === true` only, so it is
   * narrower than the edge detector's test.
   */
  lemma StatusMotionIsNarrower(camera: Data, location: Value, data: Value, now: int, toIso: Value -> string)
    ensures var h := Get(StatusData(camera, location, data, now, toIso), "hasMotion");
      (Truthy(h) <==> Truthy(data) && Field(data, "motion") == Bool(true)) &&
      (Truthy(h) ==> HasMotion(data))
    ensures var d := Obj(map["motion_status" := Str("detected")]);
      HasMotion(d) && !Truthy(Get(StatusData(camera, location, d, now, toIso), "hasMotion"))
  {
    var d := Obj(map["motion_status" := Str("detected")]);
    assert Field(d, "motion_status") == Str("detected");
    assert Field(d, "motion") == Undefined;
  }

  /** An edge event always has an `id`, so it is keyed by that id, which holds the clock. */
  lemma EdgeKey(camera: Data, location: Value, now: int, env: Env)
    ensures KeyOf(env, Event(MotionType, EdgeData(camera, location, now, env.toIso)), now) ==
            "motion-" + EdgeId(camera, now)
  {
    var d := EdgeData(camera, location, now, env.toIso);
    assert Get(d, "id") == Str(EdgeId(camera, now));
    assert EdgeId(camera, now)[0] == 'm';
  }

  /** Edges of one camera at two different times never deduplicate each other. */
  lemma EdgeKeysDiffer(camera: Data, location: Value, n1: int, n2: int, env: Env)
    requires n1 != n2
    ensures KeyOf(env, Event(MotionType, EdgeData(camera, location, n1, env.toIso)), n1) !=
            KeyOf(env, Event(MotionType, EdgeData(camera, location, n2, env.toIso)), n2)
  {
    EdgeKey(camera, location, n1, env);
    EdgeKey(camera, location, n2, env);
    EdgeIdsDiffer(camera, n1, n2);
  }

  /** `lastMotionState` after a sequence of ticks. */
  function FinalMotionState(last: bool, ticks: seq<Value>): bool
    decreases |ticks|
  {
    if ticks == [] then last else FinalMotionState(NextMotionState(last, ticks[0]), ticks[1..])
  }

  /** How many motion events a sequence of ticks attempts. */
  function EdgeCount(last: bool, ticks: seq<Value>): nat
    decreases |ticks|
  {
    if ticks == [] then 0
    else (if IsEdge(last, ticks[0]) then 1 else 0) + EdgeCount(NextMotionState(last, ticks[0]), ticks[1..])
  }

  /** Every tick shows motion and none has `motion === false`. */
  predicate Sustained(ticks: seq<Value>)
  {
    forall i :: 0 <= i < |ticks| ==> HasMotion(ticks[i]) && !Resets(ticks[i])
  }

  /** No tick shows motion. */
  predicate Quiet(ticks: seq<Value>)
  {
    forall i :: 0 <= i < |ticks| ==> !HasMotion(ticks[i])
  }

  /** Motion reported on tick after tick is reported once, on the first tick, and not at all if already high. */
  lemma {:induction false} SustainedMotionReportedOnce(last: bool, ticks: seq<Value>)
    requires Sustained(ticks)
    ensures EdgeCount(last, ticks) == if last || ticks == [] then 0 else 1
    ensures FinalMotionState(last, ticks) == (last || ticks != [])
    decreases |ticks|
  {
    if ticks != [] {
      assert HasMotion(ticks[0]) && !Resets(ticks[0]);
      assert NextMotionState(last, ticks[0]);
      assert Sustained(ticks[1..]) by {
        forall i | 0 <= i < |ticks[1..]| ensures HasMotion(ticks[1..][i]) && !Resets(ticks[1..][i]) {
          assert ticks[1..][i] == ticks[i + 1];
        }
      }
      SustainedMotionReportedOnce(true, ticks[1..]);
    }
  }

  /** Ticks without motion report none, whatever the state. */
  lemma {:induction false} QuietTicksReportNothing(last: bool, ticks: seq<Value>)
    requires Quiet(ticks)
    ensures EdgeCount(last, ticks) == 0
    ensures FinalMotionState(last, ticks) ==> last
    decreases |ticks|
  {
    if ticks != [] {
      assert !HasMotion(ticks[0]);
      assert Quiet(ticks[1..]) by {
        forall i | 0 <= i < |ticks[1..]| ensures !HasMotion(ticks[1..][i]) {
          assert ticks[1..][i] == ticks[i + 1];
        }
      }
      QuietTicksReportNothing(NextMotionState(last, ticks[0]), ticks[1..]);
    }
  }

  /**
   * A tick `{motion: false, motion_status: 'detected'}` both shows motion and
   * resets: repeated, it reports motion on every other tick.
   */
  lemma MixedTickAlternates()
    ensures var d := Obj(map["motion" := Bool(false), "motion_status" := Str("detected")]);
      IsEdge(false, d) && NextMotionState(false, d) &&
      !IsEdge(true, d) && !NextMotionState(true, d) &&
      EdgeCount(false, [d, d, d, d]) == 2
  {
    var d := Obj(map["motion" := Bool(false), "motion_status" := Str("detected")]);
    assert Field(d, "motion") == Bool(false) && Field(d, "motion_status") == Str("detected");
    assert [d, d, d, d][1..] == [d, d, d];
    assert [d, d, d][1..] == [d, d];
    assert [d, d][1..] == [d];
    assert [d][1..] == [];
    assert EdgeCount(true, [d]) == 0;
    assert EdgeCount(false, [d, d]) == 1;
    assert EdgeCount(true, [d, d, d]) == 1;
  }

  // ---------------------------------------------------------------------------
  // The handlers
  // ---------------------------------------------------------------------------

  /** The callbacks `setupCameraHandlers` attaches to one camera, with the data handler's `lastMotionState`. */
  class CameraHandlers {
    const camera: Data
    const location: Value
    const feeds: set<Feed>
    var lastMotionState: bool

    /** `setupCameraHandlers(camera, location)`, `location` being the location's name. */
    constructor (camera: Data, location: Value)
      ensures this.camera == camera && this.location == location
      ensures feeds == Feeds(camera) && !lastMotionState
    {
      this.camera, this.location := camera, location;
      feeds := Feeds(camera);
      lastMotionState := false;
    }

    /** The `onDoorbellPressed` callback. */
    method OnDoorbellPressed(b: Bridge, ding: Data, now: int)
      requires DoorbellFeed in feeds
      modifies b.stats, b.recent, b.sink
      ensures b.Snapshot() == Step(b.env, old(b.Snapshot()), DoorbellEvent(camera, location, ding, b.env.toIso), now).world
    {
      var _ := b.Emit(DoorbellEvent(camera, location, ding, b.env.toIso), now);
    }

    /** The `onMotionDetected` callback. */
    method OnMotionDetected(b: Bridge, detected: Value, now: int)
      requires MotionFeed in feeds
      modifies b.stats, b.recent, b.sink
      ensures b.Snapshot() == Run(b.env, old(b.Snapshot()), MotionFlagEvents(camera, location, detected, now, b.env.toIso), now)
    {
      if Truthy(detected) {
        RunSingle(b.env, b.Snapshot(), Event(MotionType, MotionData(camera, location, now, b.env.toIso)), now);
        var _ := b.Emit(Event(MotionType, MotionData(camera, location, now, b.env.toIso)), now);
      }
    }

    /** The `onActiveDings` callback: `dings.forEach`, each ding handled to its end before the next. */
    method OnActiveDings(b: Bridge, dings: seq<Data>, now: int)
      requires ActiveDingsFeed in feeds
      modifies b.stats, b.recent, b.sink
      ensures b.Snapshot() == DingsRun(b.env, old(b.Snapshot()), camera, location, dings, now)
    {
      ghost var w0 := b.Snapshot();
      var i := 0;
      while i < |dings|
        invariant i <= |dings|
        invariant b.Snapshot() == DingsRun(b.env, w0, camera, location, dings[..i], now)
      {
        OnDing(b, dings, i, now, w0);
        i := i + 1;
      }
      assert dings[..i] == dings;
    }

    /** One ding of the batch. */
    method OnDing(b: Bridge, dings: seq<Data>, i: nat, now: int, ghost w0: World)
      requires i < |dings|
      requires b.Snapshot() == DingsRun(b.env, w0, camera, location, dings[..i], now)
      modifies b.stats, b.recent, b.sink
      ensures b.Snapshot() == DingsRun(b.env, w0, camera, location, dings[..i + 1], now)
    {
      ghost var w := b.Snapshot();
      var ding := dings[i];
      var o := b.Emit(ActiveDingEvent(camera, location, ding, b.env.toIso), now);
      ghost var w1 := b.Snapshot();
      if o != Attempted(Failed) && (Get(ding, "kind") == Str("motion") || Get(ding, "kind") == Str("motion_detected")) {
        var _ := b.Emit(MotionDingEvent(camera, location, ding, b.env.toIso), now);
      }
      DingRun(b.env, w0, w, o, w1, b.Snapshot(), camera, location, dings, i, now);
    }

    /** The `onData` callback. */
    method OnData(b: Bridge, data: Value, now: int)
      requires DataFeed in feeds
      modifies this, b.stats, b.recent, b.sink
      ensures lastMotionState == NextMotionState(old(lastMotionState), data)
      ensures b.Snapshot() == Run(b.env, old(b.Snapshot()), TickEvents(camera, location, old(lastMotionState), data, now, b.env.toIso), now)
    {
      ghost var w0, last0 := b.Snapshot(), lastMotionState;
      var hasMotion := HasMotion(data);
      if hasMotion && hasMotion != lastMotionState {
        lastMotionState := hasMotion;
        var _ := b.Emit(Event(MotionType, EdgeData(camera, location, now, b.env.toIso)), now);
      } else if Resets(data) {
        lastMotionState := false;
      }
      ghost var w1 := b.Snapshot();
      var _ := b.Emit(Event(StatusType, StatusData(camera, location, data, now, b.env.toIso)), now);
      TickRun(b.env, w0, w1, b.Snapshot(), camera, location, last0, data, now);
    }
  }
}

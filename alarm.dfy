/**
 * `setupAlarmHandlers`: for every security panel of a location, one initial
 * `alarm_mode_state` event, then a listener that remembers the last mode it
 * saw and emits `alarm_mode_changed` when a push carries a different one.
 */
module Alarm {
  import opened JsText
  import opened JsValue
  import opened Deduplication
  import opened Webhook
  import opened Admission

  const StateType := "alarm_mode_state"
  const ChangedType := "alarm_mode_changed"

  predicate IsPanel(d: Data)
  {
    Get(d, "deviceType") == Str("security-panel")
  }

  /** `devices.filter(d => d.deviceType === 'security-panel')`. */
  function Panels(ds: seq<Data>): (r: seq<Data>)
    ensures forall d :: d in r <==> d in ds && IsPanel(d)
    decreases |ds|
  {
    if ds == [] then []
    else
      var before := ds[..|ds| - 1];
      var last := ds[|ds| - 1];
      assert forall d :: d in ds <==> d in before || d == last;
      Panels(before) + (if IsPanel(last) then [last] else [])
  }

  /** A panel whose `onData` feed exists gets the initial event and a listener. */
  predicate Subscribable(alarm: Data)
  {
    Truthy(Get(alarm, "onData"))
  }

  /** `initialStateData`. */
  function InitialStateData(location: Value, alarm: Data, now: int, toIso: Value -> string): Data
  {
    map["locationName" := location, "alarmId" := Get(alarm, "id"), "mode" := Get(alarm, "mode"),
        "timestamp" := Str(toIso(Num(now))), "initial" := Bool(true)]
  }

  /** The `alarm_mode_state` event set-up sends for `alarm`. */
  function InitialEvent(location: Value, alarm: Data, now: int, toIso: Value -> string): Event
  {
    Event(StateType, InitialStateData(location, alarm, now, toIso))
  }

  /** The initial-state events of set-up, one per subscribable panel, in order. */
  function InitialEvents(location: Value, panels: seq<Data>, now: int, toIso: Value -> string): (r: seq<Event>)
    ensures |r| <= |panels|
    decreases |panels|
  {
    if panels == [] then []
    else
      var last := panels[|panels| - 1];
      InitialEvents(location, panels[..|panels| - 1], now, toIso) +
      (if Subscribable(last) then [InitialEvent(location, last, now, toIso)] else [])
  }

  /** The subscribable panels, in order: the ones that end up with a listener. */
  function Listened(panels: seq<Data>): seq<Data>
    decreases |panels|
  {
    if panels == [] then []
    else
      var last := panels[|panels| - 1];
      Listened(panels[..|panels| - 1]) + (if Subscribable(last) then [last] else [])
  }

  /** A panel gets a listener exactly when it is one of the panels and is subscribable. */
  lemma {:induction false} ListenedIff(panels: seq<Data>, d: Data)
    ensures d in Listened(panels) <==> d in panels && Subscribable(d)
    decreases |panels|
  {
    if panels != [] {
      var before := panels[..|panels| - 1];
      ListenedIff(before, d);
      assert panels == before + [panels[|panels| - 1]];
    }
  }

  /**
   * Set-up sends exactly one `alarm_mode_state` event per listened panel, in
   * order, carrying `initial: true` and the panel's mode and id.
   */
  lemma {:induction false} InitialStateEvents(location: Value, panels: seq<Data>, now: int, toIso: Value -> string)
    ensures var es, ls := InitialEvents(location, panels, now, toIso), Listened(panels);
      |es| == |ls| &&
      forall i :: 0 <= i < |es| ==>
        es[i].eventType == StateType && Get(es[i].data, "initial") == Bool(true) &&
        Get(es[i].data, "mode") == Get(ls[i], "mode") && Get(es[i].data, "alarmId") == Get(ls[i], "id")
    decreases |panels|
  {
    if panels != [] {
      InitialStateEvents(location, panels[..|panels| - 1], now, toIso);
    }
  }

  // ---------------------------------------------------------------------------
  // The alarm listener
  // ---------------------------------------------------------------------------

  /** `data && data.mode !== undefined && data.mode !== previousMode`. */
  predicate IsChange(previous: Value, data: Value)
  {
    Truthy(data) && Field(data, "mode") != Undefined && Field(data, "mode") != previous
  }

  /** The `eventData` of a mode change. */
  function ChangeData(location: Value, alarmId: Value, previous: Value, mode: Value, now: int,
                      toIso: Value -> string): Data
  {
    map["locationName" := location, "alarmId" := alarmId, "mode" := mode,
        "previousMode" := previous, "timestamp" := Str(toIso(Num(now)))]
  }

  /** The event a push makes the listener attempt, if any. */
  function PushEvent(previous: Value, location: Value, alarmId: Value, data: Value, now: int,
                     toIso: Value -> string): (r: Option<Event>)
    ensures r.Some? <==> IsChange(previous, data)
    ensures r.Some? ==> (r.value.eventType == ChangedType &&
      Get(r.value.data, "mode") == Field(data, "mode") && Get(r.value.data, "mode") != Undefined &&
      Get(r.value.data, "previousMode") == previous &&
      Get(r.value.data, "alarmId") == alarmId &&
      "id" !in r.value.data)
  {
    if IsChange(previous, data) then
      Some(Event(ChangedType, ChangeData(location, alarmId, previous, Field(data, "mode"), now, toIso)))
    else None
  }

  /**
   * After a push: the remembered mode, the shared state, and whether the
   * callback ended by a rejected `await sendToN8n` (the mode is then not
   * updated).
   */
  datatype PushResult = PushResult(previous: Value, world: World, escaped: bool)

  function Push(env: Env, w: World, previous: Value, location: Value, alarmId: Value, data: Value,
                now: int): PushResult
  {
    match PushEvent(previous, location, alarmId, data, now, env.toIso)
    case None => PushResult(previous, w, false)
    case Some(e) =>
      var r := Step(env, w, e, now);
      if r.outcome == Attempted(Failed) then PushResult(previous, r.world, true)
      else PushResult(Field(data, "mode"), r.world, false)
  }

  /**
   * A push without a new mode changes nothing; a push with one attempts
   * exactly that change event and, unless its POST failed, remembers the new
   * mode even when the event was excluded or deduplicated.
   */
  lemma PushUpdatesMode(env: Env, w: World, previous: Value, location: Value, alarmId: Value,
                        data: Value, now: int)
    ensures var r := Push(env, w, previous, location, alarmId, data, now);
      (!IsChange(previous, data) ==> r == PushResult(previous, w, false)) &&
      (IsChange(previous, data) ==>
        var e := PushEvent(previous, location, alarmId, data, now, env.toIso).value;
        r.world == Step(env, w, e, now).world &&
        (r.escaped <==> Step(env, w, e, now).outcome == Attempted(Failed)) &&
        r.previous == (if r.escaped then previous else Field(data, "mode")))
  {
  }

  /** Once a push has been handled without escaping, the same push again is a no-op. */
  lemma RepeatPushIsSilent(env: Env, w: World, previous: Value, location: Value, alarmId: Value,
                           data: Value, now: int, later: int)
    requires !Push(env, w, previous, location, alarmId, data, now).escaped
    ensures var r := Push(env, w, previous, location, alarmId, data, now);
      Push(env, r.world, r.previous, location, alarmId, data, later) == PushResult(r.previous, r.world, false)
  {
  }

  /** A push whose POST failed leaves the old mode, so the same push is a change again. */
  lemma EscapedPushIsRetried(env: Env, w: World, previous: Value, location: Value, alarmId: Value,
                             data: Value, now: int, later: int)
    requires Push(env, w, previous, location, alarmId, data, now).escaped
    ensures var r := Push(env, w, previous, location, alarmId, data, now);
      r.previous == previous && PushEvent(r.previous, location, alarmId, data, later, env.toIso).Some?
  {
  }

  /** A change event has no `id`, so with a truthy alarm id it is keyed by that id alone. */
  lemma ChangeKeyIsAlarmId(env: Env, previous: Value, location: Value, alarmId: Value, mode: Value,
                           now: int)
    requires Truthy(alarmId)
    ensures KeyOf(env, Event(ChangedType, ChangeData(location, alarmId, previous, mode, now, env.toIso)), now)
            == ChangedType + "-" + ToText(alarmId)
  {
  }

  /**
   * Two mode changes of one alarm less than a TTL apart: the second is
   * blocked as a duplicate (its key is that of the first), and the listener
   * still moves on to the new mode.
   */
  lemma SecondChangeWithinTtlIsBlocked(env: Env, w: World, previous: Value, location: Value,
                                       alarmId: Value, d1: Value, d2: Value, n1: int, n2: int)
    requires Truthy(alarmId) && ChangedType !in env.config.excludedEvents
    requires n1 != 0 && n1 <= n2 < n1 + TtlMs
    requires IsChange(previous, d1)
    requires var e1 := PushEvent(previous, location, alarmId, d1, n1, env.toIso).value;
      Step(env, w, e1, n1).outcome.Attempted? && Step(env, w, e1, n1).outcome != Attempted(Failed)
    requires IsChange(Field(d1, "mode"), d2)
    ensures var r1 := Push(env, w, previous, location, alarmId, d1, n1);
      var e2 := PushEvent(r1.previous, location, alarmId, d2, n2, env.toIso).value;
      Step(env, r1.world, e2, n2).outcome == Duplicate &&
      Push(env, r1.world, r1.previous, location, alarmId, d2, n2).previous == Field(d2, "mode")
  {
    var e1 := PushEvent(previous, location, alarmId, d1, n1, env.toIso).value;
    var r1 := Push(env, w, previous, location, alarmId, d1, n1);
    var e2 := PushEvent(r1.previous, location, alarmId, d2, n2, env.toIso).value;
    var key := ChangedType + "-" + ToText(alarmId);
    ChangeKeyIsAlarmId(env, previous, location, alarmId, Field(d1, "mode"), n1);
    ChangeKeyIsAlarmId(env, r1.previous, location, alarmId, Field(d2, "mode"), n2);
    assert KeyOf(env, e1, n1) == key && KeyOf(env, e2, n2) == key;
    assert r1.world.recent == Recorded(w.recent, key, n1);
    assert r1.world.recent[key] == n1;
  }

  /**
   * The scenario of a panel set up in mode "home" that then receives
   * `{mode: "away"}` twice: one change event from "home" to "away", then
   * nothing.
   */
  lemma HomeAwayScenario(env: Env, w: World, location: Value, alarmId: Value, n1: int, n2: int)
    ensures var push := Obj(map["mode" := Str("away")]);
      var e := PushEvent(Str("home"), location, alarmId, push, n1, env.toIso);
      e.Some? && Get(e.value.data, "previousMode") == Str("home") && Get(e.value.data, "mode") == Str("away") &&
      PushEvent(Str("away"), location, alarmId, push, n2, env.toIso).None?
  {
    var push := Obj(map["mode" := Str("away")]);
    assert Field(push, "mode") == Str("away");
  }

  /** The closure of one panel's subscription callback, with its `previousMode`. */
  class AlarmListener {
    const location: Value
    const alarmId: Value
    var previousMode: Value

    constructor (location: Value, alarmId: Value, mode: Value)
      ensures this.location == location && this.alarmId == alarmId && previousMode == mode
    {
      this.location, this.alarmId, previousMode := location, alarmId, mode;
    }

    /** The subscription callback, given the pushed `data` at time `now`. */
    method OnData(b: Bridge, data: Value, now: int) returns (escaped: bool)
      modifies this, b.stats, b.recent, b.sink
      ensures PushResult(previousMode, b.Snapshot(), escaped) ==
              Push(b.env, old(b.Snapshot()), old(previousMode), location, alarmId, data, now)
    {
      if Truthy(data) && Field(data, "mode") != Undefined && Field(data, "mode") != previousMode {
        var e := Event(ChangedType, ChangeData(location, alarmId, previousMode, Field(data, "mode"), now, b.env.toIso));
        var o := b.Emit(e, now);
        if o == Attempted(Failed) {
          return true;
        }
        previousMode := Field(data, "mode");
      }
      return false;
    }
  }

  lemma InitialEventsSnoc(location: Value, panels: seq<Data>, i: nat, now: int, toIso: Value -> string)
    requires i < |panels|
    ensures InitialEvents(location, panels[..i + 1], now, toIso) ==
      InitialEvents(location, panels[..i], now, toIso) +
      (if Subscribable(panels[i]) then [InitialEvent(location, panels[i], now, toIso)] else [])
    ensures Listened(panels[..i + 1]) == Listened(panels[..i]) + (if Subscribable(panels[i]) then [panels[i]] else [])
  {
    assert panels[..i + 1][..i] == panels[..i];
  }

  /** The body of the loop of `setupAlarmHandlers` for one panel. */
  method SetUpPanel(b: Bridge, location: Value, alarm: Data, now: int) returns (l: AlarmListener?)
    modifies b.stats, b.recent, b.sink
    ensures !Subscribable(alarm) ==> l == null && b.Snapshot() == old(b.Snapshot())
    ensures Subscribable(alarm) ==>
      l != null && fresh(l) &&
      l.location == location && l.alarmId == Get(alarm, "id") && l.previousMode == Get(alarm, "mode") &&
      b.Snapshot() == Step(b.env, old(b.Snapshot()), InitialEvent(location, alarm, now, b.env.toIso), now).world
  {
    l := null;
    if Truthy(Get(alarm, "onData")) {
      var e := InitialEvent(location, alarm, now, b.env.toIso);
      var _ := b.Emit(e, now);
      l := new AlarmListener(location, Get(alarm, "id"), Get(alarm, "mode"));
    }
  }

  /**
   * `setupAlarmHandlers(location)` at time `now`, `devices` being what
   * `location.getDevices()` settled to: one listener per subscribable panel,
   * starting from the panel's mode, after its initial-state event was sent.
   */
  method SetupAlarmHandlers(b: Bridge, location: Value, devices: Settled<seq<Data>>, now: int)
    returns (listeners: seq<AlarmListener>)
    modifies b.stats, b.recent, b.sink
    ensures devices.Threw? ==> listeners == [] && b.Snapshot() == old(b.Snapshot())
    ensures devices.Ok? ==>
      var panels := Panels(devices.value);
      b.Snapshot() == Run(b.env, old(b.Snapshot()), InitialEvents(location, panels, now, b.env.toIso), now) &&
      |listeners| == |Listened(panels)| &&
      forall k :: 0 <= k < |listeners| ==>
        listeners[k].location == location && listeners[k].alarmId == Get(Listened(panels)[k], "id") &&
        listeners[k].previousMode == Get(Listened(panels)[k], "mode")
  {
    if devices.Threw? {
      return [];
    }
    listeners := SetUpPanels(b, location, Panels(devices.value), now);
  }

  /** The world after one more turn of the set-up loop. */
  lemma SetUpStep(env: Env, w0: World, location: Value, panels: seq<Data>, i: nat, now: int, w: World)
    requires i < |panels|
    requires var before := Run(env, w0, InitialEvents(location, panels[..i], now, env.toIso), now);
      w == if Subscribable(panels[i]) then Step(env, before, InitialEvent(location, panels[i], now, env.toIso), now).world
           else before
    ensures w == Run(env, w0, InitialEvents(location, panels[..i + 1], now, env.toIso), now)
  {
    var es := InitialEvents(location, panels[..i], now, env.toIso);
    InitialEventsSnoc(location, panels, i, now, env.toIso);
    if Subscribable(panels[i]) {
      var e := InitialEvent(location, panels[i], now, env.toIso);
      assert InitialEvents(location, panels[..i + 1], now, env.toIso) == es + [e];
      RunSnoc(env, w0, es, e, now);
      assert w == Step(env, Run(env, w0, es, now), e, now).world;
    } else {
      assert InitialEvents(location, panels[..i + 1], now, env.toIso) == es;
      assert w == Run(env, w0, es, now);
    }
  }

  /**
   * What the set-up loop has done after the first `i` panels: sent their
   * initial-state events and set up one listener per subscribable one.
   */
  ghost predicate SetUpSoFar(env: Env, w0: World, w: World, location: Value, panels: seq<Data>, i: nat,
                             now: int, listeners: seq<AlarmListener>)
    reads listeners
  {
    i <= |panels| &&
    w == Run(env, w0, InitialEvents(location, panels[..i], now, env.toIso), now) &&
    SetUpFrom(listeners, location, Listened(panels[..i]))
  }

  /** `listeners[k]` was set up for `location` from panel `listened[k]`. */
  ghost predicate SetUpFrom(listeners: seq<AlarmListener>, location: Value, listened: seq<Data>)
    reads listeners
  {
    |listeners| == |listened| &&
    forall k :: 0 <= k < |listeners| ==>
      listeners[k].location == location && listeners[k].alarmId == Get(listened[k], "id") &&
      listeners[k].previousMode == Get(listened[k], "mode")
  }

  /** The listeners after one more turn of the set-up loop. */
  lemma SetUpFromStep(listeners: seq<AlarmListener>, location: Value, panels: seq<Data>, i: nat,
                      l: AlarmListener?, listeners': seq<AlarmListener>)
    requires i < |panels|
    requires SetUpFrom(listeners, location, Listened(panels[..i]))
    requires l == null <==> !Subscribable(panels[i])
    requires l != null ==> l.location == location && l.alarmId == Get(panels[i], "id") &&
                           l.previousMode == Get(panels[i], "mode")
    requires listeners' == if l == null then listeners else listeners + [l]
    ensures SetUpFrom(listeners', location, Listened(panels[..i + 1]))
  {
    InitialEventsSnoc(location, panels, i, 0, x => "");
  }

  /** One turn of the loop of `setupAlarmHandlers`: panel `panels[i]`. */
  method SetUpNext(b: Bridge, location: Value, panels: seq<Data>, i: nat, now: int, ghost w0: World,
                   listeners: seq<AlarmListener>)
    returns (listeners': seq<AlarmListener>)
    requires i < |panels|
    requires SetUpSoFar(b.env, w0, b.Snapshot(), location, panels, i, now, listeners)
    modifies b.stats, b.recent, b.sink
    ensures SetUpSoFar(b.env, w0, b.Snapshot(), location, panels, i + 1, now, listeners')
  {
    var l := SetUpPanel(b, location, panels[i], now);
    SetUpStep(b.env, w0, location, panels, i, now, b.Snapshot());
    listeners' := if l == null then listeners else listeners + [l];
    SetUpFromStep(listeners, location, panels, i, l, listeners');
  }

  /** The loop of `setupAlarmHandlers` over the panels found. */
  method SetUpPanels(b: Bridge, location: Value, panels: seq<Data>, now: int)
    returns (listeners: seq<AlarmListener>)
    modifies b.stats, b.recent, b.sink
    ensures b.Snapshot() == Run(b.env, old(b.Snapshot()), InitialEvents(location, panels, now, b.env.toIso), now)
    ensures SetUpFrom(listeners, location, Listened(panels))
  {
    listeners := [];
    ghost var w0 := b.Snapshot();
    var i := 0;
    while i < |panels|
      invariant SetUpSoFar(b.env, w0, b.Snapshot(), location, panels, i, now, listeners)
    {
      listeners := SetUpNext(b, location, panels, i, now, w0, listeners);
      i := i + 1;
    }
    assert panels[..i] == panels;
  }
}

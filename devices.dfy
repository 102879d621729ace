/**
 * `processDiscoveredDevices`: the devices found at start-up are grouped by
 * kind, each one is reported as `device_found`, then the base stations as
 * `base_station_found` and the cameras (doorbells first, then stick-up
 * cameras) as `camera_found`. Every report is a gated send whose failure is
 * caught on the spot.
 */
module Devices {
  import opened JsText
  import opened JsValue
  import opened Admission

  const DeviceFoundType := "device_found"
  const BaseStationFoundType := "base_station_found"
  const CameraFoundType := "camera_found"

  /** The groups of `devicesByType`, by kind. */
  type Groups = map<string, seq<Data>>

  /** The property key of a device's group: `device.kind || 'unknown'`. */
  function KindKey(d: Data): string
  {
    ToText(Or(Get(d, "kind"), Str("unknown")))
  }

  /** The grouping after the devices `ds`, in order. */
  function Grouped(ds: seq<Data>): Groups
    decreases |ds|
  {
    if ds == [] then map[]
    else
      var g := Grouped(ds[..|ds| - 1]);
      var d := ds[|ds| - 1];
      var k := KindKey(d);
      g[k := (if k in g then g[k] else []) + [d]]
  }

  /** The devices of kind key `k`, in input order. */
  function OfKind(ds: seq<Data>, k: string): seq<Data>
    decreases |ds|
  {
    if ds == [] then []
    else OfKind(ds[..|ds| - 1], k) + (if KindKey(ds[|ds| - 1]) == k then [ds[|ds| - 1]] else [])
  }

  /** A device is in the sublist of kind `k` exactly when it is one of the devices and has that kind. */
  lemma {:induction false} OfKindIff(ds: seq<Data>, k: string, d: Data)
    ensures d in OfKind(ds, k) <==> d in ds && KindKey(d) == k
    decreases |ds|
  {
    if ds != [] {
      var before := ds[..|ds| - 1];
      OfKindIff(before, k, d);
      assert ds == before + [ds[|ds| - 1]];
    }
  }

  /**
   * There is a group for `k` exactly when some device has that kind, and it
   * holds exactly the devices of that kind, in input order; so each device
   * is in the group of its own kind and in no other.
   */
  lemma {:induction false} GroupsAreKinds(ds: seq<Data>, k: string)
    ensures k in Grouped(ds) <==> OfKind(ds, k) != []
    ensures k in Grouped(ds) ==> Grouped(ds)[k] == OfKind(ds, k)
    decreases |ds|
  {
    if ds != [] {
      GroupsAreKinds(ds[..|ds| - 1], k);
    }
  }

  /** The total number of devices in a grouping. */
  ghost function TotalSize(g: Groups): nat
    decreases |g.Keys|
  {
    if g == map[] then 0
    else
      var k :| k in g;
      |g[k]| + TotalSize(g - {k})
  }

  /** Any group can be taken out first. */
  lemma {:induction false} TotalSizeRemove(g: Groups, k: string)
    requires k in g
    ensures TotalSize(g) == |g[k]| + TotalSize(g - {k})
    decreases |g.Keys|
  {
    var k' :| k' in g && TotalSize(g) == |g[k']| + TotalSize(g - {k'});
    if k' != k {
      assert |(g - {k'}).Keys| < |g.Keys| by {
        assert (g - {k'}).Keys < g.Keys;
      }
      TotalSizeRemove(g - {k'}, k);
      assert |(g - {k}).Keys| < |g.Keys| by {
        assert (g - {k}).Keys < g.Keys;
      }
      TotalSizeRemove(g - {k}, k');
      assert g - {k'} - {k} == g - {k} - {k'};
    }
  }

  /** The group sizes add up to the number of devices. */
  lemma {:induction false} GroupSizesSum(ds: seq<Data>)
    ensures TotalSize(Grouped(ds)) == |ds|
    decreases |ds|
  {
    if ds != [] {
      var g := Grouped(ds[..|ds| - 1]);
      var d := ds[|ds| - 1];
      var k := KindKey(d);
      var g' := Grouped(ds);
      GroupSizesSum(ds[..|ds| - 1]);
      TotalSizeRemove(g', k);
      assert g' - {k} == g - {k};
      if k in g {
        TotalSizeRemove(g, k);
      } else {
        assert g - {k} == g;
      }
    }
  }

  /** The `forEach` that builds `devicesByType`. */
  method GroupByKind(ds: seq<Data>) returns (g: Groups)
    ensures g == Grouped(ds)
  {
    g := map[];
    var i := 0;
    while i < |ds|
      invariant i <= |ds|
      invariant g == Grouped(ds[..i])
    {
      assert ds[..i + 1][..i] == ds[..i];
      var kind := ToText(Or(Get(ds[i], "kind"), Str("unknown")));
      if kind !in g {
        g := g[kind := []];
      }
      g := g[kind := g[kind] + [ds[i]]];
      i := i + 1;
    }
    assert ds[..i] == ds;
  }

  // ---------------------------------------------------------------------------
  // The three reports
  // ---------------------------------------------------------------------------

  function DeviceFoundEvent(d: Data): Event
  {
    Event(DeviceFoundType,
      map["id" := Get(d, "id"), "description" := Get(d, "description"), "kind" := Get(d, "kind"),
          "health_status" := Get(d, "health_status"), "battery_life" := Get(d, "battery_life"),
          "firmware_version" := Get(d, "firmware_version")])
  }

  function BaseStationEvent(d: Data): Event
  {
    Event(BaseStationFoundType,
      map["id" := Get(d, "id"), "description" := Get(d, "description"), "location_id" := Get(d, "location_id"),
          "device_id" := Get(d, "device_id"), "time_zone" := Get(d, "time_zone"),
          "latitude" := Get(d, "latitude"), "longitude" := Get(d, "longitude")])
  }

  function CameraFoundEvent(d: Data): Event
  {
    Event(CameraFoundType,
      map["id" := Get(d, "id"), "description" := Get(d, "description"), "kind" := Get(d, "kind"),
          "health_status" := Get(d, "health_status"), "battery_life" := Get(d, "battery_life")])
  }

  /** One event per device, in order. */
  function Each(mk: Data -> Event, ds: seq<Data>): (r: seq<Event>)
    ensures |r| == |ds|
    decreases |ds|
  {
    if ds == [] then [] else Each(mk, ds[..|ds| - 1]) + [mk(ds[|ds| - 1])]
  }

  lemma {:induction false} EachIndex(mk: Data -> Event, ds: seq<Data>, i: nat)
    requires i < |ds|
    ensures Each(mk, ds)[i] == mk(ds[i])
    decreases |ds|
  {
    if i < |ds| - 1 {
      EachIndex(mk, ds[..|ds| - 1], i);
    }
  }

  /** `kind === 'base_station_v1' || kind === 'base_station_v2' || (kind && kind.includes('base_station'))`. */
  predicate IsBaseStation(d: Data)
  {
    Get(d, "kind") == Str("base_station_v1") || Get(d, "kind") == Str("base_station_v2") ||
    (Truthy(Get(d, "kind")) && TextIncludes(Get(d, "kind"), "base_station"))
  }

  /** The two named kinds contain `base_station`, so the test is exactly `includes`. */
  lemma BaseStationIff(d: Data)
    ensures IsBaseStation(d) <==> TextIncludes(Get(d, "kind"), "base_station")
  {
    assert "base_station_v1"[..12] == "base_station";
    assert "base_station_v2"[..12] == "base_station";
  }

  predicate IsDoorbot(d: Data)
  {
    (Truthy(Get(d, "kind")) && TextIncludes(Get(d, "kind"), "doorbot")) ||
    (Truthy(Get(d, "kind")) && TextIncludes(Get(d, "kind"), "doorbell"))
  }

  predicate IsStickupCam(d: Data)
  {
    Truthy(Get(d, "kind")) && TextIncludes(Get(d, "kind"), "stickup_cam")
  }

  /** The devices satisfying `p`, in order. */
  function Select(p: Data -> bool, ds: seq<Data>): (r: seq<Data>)
    ensures |r| <= |ds|
    decreases |ds|
  {
    if ds == [] then []
    else Select(p, ds[..|ds| - 1]) + (if p(ds[|ds| - 1]) then [ds[|ds| - 1]] else [])
  }

  /** A device is selected exactly when it is one of the devices and satisfies `p`. */
  lemma {:induction false} SelectIff(p: Data -> bool, ds: seq<Data>, d: Data)
    ensures d in Select(p, ds) <==> d in ds && p(d)
    decreases |ds|
  {
    if ds != [] {
      var before := ds[..|ds| - 1];
      SelectIff(p, before, d);
      assert ds == before + [ds[|ds| - 1]];
    }
  }

  function BaseStations(ds: seq<Data>): seq<Data>
  {
    Select(IsBaseStation, ds)
  }

  /** `[...doorbots, ...stickupCams]`. */
  function DiscoveredCameras(ds: seq<Data>): seq<Data>
  {
    Select(IsDoorbot, ds) + Select(IsStickupCam, ds)
  }

  /**
   * The camera list holds exactly the doorbells and stick-up cameras, the
   * doorbells (in input order) before the stick-up cameras (in input order).
   */
  lemma CamerasDoorbellsFirst(ds: seq<Data>, d: Data)
    ensures d in DiscoveredCameras(ds) <==> d in ds && (IsDoorbot(d) || IsStickupCam(d))
    ensures DiscoveredCameras(ds)[..|Select(IsDoorbot, ds)|] == Select(IsDoorbot, ds)
    ensures forall i :: 0 <= i < |Select(IsDoorbot, ds)| ==> IsDoorbot(DiscoveredCameras(ds)[i])
    ensures forall i :: |Select(IsDoorbot, ds)| <= i < |DiscoveredCameras(ds)| ==> IsStickupCam(DiscoveredCameras(ds)[i])
  {
    SelectIff(IsDoorbot, ds, d);
    SelectIff(IsStickupCam, ds, d);
    var a, b := Select(IsDoorbot, ds), Select(IsStickupCam, ds);
    forall i | 0 <= i < |a| ensures IsDoorbot((a + b)[i]) {
      SelectIff(IsDoorbot, ds, a[i]);
    }
    forall i | |a| <= i < |a + b| ensures IsStickupCam((a + b)[i]) {
      SelectIff(IsStickupCam, ds, b[i - |a|]);
    }
  }

  /** Base stations are exactly the devices whose kind contains `base_station`. */
  lemma BaseStationsAreIncludes(ds: seq<Data>, d: Data)
    ensures d in BaseStations(ds) <==> d in ds && TextIncludes(Get(d, "kind"), "base_station")
  {
    SelectIff(IsBaseStation, ds, d);
    BaseStationIff(d);
  }

  /** Every report the discovery makes, in the order it makes them. */
  function DiscoveryEvents(ds: seq<Data>): seq<Event>
  {
    Each(DeviceFoundEvent, ds) + Each(BaseStationEvent, BaseStations(ds)) + Each(CameraFoundEvent, DiscoveredCameras(ds))
  }

  /**
   * One `device_found` per device, in order, then one `base_station_found`
   * per base station and one `camera_found` per entry of the camera list.
   */
  lemma DiscoveryReportsEveryDevice(ds: seq<Data>, i: nat)
    requires i < |ds|
    ensures |DiscoveryEvents(ds)| == |ds| + |BaseStations(ds)| + |DiscoveredCameras(ds)|
    ensures DiscoveryEvents(ds)[i] == DeviceFoundEvent(ds[i])
    ensures forall j :: |ds| <= j < |DiscoveryEvents(ds)| ==> DiscoveryEvents(ds)[j].eventType != DeviceFoundType
  {
    EachIndex(DeviceFoundEvent, ds, i);
    var devices, stations, cameras :=
      Each(DeviceFoundEvent, ds), Each(BaseStationEvent, BaseStations(ds)), Each(CameraFoundEvent, DiscoveredCameras(ds));
    forall j | |ds| <= j < |DiscoveryEvents(ds)| ensures DiscoveryEvents(ds)[j].eventType != DeviceFoundType {
      if j < |ds| + |stations| {
        assert DiscoveryEvents(ds)[j] == stations[j - |ds|];
        EachIndex(BaseStationEvent, BaseStations(ds), j - |ds|);
      } else {
        assert DiscoveryEvents(ds)[j] == cameras[j - |ds| - |stations|];
        EachIndex(CameraFoundEvent, DiscoveredCameras(ds), j - |ds| - |stations|);
      }
    }
  }

  // ---------------------------------------------------------------------------
  // The discovery
  // ---------------------------------------------------------------------------

  /** A loop of reports, each gated and its failure caught, so every one is attempted. */
  method ReportEach(b: Bridge, mk: Data -> Event, ds: seq<Data>, now: int)
    modifies b.stats, b.recent, b.sink
    ensures b.Snapshot() == Run(b.env, old(b.Snapshot()), Each(mk, ds), now)
  {
    ghost var w0 := b.Snapshot();
    var i := 0;
    while i < |ds|
      invariant i <= |ds|
      invariant b.Snapshot() == Run(b.env, w0, Each(mk, ds[..i]), now)
    {
      assert ds[..i + 1][..i] == ds[..i];
      RunSnoc(b.env, w0, Each(mk, ds[..i]), mk(ds[i]), now);
      var _ := b.Emit(mk(ds[i]), now);
      i := i + 1;
    }
    assert ds[..i] == ds;
  }

  /**
   * `processDiscoveredDevices(deviceData)` at time `now`: the grouping by
   * kind, and the reports of every device, base station and camera, whatever
   * the outcome of each.
   */
  method ProcessDiscoveredDevices(b: Bridge, ds: seq<Data>, now: int) returns (groups: Groups)
    modifies b.stats, b.recent, b.sink
    ensures groups == Grouped(ds)
    ensures b.Snapshot() == Run(b.env, old(b.Snapshot()), DiscoveryEvents(ds), now)
  {
    groups := map[];
    if |ds| > 0 {
      groups := GroupByKind(ds);
      ghost var w0 := b.Snapshot();
      ReportEach(b, DeviceFoundEvent, ds, now);
      ghost var w1 := b.Snapshot();
      var stations := Select(IsBaseStation, ds);
      ReportEach(b, BaseStationEvent, stations, now);
      RunAppend(b.env, w0, Each(DeviceFoundEvent, ds), Each(BaseStationEvent, stations), now);
      var cameras := Select(IsDoorbot, ds) + Select(IsStickupCam, ds);
      ReportEach(b, CameraFoundEvent, cameras, now);
      RunAppend(b.env, w0, Each(DeviceFoundEvent, ds) + Each(BaseStationEvent, stations), Each(CameraFoundEvent, cameras), now);
    }
  }
}

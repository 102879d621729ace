/**
 * The dedup engine: the module-level map from event key to the time it was
 * last admitted, the periodic sweep that evicts old entries, the
 * check-and-record lookup, the key derivation, and `shouldSendEvent`, which
 * composes the last two and counts what it blocks.
 */
module Deduplication {
  import opened JsText
  import opened JsValue
  import opened EventStats

  /** `ttlMs`, the default used by every caller of `isDuplicateEvent`. */
  const TtlMs := 60000
  /** The age beyond which the sweep deletes an entry. */
  const SweepTtlMs := 60000
  /** How often the sweep runs. */
  const SweepIntervalMs := 30000
  /** Width of the time buckets of the last-resort motion key. */
  const BucketMs := 5000

  const MotionType := "motion_detected"

  /** `recentEvents`: event key to the `Date.now()` at which it was recorded. */
  type Entries = map<string, int>

  // ---------------------------------------------------------------------------
  // isDuplicateEvent
  // ---------------------------------------------------------------------------

  /** `existing && now - existing < ttlMs`; a stored 0 is falsy. */
  predicate Fresh(m: Entries, key: string, now: int)
  {
    key in m && m[key] != 0 && now - m[key] < TtlMs
  }

  /** The answer of `isDuplicateEvent(key)` at time `now`. */
  predicate IsDuplicate(m: Entries, key: string, now: int)
  {
    key != [] && Fresh(m, key, now)
  }

  /** The map after `isDuplicateEvent(key)` at time `now`. */
  function Recorded(m: Entries, key: string, now: int): Entries
  {
    if key == [] || Fresh(m, key, now) then m else m[key := now]
  }

  /** An empty key is never a duplicate and leaves the map alone. */
  lemma EmptyKeyIgnored(m: Entries, now: int)
    ensures !IsDuplicate(m, "", now) && Recorded(m, "", now) == m
  {
  }

  /** A key recorded less than a TTL ago is a duplicate; its timestamp is not refreshed. */
  lemma FreshKeyIsDuplicate(m: Entries, key: string, now: int)
    requires key != [] && key in m && m[key] != 0 && now - m[key] < TtlMs
    ensures IsDuplicate(m, key, now)
    ensures Recorded(m, key, now) == m
  {
  }

  /**
   * Any other non-empty key (unseen, stored as 0, or a TTL old) is not a
   * duplicate and is recorded at `now`; no other key changes.
   */
  lemma StaleKeyIsRecorded(m: Entries, key: string, now: int)
    requires key != [] && !(key in m && m[key] != 0 && now - m[key] < TtlMs)
    ensures !IsDuplicate(m, key, now)
    ensures var r := Recorded(m, key, now);
      key in r && r[key] == now &&
      (forall k :: k != key ==> (k in r <==> k in m) && (k in r ==> r[k] == m[k]))
  {
  }

  /**
   * Asking twice about the same non-empty key at the same (non-zero) time:
   * the second answer is always "duplicate", and the first one is "not a
   * duplicate" whenever the key was not fresh before.
   */
  lemma SecondLookupIsDuplicate(m: Entries, key: string, now: int)
    requires key != [] && now != 0
    ensures IsDuplicate(Recorded(m, key, now), key, now)
    ensures !Fresh(m, key, now) ==> !IsDuplicate(m, key, now)
  {
  }

  /** At time 0 the recorded timestamp is falsy, so nothing recorded then ever blocks. */
  lemma ZeroClockNeverBlocks(m: Entries, key: string)
    requires !Fresh(m, key, 0)
    ensures !IsDuplicate(m, key, 0) && !IsDuplicate(Recorded(m, key, 0), key, 0)
  {
  }

  // ---------------------------------------------------------------------------
  // The sweep
  // ---------------------------------------------------------------------------

  /** The sweep deletes an entry older than 60000 ms (strictly). */
  predicate Expired(ts: int, now: int)
  {
    now - ts > SweepTtlMs
  }

  /** The map after one run of the sweep at time `now`. */
  function Swept(m: Entries, now: int): (r: Entries)
    ensures forall k :: k in r <==> k in m && !Expired(m[k], now)
    ensures forall k :: k in r ==> r[k] == m[k]
  {
    map k | k in m && !Expired(m[k], now) :: m[k]
  }

  /**
   * The sweep is invisible to lookups: at the time it runs and at any later
   * time, every key is a duplicate after the sweep exactly when it was before.
   */
  lemma SweepInvisible(m: Entries, now: int, key: string, later: int)
    requires later >= now
    ensures IsDuplicate(Swept(m, now), key, later) <==> IsDuplicate(m, key, later)
  {
    if key in m && !(key in Swept(m, now)) {
      assert now - m[key] > SweepTtlMs;
    }
  }

  /** An entry aged exactly 60000 ms survives the sweep, yet it no longer blocks. */
  lemma BoundaryEntry(m: Entries, key: string, now: int)
    requires key != [] && key in m && m[key] == now - SweepTtlMs
    ensures key in Swept(m, now)
    ensures !IsDuplicate(m, key, now)
  {
  }

  /** Sweeping at `t1` and then at a later `t2` is the same as sweeping at `t2` alone. */
  lemma SweepsCompose(m: Entries, t1: int, t2: int)
    requires t1 <= t2
    ensures Swept(Swept(m, t1), t2) == Swept(m, t2)
  {
    var a, b := Swept(Swept(m, t1), t2), Swept(m, t2);
    forall k | k in b ensures k in a {
      assert !Expired(m[k], t1);
    }
    assert a.Keys == b.Keys;
  }

  /** The `recentEvents` map and the two operations that change it. */
  class RecentEvents {
    var entries: Entries

    constructor ()
      ensures entries == map[]
    {
      entries := map[];
    }

    /** `isDuplicateEvent(key)` with the default TTL, at time `now`. */
    method IsDuplicateEvent(key: string, now: int) returns (dup: bool)
      modifies this
      ensures dup == IsDuplicate(old(entries), key, now)
      ensures entries == Recorded(old(entries), key, now)
    {
      if key == [] {
        return false;
      }
      if key in entries && entries[key] != 0 && now - entries[key] < TtlMs {
        return true;
      }
      entries := entries[key := now];
      return false;
    }

    /** The body of the 30-second timer: delete every entry older than 60000 ms. */
    method Sweep(now: int)
      modifies this
      ensures entries == Swept(old(entries), now)
    {
      var pending := entries.Keys;
      while pending != {}
        invariant pending <= old(entries).Keys
        invariant forall k :: k in entries <==>
          k in old(entries) && (k in pending || !Expired(old(entries)[k], now))
        invariant forall k :: k in entries ==> entries[k] == old(entries)[k]
        decreases |pending|
      {
        var k :| k in pending;
        if now - entries[k] > SweepTtlMs {
          entries := entries - {k};
        }
        pending := pending - {k};
      }
    }
  }

  // ---------------------------------------------------------------------------
  // generateEventId
  // ---------------------------------------------------------------------------

  /** `floor(now / 5000) * 5000`. */
  function Bucket(now: int): int
  {
    (now / BucketMs) * BucketMs
  }

  /** `data.cameraName || data.deviceName || 'unknown'`. */
  function FallbackName(d: Data): Value
  {
    Or(Or(Get(d, "cameraName"), Get(d, "deviceName")), Str("unknown"))
  }

  /** The last-resort motion key. */
  function LastResortKey(d: Data, now: int): string
  {
    "motion-" + ToText(FallbackName(d)) + "-" + IntText(Bucket(now))
  }

  /**
   * `generateEventId(t, data)` at time `now`, with `serialize` standing for
   * `JSON.stringify`.
   */
  function EventKey(t: string, d: Data, now: int, serialize: Data -> string): (r: string)
    ensures t == MotionType ==> |r| > 7 && r[..7] == "motion-"
    ensures t != MotionType ==> |r| > |t| && r[..|t| + 1] == t + "-"
  {
    if t == MotionType then
      if Truthy(Get(d, "id")) then "motion-" + ToText(Get(d, "id"))
      else if Truthy(Get(d, "dingId")) then "motion-" + ToText(Get(d, "dingId"))
      else if Truthy(Get(d, "cameraId")) && Truthy(Get(d, "timestamp")) then
        "motion-" + ToText(Get(d, "cameraId")) + "-" + ToText(Get(d, "timestamp"))
      else if Truthy(Get(d, "deviceId")) && Truthy(Get(d, "timestamp")) then
        "motion-" + ToText(Get(d, "deviceId")) + "-" + ToText(Get(d, "timestamp"))
      else if Truthy(Get(d, "eventCreatedAt")) then
        "motion-" + ToText(Get(d, "cameraName")) + "-" + ToText(Get(d, "eventCreatedAt"))
      else if Truthy(Field(Get(d, "eventData"), "id")) then
        "motion-" + ToText(Field(Get(d, "eventData"), "id"))
      else if Truthy(Field(Get(d, "dingData"), "id_str")) then
        "motion-" + ToText(Field(Get(d, "dingData"), "id_str"))
      else LastResortKey(d, now)
    else if Truthy(Get(d, "id")) then t + "-" + ToText(Get(d, "id"))
    else if Truthy(Get(d, "alarmId")) then t + "-" + ToText(Get(d, "alarmId"))
    else t + "-" + Take(serialize(d), 50)
  }

  // A declarative statement of the motion chain: a table of rules, each a list
  // of properties that must all be truthy and the properties whose text,
  // joined by '-', follows "motion-".

  /** A property path: `["eventData", "id"]` is `data.eventData.id`. */
  type Path = seq<string>

  datatype Rule = Rule(guards: seq<Path>, parts: seq<Path>)

  function At(d: Data, p: Path): Value
    decreases |p|
  {
    if p == [] then Obj(d)
    else if |p| == 1 then Get(d, p[0])
    else Field(At(d, p[..|p| - 1]), p[|p| - 1])
  }

  predicate Applies(r: Rule, d: Data)
  {
    forall g :: g in r.guards ==> Truthy(At(d, g))
  }

  function Texts(d: Data, ps: seq<Path>): (r: seq<string>)
    ensures |r| == |ps|
  {
    if ps == [] then [] else [ToText(At(d, ps[0]))] + Texts(d, ps[1..])
  }

  function Render(r: Rule, d: Data): string
  {
    Join(Texts(d, r.parts), '-')
  }

  /** The rendering of the first rule that applies, if any. */
  function FirstMatch(rules: seq<Rule>, d: Data): (r: Option<string>)
    ensures r.None? <==> forall i :: 0 <= i < |rules| ==> !Applies(rules[i], d)
  {
    if rules == [] then None
    else if Applies(rules[0], d) then Some(Render(rules[0], d))
    else
      var r := FirstMatch(rules[1..], d);
      assert forall i :: 1 <= i < |rules| ==> rules[i] == rules[1..][i - 1];
      r
  }

  /** The order of preference of the motion key sources. */
  const MotionRules: seq<Rule> := [
    Rule([["id"]], [["id"]]),
    Rule([["dingId"]], [["dingId"]]),
    Rule([["cameraId"], ["timestamp"]], [["cameraId"], ["timestamp"]]),
    Rule([["deviceId"], ["timestamp"]], [["deviceId"], ["timestamp"]]),
    Rule([["eventCreatedAt"]], [["cameraName"], ["eventCreatedAt"]]),
    Rule([["eventData", "id"]], [["eventData", "id"]]),
    Rule([["dingData", "id_str"]], [["dingData", "id_str"]])
  ]

  /** The first rule that applies is the one rendered. */
  lemma {:induction false} FirstMatchIsFirst(rules: seq<Rule>, d: Data, i: nat)
    requires i < |rules| && Applies(rules[i], d)
    requires forall j :: 0 <= j < i ==> !Applies(rules[j], d)
    ensures FirstMatch(rules, d) == Some(Render(rules[i], d))
  {
    if i > 0 {
      assert !Applies(rules[0], d);
      assert rules[1..][i - 1] == rules[i];
      FirstMatchIsFirst(rules[1..], d, i - 1);
    }
  }

  /**
   * The motion key is "motion-" followed by the rendering of the first rule of
   * `MotionRules` that applies, and the last-resort key when none does.
   */
  lemma MotionKeyFollowsRules(d: Data, now: int, serialize: Data -> string)
    ensures EventKey(MotionType, d, now, serialize) ==
      match FirstMatch(MotionRules, d)
      case Some(k) => "motion-" + k
      case None => LastResortKey(d, now)
  {
    var i := FirstGuard(d);
    MotionKeyAt(d, now, serialize, i);
    forall j | 0 <= j < i && j < |MotionRules| ensures !Applies(MotionRules[j], d) {
      RuleFact(d, j);
    }
    if i < 7 {
      RuleFact(d, i);
      FirstMatchIsFirst(MotionRules, d, i);
    } else {
      assert FirstMatch(MotionRules, d).None?;
    }
  }

  /** The index of the first rule guard that holds, 7 when none does. */
  function FirstGuard(d: Data): (i: nat)
    ensures i <= 7 && (i < 7 ==> RuleGuard(i, d))
    ensures forall j :: 0 <= j < i ==> !RuleGuard(j, d)
  {
    if RuleGuard(0, d) then 0
    else if RuleGuard(1, d) then 1
    else if RuleGuard(2, d) then 2
    else if RuleGuard(3, d) then 3
    else if RuleGuard(4, d) then 4
    else if RuleGuard(5, d) then 5
    else if RuleGuard(6, d) then 6
    else 7
  }

  lemma MotionKeyAt(d: Data, now: int, serialize: Data -> string, i: nat)
    requires i == FirstGuard(d)
    ensures EventKey(MotionType, d, now, serialize) ==
      if i < 7 then "motion-" + RuleText(i, d) else LastResortKey(d, now)
  {
    if i == 0 {
    } else if i == 1 {
    } else if i == 2 {
    } else if i == 3 {
    } else if i == 4 {
    } else if i == 5 {
    } else if i == 6 {
    }
  }

  /** What each rule of `MotionRules` tests and renders. */
  lemma RuleFact(d: Data, i: nat)
    requires i < |MotionRules|
    ensures (Applies(MotionRules[i], d) <==> RuleGuard(i, d)) && Render(MotionRules[i], d) == RuleText(i, d)
  {
    var r := MotionRules[i];
    if i == 0 {
      SingleRule(d, "id");
    } else if i == 1 {
      SingleRule(d, "dingId");
    } else if i == 2 {
      PairRule(d, "cameraId", "timestamp");
    } else if i == 3 {
      PairRule(d, "deviceId", "timestamp");
    } else if i == 4 {
      assert r == Rule([["eventCreatedAt"]], [["cameraName"], ["eventCreatedAt"]]);
      assert forall g :: g in r.guards <==> g == ["eventCreatedAt"];
      var x, y := ToText(Get(d, "cameraName")), ToText(Get(d, "eventCreatedAt"));
      assert Texts(d, r.parts) == [x, y];
      JoinPair(x, y);
    } else if i == 5 {
      NestedRule(d, "eventData", "id");
    } else {
      NestedRule(d, "dingData", "id_str");
    }
  }

  /** A rule on two properties tests both and renders their texts joined by '-'. */
  lemma PairRule(d: Data, a: string, b: string)
    ensures Applies(Rule([[a], [b]], [[a], [b]]), d) <==> Truthy(Get(d, a)) && Truthy(Get(d, b))
    ensures Render(Rule([[a], [b]], [[a], [b]]), d) == ToText(Get(d, a)) + "-" + ToText(Get(d, b))
  {
    var r := Rule([[a], [b]], [[a], [b]]);
    assert forall g :: g in r.guards <==> g == [a] || g == [b];
    var x, y := ToText(Get(d, a)), ToText(Get(d, b));
    assert Texts(d, r.parts) == [x, y];
    JoinPair(x, y);
  }

  lemma JoinPair(x: string, y: string)
    ensures Join([x, y], '-') == x + "-" + y
  {
    assert [x, y][1..] == [y];
  }

  /** A rule on a property of a nested record tests and renders that property. */
  lemma NestedRule(d: Data, a: string, b: string)
    ensures Applies(Rule([[a, b]], [[a, b]]), d) <==> Truthy(Field(Get(d, a), b))
    ensures Render(Rule([[a, b]], [[a, b]]), d) == ToText(Field(Get(d, a), b))
  {
    var r := Rule([[a, b]], [[a, b]]);
    assert forall g :: g in r.guards <==> g == [a, b];
    assert [a, b][..1] == [a];
    assert Texts(d, r.parts) == [ToText(At(d, [a, b]))];
  }

  /** The guard of rule `i`, read off the if-chain of `generateEventId`. */
  predicate RuleGuard(i: nat, d: Data)
  {
    if i == 0 then Truthy(Get(d, "id"))
    else if i == 1 then Truthy(Get(d, "dingId"))
    else if i == 2 then Truthy(Get(d, "cameraId")) && Truthy(Get(d, "timestamp"))
    else if i == 3 then Truthy(Get(d, "deviceId")) && Truthy(Get(d, "timestamp"))
    else if i == 4 then Truthy(Get(d, "eventCreatedAt"))
    else if i == 5 then Truthy(Field(Get(d, "eventData"), "id"))
    else Truthy(Field(Get(d, "dingData"), "id_str"))
  }

  /** The text after "motion-" of rule `i`. */
  function RuleText(i: nat, d: Data): string
  {
    if i == 0 then ToText(Get(d, "id"))
    else if i == 1 then ToText(Get(d, "dingId"))
    else if i == 2 then ToText(Get(d, "cameraId")) + "-" + ToText(Get(d, "timestamp"))
    else if i == 3 then ToText(Get(d, "deviceId")) + "-" + ToText(Get(d, "timestamp"))
    else if i == 4 then ToText(Get(d, "cameraName")) + "-" + ToText(Get(d, "eventCreatedAt"))
    else if i == 5 then ToText(Field(Get(d, "eventData"), "id"))
    else ToText(Field(Get(d, "dingData"), "id_str"))
  }

  /** The order of preference of the key sources of every other event type. */
  const OtherRules: seq<Rule> := [
    Rule([["id"]], [["id"]]),
    Rule([["alarmId"]], [["alarmId"]])
  ]

  /** A one-property rule tests that property and renders its text. */
  lemma SingleRule(d: Data, k: string)
    ensures Applies(Rule([[k]], [[k]]), d) <==> Truthy(Get(d, k))
    ensures Render(Rule([[k]], [[k]]), d) == ToText(Get(d, k))
  {
    var r := Rule([[k]], [[k]]);
    assert forall g :: g in r.guards <==> g == [k];
    assert Texts(d, r.parts) == [ToText(At(d, [k]))];
  }

  /**
   * Any other key is the type and "-" followed by the rendering of the first
   * rule of `OtherRules` that applies, and by the first 50 characters of the
   * serialized data when none does.
   */
  lemma OtherKeyFollowsRules(t: string, d: Data, now: int, serialize: Data -> string)
    ensures t != MotionType ==>
      EventKey(t, d, now, serialize) == t + "-" +
        match FirstMatch(OtherRules, d)
        case Some(k) => k
        case None => Take(serialize(d), 50)
  {
    SingleRule(d, "id");
    SingleRule(d, "alarmId");
    assert OtherRules[0] == Rule([["id"]], [["id"]]);
    assert OtherRules[1] == Rule([["alarmId"]], [["alarmId"]]);
    if Truthy(Get(d, "id")) {
      FirstMatchIsFirst(OtherRules, d, 0);
    } else if Truthy(Get(d, "alarmId")) {
      FirstMatchIsFirst(OtherRules, d, 1);
    }
  }

  /**
   * The clock matters only to the last-resort motion key: any other key is
   * the same at every time.
   */
  lemma KeyClockIndependent(t: string, d: Data, n1: int, n2: int, serialize: Data -> string)
    requires t != MotionType || FirstMatch(MotionRules, d).Some?
    ensures EventKey(t, d, n1, serialize) == EventKey(t, d, n2, serialize)
  {
    if t == MotionType {
      MotionKeyFollowsRules(d, n1, serialize);
      MotionKeyFollowsRules(d, n2, serialize);
    }
  }

  /**
   * Two last-resort motion keys for the same data are equal exactly when the
   * two times fall in the same 5-second bucket.
   */
  lemma LastResortBuckets(d: Data, n1: int, n2: int)
    ensures LastResortKey(d, n1) == LastResortKey(d, n2) <==> n1 / BucketMs == n2 / BucketMs
  {
    var p := "motion-" + ToText(FallbackName(d)) + "-";
    var k1, k2 := LastResortKey(d, n1), LastResortKey(d, n2);
    assert k1 == p + IntText(Bucket(n1)) && k2 == p + IntText(Bucket(n2));
    if k1 == k2 {
      assert k1[|p|..] == IntText(Bucket(n1));
      assert k2[|p|..] == IntText(Bucket(n2));
      ParseIntText(Bucket(n1));
      ParseIntText(Bucket(n2));
      assert Bucket(n1) == Bucket(n2);
    }
  }

  /** The statistics after `shouldSendEvent` decided `send`. */
  function AfterDedup(s: Stats, t: string, send: bool): (r: Stats)
    ensures !send ==> Count(r, Blocked, "duplicate_" + t) == Count(s, Blocked, "duplicate_" + t) + 1
    ensures forall c, e :: (send || c != Blocked || e != "duplicate_" + t) ==> Count(r, c, e) == Count(s, c, e)
  {
    if send then s else Track(s, Blocked, "duplicate_" + t)
  }

  /**
   * `shouldSendEvent(t, data)` at time `now`: false exactly when the key of
   * the event is a duplicate, and then `blocked["duplicate_" + t]` goes up.
   */
  method ShouldSendEvent(recent: RecentEvents, stats: Table, t: string, d: Data, now: int,
                         serialize: Data -> string) returns (send: bool)
    modifies recent, stats
    ensures send <==> !IsDuplicate(old(recent.entries), EventKey(t, d, now, serialize), now)
    ensures recent.entries == Recorded(old(recent.entries), EventKey(t, d, now, serialize), now)
    ensures stats.Snapshot() == AfterDedup(old(stats.Snapshot()), t, send)
  {
    var key := EventKey(t, d, now, serialize);
    var dup := recent.IsDuplicateEvent(key, now);
    if dup {
      stats.TrackEvent(Blocked, "duplicate_" + t);
      return false;
    }
    return true;
  }
}

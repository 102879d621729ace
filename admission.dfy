/**
 * The admission pipeline every producer routes an event through:
 * `if (!isEventExcluded(t) && shouldSendEvent(t, data)) sendToN8n(t, data)`,
 * over the three pieces of shared state (statistics, recent keys, POST log).
 */
module Admission {
  import opened JsText
  import opened JsValue
  import opened EventStats
  import opened Deduplication
  import opened Webhook
  import EventFilter
  import AppConfig

  /**
   * What the pipeline takes from its host: the configuration, `JSON.stringify`,
   * `new Date(x).toISOString()`, and the outcome of the n-th POST ever made
   * (true when the webhook answered with success).
   */
  datatype Env = Env(
    config: AppConfig.Config,
    serialize: Data -> string,
    toIso: Value -> string,
    network: nat -> bool)

  datatype Event = Event(eventType: string, data: Data)

  /** The shared state: `eventStats`, `recentEvents` and the POSTs made so far. */
  datatype World = World(stats: Stats, recent: Entries, requests: seq<Request>)

  /** Where one event ended: at the exclusion test, at dedup, or in `sendToN8n`. */
  datatype Outcome = Excluded | Duplicate | Attempted(delivery: Delivery)

  datatype Report = Report(outcome: Outcome, world: World)

  /** The key dedup uses for `e` at time `now`. */
  function KeyOf(env: Env, e: Event, now: int): string
  {
    EventKey(e.eventType, e.data, now, env.serialize)
  }

  /** One gated send of `e` at time `now`. */
  function Step(env: Env, w: World, e: Event, now: int): (r: Report)
    ensures r.outcome == Excluded <==> e.eventType in env.config.excludedEvents
    ensures r.outcome != Attempted(SkippedExcluded)
    ensures r.outcome == Excluded ==> r.world.recent == w.recent && r.world.requests == w.requests
    ensures r.outcome.Attempted? <==> !(e.eventType in env.config.excludedEvents) &&
                                      !IsDuplicate(w.recent, KeyOf(env, e, now), now)
    ensures w.requests <= r.world.requests
    ensures |r.world.requests| == |w.requests| + (if r.outcome.Attempted? && Posts(r.outcome.delivery) then 1 else 0)
  {
    var t := e.eventType;
    if t in env.config.excludedEvents then
      Report(Excluded, w.(stats := EventFilter.AfterExclusion(w.stats, env.config.excludedEvents, t)))
    else
      var key := KeyOf(env, e, now);
      var recent := Recorded(w.recent, key, now);
      if IsDuplicate(w.recent, key, now) then
        Report(Duplicate, World(AfterDedup(w.stats, t, false), recent, w.requests))
      else
        var r := Route(env.config, t, env.network(|w.requests|));
        var posted := if Posts(r) then [RequestFor(env.config, t, e.data, env.toIso(Num(now)))] else [];
        Report(Attempted(r), World(AfterSend(w.stats, t, r), recent, w.requests + posted))
  }

  /** The shared state after sending `es` in order, all at time `now`. */
  function Run(env: Env, w: World, es: seq<Event>, now: int): World
    decreases |es|
  {
    if es == [] then w
    else Step(env, Run(env, w, es[..|es| - 1], now), es[|es| - 1], now).world
  }

  /** The outcome of each event of `es`. */
  function Outcomes(env: Env, w: World, es: seq<Event>, now: int): (r: seq<Outcome>)
    ensures |r| == |es|
    decreases |es|
  {
    if es == [] then []
    else
      var before := es[..|es| - 1];
      Outcomes(env, w, before, now) + [Step(env, Run(env, w, before, now), es[|es| - 1], now).outcome]
  }

  lemma RunSnoc(env: Env, w: World, es: seq<Event>, e: Event, now: int)
    ensures Run(env, w, es + [e], now) == Step(env, Run(env, w, es, now), e, now).world
  {
    assert (es + [e])[..|es|] == es;
  }

  lemma RunSingle(env: Env, w: World, e: Event, now: int)
    ensures Run(env, w, [e], now) == Step(env, w, e, now).world
  {
    RunSnoc(env, w, [], e, now);
  }

  lemma RunPair(env: Env, w: World, e1: Event, e2: Event, now: int)
    ensures Run(env, w, [e1, e2], now) == Step(env, Step(env, w, e1, now).world, e2, now).world
  {
    RunSingle(env, w, e1, now);
    RunSnoc(env, w, [e1], e2, now);
    assert [e1] + [e2] == [e1, e2];
  }

  /** The events of each element of `xs` in turn. */
  function Flat<T>(f: T -> seq<Event>, xs: seq<T>): seq<Event>
    decreases |xs|
  {
    if xs == [] then [] else Flat(f, xs[..|xs| - 1]) + f(xs[|xs| - 1])
  }

  lemma FlatSnoc<T>(f: T -> seq<Event>, xs: seq<T>, i: nat)
    requires i < |xs|
    ensures Flat(f, xs[..i + 1]) == Flat(f, xs[..i]) + f(xs[i])
  {
    assert xs[..i + 1][..i] == xs[..i];
  }

  /** Flattening distributes over concatenation. */
  lemma {:induction false} FlatAppend<T>(f: T -> seq<Event>, a: seq<T>, b: seq<T>)
    ensures Flat(f, a + b) == Flat(f, a) + Flat(f, b)
    decreases |b|
  {
    if b == [] {
      assert a + b == a;
    } else {
      var b', last := b[..|b| - 1], b[|b| - 1];
      FlatAppend(f, a, b');
      assert (a + b)[..|a + b| - 1] == a + b';
      assert (a + b)[|a + b| - 1] == last;
      assert Flat(f, a + b) == Flat(f, a + b') + f(last);
      assert Flat(f, b) == Flat(f, b') + f(last);
      assert Flat(f, a) + Flat(f, b') + f(last) == Flat(f, a) + (Flat(f, b') + f(last));
    }
  }

  lemma FlatSingle<T>(f: T -> seq<Event>, x: T)
    ensures Flat(f, [x]) == f(x)
  {
    assert [x][..0] == [];
  }

  /** Sending `a` then `b` is sending `a + b`. */
  lemma {:induction false} RunAppend(env: Env, w: World, a: seq<Event>, b: seq<Event>, now: int)
    ensures Run(env, w, a + b, now) == Run(env, Run(env, w, a, now), b, now)
    decreases |b|
  {
    if b == [] {
      assert a + b == a;
    } else {
      var b' := b[..|b| - 1];
      assert (a + b)[..|a + b| - 1] == a + b';
      assert (a + b)[|a + b| - 1] == b[|b| - 1];
      RunAppend(env, w, a, b', now);
    }
  }

  /** Along any run, no counter goes down and the POST log only grows at its end. */
  lemma {:induction false} RunMonotone(env: Env, w: World, es: seq<Event>, now: int)
    ensures NoneDecreased(w.stats, Run(env, w, es, now).stats)
    ensures w.requests <= Run(env, w, es, now).requests
    ensures |Run(env, w, es, now).requests| <= |w.requests| + |es|
    decreases |es|
  {
    if es != [] {
      var before := es[..|es| - 1];
      var mid := Run(env, w, before, now);
      RunMonotone(env, w, before, now);
      StepMonotone(env, mid, es[|es| - 1], now);
      NoneDecreasedTransitive(w.stats, mid.stats, Run(env, w, es, now).stats);
    }
  }

  lemma StepMonotone(env: Env, w: World, e: Event, now: int)
    ensures NoneDecreased(w.stats, Step(env, w, e, now).world.stats)
  {
    var t := e.eventType;
    var s := Step(env, w, e, now).world.stats;
    if t in env.config.excludedEvents {
      TrackNeverDecreases(w.stats, Blocked, t);
    } else if IsDuplicate(w.recent, KeyOf(env, e, now), now) {
      TrackNeverDecreases(w.stats, Blocked, "duplicate_" + t);
    } else {
      var r := Step(env, w, e, now).outcome.delivery;
      TrackNeverDecreases(w.stats, Received, t);
      TrackNeverDecreases(Track(w.stats, Received, t), CountedAs(r), t);
      NoneDecreasedTransitive(w.stats, Track(w.stats, Received, t), s);
    }
  }

  /**
   * `received[t]` goes up exactly when the event passed both gates: the
   * exclusion test inside `sendToN8n` can then never fire.
   */
  lemma ReceivedCountsAdmitted(env: Env, w: World, e: Event, now: int)
    ensures var r := Step(env, w, e, now);
      Count(r.world.stats, Received, e.eventType) ==
      Count(w.stats, Received, e.eventType) + (if r.outcome.Attempted? then 1 else 0)
  {
    var t := e.eventType;
    if !(t in env.config.excludedEvents) && !IsDuplicate(w.recent, KeyOf(env, e, now), now) {
      var r := Route(env.config, t, env.network(|w.requests|));
      assert CountedAs(r) != Received;
    }
  }

  /**
   * Sending the same non-excluded event twice at the same non-zero time: the
   * second one is always blocked as a duplicate.
   */
  lemma RepeatIsDuplicate(env: Env, w: World, e: Event, now: int)
    requires e.eventType !in env.config.excludedEvents && now != 0
    ensures Step(env, Step(env, w, e, now).world, e, now).outcome == Duplicate
  {
    var key := KeyOf(env, e, now);
    SecondLookupIsDuplicate(w.recent, key, now);
  }

  /** The sequence of requests a run makes, each one for an admitted event. */
  lemma {:induction false} RequestsAreForAdmittedTypes(env: Env, w: World, es: seq<Event>, now: int)
    ensures var r := Run(env, w, es, now).requests;
      forall i :: |w.requests| <= i < |r| ==>
        r[i].payload.eventType !in env.config.excludedEvents &&
        r[i].payload.source == Source &&
        (exists k :: 0 <= k < |es| && es[k].eventType == r[i].payload.eventType && es[k].data == r[i].payload.data)
    decreases |es|
  {
    if es != [] {
      var before := es[..|es| - 1];
      var e := es[|es| - 1];
      RequestsAreForAdmittedTypes(env, w, before, now);
      RunMonotone(env, w, before, now);
      var mid := Run(env, w, before, now).requests;
      var r := Run(env, w, es, now).requests;
      forall i | |w.requests| <= i < |r|
        ensures r[i].payload.eventType !in env.config.excludedEvents &&
                r[i].payload.source == Source &&
                (exists k :: 0 <= k < |es| && es[k].eventType == r[i].payload.eventType && es[k].data == r[i].payload.data)
      {
        if i < |mid| {
          assert r[i] == mid[i];
          var k :| 0 <= k < |before| && before[k].eventType == mid[i].payload.eventType && before[k].data == mid[i].payload.data;
          assert es[k] == before[k];
        } else {
          assert r[i].payload.eventType == e.eventType && r[i].payload.data == e.data;
          assert es[|es| - 1] == e;
        }
      }
    }
  }

  /** The three shared singletons, and the gated send every producer performs. */
  class Bridge {
    const env: Env
    const stats: Table
    const recent: RecentEvents
    const sink: Sink

    function Snapshot(): World
      reads stats, recent, sink
    {
      World(stats.Snapshot(), recent.entries, sink.requests)
    }

    constructor (env: Env)
      ensures this.env == env
      ensures Snapshot() == World(Initial(), map[], [])
      ensures fresh(stats) && fresh(recent) && fresh(sink)
    {
      this.env := env;
      stats := new Table();
      recent := new RecentEvents();
      sink := new Sink();
    }

    /** `!isEventExcluded(t) && shouldSendEvent(t, data)`, then `sendToN8n(t, data)`. */
    method Emit(e: Event, now: int) returns (o: Outcome)
      modifies stats, recent, sink
      ensures Report(o, Snapshot()) == Step(env, old(Snapshot()), e, now)
    {
      var excluded := EventFilter.IsEventExcluded(stats, env.config.excludedEvents, e.eventType);
      if excluded {
        return Excluded;
      }
      var send := ShouldSendEvent(recent, stats, e.eventType, e.data, now, env.serialize);
      if !send {
        return Duplicate;
      }
      var d := SendToN8n(stats, sink, env.config, e.eventType, e.data, now, env.toIso,
                         env.network(|sink.requests|));
      return Attempted(d);
    }
  }
}

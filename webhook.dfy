/**
 * `sendToN8n`: the counters it moves on each of its paths, the payload and
 * headers of the POST it makes, and what it does with the outcome of that
 * POST. The HTTP transport itself is an outcome handed in by the caller.
 */
module Webhook {
  import opened JsText
  import opened JsValue
  import opened EventStats
  import AppConfig

  const Source := "ring-doorbell"
  const AuthorizationHeader := "Authorization"

  /** The JSON body of the POST. */
  datatype Payload = Payload(timestamp: string, eventType: string, source: string, data: Data)

  /** One `axios.post(url, payload, { headers })`. */
  datatype Request = Request(url: string, headers: map<string, string>, payload: Payload)

  /**
   * How a call ended: skipped as excluded, refused for want of a URL, posted
   * and answered with success, or posted and failed (the promise rejects).
   */
  datatype Delivery = SkippedExcluded | NoUrl | Delivered | Failed

  /** The `headers` object: `Authorization` exactly when an auth header is configured. */
  function Headers(authHeader: Option<string>): (h: map<string, string>)
    ensures AuthorizationHeader in h <==> AppConfig.IsSet(authHeader)
    ensures AuthorizationHeader in h ==> h[AuthorizationHeader] == authHeader.value
    ensures h.Keys <= {AuthorizationHeader}
  {
    if AppConfig.IsSet(authHeader) then map[AuthorizationHeader := authHeader.value] else map[]
  }

  function MakePayload(t: string, d: Data, timestamp: string): (p: Payload)
    ensures p.eventType == t && p.data == d && p.source == Source && p.timestamp == timestamp
  {
    Payload(timestamp, t, Source, d)
  }

  /**
   * The path `sendToN8n(t, …)` takes under configuration `cfg`, `posted`
   * being the outcome the POST would have.
   */
  function Route(cfg: AppConfig.Config, t: string, posted: bool): (r: Delivery)
    ensures r == SkippedExcluded <==> t in cfg.excludedEvents
    ensures r == NoUrl <==> t !in cfg.excludedEvents && !AppConfig.IsSet(cfg.webhookUrl)
    ensures r == Delivered <==> t !in cfg.excludedEvents && AppConfig.IsSet(cfg.webhookUrl) && posted
    ensures r == Failed <==> t !in cfg.excludedEvents && AppConfig.IsSet(cfg.webhookUrl) && !posted
  {
    if t in cfg.excludedEvents then SkippedExcluded
    else if !AppConfig.IsSet(cfg.webhookUrl) then NoUrl
    else if posted then Delivered
    else Failed
  }

  /** Whether the path reaches `axios.post`. */
  predicate Posts(r: Delivery)
  {
    r == Delivered || r == Failed
  }

  /** The counter each path moves besides `received`. */
  function CountedAs(r: Delivery): Category
  {
    match r
    case SkippedExcluded => Blocked
    case NoUrl => Errors
    case Delivered => Sent
    case Failed => Errors
  }

  /** The statistics after a call that took path `r`. */
  function AfterSend(s: Stats, t: string, r: Delivery): Stats
  {
    Track(Track(s, Received, t), CountedAs(r), t)
  }

  /**
   * Every call counts `received[t]`, and then exactly one of `blocked[t]`,
   * `errors[t]` and `sent[t]`, each by one; nothing else changes.
   */
  lemma OneOutcomeCounted(s: Stats, t: string, r: Delivery)
    ensures var a := AfterSend(s, t, r);
      Count(a, Received, t) == Count(s, Received, t) + 1 &&
      Count(a, CountedAs(r), t) == Count(s, CountedAs(r), t) + 1 &&
      (forall c :: c != Received && c != CountedAs(r) ==> Count(a, c, t) == Count(s, c, t)) &&
      (forall c, e :: e != t ==> Count(a, c, e) == Count(s, c, e))
    ensures CountedAs(r) == Sent <==> r == Delivered
    ensures CountedAs(r) == Blocked <==> r == SkippedExcluded
  {
  }

  /** The request a call that reaches the POST makes. */
  function RequestFor(cfg: AppConfig.Config, t: string, d: Data, timestamp: string): Request
    requires AppConfig.IsSet(cfg.webhookUrl)
  {
    Request(cfg.webhookUrl.value, Headers(cfg.authHeader), MakePayload(t, d, timestamp))
  }

  /** The log of POSTs made so far, in order. */
  class Sink {
    var requests: seq<Request>

    constructor ()
      ensures requests == []
    {
      requests := [];
    }

    method Post(r: Request)
      modifies this
      ensures requests == old(requests) + [r]
    {
      requests := requests + [r];
    }
  }

  /**
   * `sendToN8n(t, data)` at time `now`. `toIso` stands for
   * `new Date(x).toISOString()` and `posted` for the outcome of the POST.
   */
  method SendToN8n(stats: Table, sink: Sink, cfg: AppConfig.Config, t: string, d: Data, now: int,
                   toIso: Value -> string, posted: bool) returns (r: Delivery)
    modifies stats, sink
    ensures r == Route(cfg, t, posted)
    ensures stats.Snapshot() == AfterSend(old(stats.Snapshot()), t, r)
    ensures sink.requests == old(sink.requests) +
      (if Posts(r) then [RequestFor(cfg, t, d, toIso(Num(now)))] else [])
  {
    stats.TrackEvent(Received, t);
    if t in cfg.excludedEvents {
      stats.TrackEvent(Blocked, t);
      return SkippedExcluded;
    }
    if !AppConfig.IsSet(cfg.webhookUrl) {
      stats.TrackEvent(Errors, t);
      return NoUrl;
    }
    var payload := MakePayload(t, d, toIso(Num(now)));
    var headers := map[];
    if AppConfig.IsSet(cfg.authHeader) {
      headers := headers[AuthorizationHeader := cfg.authHeader.value];
    }
    sink.Post(Request(cfg.webhookUrl.value, headers, payload));
    if posted {
      stats.TrackEvent(Sent, t);
      return Delivered;
    }
    stats.TrackEvent(Errors, t);
    return Failed;
  }
}

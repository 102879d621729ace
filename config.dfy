/**
 * The configuration object built from the process environment at start-up:
 * the comma lists of excluded event types and location ids, the polling
 * interval, the webhook URL and authorization header with their legacy
 * fallbacks, and the check of the two required settings.
 */
module AppConfig {
  import opened JsText

  /** `process.env`: a variable is either absent or holds a string. */
  type Environment = map<string, string>

  const DebugVar := "DEBUG"
  const PollingIntervalVar := "POLLING_INTERVAL"
  const ExcludedEventsVar := "EXCLUDED_EVENTS"
  const RefreshTokenVar := "RING_REFRESH_TOKEN"
  const LocationIdsVar := "RING_LOCATION_IDS"
  const WebhookUrlVar := "WEBHOOK_URL"
  const LegacyWebhookUrlVar := "N8N_WEBHOOK_URL"
  const AuthHeaderVar := "WEBHOOK_AUTH_HEADER"
  const LegacyAuthHeaderVar := "N8N_AUTH_HEADER"

  const DefaultPollingIntervalMs := 10000

  const TokenMissing := "RING_REFRESH_TOKEN is required but not set in .env file"
  const UrlMissing := "WEBHOOK_URL is required but not set in .env file"

  /** `process.env[name]`, `None` standing for `undefined`. */
  function Var(env: Environment, name: string): Option<string>
  {
    if name in env then Some(env[name]) else None
  }

  /** An optional string is truthy when it is present and not empty. */
  predicate IsSet(v: Option<string>)
  {
    v.Some? && v.value != ""
  }

  /** `a || b` on two optional strings. */
  function Fallback(a: Option<string>, b: Option<string>): (r: Option<string>)
    ensures IsSet(r) <==> IsSet(a) || IsSet(b)
    ensures IsSet(a) ==> r == a
    ensures !IsSet(a) ==> r == b
  {
    if IsSet(a) then a else b
  }

  datatype Config = Config(
    debug: bool,
    pollingInterval: Option<int>,  // None: parseInt gave NaN
    excludedEvents: seq<string>,
    refreshToken: Option<string>,
    locationIds: Option<seq<string>>,
    webhookUrl: Option<string>,
    authHeader: Option<string>)

  // ---------------------------------------------------------------------------
  // EXCLUDED_EVENTS
  // ---------------------------------------------------------------------------

  /** Every entry is non-empty and has no white space at either end. */
  predicate Cleaned(ts: seq<string>)
  {
    forall i :: 0 <= i < |ts| ==> ts[i] != [] && IsTrimmed(ts[i])
  }

  predicate CommaFree(ts: seq<string>)
  {
    forall i :: 0 <= i < |ts| ==> ',' !in ts[i]
  }

  /** What `parseExcludedEvents` can return: cleaned entries without a comma. */
  predicate EventTypeList(ts: seq<string>)
  {
    Cleaned(ts) && CommaFree(ts)
  }

  /** `.map(e => e.trim()).filter(e => e.length > 0)`. */
  function TrimmedNonEmpty(pieces: seq<string>): (r: seq<string>)
    ensures |r| <= |pieces|
    ensures Cleaned(r)
  {
    if pieces == [] then []
    else
      var t := Trim(pieces[0]);
      var rest := TrimmedNonEmpty(pieces[1..]);
      if t == [] then rest else CleanedCons(t, rest); [t] + rest
  }

  lemma CleanedCons(t: string, rest: seq<string>)
    requires t != [] && IsTrimmed(t) && Cleaned(rest)
    ensures Cleaned([t] + rest)
  {
    var ts := [t] + rest;
    forall i | 0 <= i < |ts| ensures ts[i] != [] && IsTrimmed(ts[i]) {
      if i > 0 {
        assert ts[i] == rest[i - 1];
      }
    }
  }

  /** A type is kept exactly when it is the non-empty trim of some piece. */
  lemma {:induction false} TrimmedNonEmptyIff(pieces: seq<string>, e: string)
    ensures e in TrimmedNonEmpty(pieces) <==> e != [] && exists p :: p in pieces && Trim(p) == e
  {
    if pieces != [] {
      TrimmedNonEmptyIff(pieces[1..], e);
      assert forall p :: p in pieces <==> p == pieces[0] || p in pieces[1..];
    }
  }

  /**
   * `parseExcludedEvents()`: the comma-separated pieces of `EXCLUDED_EVENTS`
   * (empty when unset), trimmed, with the empty ones dropped.
   */
  function ParseExcludedEvents(env: Environment): (r: seq<string>)
    ensures !IsSet(Var(env, ExcludedEventsVar)) ==> r == []
    ensures EventTypeList(r)
  {
    var raw := Fallback(Var(env, ExcludedEventsVar), Some(""));
    CommaFreeTrimmed(Split(raw.value, ','));
    TrimmedNonEmpty(Split(raw.value, ','))
  }

  /** Trimming never brings in a comma. */
  lemma {:induction false} CommaFreeTrimmed(pieces: seq<string>)
    requires CommaFree(pieces)
    ensures CommaFree(TrimmedNonEmpty(pieces))
  {
    if pieces != [] {
      var t, rest := Trim(pieces[0]), TrimmedNonEmpty(pieces[1..]);
      assert ',' !in pieces[0];
      assert CommaFree(pieces[1..]) by {
        forall i | 0 <= i < |pieces[1..]| ensures ',' !in pieces[1..][i] {
          assert pieces[1..][i] == pieces[i + 1];
        }
      }
      CommaFreeTrimmed(pieces[1..]);
      if ',' in t {
        TrimChars(pieces[0], ',');
      }
      assert TrimmedNonEmpty(pieces) == if t == [] then rest else [t] + rest;
      CommaFreeCons(t, rest);
    }
  }

  lemma CommaFreeCons(t: string, rest: seq<string>)
    requires ',' !in t && CommaFree(rest)
    ensures CommaFree([t] + rest)
  {
    forall i | 0 <= i < |[t] + rest| ensures ',' !in ([t] + rest)[i] {
      if i > 0 {
        assert ([t] + rest)[i] == rest[i - 1];
      }
    }
  }

  /** An excluded type is exactly a non-empty trimmed piece of the variable. */
  lemma ExcludedEventsMembership(env: Environment, e: string)
    requires ExcludedEventsVar in env
    ensures e in ParseExcludedEvents(env) <==>
            e != [] && exists p :: p in Split(env[ExcludedEventsVar], ',') && Trim(p) == e
  {
    var raw := env[ExcludedEventsVar];
    var pieces := Split(raw, ',');
    assert Var(env, ExcludedEventsVar) == Some(raw);
    assert Fallback(Var(env, ExcludedEventsVar), Some("")) == Some(raw);
    assert ParseExcludedEvents(env) == TrimmedNonEmpty(pieces);
    TrimmedNonEmptyIff(pieces, e);
  }

  /**
   * Writing a list of non-empty, trimmed, comma-free types into the variable,
   * comma-separated, and parsing it back gives the same list.
   */
  lemma ExcludedEventsRoundTrip(env: Environment, types: seq<string>)
    requires EventTypeList(types)
    requires Var(env, ExcludedEventsVar) == Some(Join(types, ','))
    ensures ParseExcludedEvents(env) == types
  {
    if types != [] {
      Resplit(types);
      ExcludedEventsOfSet(env, Join(types, ','));
    }
  }

  /** Splitting the joined list and cleaning the pieces gives the list back. */
  lemma Resplit(types: seq<string>)
    requires EventTypeList(types) && types != []
    ensures Join(types, ',') != ""
    ensures TrimmedNonEmpty(Split(Join(types, ','), ',')) == types
  {
    JoinNonEmpty(types, ',');
    SplitJoin(types, ',');
    TrimmedNonEmptyOfClean(types);
  }

  lemma ExcludedEventsOfSet(env: Environment, raw: string)
    requires Var(env, ExcludedEventsVar) == Some(raw) && raw != ""
    ensures ParseExcludedEvents(env) == TrimmedNonEmpty(Split(raw, ','))
  {
  }

  lemma {:induction false} TrimmedNonEmptyOfClean(pieces: seq<string>)
    requires Cleaned(pieces)
    ensures TrimmedNonEmpty(pieces) == pieces
  {
    if pieces != [] {
      TrimOfTrimmed(pieces[0]);
      TrimmedNonEmptyOfClean(pieces[1..]);
      assert [pieces[0]] + pieces[1..] == pieces;
    }
  }

  // ---------------------------------------------------------------------------
  // RING_LOCATION_IDS
  // ---------------------------------------------------------------------------

  /** A piece passes the filter when its trim does not read as NaN. */
  predicate Numeric(p: string)
  {
    !IsNaNText(Trim(p))
  }

  /** `kept` holds exactly the numeric pieces of `pieces`. */
  ghost predicate NumericSubset(kept: seq<string>, pieces: seq<string>)
  {
    forall p :: p in kept <==> p in pieces && Numeric(p)
  }

  /** `.filter(id => !isNaN(id.trim()))`: the pieces are kept untrimmed. */
  function NumericPieces(pieces: seq<string>): (r: seq<string>)
    ensures |r| <= |pieces|
    ensures NumericSubset(r, pieces)
  {
    if pieces == [] then []
    else
      var rest := NumericPieces(pieces[1..]);
      assert forall p :: p in pieces <==> p == pieces[0] || p in pieces[1..];
      if !IsNaNText(Trim(pieces[0])) then [pieces[0]] + rest else rest
  }

  /** The filter keeps a single piece exactly when it is numeric. */
  lemma NumericPiecesSingle(p: string)
    ensures NumericPieces([p]) == if Numeric(p) then [p] else []
  {
    assert [p][1..] == [];
  }

  /**
   * The filter works piece by piece: filtering a concatenation concatenates
   * the filtered parts, so the kept pieces keep their order and multiplicity.
   */
  lemma {:induction false} NumericPiecesAppend(a: seq<string>, b: seq<string>)
    ensures NumericPieces(a + b) == NumericPieces(a) + NumericPieces(b)
  {
    if a == [] {
      assert a + b == b;
    } else {
      assert (a + b)[0] == a[0];
      assert (a + b)[1..] == a[1..] + b;
      NumericPiecesAppend(a[1..], b);
    }
  }

  predicate HasNumeric(pieces: seq<string>)
  {
    exists p :: p in pieces && Numeric(p)
  }

  /**
   * `parseLocationIds()`: `undefined` when the variable is unset or empty, or
   * when none of its pieces is numeric; otherwise the numeric pieces in order.
   */
  function ParseLocationIds(env: Environment): (r: Option<seq<string>>)
    ensures !IsSet(Var(env, LocationIdsVar)) ==> r == None
    ensures r.Some? ==> |r.value| > 0 && NumericSubset(r.value, Split(env[LocationIdsVar], ','))
    ensures r.Some? ==> r.value == NumericPieces(Split(env[LocationIdsVar], ','))
    ensures (IsSet(Var(env, LocationIdsVar)) && HasNumeric(Split(env[LocationIdsVar], ','))) ==> r.Some?
  {
    if !IsSet(Var(env, LocationIdsVar)) then None
    else
      var valid := NumericPieces(Split(env[LocationIdsVar], ','));
      if |valid| > 0 then Some(valid) else None
  }

  /**
   * `isNaN` of an empty or all-blank string is false, so such a piece (as in
   * `"123,,456"`) survives the filter whenever the variable is set.
   */
  lemma BlankLocationIdKept(env: Environment, p: string)
    requires IsSet(Var(env, LocationIdsVar))
    requires p in Split(env[LocationIdsVar], ',')
    requires forall i :: 0 <= i < |p| ==> IsSpace(p[i])
    ensures ParseLocationIds(env).Some? && p in ParseLocationIds(env).value
  {
    NumbersAreNotNaN(0, p);
    TrimmedNaN(p);
  }

  function IntTexts(ns: seq<int>): (r: seq<string>)
    ensures |r| == |ns|
    ensures forall i :: 0 <= i < |r| ==> r[i] == IntText(ns[i])
  {
    if ns == [] then [] else [IntText(ns[0])] + IntTexts(ns[1..])
  }

  /** A non-empty comma list of integers is read back as exactly those texts. */
  lemma LocationIdsRoundTrip(ns: seq<int>)
    requires |ns| > 0
    ensures ParseLocationIds(map[LocationIdsVar := Join(IntTexts(ns), ',')]) == Some(IntTexts(ns))
  {
    var texts := IntTexts(ns);
    forall i | 0 <= i < |texts| ensures ',' !in texts[i] && texts[i] != [] {
      IntTextChars(ns[i]);
    }
    JoinNonEmpty(texts, ',');
    SplitJoin(texts, ',');
    NumericPiecesOfNumbers(ns);
  }

  lemma IntTextChars(n: int)
    ensures IntText(n) != [] && ',' !in IntText(n)
  {
    var d := NatText(if n < 0 then -n else n);
    assert forall i :: 0 <= i < |d| ==> d[i] != ',';
    if n < 0 {
      assert IntText(n) == "-" + d;
      assert forall i :: 0 <= i < |IntText(n)| ==> IntText(n)[i] != ',' by {
        forall i | 0 <= i < |IntText(n)| ensures IntText(n)[i] != ',' {
          if i > 0 {
            assert IntText(n)[i] == d[i - 1];
          }
        }
      }
    }
  }

  lemma {:induction false} NumericPiecesOfNumbers(ns: seq<int>)
    ensures NumericPieces(IntTexts(ns)) == IntTexts(ns)
  {
    if ns != [] {
      var texts := IntTexts(ns);
      assert texts[1..] == IntTexts(ns[1..]);
      NumericPiecesOfNumbers(ns[1..]);
      NumbersAreNotNaN(ns[0], "");
      TrimmedNaN(texts[0]);
      assert [texts[0]] + texts[1..] == texts;
    }
  }

  // ---------------------------------------------------------------------------
  // The configuration object
  // ---------------------------------------------------------------------------

  /** `config` as computed once from the environment. */
  function LoadConfig(env: Environment): (r: Config)
    ensures r.debug <==> Var(env, DebugVar) == Some("true")
    ensures r.excludedEvents == ParseExcludedEvents(env)
    ensures r.locationIds == ParseLocationIds(env)
    ensures r.refreshToken == Var(env, RefreshTokenVar)
    ensures IsSet(r.webhookUrl) <==> IsSet(Var(env, WebhookUrlVar)) || IsSet(Var(env, LegacyWebhookUrlVar))
    ensures IsSet(r.authHeader) <==> IsSet(Var(env, AuthHeaderVar)) || IsSet(Var(env, LegacyAuthHeaderVar))
  {
    Config(
      debug := Var(env, DebugVar) == Some("true"),
      pollingInterval :=
        if IsSet(Var(env, PollingIntervalVar)) then ParseInt(env[PollingIntervalVar])
        else Some(DefaultPollingIntervalMs),
      excludedEvents := ParseExcludedEvents(env),
      refreshToken := Var(env, RefreshTokenVar),
      locationIds := ParseLocationIds(env),
      webhookUrl := Fallback(Var(env, WebhookUrlVar), Var(env, LegacyWebhookUrlVar)),
      authHeader := Fallback(Var(env, AuthHeaderVar), Var(env, LegacyAuthHeaderVar)))
  }

  /**
   * The polling interval is 10000 ms when the variable is unset or empty, and
   * the integer it holds when it holds the text of one.
   */
  lemma PollingInterval(env: Environment, n: int)
    ensures !IsSet(Var(env, PollingIntervalVar)) ==>
            LoadConfig(env).pollingInterval == Some(DefaultPollingIntervalMs)
    ensures LoadConfig(env[PollingIntervalVar := IntText(n)]).pollingInterval == Some(n)
  {
    ParseIntText(n);
    IntTextChars(n);
  }

  /**
   * The new variable wins when it is set; otherwise the legacy one is used,
   * whatever it holds (including an empty string or nothing).
   */
  lemma WebhookFallbacks(env: Environment)
    ensures IsSet(Var(env, WebhookUrlVar)) ==> LoadConfig(env).webhookUrl == Some(env[WebhookUrlVar])
    ensures !IsSet(Var(env, WebhookUrlVar)) ==> LoadConfig(env).webhookUrl == Var(env, LegacyWebhookUrlVar)
    ensures IsSet(Var(env, AuthHeaderVar)) ==> LoadConfig(env).authHeader == Some(env[AuthHeaderVar])
    ensures !IsSet(Var(env, AuthHeaderVar)) ==> LoadConfig(env).authHeader == Var(env, LegacyAuthHeaderVar)
  {
  }

  /**
   * `validateConfig()`: one error per missing required setting (the refresh
   * token first, then the webhook URL); the result is true when there is none.
   */
  method ValidateConfig(cfg: Config) returns (ok: bool, errors: seq<string>)
    ensures errors == (if IsSet(cfg.refreshToken) then [] else [TokenMissing]) +
                      (if IsSet(cfg.webhookUrl) then [] else [UrlMissing])
    ensures ok <==> IsSet(cfg.refreshToken) && IsSet(cfg.webhookUrl)
    ensures ok <==> errors == []
  {
    errors := [];
    if !IsSet(cfg.refreshToken) {
      errors := errors + [TokenMissing];
    }
    if !IsSet(cfg.webhookUrl) {
      errors := errors + [UrlMissing];
    }
    if |errors| > 0 {
      return false, errors;
    }
    return true, errors;
  }
}

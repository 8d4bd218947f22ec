/** The request flow as functions of the world it runs against: the Redis data and the
    upstream requests sent so far. Each function gives the result of one operation and the
    world after it. The lemmas state what the routes and the token manager promise. */
module Service {
  import opened Outcome
  import opened Json
  import opened Redis
  import opened Upstream
  import opened Tokens
  import opened Classification
  import opened CachePolicy
  import Decimal

  datatype World = World(data: Data, calls: seq<Request>)

  datatype Step<+T> = Step(result: Result<T>, world: World)

  /** The functions whose implementation is not modelled: JSON serialisation (to_json),
      SHA1 as a hex digest, and Ruby's `to_s` of an Array or a Hash. */
  datatype Env = Env(toJson: Json -> string, sha1: string -> string, inspect: Json -> string)

  /** What a route answers: the JSON body, the max-age of the `public, must-revalidate`
      cache-control directive if one is set, and the Measurement-Fields header if set. */
  datatype Response = Response(body: string, maxAge: Option<int>, measurementFields: Option<string>)

  /** Which fetcher fills a cache miss. */
  datatype Producer = AirQualityData | MeasurementsData(deviceId: string)

  const NO_DEVICE_ID: Json := JObj(map["error" := JStr("No device_id specified")])

  // ---------------------------------------------------------------- token manager

  function HandleTokenResponseSpec(w: World, reply: Reply, env: Env, now: int): Step<TokenRecord> {
    match InterpretTokenReply(reply, now, env.inspect)
    case Err(f) => Step(Err(f), w)
    case Ok(record) =>
      match HmsetOf(w.data, TOKENS_KEY, StoredFields(record), now)
      case Err(f) => Step(Err(f), w)
      case Ok(data) => Step(Ok(record), World(data, w.calls))
  }

  /** create_access_token and refresh_access_token: one POST to the token endpoint, then
      handle_token_response on its reply. */
  function TokenCallSpec(w: World, respond: Responder, env: Env, request: Request, now: int): Step<TokenRecord> {
    HandleTokenResponseSpec(World(w.data, w.calls + [request]), respond(w.calls, request), env, now)
  }

  function GetTokensSpec(w: World, respond: Responder, env: Env, now: int): Step<TokenRecord> {
    match HmgetOf(w.data, TOKENS_KEY, TOKEN_FIELDS, now)
    case Err(f) => Step(Err(f), w)
    case Ok(cached) =>
      match ChooseAction(cached, now)
      case Reuse(record) => Step(Ok(record), w)
      case Abort(f) => Step(Err(f), w)
      case Refresh(token) => TokenCallSpec(w, respond, env, RefreshGrant(token), now)
      case Create => TokenCallSpec(w, respond, env, PasswordGrant, now)
  }

  // ---------------------------------------------------------------- data fetchers

  function DataRequest(producer: Producer, accessToken: string, now: int): Request {
    match producer
    case AirQualityData => HomeCoachsData(accessToken)
    case MeasurementsData(id) => GetMeasure(accessToken, id, now - MEASURE_WINDOW, now)
  }

  function PathOf(producer: Producer): Path {
    match producer
    case AirQualityData => AirQualityPath
    case MeasurementsData(_) => MeasurementsPath
  }

  /** get_airquality_data and get_measurements. */
  function FetchSpec(w: World, respond: Responder, env: Env, producer: Producer, now: int): Step<Json> {
    var tokens := GetTokensSpec(w, respond, env, now);
    match tokens.result
    case Err(f) => Step(Err(f), tokens.world)
    case Ok(record) =>
      var request := DataRequest(producer, record.accessToken, now);
      Step(Classify(respond(tokens.world.calls, request), PathOf(producer)),
           World(tokens.world.data, tokens.world.calls + [request]))
  }

  // ---------------------------------------------------------------- routes

  /** The hit/miss logic both routes share. */
  function ServeSpec(w: World, respond: Responder, env: Env, key: string, producer: Producer,
                     header: Option<string>, now: int): Step<Response>
  {
    match GetOf(w.data, key, now)
    case Err(f) => Step(Err(f), w)
    case Ok(Some(cached)) => Step(Ok(Response(cached, AdvisedMaxAge(TtlOf(w.data, key, now)), header)), w)
    case Ok(None) =>
      var fetched := FetchSpec(w, respond, env, producer, now);
      match fetched.result
      case Err(f) => Step(Err(f), fetched.world)
      case Ok(data) =>
        var json := env.toJson(data);
        match ErrorFlag(data)
        case Err(f) => Step(Err(f), fetched.world)
        case Ok(isError) =>
          var ttl := TtlFor(isError);
          Step(Ok(Response(json, Some(ttl), header)),
               World(SetexOf(fetched.world.data, key, ttl, json, now), fetched.world.calls))
  }

  /** GET /air_quality_data */
  function AirQualityRouteSpec(w: World, respond: Responder, env: Env, now: int): Step<Response> {
    ServeSpec(w, respond, env, AIR_QUALITY_KEY, AirQualityData, None, now)
  }

  /** GET /measurements, `deviceId` being the query parameter if given. */
  function MeasurementsRouteSpec(w: World, respond: Responder, env: Env, deviceId: Option<string>, now: int): Step<Response> {
    match deviceId
    case None => Step(Ok(Response(env.toJson(NO_DEVICE_ID), None, None)), w)
    case Some(id) =>
      ServeSpec(w, respond, env, MeasurementsKey(env.sha1, id), MeasurementsData(id), Some(MEASUREMENT_FIELDS), now)
  }

  // ---------------------------------------------------------------- token lifecycle

  /** A stored record with an access token whose expiry is not before now is returned as it
      is, with no request and no write. */
  lemma TokenReuse(w: World, respond: Responder, env: Env, fields: map<string, string>, at: int, now: int)
    requires TOKENS_KEY in w.data && w.data[TOKENS_KEY] == Hash(fields)
    requires "access_token" in fields && "expires_at" in fields
    requires Decimal.Parse(fields["expires_at"]) == Some(at) && now <= at
    ensures GetTokensSpec(w, respond, env, now)
            == Step(Ok(TokenRecord(fields["access_token"], Lookup(fields, "refresh_token"), fields["expires_at"])), w)
  {
  }

  /** An expired record is refreshed: exactly one request, a refresh grant with the stored
      refresh token, whose reply then decides the outcome. */
  lemma RefreshWhenExpired(w: World, respond: Responder, env: Env, fields: map<string, string>, at: int, now: int)
    requires TOKENS_KEY in w.data && w.data[TOKENS_KEY] == Hash(fields)
    requires "access_token" in fields && "expires_at" in fields
    requires Decimal.Parse(fields["expires_at"]) == Some(at) && at < now
    ensures GetTokensSpec(w, respond, env, now)
            == TokenCallSpec(w, respond, env, RefreshGrant(Lookup(fields, "refresh_token")), now)
    ensures GetTokensSpec(w, respond, env, now).world.calls == w.calls + [RefreshGrant(Lookup(fields, "refresh_token"))]
  {
  }

  /** Without a stored access token a new one is requested with the password grant, once. */
  lemma CreateWhenNoAccessToken(w: World, respond: Responder, env: Env, now: int)
    requires !Live(w.data, TOKENS_KEY, now)
             || (w.data[TOKENS_KEY].Hash? && "access_token" !in w.data[TOKENS_KEY].fields)
    ensures GetTokensSpec(w, respond, env, now) == TokenCallSpec(w, respond, env, PasswordGrant, now)
    ensures GetTokensSpec(w, respond, env, now).world.calls == w.calls + [PasswordGrant]
  {
  }

  /** A token reply without an access token raises and leaves the store as it was. */
  lemma TokenFailureLeavesStore(w: World, reply: Reply, env: Env, now: int)
    requires !Truthy(Field(reply, "access_token"))
    ensures HandleTokenResponseSpec(w, reply, env, now)
            == Step(Err(RuntimeError(if Truthy(Field(reply, "error"))
                                     then "Refresh failure: " + ToS(reply["error"], env.inspect)
                                     else "Unknown error")), w)
  {
  }

  lemma FreshRecordFields(record: TokenRecord)
    requires record.refreshToken.Some?
    ensures StoredFields(record).Keys == TOKEN_FIELDS
  {
  }

  /** A successful reply is written under "tokens" and returned as written; nothing else in the
      store changes; and until its expiry the next get_tokens returns it without a request. */
  lemma TokenSuccessWrite(w: World, respond: Responder, reply: Reply, env: Env, now: int, later: int)
    requires InterpretTokenReply(reply, now, env.inspect).Ok?
    requires !(Live(w.data, TOKENS_KEY, now) && w.data[TOKENS_KEY].Str?)
    ensures var s := HandleTokenResponseSpec(w, reply, env, now);
            var record := InterpretTokenReply(reply, now, env.inspect).value;
            && s.result == Ok(record)
            && s.world.calls == w.calls
            && HmgetOf(s.world.data, TOKENS_KEY, TOKEN_FIELDS, later) == Ok(StoredFields(record))
            && (forall k :: k != TOKENS_KEY ==> (k in s.world.data <==> k in w.data))
            && (forall k :: k != TOKENS_KEY && k in w.data ==> s.world.data[k] == w.data[k])
    ensures var s := HandleTokenResponseSpec(w, reply, env, now);
            var leeway := LeewayOf(reply["expires_in"]).value;
            later <= now + leeway ==> GetTokensSpec(s.world, respond, env, later) == Step(s.result, s.world)
  {
    var record := InterpretTokenReply(reply, now, env.inspect).value;
    var leeway := LeewayOf(reply["expires_in"]).value;
    var s := HandleTokenResponseSpec(w, reply, env, now);
    FreshRecordFields(record);
    HmgetAfterHmset(w.data, TOKENS_KEY, StoredFields(record), now, later);
    if later <= now + leeway {
      WrittenRecordIsReused(record, now, leeway, later);
    }
  }

  /** A refresh with a non-negative lifetime moves the stored expiry strictly forward. */
  lemma RefreshAdvancesExpiry(w: World, respond: Responder, env: Env, fields: map<string, string>, at: int, now: int, n: int)
    requires TOKENS_KEY in w.data && w.data[TOKENS_KEY] == Hash(fields)
    requires "access_token" in fields && "expires_at" in fields
    requires Decimal.Parse(fields["expires_at"]) == Some(at) && at < now
    requires var reply := respond(w.calls, RefreshGrant(Lookup(fields, "refresh_token")));
             InterpretTokenReply(reply, now, env.inspect).Ok? && reply["expires_in"] == JNum(n) && n >= 0
    ensures var s := GetTokensSpec(w, respond, env, now);
            && s.result.Ok?
            && Decimal.Parse(s.result.value.expiresAt).Some?
            && Decimal.Parse(s.result.value.expiresAt).value > at
            && HmgetOf(s.world.data, TOKENS_KEY, TOKEN_FIELDS, now) == Ok(StoredFields(s.result.value))
  {
    RefreshWhenExpired(w, respond, env, fields, at, now);
    var request := RefreshGrant(Lookup(fields, "refresh_token"));
    var reply := respond(w.calls, request);
    ExpiryWithinLifetime(reply, now, env.inspect, n);
    TokenSuccessWrite(World(w.data, w.calls + [request]), respond, reply, env, now, now);
  }

  // ---------------------------------------------------------------- what a request may change

  /** get_tokens changes at most the "tokens" entry and sends at most one request. */
  lemma GetTokensFrame(w: World, respond: Responder, env: Env, now: int)
    ensures var s := GetTokensSpec(w, respond, env, now);
            && (forall k :: k != TOKENS_KEY ==> (k in s.world.data <==> k in w.data))
            && (forall k :: k != TOKENS_KEY && k in w.data ==> s.world.data[k] == w.data[k])
            && w.calls <= s.world.calls && |s.world.calls| <= |w.calls| + 1
  {
  }

  /** A request changes at most its own cache entry and the token record, and sends at most
      two requests (one to the token endpoint, one for the data), after those already sent. */
  lemma ServeFrame(w: World, respond: Responder, env: Env, key: string, producer: Producer, header: Option<string>, now: int)
    ensures var s := ServeSpec(w, respond, env, key, producer, header, now);
            && (forall k :: k != key && k != TOKENS_KEY ==> (k in s.world.data <==> k in w.data))
            && (forall k :: k != key && k != TOKENS_KEY && k in w.data ==> s.world.data[k] == w.data[k])
            && w.calls <= s.world.calls && |s.world.calls| <= |w.calls| + 2
  {
    GetTokensFrame(w, respond, env, now);
  }

  // ---------------------------------------------------------------- cache policy

  /** A hit returns the cached string as it is, sends nothing and writes nothing; it advises
      a max-age, of exactly the time left, only when the entry has an expiry. */
  lemma CacheHitIsPureRead(w: World, respond: Responder, env: Env, key: string, producer: Producer, header: Option<string>, now: int)
    requires Live(w.data, key, now) && w.data[key].Str?
    ensures var s := ServeSpec(w, respond, env, key, producer, header, now);
            && s.world == w
            && s.result.Ok?
            && s.result.value.body == w.data[key].value
            && s.result.value.measurementFields == header
            && (s.result.value.maxAge.Some? <==> w.data[key].expiresAt.Some?)
            && (s.result.value.maxAge.Some? ==> s.result.value.maxAge.value == w.data[key].expiresAt.value - now > 0)
  {
  }

  /** A miss stores the JSON it returns under the key it looked up, for 30 seconds when the
      result has an "error" and 60 otherwise, and advises that same TTL. */
  lemma CacheMissStoresWhatItServes(w: World, respond: Responder, env: Env, key: string, producer: Producer, header: Option<string>, now: int)
    requires GetOf(w.data, key, now) == Ok(None)
    requires ServeSpec(w, respond, env, key, producer, header, now).result.Ok?
    ensures var s := ServeSpec(w, respond, env, key, producer, header, now);
            var fetched := FetchSpec(w, respond, env, producer, now);
            && fetched.result.Ok?
            && s.result.value.body == env.toJson(fetched.result.value)
            && s.result.value.maxAge.Some?
            && (s.result.value.maxAge.value == ERROR_TTL <==> ErrorFlag(fetched.result.value) == Ok(true))
            && (s.result.value.maxAge.value == DATA_TTL <==> ErrorFlag(fetched.result.value) == Ok(false))
            && s.world == World(SetexOf(fetched.world.data, key, s.result.value.maxAge.value, s.result.value.body, now),
                                fetched.world.calls)
  {
  }

  /** A second request for the same key while the advised max-age runs is a pure read:
      the same body, no request, no write, and the max-age that is left, whatever the
      second request would have fetched on a miss. */
  lemma SecondRequestIsPureRead(w: World, respond: Responder, env: Env, key: string, producer: Producer,
                                again: Producer, header: Option<string>, now: int, later: int)
    requires var s := ServeSpec(w, respond, env, key, producer, header, now);
             s.result.Ok? && s.result.value.maxAge.Some? && now <= later < now + s.result.value.maxAge.value
    ensures var s := ServeSpec(w, respond, env, key, producer, header, now);
            ServeSpec(s.world, respond, env, key, again, header, later)
            == Step(Ok(Response(s.result.value.body, Some(now + s.result.value.maxAge.value - later), header)), s.world)
  {
  }

  /** GET /measurements twice within the TTL, with ids equal up to case, reaches the upstream
      API at most once: the second request sends nothing and writes nothing. */
  lemma MeasurementsWithinTtlIsPureRead(w: World, respond: Responder, env: Env, first: string, second: string, now: int, later: int)
    requires EqualIgnoringCase(first, second)
    requires var s := MeasurementsRouteSpec(w, respond, env, Some(first), now);
             s.result.Ok? && s.result.value.maxAge.Some? && now <= later < now + s.result.value.maxAge.value
    ensures var s := MeasurementsRouteSpec(w, respond, env, Some(first), now);
            MeasurementsRouteSpec(s.world, respond, env, Some(second), later)
            == Step(Ok(Response(s.result.value.body, Some(now + s.result.value.maxAge.value - later), Some(MEASUREMENT_FIELDS))), s.world)
  {
    CaseInsensitiveKey(env.sha1, first, second);
    SecondRequestIsPureRead(w, respond, env, MeasurementsKey(env.sha1, first), MeasurementsData(first),
                            MeasurementsData(second), Some(MEASUREMENT_FIELDS), now, later);
  }

  /** GET /measurements without a device_id answers the fixed error body, with no header, no
      cache-control, no cache access and no token lookup. */
  lemma MissingDeviceId(w: World, respond: Responder, env: Env, now: int)
    ensures MeasurementsRouteSpec(w, respond, env, None, now)
            == Step(Ok(Response(env.toJson(JObj(map["error" := JStr("No device_id specified")])), None, None)), w)
  {
  }

  /** With a device_id, every answer carries the Measurement-Fields header. */
  lemma MeasurementsHeader(w: World, respond: Responder, env: Env, id: string, now: int)
    requires MeasurementsRouteSpec(w, respond, env, Some(id), now).result.Ok?
    ensures MeasurementsRouteSpec(w, respond, env, Some(id), now).result.value.measurementFields == Some(MEASUREMENT_FIELDS)
  {
  }

  /** The upstream reports an unknown device: the cached and returned payload is its error
      message as `{"error": ...}`, kept for 30 seconds. */
  lemma DeviceNotFound(w: World, respond: Responder, env: Env, id: string, now: int)
    requires GetOf(w.data, MeasurementsKey(env.sha1, id), now) == Ok(None)
    requires GetTokensSpec(w, respond, env, now).result.Ok?
    requires forall calls: seq<Request>, request: Request :: request.GetMeasure? ==>
               respond(calls, request) == map["error" := JObj(map["message" := JStr("Device not found")])]
    ensures var s := MeasurementsRouteSpec(w, respond, env, Some(id), now);
            var body := env.toJson(ErrorObject(JStr("Device not found")));
            && s.result == Ok(Response(body, Some(ERROR_TTL), Some(MEASUREMENT_FIELDS)))
            && GetOf(s.world.data, MeasurementsKey(env.sha1, id), now) == Ok(Some(body))
  {
  }
}

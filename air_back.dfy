/** The service itself: the route handlers, the fetchers and the token manager, working on
    the Redis store and the upstream API step by step. Each method is proved to act as the
    matching function of module Service. */
module AirBack {
  import opened Outcome
  import opened Json
  import opened Redis
  import opened Upstream
  import opened Tokens
  import opened Classification
  import opened CachePolicy
  import opened Service

  class AirBack {
    const store: Store
    const net: Network
    const env: Env

    constructor (store: Store, net: Network, env: Env)
      ensures this.store == store && this.net == net && this.env == env
    {
      this.store := store;
      this.net := net;
      this.env := env;
    }

    /** What the request flow can observe and change. */
    function State(): World
      reads store, net
    {
      World(store.data, net.calls)
    }

    method HandleTokenResponse(reply: Reply, now: int) returns (r: Result<TokenRecord>)
      modifies store
      ensures Step(r, State()) == HandleTokenResponseSpec(old(State()), reply, env, now)
    {
      var interpreted := InterpretTokenReply(reply, now, env.inspect);
      if interpreted.Err? {
        return Err(interpreted.failure);
      }
      var record := interpreted.value;
      var written := store.MappedHmset(TOKENS_KEY, StoredFields(record), now);
      if written.Err? {
        return Err(written.failure);
      }
      r := Ok(record);
    }

    method CreateAccessToken(now: int) returns (r: Result<TokenRecord>)
      modifies store, net
      ensures Step(r, State()) == TokenCallSpec(old(State()), net.respond, env, PasswordGrant, now)
    {
      var reply := net.Post(PasswordGrant);
      r := HandleTokenResponse(reply, now);
    }

    method RefreshAccessToken(refreshToken: Option<string>, now: int) returns (r: Result<TokenRecord>)
      modifies store, net
      ensures Step(r, State()) == TokenCallSpec(old(State()), net.respond, env, RefreshGrant(refreshToken), now)
    {
      var reply := net.Post(RefreshGrant(refreshToken));
      r := HandleTokenResponse(reply, now);
    }

    method GetTokens(now: int) returns (r: Result<TokenRecord>)
      modifies store, net
      ensures Step(r, State()) == GetTokensSpec(old(State()), net.respond, env, now)
    {
      var cached := store.MappedHmget(TOKENS_KEY, TOKEN_FIELDS, now);
      if cached.Err? {
        return Err(cached.failure);
      }
      match ChooseAction(cached.value, now)
      case Reuse(record) =>
        r := Ok(record);
      case Abort(f) =>
        r := Err(f);
      case Refresh(token) =>
        r := RefreshAccessToken(token, now);
      case Create =>
        r := CreateAccessToken(now);
    }

    method GetAirQualityData(now: int) returns (r: Result<Json>)
      modifies store, net
      ensures Step(r, State()) == FetchSpec(old(State()), net.respond, env, AirQualityData, now)
    {
      var tokens := GetTokens(now);
      if tokens.Err? {
        return Err(tokens.failure);
      }
      var reply := net.Post(HomeCoachsData(tokens.value.accessToken));
      r := Classify(reply, AirQualityPath);
    }

    method GetMeasurements(deviceId: string, now: int) returns (r: Result<Json>)
      modifies store, net
      ensures Step(r, State()) == FetchSpec(old(State()), net.respond, env, MeasurementsData(deviceId), now)
    {
      var tokens := GetTokens(now);
      if tokens.Err? {
        return Err(tokens.failure);
      }
      var reply := net.Post(GetMeasure(tokens.value.accessToken, deviceId, now - MEASURE_WINDOW, now));
      r := Classify(reply, MeasurementsPath);
    }

    /** The cache logic both routes repeat: a hit answers the stored string, a miss fetches,
        stores the JSON with the TTL the result calls for, and advises that TTL. */
    method Serve(key: string, producer: Producer, header: Option<string>, now: int) returns (r: Result<Response>)
      modifies store, net
      ensures Step(r, State()) == ServeSpec(old(State()), net.respond, env, key, producer, header, now)
    {
      var cached := store.Get(key, now);
      if cached.Err? {
        return Err(cached.failure);
      }
      if cached.value.Some? {
        var remaining := store.Ttl(key, now);
        return Ok(Response(cached.value.value, AdvisedMaxAge(remaining), header));
      }
      var data: Result<Json>;
      match producer {
        case AirQualityData =>
          data := GetAirQualityData(now);
        case MeasurementsData(id) =>
          data := GetMeasurements(id, now);
      }
      if data.Err? {
        return Err(data.failure);
      }
      var json := env.toJson(data.value);
      var isError := ErrorFlag(data.value);
      if isError.Err? {
        return Err(isError.failure);
      }
      var ttl := TtlFor(isError.value);
      store.Setex(key, ttl, json, now);
      r := Ok(Response(json, Some(ttl), header));
    }

    /** GET /air_quality_data */
    method AirQualityRoute(now: int) returns (r: Result<Response>)
      modifies store, net
      ensures Step(r, State()) == AirQualityRouteSpec(old(State()), net.respond, env, now)
    {
      r := Serve(AIR_QUALITY_KEY, AirQualityData, None, now);
    }

    /** GET /measurements */
    method MeasurementsRoute(deviceId: Option<string>, now: int) returns (r: Result<Response>)
      modifies store, net
      ensures Step(r, State()) == MeasurementsRouteSpec(old(State()), net.respond, env, deviceId, now)
    {
      if deviceId.None? {
        return Ok(Response(env.toJson(NO_DEVICE_ID), None, None));
      }
      var key := MeasurementsKey(env.sha1, deviceId.value);
      r := Serve(key, MeasurementsData(deviceId.value), Some(MEASUREMENT_FIELDS), now);
    }
  }
}

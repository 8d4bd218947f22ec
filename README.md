# air-back: token lifecycle and response cache, modelled in Dafny

air-back is a small Sinatra service in front of the Netatmo home-coach API. It serves
`GET /air_quality_data` and `GET /measurements?device_id=…`. Each route caches its JSON answer in
Redis for a short TTL: 30 seconds for an error, 60 for data. On a miss it fetches from the
upstream API with an OAuth2 access token. The token is kept in a Redis hash `tokens`, and the
service creates it (password grant) or refreshes it (refresh-token grant) as needed.

The model covers the decision logic of `air_back.rb`:

- **Token manager** (`get_tokens`, `create_access_token`, `refresh_access_token`,
  `handle_token_response`). The pure decisions are in module `Tokens`; the step functions are in
  `Service`; the class methods are in `AirBack`.
- **Reply classification** (the `body` / `error.message` / generic rule of the two fetchers).
  This is module `Classification`, on the Ruby-level JSON values of module `Json`.
- **Cache policy** (hit/miss logic, keys, TTL, advised max-age) of the two routes. This is
  module `CachePolicy`, plus `Service.ServeSpec` and `AirBack.AirBack.Serve`.
- **Redis** as one keyspace of string entries with optional expiry and of hash entries
  (module `Redis`). The class `Redis.Store` holds the data map; its methods are GET, TTL, SETEX,
  HMGET and HMSET.
- **The upstream API** as a call log plus an oracle that picks each reply from the requests sent
  before (`Upstream.Network`).

Module `Service` gives every operation as a function from the world (the Redis data and the
upstream requests sent so far) to its result and the new world. Every method of the class
`AirBack.AirBack` is proved to produce exactly that result and world. The properties are
lemmas over those functions.

Three behaviours of the code are worth noting:

- A refused token request raises `"Refresh failure: " + error` (air_back.rb:193), so the
  message carries a prefix as well as the upstream error. `Tokens.InvalidGrant` pins the
  `invalid_grant` case.
- A refresh is guaranteed to move the stored expiry strictly forward when `expires_in` is a
  number >= 0; `Service.RefreshAdvancesExpiry` requires that. A negative `expires_in` stores an
  expiry before now, so the next request refreshes again, and that expiry need not be later
  than the old one.
- Only the air-quality fetcher strips `"user"` from the body (air_back.rb:91). In the
  measurements fetcher the same line is commented out (air_back.rb:122). The model keeps this
  difference.

Foreign functions are parameters, bundled in `Service.Env`: `to_json`, SHA1 hexdigest, and Ruby's
`to_s` of an Array or Hash. The upstream replies come from `Upstream.Network.respond`. The clock
is an integer number of seconds passed to each request.

## Model

| member | source | states |
|---|---|---|
| `AirBack.AirBack.AirQualityRoute` | air_back.rb:24-47 | GET /air_quality_data uses the cache key "airquality" and acts exactly as `Service.AirQualityRouteSpec`, on the result, the Redis data and the upstream calls |
| `AirBack.AirBack.MeasurementsRoute` | air_back.rb:49-80 | GET /measurements acts exactly as `Service.MeasurementsRouteSpec`: without a device_id it answers the fixed error; with one it serves the key "measurements_" + sha1(downcased id) and sets the Measurement-Fields header |
| `AirBack.AirBack.Serve` | air_back.rb:28-45 | the shared hit/miss step (GET, TTL, fetch, to_json, TTL choice, SETEX, advised max-age) produces exactly the result and world of `Service.ServeSpec` |
| `AirBack.AirBack.GetAirQualityData` | air_back.rb:82-99 | gets a token, posts it to gethomecoachsdata once and classifies the reply on the air-quality path, as `Service.FetchSpec` |
| `AirBack.AirBack.GetMeasurements` | air_back.rb:101-130 | gets a token, posts getmeasure once with the raw device id and the one-hour window ending now, and classifies on the measurements path, as `Service.FetchSpec` |
| `AirBack.AirBack.GetTokens` | air_back.rb:132-147 | reads the token hash and reuses, refreshes, creates or raises exactly as `Service.GetTokensSpec` |
| `AirBack.AirBack.CreateAccessToken` | air_back.rb:149-162 | sends one password-grant request and handles its reply, as `Service.TokenCallSpec` |
| `AirBack.AirBack.RefreshAccessToken` | air_back.rb:164-175 | sends one refresh-token-grant request with the given refresh token and handles its reply, as `Service.TokenCallSpec` |
| `AirBack.AirBack.HandleTokenResponse` | air_back.rb:177-197 | on success writes the record with HMSET and returns it; otherwise raises and writes nothing, as `Service.HandleTokenResponseSpec` |
| `Service.TokenReuse` | air_back.rb:133-143 | a stored record with an access token and an expiry not before now is returned as stored, with no request and no change to the world |
| `Service.RefreshWhenExpired` | air_back.rb:135-139 | a stored access token past its expiry leads to exactly one request, a refresh grant carrying the stored refresh token |
| `Service.CreateWhenNoAccessToken` | air_back.rb:135-146 | with no live token hash, or one without an access token, exactly one password-grant request is sent |
| `Service.TokenFailureLeavesStore` | air_back.rb:192-196 | a token reply without an access token raises "Refresh failure: <error>" when it has an error field, else "Unknown error", and the world is unchanged |
| `Service.TokenSuccessWrite` | air_back.rb:180-191 | a successful reply returns the record it writes, reading back the hash gives exactly that record, only "tokens" changes, and get_tokens reuses it, with no request, until its expiry |
| `Service.RefreshAdvancesExpiry` | air_back.rb:138-139 | a refresh whose reply has a non-negative expires_in stores and returns an expiry strictly later than the expired one |
| `Service.GetTokensFrame` | air_back.rb:132-147 | get_tokens changes at most the "tokens" entry and sends at most one request |
| `Service.ServeFrame` | air_back.rb:24-80 | a route changes at most its own cache entry and the token record, and appends at most two upstream requests |
| `Service.CacheHitIsPureRead` | air_back.rb:28-36 | on a hit the body is the stored string, nothing is sent or written, and a max-age of exactly the time left is advised if and only if the entry has an expiry |
| `Service.CacheMissStoresWhatItServes` | air_back.rb:38-45 | on a miss the body is to_json of the fetched result; it is stored under the key looked up; the TTL stored and advised is 30 exactly when the result's "error" is truthy and 60 exactly when it is not |
| `Service.SecondRequestIsPureRead` | air_back.rb:28-45 | a second request for the same key within the advised max-age returns the same body, with the remaining max-age, and changes nothing |
| `Service.MeasurementsWithinTtlIsPureRead` | air_back.rb:52-75 | a second measurement request within the TTL, with a device id equal up to case, returns the same body with the remaining max-age, and sends and writes nothing |
| `Service.MissingDeviceId` | air_back.rb:77-78 | without device_id the body is to_json of {"error": "No device_id specified"}, with no header, no max-age and no change to the world |
| `Service.MeasurementsHeader` | air_back.rb:52-56 | every answer to a request with a device_id carries the Measurement-Fields header |
| `Service.DeviceNotFound` | air_back.rb:120-129 | when upstream answers {"error": {"message": "Device not found"}} the route returns and caches {"error": "Device not found"} for 30 seconds |
| `Classification.Classify` | air_back.rb:89-98 | a truthy body is the result (without "user" on the air-quality path only); otherwise a truthy error.message gives {"error": message}; otherwise {"error": "Something went wrong"}; it raises exactly when the error field cannot be dug into, or an air-quality body has no #delete |
| `Json.Dig` | air_back.rb:93 | `dig("error", "message")` is nil for a missing error, the message of a Hash, and a TypeError for every other value |
| `Json.Delete` | air_back.rb:91 | `body.delete("user")` removes the key from a Hash, leaves a String as it was, and raises for a value without #delete |
| `Json.Without` | air_back.rb:91 | Array#delete leaves no element equal to the argument and keeps every other element as often as before |
| `Json.Index` | air_back.rb:42 | `data["error"]` on a Hash is its entry, nil when absent; only a Hash or a String can be indexed by a string, and every other value raises |
| `Tokens.InterpretTokenReply` | air_back.rb:177-197 | the reply yields a record exactly when access_token is truthy and expires_in and refresh_token are present and usable; the record holds the access token, the refresh token and now plus the leeway; the two raise messages are as written |
| `Tokens.Leeway` | air_back.rb:182 | nine tenths of expires_in truncated toward zero: between 0 and expires_in, below expires_in once it is at least 10 |
| `Tokens.LeewayOf` | air_back.rb:182 | a number gives its leeway, a string gives 0, and any other value raises |
| `Tokens.StoredFields` | air_back.rb:184-189 | the written hash has the access token, the refresh token and the expiry under their field names, and no other field |
| `Tokens.ChooseAction` | air_back.rb:133-146 | a missing access token means create; a refresh carries the stored refresh token; a reuse returns the stored fields as they are |
| `Tokens.ChooseByExpiry` | air_back.rb:136-143 | an expiry not before now means reuse, one before now means refresh |
| `Tokens.ExpiryWithinLifetime` | air_back.rb:182-187 | for expires_in = n >= 0 the stored expiry reads back as now + leeway, between now and now + n, and strictly before now + n when n >= 10 |
| `Tokens.WrittenRecordIsReused` | air_back.rb:136-143 | a written record is chosen for reuse up to and including its expiry, and refreshed with its own refresh token after it |
| `Tokens.InvalidGrant` | air_back.rb:192-193 | the reply {"error": "invalid_grant"} raises "Refresh failure: invalid_grant" |
| `CachePolicy.CaseInsensitiveKey` | air_back.rb:53-54 | device ids equal up to letter case give the same cache key |
| `CachePolicy.SampleIdsShareKey` | air_back.rb:53-54 | "ABC123" and "abc123" share a cache key |
| `CachePolicy.KeysAreDistinct` | air_back.rb:26 | a measurements key is never "airquality" or "tokens", and "airquality" is not "tokens", so cache writes never touch the token record |
| `CachePolicy.ErrorFlag` | air_back.rb:72 | for a Hash result the short-TTL condition is exactly a truthy "error" entry |
| `CachePolicy.TtlFor` | air_back.rb:42 | the TTL is positive, 30 exactly for an error and 60 exactly otherwise |
| `CachePolicy.AdvisedMaxAge` | air_back.rb:32-34 | a max-age is advised exactly when the remaining TTL is positive, and it equals the remaining TTL |
| `CachePolicy.ErrorObjectsAreShortLived` | air_back.rb:93-97 | every {"error" => message} the classification builds is cached for 30 seconds |
| `CachePolicy.Downcase` | air_back.rb:53 | the length is kept, no upper-case ASCII letter is left, every upper-case letter becomes its lower-case form, and every other character is unchanged |
| `Redis.Store.Get` | air_back.rb:28 | GET returns the live string, nil for a missing or expired key, and WRONGTYPE for a hash |
| `Redis.Store.Ttl` | air_back.rb:31 | TTL returns the seconds left, -1 without expiry, -2 for a missing or expired key |
| `Redis.Store.Setex` | air_back.rb:43 | SETEX replaces the entry with the value expiring ttl seconds from now; nothing else changes |
| `Redis.Store.MappedHmget` | air_back.rb:133 | HMGET returns the requested fields the hash has, nothing for a missing key, and WRONGTYPE for a string |
| `Redis.Store.MappedHmset` | air_back.rb:189 | HMSET sets the given fields and keeps the others, or answers WRONGTYPE without a change |
| `Redis.GetAfterSetex` | air_back.rb:43 | a value stored with SETEX is read back unchanged, with TTL counting down, until the TTL runs out |
| `Redis.GoneAfterTtl` | air_back.rb:43 | once its TTL has run out the entry reads as missing |
| `Redis.HmgetAfterHmset` | air_back.rb:189 | fields written with HMSET are read back by HMGET of the same fields |
| `Upstream.Network.Post` | air_back.rb:83-87 | each POST appends its request to the call log and returns the oracle's reply for the requests sent before |
| `Decimal.ParseRender` | air_back.rb:187 | an expiry written to the store reads back as the same instant |

## Left out

- Sinatra wiring is not modelled: route registration, `content_type`, the `configure` blocks and the `/` route are framework plumbing.
- The cache-control directive is modelled as its max-age only. The `Expires` header that `expires` also sets is not modelled.
- The HTTP calls are modelled as the oracle `Upstream.Network.respond`. Several form fields are constants with no behaviour: client id and secret, username, password, scope, limit, optimize, real_time, scale and type. They are not in `Upstream.Request`.
- A reply whose JSON is not an object at top level is not modelled. Replies are maps from field names to values.
- Failing upstream calls are not modelled: an `HTTP.post` that raises (a connection error or a time-out), and a `response.parse` that raises on a body that is not JSON (air_back.rb:83-87, 104-116, 152-159, 167-172). In the source each aborts the request, keeping any token write already made; the oracle here always returns a parsed object.
- JSON numbers are integers; floating-point numbers are not modelled.
- The thread-local, lazily created Redis connection is I/O. It is replaced by the explicit `Redis.Store`.
- Redis is modelled with whole seconds. Its TTL rounding of milliseconds is not modelled. No command here sets an expiry on a hash, so hashes carry none.
- Requests are sequential. The race between concurrent requests that both find an expired token and both refresh is not modelled.
- `ENV.fetch` for the credentials is not modelled, so neither is its KeyError when a variable is missing. Logging, `pp` and `Honeybadger.context` are side channels.
- SHA1, `to_json`, and Ruby's `to_s` of an Array or a Hash are uninterpreted functions in `Service.Env`. Their implementations are not part of this model.
- `CachePolicy.Downcase`: case-folds ASCII letters only; Ruby's full Unicode case mapping is not modelled.
- The clock is one integer per request. The source reads `Time.now` separately in `get_tokens`, `handle_token_response` and `get_measurements`; the model gives all of them the same instant.
- The clock counts whole seconds, so the sub-second part of `Time.now` is dropped. At the exact second of a token's expiry, the source's `expires_at < Time.now` (air_back.rb:138) is already true once any fraction of that second has passed, while the model's `at < now` is still false. The model therefore reuses an expiring token for up to one second longer than the source.
- `Decimal.ParseRender`: the model writes `expires_at` as decimal seconds, not ISO-8601. `Time.parse` is modelled by `Decimal.Parse`, so other time formats a foreign writer might store are read as unparseable. The model relies only on a written value reading back as the same whole-second instant.
- `Tokens.Leeway`: computes `(expires_in * 0.9).to_i` in exact integer arithmetic. The two agree for every `expires_in` below about 10^15. Beyond that, the double product can round up across an integer; the first such inputs lie near 1.25·10^15, where 0.9·expires_in passes 2^50. For a product beyond the range of Float, `to_i` raises FloatDomainError, which the model does not have.
- `Tokens.InterpretTokenReply`: the record it returns holds the `to_s` of the reply's access and refresh tokens, which is what Redis stores and what the form sends. The source returns the raw JSON values; for string tokens the two are the same.

/** The token record and the decisions of the token manager, on values: which branch a
    stored record leads to, and what a token-endpoint reply becomes. */
module Tokens {
  import opened Outcome
  import opened Json
  import Decimal

  const TOKENS_KEY := "tokens"
  const TOKEN_FIELDS: set<string> := {"access_token", "refresh_token", "expires_at"}

  /** The record get_tokens hands out. Values are the strings Redis holds; the refresh token
      of a stored record may be missing. */
  datatype TokenRecord = TokenRecord(accessToken: string, refreshToken: Option<string>, expiresAt: string)

  /** What get_tokens does with the fields mapped_hmget returned. */
  datatype TokenAction =
    | Reuse(record: TokenRecord)
    | Refresh(refreshToken: Option<string>)
    | Create
    | Abort(failure: Failure)

  /** `(expires_in * 0.9).to_i` on integers: nine tenths, truncated toward zero. */
  function Leeway(expiresIn: int): (l: int)
    ensures expiresIn >= 0 ==> 0 <= l <= expiresIn
    ensures expiresIn <= 0 ==> expiresIn <= l <= 0
    ensures expiresIn >= 10 ==> l < expiresIn
    ensures expiresIn >= 0 ==> 10 * l <= 9 * expiresIn < 10 * l + 10
    ensures expiresIn < 0 ==> 10 * l - 10 < 9 * expiresIn <= 10 * l
  {
    if expiresIn >= 0 then expiresIn * 9 / 10 else -((-expiresIn) * 9 / 10)
  }

  /** `(parsed.fetch("expires_in") * 0.9).to_i` for each kind of value: a number gives its
      leeway; a String repeats itself 0.9 times, which Ruby truncates to zero times, and "".to_i
      is 0; nil, booleans, arrays and hashes have no `*` that ends in a `to_i`. */
  function LeewayOf(expiresIn: Json): (r: Result<int>)
    ensures expiresIn.JNum? ==> r == Ok(Leeway(expiresIn.n))
    ensures expiresIn.JStr? ==> r == Ok(0)
    ensures r.Ok? <==> expiresIn.JNum? || expiresIn.JStr?
  {
    match expiresIn
    case JNum(n) => Ok(Leeway(n))
    case JStr(_) => Ok(0)
    case _ => Err(NoMethodError)
  }

  function ExpiryTime(now: int, leeway: int): string {
    Decimal.Render(now + leeway)
  }

  /** handle_token_response without the write: the record a reply yields, or what it raises. */
  function InterpretTokenReply(parsed: map<string, Json>, now: int, inspect: Json -> string): (r: Result<TokenRecord>)
    ensures !Truthy(Field(parsed, "access_token")) && Truthy(Field(parsed, "error")) ==>
              r == Err(RuntimeError("Refresh failure: " + ToS(parsed["error"], inspect)))
    ensures !Truthy(Field(parsed, "access_token")) && !Truthy(Field(parsed, "error")) ==>
              r == Err(RuntimeError("Unknown error"))
    ensures r.Ok? <==>
              Truthy(Field(parsed, "access_token")) && "refresh_token" in parsed
              && "expires_in" in parsed && LeewayOf(parsed["expires_in"]).Ok?
    ensures r.Ok? ==>
              r.value.accessToken == ToS(parsed["access_token"], inspect)
              && r.value.refreshToken == Some(ToS(parsed["refresh_token"], inspect))
              && r.value.expiresAt == ExpiryTime(now, LeewayOf(parsed["expires_in"]).value)
  {
    if Truthy(Field(parsed, "access_token")) then
      if "expires_in" !in parsed then Err(KeyError("expires_in"))
      else
        match LeewayOf(parsed["expires_in"])
        case Err(f) => Err(f)
        case Ok(leeway) =>
          if "refresh_token" !in parsed then Err(KeyError("refresh_token"))
          else Ok(TokenRecord(ToS(parsed["access_token"], inspect),
                              Some(ToS(parsed["refresh_token"], inspect)),
                              ExpiryTime(now, leeway)))
    else if Truthy(Field(parsed, "error")) then
      Err(RuntimeError("Refresh failure: " + ToS(parsed["error"], inspect)))
    else
      Err(RuntimeError("Unknown error"))
  }

  function Lookup(fields: map<string, string>, name: string): Option<string> {
    if name in fields then Some(fields[name]) else None
  }

  /** The hash mapped_hmset writes for a record. */
  function StoredFields(record: TokenRecord): (m: map<string, string>)
    ensures Lookup(m, "access_token") == Some(record.accessToken)
    ensures Lookup(m, "refresh_token") == record.refreshToken
    ensures Lookup(m, "expires_at") == Some(record.expiresAt)
    ensures m.Keys <= TOKEN_FIELDS
  {
    var base := map["access_token" := record.accessToken, "expires_at" := record.expiresAt];
    match record.refreshToken
    case Some(t) => base["refresh_token" := t]
    case None => base
  }

  /** get_tokens' branch on the fields read back from the store. */
  function ChooseAction(cached: map<string, string>, now: int): (a: TokenAction)
    ensures "access_token" !in cached <==> a == Create
    ensures a.Refresh? ==> a.refreshToken == Lookup(cached, "refresh_token")
    ensures a.Reuse? ==> "expires_at" in cached
    ensures a.Reuse? ==>
              a.record == TokenRecord(cached["access_token"], Lookup(cached, "refresh_token"), cached["expires_at"])
  {
    if "access_token" !in cached then Create
    else if "expires_at" !in cached then Abort(TypeError)
    else
      match Decimal.Parse(cached["expires_at"])
      case None => Abort(ArgumentError)
      case Some(at) =>
        if at < now then Refresh(Lookup(cached, "refresh_token"))
        else Reuse(TokenRecord(cached["access_token"], Lookup(cached, "refresh_token"), cached["expires_at"]))
  }

  /** A record whose expiry is `at` is reused up to and including `at` and refreshed after it. */
  lemma ChooseByExpiry(cached: map<string, string>, at: int, now: int)
    requires "access_token" in cached && "expires_at" in cached
    requires Decimal.Parse(cached["expires_at"]) == Some(at)
    ensures at >= now ==>
              ChooseAction(cached, now)
              == Reuse(TokenRecord(cached["access_token"], Lookup(cached, "refresh_token"), cached["expires_at"]))
    ensures at < now ==> ChooseAction(cached, now) == Refresh(Lookup(cached, "refresh_token"))
  {
  }

  /** A record made from a reply with a lifetime of `n >= 0` seconds expires between now
      and now + n, strictly before now + n when n is at least 10. */
  lemma ExpiryWithinLifetime(parsed: map<string, Json>, now: int, inspect: Json -> string, n: int)
    requires InterpretTokenReply(parsed, now, inspect).Ok?
    requires parsed["expires_in"] == JNum(n) && n >= 0
    ensures Decimal.Parse(InterpretTokenReply(parsed, now, inspect).value.expiresAt) == Some(now + Leeway(n))
    ensures now <= now + Leeway(n) <= now + n
    ensures n >= 10 ==> now + Leeway(n) < now + n
  {
    Decimal.ParseRender(now + Leeway(n));
  }

  /** Once written, a fresh record is read back and reused, with no endpoint call, until its
      expiry has passed, and refreshed with its own refresh token after that. */
  lemma {:induction false} WrittenRecordIsReused(record: TokenRecord, now: int, leeway: int, later: int)
    requires record.expiresAt == ExpiryTime(now, leeway)
    ensures later <= now + leeway ==> ChooseAction(StoredFields(record), later) == Reuse(record)
    ensures later > now + leeway ==> ChooseAction(StoredFields(record), later) == Refresh(record.refreshToken)
  {
    Decimal.ParseRender(now + leeway);
    ChooseByExpiry(StoredFields(record), now + leeway, later);
  }

  /** The scenario of a refresh the endpoint refuses with `{"error": "invalid_grant"}`. */
  lemma InvalidGrant(now: int, inspect: Json -> string)
    ensures InterpretTokenReply(map["error" := JStr("invalid_grant")], now, inspect)
            == Err(RuntimeError("Refresh failure: invalid_grant"))
  {
    var reply := map["error" := JStr("invalid_grant")];
    assert !Truthy(Field(reply, "access_token")) && Truthy(Field(reply, "error"));
    assert ToS(reply["error"], inspect) == "invalid_grant";
    assert "Refresh failure: " + "invalid_grant" == "Refresh failure: invalid_grant";
  }
}

/** The response cache policy shared by the two routes: the cache keys, the TTL chosen for
    a fresh result, and the max-age advised to clients. */
module CachePolicy {
  import opened Outcome
  import opened Json
  import Tokens
  import Classification

  const AIR_QUALITY_KEY := "airquality"
  const MEASUREMENTS_PREFIX := "measurements_"
  /** Both the `type` of a getmeasure request and the Measurement-Fields response header. */
  const MEASUREMENT_FIELDS := "CO2,Humidity,Noise,Temperature"
  const ERROR_TTL := 30
  const DATA_TTL := 60

  /** String#downcase on ASCII letters. */
  function DowncaseChar(c: char): char {
    if IsUpper(c) then ((c as int) + 32) as char else c
  }

  predicate IsUpper(c: char) {
    'A' <= c <= 'Z'
  }

  function Downcase(s: string): (r: string)
    ensures |r| == |s|
    ensures forall i :: 0 <= i < |r| ==> !IsUpper(r[i])
    ensures forall i :: 0 <= i < |s| && !IsUpper(s[i]) ==> r[i] == s[i]
    ensures forall i :: 0 <= i < |s| && IsUpper(s[i]) ==> r[i] as int == s[i] as int + 32
  {
    seq(|s|, i requires 0 <= i < |s| => DowncaseChar(s[i]))
  }

  predicate EqualIgnoringCase(a: string, b: string) {
    |a| == |b| && forall i :: 0 <= i < |a| ==> DowncaseChar(a[i]) == DowncaseChar(b[i])
  }

  /** `"measurements_" + sha1(device_id.downcase)`; SHA1 is an uninterpreted function. */
  function MeasurementsKey(sha1: string -> string, deviceId: string): string {
    MEASUREMENTS_PREFIX + sha1(Downcase(deviceId))
  }

  /** `data["error"]` read as a condition; it can raise when the data is not a Hash. */
  function ErrorFlag(data: Json): (r: Result<bool>)
    ensures data.JObj? ==> r == Ok(Truthy(Field(data.fields, "error")))
  {
    match Index(data, "error")
    case Err(f) => Err(f)
    case Ok(v) => Ok(Truthy(v))
  }

  /** `data["error"] ? 30 : 60` */
  function TtlFor(isError: bool): (ttl: int)
    ensures ttl > 0
    ensures ttl == ERROR_TTL <==> isError
    ensures ttl == DATA_TTL <==> !isError
  {
    if isError then ERROR_TTL else DATA_TTL
  }

  /** `expires remaining, ...` is only called for a positive remaining TTL. */
  function AdvisedMaxAge(remaining: int): (r: Option<int>)
    ensures r.Some? <==> remaining > 0
    ensures r.Some? ==> r.value == remaining
  {
    if remaining > 0 then Some(remaining) else None
  }

  /** Device ids that differ only in letter case share one cache entry. */
  lemma {:induction false} CaseInsensitiveKey(sha1: string -> string, a: string, b: string)
    requires EqualIgnoringCase(a, b)
    ensures MeasurementsKey(sha1, a) == MeasurementsKey(sha1, b)
  {
    assert Downcase(a) == Downcase(b);
  }

  lemma SampleIdsShareKey(sha1: string -> string)
    ensures MeasurementsKey(sha1, "ABC123") == MeasurementsKey(sha1, "abc123")
  {
    CaseInsensitiveKey(sha1, "ABC123", "abc123");
  }

  /** A cache key is never the key of the token record, and the two routes never share a key. */
  lemma KeysAreDistinct(sha1: string -> string, deviceId: string)
    ensures MeasurementsKey(sha1, deviceId) != AIR_QUALITY_KEY
    ensures MeasurementsKey(sha1, deviceId) != Tokens.TOKENS_KEY
    ensures AIR_QUALITY_KEY != Tokens.TOKENS_KEY
  {
  }

  /** Every error object the classification produces is cached for the short TTL. */
  lemma ErrorObjectsAreShortLived(message: Json)
    requires Truthy(message)
    ensures ErrorFlag(Classification.ErrorObject(message)) == Ok(true)
    ensures TtlFor(true) == ERROR_TTL
  {
  }
}

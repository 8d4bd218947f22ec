/** How the two data fetchers read an upstream reply: a `body` is the data, else an
    `error.message` is a known failure, else the failure is generic. */
module Classification {
  import opened Outcome
  import opened Json

  datatype Path = AirQualityPath | MeasurementsPath

  const GENERIC_ERROR := "Something went wrong"

  /** The user-identifying field the air-quality path strips from the body. */
  const USER_FIELD := "user"

  function ErrorObject(message: Json): Json {
    JObj(map["error" := message])
  }

  function Classify(parsed: map<string, Json>, path: Path): (r: Result<Json>)
    // success: the body, with "user" stripped on the air-quality path only
    ensures Truthy(Field(parsed, "body")) && path == MeasurementsPath ==> r == Ok(parsed["body"])
    ensures Truthy(Field(parsed, "body")) && path == AirQualityPath && parsed["body"].JObj? ==>
              r == Ok(JObj(parsed["body"].fields - {USER_FIELD}))
    // known failure
    ensures !Truthy(Field(parsed, "body")) && Field(parsed, "error").JObj?
              && Truthy(Field(Field(parsed, "error").fields, "message")) ==>
              r == Ok(ErrorObject(parsed["error"].fields["message"]))
    // generic failure
    ensures !Truthy(Field(parsed, "body"))
              && (Field(parsed, "error") == JNull
                  || (Field(parsed, "error").JObj? && !Truthy(Field(Field(parsed, "error").fields, "message")))) ==>
              r == Ok(ErrorObject(JStr(GENERIC_ERROR)))
    // without a body, the result is always a one-key error object
    ensures !Truthy(Field(parsed, "body")) && r.Ok? ==>
              r.value.JObj? && r.value.fields.Keys == {"error"} && Truthy(r.value.fields["error"])
    // what raises: an `error` that cannot be dug into, or a body without #delete
    ensures r.Err? <==>
              if Truthy(Field(parsed, "body"))
              then path == AirQualityPath && (parsed["body"].JNum? || parsed["body"].JBool?)
              else !Field(parsed, "error").JObj? && Field(parsed, "error") != JNull
  {
    var body := Field(parsed, "body");
    if Truthy(body) then
      match path
      case AirQualityPath => Delete(body, USER_FIELD)
      case MeasurementsPath => Ok(body)
    else
      match Dig(parsed, "error", "message")
      case Err(f) => Err(f)
      case Ok(message) =>
        if Truthy(message) then Ok(ErrorObject(message)) else Ok(ErrorObject(JStr(GENERIC_ERROR)))
  }
}

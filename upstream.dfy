/** The upstream API, seen only through the form-encoded POSTs the service sends to it. Each
    reply is chosen by an oracle that may depend on every request sent before. */
module Upstream {
  import opened Outcome
  import opened Json

  /** The requests the service sends. The constant form fields (client credentials, scope,
      limit, optimize, real_time, scale, type) are not represented. */
  datatype Request =
    | PasswordGrant                            // oauth2/token, grant_type=password
    | RefreshGrant(refreshToken: Option<string>)  // oauth2/token, grant_type=refresh_token
    | HomeCoachsData(accessToken: string)      // api/gethomecoachsdata
    | GetMeasure(accessToken: string, deviceId: string, dateBegin: int, dateEnd: int)  // api/getmeasure

  /** The parsed reply: a JSON object. */
  type Reply = map<string, Json>

  type Responder = (seq<Request>, Request) -> Reply

  /** The look-back window of a measurements request, in seconds. */
  const MEASURE_WINDOW := 60 * 60

  class Network {
    var calls: seq<Request>
    const respond: Responder

    constructor (respond: Responder)
      ensures calls == [] && this.respond == respond
    {
      calls := [];
      this.respond := respond;
    }

    method Post(request: Request) returns (reply: Reply)
      modifies this
      ensures calls == old(calls) + [request]
      ensures reply == respond(old(calls), request)
    {
      reply := respond(calls, request);
      calls := calls + [request];
    }
  }
}

/** Response classification: the status-code test, then the body-read
    error, then the JSON parse error. The HTTP exchange and JSON decoding are
    abstracted as their observable results. */
module Response {
  import opened Wrappers

  /** The three fields decoded from the service's JSON answer; a field the
      body leaves out decodes to the empty string. */
  datatype ResponseModel = ResponseModel(configUrl: string, publicUrl: string, buildUrl: string)

  /** Reading the whole body either fails, or succeeds and the bytes then
      decode to a record (Some) or are rejected by the JSON decoder (None). */
  datatype Body = Unreadable | Read(parsed: Option<ResponseModel>)

  datatype HttpResponse = HttpResponse(statusCode: int, body: Body)

  /** What http.Client.Do hands back: a transport error (rarely together
      with a response, e.g. when a redirect policy fails), or a response. */
  datatype Exchange = TransportError(partial: Option<HttpResponse>) | Received(response: HttpResponse)

  datatype ResponseError = RequestFailed | BadStatus(code: int) | BodyReadFailed | ParseFailed

  /** The status test of the step: below 200 or above 300 fails, so every
      code from 200 to 300 inclusive proceeds. */
  predicate StatusFails(code: int)
  {
    code < 200 || code > 300
  }

  /** The accepted codes are the closed range [200, 300]. */
  lemma AcceptedStatusRange(code: int)
    ensures !StatusFails(code) <==> 200 <= code <= 300
  {
  }

  /** The step's test agrees with the 2xx success class on every code but one:
      300, which it lets through. */
  lemma StatusTestDiffersFrom2xxOnlyAt300(code: int)
    ensures !StatusFails(code) != (200 <= code < 300) <==> code == 300
  {
  }

  function Interpret(ex: Exchange): (r: Result<ResponseModel, ResponseError>)
    // success needs a response, an accepted status, a readable body and a parse
    ensures r.Success? <==>
      && ex.Received?
      && !StatusFails(ex.response.statusCode)
      && ex.response.body.Read?
      && ex.response.body.parsed.Some?
    // the exported record is the decoded one
    ensures r.Success? ==> r.value == ex.response.body.parsed.value
    // failures are reported in the order transport, status, read, parse
    ensures ex.TransportError? ==> r == Failure(RequestFailed)
    ensures ex.Received? && StatusFails(ex.response.statusCode) ==>
      r == Failure(BadStatus(ex.response.statusCode))
    ensures ex.Received? && !StatusFails(ex.response.statusCode) && ex.response.body.Unreadable? ==>
      r == Failure(BodyReadFailed)
    ensures r == Failure(ParseFailed) <==>
      ex.Received? && !StatusFails(ex.response.statusCode) && ex.response.body == Read(None)
  {
    match ex
    case TransportError(_) => Failure(RequestFailed)
    case Received(HttpResponse(code, body)) =>
      if StatusFails(code) then Failure(BadStatus(code))
      else if body.Unreadable? then Failure(BodyReadFailed)
      else if body.parsed.None? then Failure(ParseFailed)
      else Success(body.parsed.value)
  }

  /** A rejected status is reported without looking at the body: whatever was
      read or decoded makes no difference. */
  lemma BadStatusIgnoresBody(code: int, b1: Body, b2: Body)
    requires StatusFails(code)
    ensures Interpret(Received(HttpResponse(code, b1))) == Interpret(Received(HttpResponse(code, b2)))
  {
  }

  /** A status of exactly 300 with a decodable body is a success. */
  lemma Status300Proceeds(m: ResponseModel)
    ensures Interpret(Received(HttpResponse(300, Read(Some(m))))) == Success(m)
  {
  }
}

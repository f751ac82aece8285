/**
 * What the two clients see of the backend: the outcome of POST /generate and of
 * GET /health, and the body they send. The network and the HTTP libraries are
 * not modelled; each call is answered by one of these values.
 */
module Api {
  import opened Wrappers
  import Backend

  /**
   * The answer to POST /generate: a 2xx body's `code`, a non-2xx body's optional
   * `detail`, or an error thrown before any response (with its message).
   */
  datatype GenerateOutcome = Ok(code: string) | HttpErr(detail: Option<string>) | NetErr(message: string)

  /** The answer to GET /health: 2xx, another status, or no response at all. */
  datatype HealthOutcome = Healthy | Unhealthy | Unreachable

  /** The JSON body of POST /generate. */
  datatype GenerateBody = GenerateBody(text: string, diagramType: string)

  /** How the backend's answer reaches a client: the response's code, or the HTTPException's detail. */
  function Delivered(r: Wrappers.Result<Backend.DiagramResponse, Backend.HttpError>): (o: GenerateOutcome)
    ensures o.Ok? <==> r.Success?
    ensures r.Success? ==> o.code == r.value.code
    ensures r.Failure? ==> o == HttpErr(Some(r.error.detail))
  {
    match r
    case Success(response) => Ok(response.code)
    case Failure(e) => HttpErr(Some(e.detail))
  }

  /** What the backend answers to a client's body when it arrives with a "type" field. */
  function Served(body: GenerateBody, reply: Backend.ModelReply): (o: GenerateOutcome)
    ensures o.Ok? <==> body.diagramType in Backend.TypeNames() && reply.Reply?
    ensures o.Ok? ==> Backend.PrefixFor(body.diagramType).value <= o.code
  {
    Delivered(Backend.GenerateDiagram(Backend.RequestFromBody(body.text, Some(body.diagramType)), reply))
  }
}

/** The part of the HTTP client library the service uses: one GET per call, answered by an
    upstream oracle, and a client object that records what it sent and when it was closed. */
module Http {
  import opened JsonValues

  /** A GET request: the full URL and its query parameters (empty when none are passed). */
  datatype Request = Request(url: string, params: map<string, int>)

  /** A response body: decodable JSON text, or text that `response.json()` rejects. */
  datatype Body = Parsed(json: Json) | Undecodable

  datatype Response = Response(status: int, body: Body)

  /** What one GET produces: a transport failure (connection refused, DNS failure,
      timeout), or a response with a status code. */
  datatype Outcome = TransportError | Delivered(response: Response)

  /** The upstream service, as seen by one request. */
  type Upstream = Request -> Outcome

  /** `response.is_error`: a 4xx or 5xx status. */
  predicate IsError(status: int) {
    400 <= status <= 599
  }

  /** Stands in for the HTTP library's asynchronous client (`httpx.AsyncClient`): it has
      sent `sent`, in order, and been closed `closeCalls` times. */
  class Client {
    var sent: seq<Request>
    var closeCalls: nat

    constructor ()
      ensures sent == [] && closeCalls == 0
    {
      sent := [];
      closeCalls := 0;
    }

    method Get(req: Request, upstream: Upstream) returns (o: Outcome)
      requires closeCalls == 0
      modifies this
      ensures sent == old(sent) + [req] && closeCalls == old(closeCalls)
      ensures o == upstream(req)
    {
      sent := sent + [req];
      o := upstream(req);
    }

    method Aclose()
      modifies this
      ensures sent == old(sent) && closeCalls == old(closeCalls) + 1
    {
      closeCalls := closeCalls + 1;
    }
  }
}

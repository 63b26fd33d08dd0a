/**
  The values that flow through the router: the responses it can produce, the
  faults a handler can throw, the single outbound call a request may cause,
  and the outcomes of the collaborators the router talks to (the bound
  inference model, the external image API and the fallback landing page),
  which are inputs here rather than behaviour.
 */
module Http {

  datatype Option<+T> = None | Some(value: T)

  type Bytes = seq<bv8>

  /** An HTTP status a `Response` can be built with (200 through 599). */
  type Status = s: int | 200 <= s <= 599 witness 200

  /** The Fetch standard's `ok`: a status in the 2xx range. */
  predicate IsOk(s: Status)
  {
    200 <= s <= 299
  }

  /**
    The Fetch standard's null body statuses that fall in 200-599: a
    `Response` constructed with one of them and a non-null body throws a
    `TypeError` instead of being built.
   */
  predicate IsNullBodyStatus(s: Status)
  {
    s == 204 || s == 205 || s == 304
  }

  /** What a handler can throw. */
  datatype Fault =
    | MissingSegment            // `pathParts[0]` is undefined, so `.replace` throws
    | Raised(message: string)   // a failure reported by a collaborator

  /** A page relayed verbatim from elsewhere. */
  datatype Page = Page(status: Status, body: Bytes)

  /** The responses the router produces. */
  datatype Response =
    | Plain(status: Status, text: string)   // a text body with the given status
    | Image(bytes: Bytes)                   // status 200, content-type image/png
    | Redirect(location: string)            // status 302 to `location`
    | Crash(fault: Fault)                   // status 500, body the fault's stack trace
    | Relayed(page: Page)                   // the landing page, passed through

  function StatusOf(r: Response): Status
  {
    match r
    case Plain(s, _) => s
    case Image(_) => 200
    case Redirect(_) => 302
    case Crash(_) => 500
    case Relayed(p) => p.status
  }

  /** How an asynchronous handler settles: with a response, or by throwing. */
  datatype Completion = Returned(response: Response) | Threw(fault: Fault)

  /**
    A `.catch((err) => new Response(err.stack, { status: 500 }))`: a thrown
    fault becomes a 500 whose body is its stack trace; a response passes.
   */
  function CatchAsCrash(c: Completion): (r: Completion)
    ensures r.Returned?
    ensures c.Returned? ==> r == c
    ensures c.Threw? ==> StatusOf(r.response) == 500 && r.response.Crash? && r.response.fault == c.fault
  {
    match c
    case Returned(_) => c
    case Threw(f) => Returned(Crash(f))
  }

  /** The outbound call a request makes to a collaborator. */
  datatype Call =
    | RunModel(model: string, prompt: string)
    | PostImages(endpoint: string, model: string, prompt: string, n: nat, size: string)
    | FetchPage(url: string)

  /** What one request did: at most one outbound call, then how it settled. */
  datatype Exchange = Exchange(call: Option<Call>, completion: Completion)

  /** The bound inference model's result. */
  datatype Inference = Generated(bytes: Bytes) | InferenceFailed(message: string)

  /**
    The first image URL read from a successful reply's JSON body, or the
    message of the error that reading it raised (malformed JSON, no `data`,
    an empty `data` array).
   */
  datatype FirstUrl = Url(url: string) | Unreadable(message: string)

  /** The external image API's answer to the POST. */
  datatype Upstream =
    | Replied(status: Status, text: string, first: FirstUrl)
    | Unreachable(message: string)

  /** The fallback landing page fetch. */
  datatype Landing = Served(page: Page) | LandingFailed(message: string)
}

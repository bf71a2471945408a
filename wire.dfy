/** What the three browser clients see of the HTTP API: the JSON fields they
    read, the requests they issue, and each fetch attempt's outcome. */
module Wire {

  datatype Option<+T> = None | Some(value: T)

  /** A JavaScript value read as a string is truthy when present and non-empty. */
  predicate Truthy(o: Option<string>) {
    o.Some? && o.value != ""
  }

  /** JavaScript's `a || b` on two optional strings. */
  function Or(a: Option<string>, b: Option<string>): Option<string> {
    if Truthy(a) then a else b
  }

  /** JavaScript's `(a || "")`. */
  function OrEmpty(a: Option<string>): string {
    if Truthy(a) then a.value else ""
  }

  /** The two chairs of the dialogue. */
  datatype Role = Self | Monster

  function Flip(r: Role): Role {
    if r == Self then Monster else Self
  }

  /** One row of `GET /api/session/:id/messages`; `role` is the raw column text. */
  datatype LoggedMessage = LoggedMessage(role: string, text: Option<string>)

  /** The fields of a JSON response body that the clients read. A field that is
      absent, `false` or another falsy value is `false`/`None`. */
  datatype Reply = Reply(
    sessionId: Option<string>,
    crisis: bool,
    locked: bool,
    awaitMore: bool,
    suggestions: Option<seq<string>>,
    angel: Option<string>,
    lumen: Option<string>,
    messages: Option<seq<LoggedMessage>>)

  /** What `response.json()` yields: a rejection, the JSON literal `null`, or an object. */
  datatype Body = NotJson | JsonNull | Json(reply: Reply)

  /** One call of `fetch`: it throws, or an HTTP response arrives. */
  datatype Attempt = Thrown | Answered(status: int, body: Body)

  /** The request a client sends; each attempt of a retry loop sends it once. */
  datatype Request =
    | SessionRequest(mode: Option<string>)
    | MessageRequest(sessionId: Option<string>, role: Role, text: string)
    | LogRequest(sessionId: Option<string>)

  /** `n` copies of one request: the requests issued by `n` attempts. */
  function Repeat(q: Request, n: nat): (r: seq<Request>)
    ensures |r| == n && forall i :: 0 <= i < n ==> r[i] == q
  {
    seq(n, _ => q)
  }
}

/** The HTTP service on the other side of the TestRail gateway, as abstract
    state: every request is appended to a log and answered by the next
    scripted reply. Transport details (TLS, headers on the wire, JSON
    encoding) are not modelled. */
module Http {
  import opened Common
  import opened Strings
  import opened Json

  datatype Verb = GET | POST | PUT

  /** The verbs `_make_request` dispatches on, compared after `str.upper()`. */
  function ParseVerb(verb: string): (r: Result<Verb>)
    ensures r == Ok(GET) <==> Upper(verb) == "GET"
    ensures r == Ok(POST) <==> Upper(verb) == "POST"
    ensures r == Ok(PUT) <==> Upper(verb) == "PUT"
    ensures r.Err? ==> r.error.ValueError?
  {
    var m := Upper(verb);
    if m == "GET" then Ok(GET)
    else if m == "POST" then Ok(POST)
    else if m == "PUT" then Ok(PUT)
    else Err(ValueError("Unsupported HTTP method: " + verb))
  }

  /** One request as sent: verb, full URL, Basic-auth pair and JSON body. */
  datatype Request = Request(verb: Verb, url: string, auth: (string, string), body: Option<Json>)

  /** The body of a response: empty, JSON, or bytes that do not decode. */
  datatype Content = Empty | Body(json: Json) | NotJson

  /** What the service does with a request: answer it, or be unreachable. */
  datatype Reply = Response(status: int, content: Content) | Unreachable

  /** `raise_for_status()` followed by `response.json() if response.content else None`. */
  function Interpret(reply: Reply): (r: Result<Option<Json>>)
    ensures reply.Unreachable? ==> r == Err(ConnectionError)
    ensures reply.Response? && 400 <= reply.status < 600 ==> r == Err(HttpError(reply.status))
    ensures reply.Response? && !(400 <= reply.status < 600) ==>
      (reply.content.Empty? <==> r == Ok(None))
      && (reply.content.Body? ==> r == Ok(Some(reply.content.json)))
      && (reply.content.NotJson? <==> r == Err(JsonDecodeError))
  {
    match reply
    case Unreachable => Err(ConnectionError)
    case Response(status, content) =>
      if 400 <= status < 600 then Err(HttpError(status))
      else match content
        case Empty => Ok(None)
        case Body(j) => Ok(Some(j))
        case NotJson => Err(JsonDecodeError)
  }

  /** The state of the conversation: requests sent so far and replies still to come. */
  datatype Wire = Wire(log: seq<Request>, script: seq<Reply>)

  /** The reply the service gives next; once the script is exhausted it is unreachable. */
  function NextReply(script: seq<Reply>): Reply {
    if script == [] then Unreachable else script[0]
  }

  function Remaining(script: seq<Reply>): seq<Reply> {
    if script == [] then [] else script[1..]
  }

  /** Send one request: it is logged and answered by the next reply. */
  function Exchange(w: Wire, req: Request): (out: (Result<Option<Json>>, Wire))
    ensures out.1.log == w.log + [req]
    ensures w.script != [] ==> out.1.script == w.script[1..] && out.0 == Interpret(w.script[0])
    ensures w.script == [] ==> out.1.script == [] && out.0 == Err(ConnectionError)
  {
    (Interpret(NextReply(w.script)), Wire(w.log + [req], Remaining(w.script)))
  }

  /** The service as a mutable object: what the gateway talks to. */
  class Transport {
    var log: seq<Request>
    var script: seq<Reply>

    constructor (script: seq<Reply>)
      ensures this.log == [] && this.script == script
    {
      this.log := [];
      this.script := script;
    }

    function State(): Wire
      reads this
    {
      Wire(log, script)
    }

    method Send(req: Request) returns (r: Result<Option<Json>>)
      modifies this
      ensures (r, State()) == Exchange(old(State()), req)
    {
      r := Interpret(NextReply(script));
      log := log + [req];
      script := Remaining(script);
    }
  }
}

/**
  The two upstream calls of the set-password operation, `hashPassword` and
  `setPassword`, with the HTTP exchange itself taken as an input: a service is a
  function from the request it is sent to what came of sending it. What stays
  is the logic around the exchange: which outcome counts as success, what is
  read from the reply, and the wording of each error.
 */
module Upstream {
  import opened Wire

  /** The two services called; each words its errors a little differently. */
  datatype Service = Auth | DatastoreWriter

  /**
    What the response body stream delivered: all of its text, or some text
    followed by a read error.
   */
  datatype BodyRead = Read(text: string) | Unreadable(received: string, cause: string)

  /** What came of one HTTP exchange. */
  datatype Exchange =
    | NotBuilt(cause: string)                            // the request could not be created
    | NotSent(cause: string)                             // transport failure, timeout or cancellation
    | Answered(code: int, status: string, body: BodyRead) // a response: status code, status line, body

  /**
    What the JSON decoder made of a 2xx hash response body. The decoder reads
    the stream itself and stops after the first JSON value, so a read error
    after a complete value need not make it fail.
   */
  datatype Decoded = DecodeFailed(cause: string) | DecodedHash(hash: string)

  /** The error kinds of one upstream call, before the step that made it adds its context. */
  datatype CallError =
    | RequestNotCreated(cause: string)
    | RequestNotSent(cause: string)
    | BadStatus(status: string, body: string)
    | ResponseNotDecoded(cause: string)

  datatype Result<+T> = Ok(value: T) | Err(error: CallError)

  /** One upstream call: its result, and whether the request was handed to the HTTP client. */
  datatype Attempt<+T> = Attempt(result: Result<T>, handedToClient: bool)

  const UnreadableBody := "[can not read body]"

  /** The guard both calls use to reject a response. */
  predicate RejectedStatus(code: int) {
    code < 200 || code >= 300
  }

  /** The body text quoted in a status error: the body, or a placeholder when it could not be read. */
  function QuotedBody(b: BodyRead): (t: string)
    ensures b.Read? ==> t == b.text
    ensures b.Unreadable? ==> t == UnreadableBody
  {
    match b
    case Read(text) => text
    case Unreadable(_, _) => UnreadableBody
  }

  function ServiceName(svc: Service): string {
    match svc
    case Auth => "auth service"
    case DatastoreWriter => "datastore writer service"
  }

  function CreateContext(svc: Service): string {
    match svc
    case Auth => "creating request to auth service: "
    case DatastoreWriter => "creating request: "
  }

  const SendContext := "sending request: "
  const DecodeContext := "decoding response: "

  /**
    The text of an upstream error as the service's call words it: context
    words naming the kind of failure, then the wrapped cause, or for a status
    error the status line and the quoted body, unchanged at the end.
   */
  function Message(svc: Service, e: CallError): (m: string)
    ensures !e.BadStatus? ==> |e.cause| <= |m| && m[|m| - |e.cause|..] == e.cause
    ensures e.BadStatus? ==> |e.body| <= |m| && m[|m| - |e.body|..] == e.body
  {
    match e
    case RequestNotCreated(c) => CreateContext(svc) + c
    case RequestNotSent(c) => SendContext + c
    case BadStatus(status, body) => ServiceName(svc) + " returned " + status + ": " + body
    case ResponseNotDecoded(c) => DecodeContext + c
  }

  /** The kind of error a message reports, told from its leading words alone. */
  datatype Kind = Creating | Sending | Status | Decoding | Unknown

  function KindOf(e: CallError): Kind {
    match e
    case RequestNotCreated(_) => Creating
    case RequestNotSent(_) => Sending
    case BadStatus(_, _) => Status
    case ResponseNotDecoded(_) => Decoding
  }

  predicate StartsWith(s: string, prefix: string) {
    |prefix| <= |s| && s[..|prefix|] == prefix
  }

  function ClassifyMessage(svc: Service, m: string): Kind {
    if StartsWith(m, CreateContext(svc)) then Creating
    else if StartsWith(m, SendContext) then Sending
    else if StartsWith(m, ServiceName(svc) + " returned ") then Status
    else if StartsWith(m, DecodeContext) then Decoding
    else Unknown
  }

  /** The leading words of every error message name its kind, whatever the cause text says. */
  lemma MessageNamesKind(svc: Service, e: CallError)
    ensures ClassifyMessage(svc, Message(svc, e)) == KindOf(e)
  {
    match e
    case RequestNotCreated(c) =>
      assert Message(svc, e)[..|CreateContext(svc)|] == CreateContext(svc);
    case RequestNotSent(c) => SendingMessageKind(svc, c);
    case BadStatus(status, body) => StatusMessageKind(svc, status, body);
    case ResponseNotDecoded(c) => DecodingMessageKind(svc, c);
  }

  lemma SendingMessageKind(svc: Service, c: string)
    ensures ClassifyMessage(svc, SendContext + c) == Sending
  {
    var m := SendContext + c;
    assert m[..|SendContext|] == SendContext;
    assert m[0] != CreateContext(svc)[0];
  }

  lemma StatusMessageKind(svc: Service, status: string, body: string)
    ensures ClassifyMessage(svc, ServiceName(svc) + " returned " + status + ": " + body) == Status
  {
    var p := ServiceName(svc) + " returned ";
    var m := ServiceName(svc) + " returned " + status + ": " + body;
    assert m == p + (status + ": " + body);
    assert m[..|p|] == p;
    assert m[0] == p[0] == ServiceName(svc)[0];
    assert m[0] != CreateContext(svc)[0] && m[0] != SendContext[0];
  }

  lemma DecodingMessageKind(svc: Service, c: string)
    ensures ClassifyMessage(svc, DecodeContext + c) == Decoding
  {
    var m := DecodeContext + c;
    var p := ServiceName(svc) + " returned ";
    assert m[..|DecodeContext|] == DecodeContext;
    assert m[0] == 'd' && m[1] == 'e';
    assert m[0] != CreateContext(svc)[0] && m[0] != SendContext[0];
    assert p[0] == 'a' || p[1] == 'a';
  }

  /**
    A message gives back the error it reports: the kind always, the cause of
    every kind but a status error, and a status error's body once its status
    line is known.
   */
  lemma MessageDeterminesError(svc: Service, e1: CallError, e2: CallError)
    requires Message(svc, e1) == Message(svc, e2)
    ensures KindOf(e1) == KindOf(e2)
    ensures !e1.BadStatus? ==> e1 == e2
    ensures e1.BadStatus? && e2.BadStatus? && e1.status == e2.status ==> e1 == e2
  {
    MessageNamesKind(svc, e1);
    MessageNamesKind(svc, e2);
  }

  /** The common part of both calls: the exchange outcomes that end the call with an error. */
  function Screen(ex: Exchange): (r: Result<BodyRead>)
    ensures r.Ok? <==> ex.Answered? && !RejectedStatus(ex.code)
    ensures r.Ok? ==> r.value == ex.body
  {
    match ex
    case NotBuilt(c) => Err(RequestNotCreated(c))
    case NotSent(c) => Err(RequestNotSent(c))
    case Answered(code, status, body) =>
      if RejectedStatus(code) then Err(BadStatus(status, QuotedBody(body))) else Ok(body)
  }

  /** The exchange the auth service gives for this password. */
  function HashExchange(cfg: Config, password: string, auth: Request -> Exchange): Exchange {
    auth(HashRequest(cfg, password))
  }

  /**
    `hashPassword`: send the password to the auth service and read the `hash`
    field of a 2xx answer. The result is the decoder's hash exactly when the
    answer is a 2xx that the decoder accepts; a refused status reports the
    status line and the quoted body; only a request that could not be created
    is never handed to the HTTP client.
   */
  function HashPassword(cfg: Config, password: string, auth: Request -> Exchange, decode: BodyRead -> Decoded)
    : (a: Attempt<string>)
    ensures var ex := HashExchange(cfg, password, auth);
      && (a.handedToClient <==> !ex.NotBuilt?)
      && (a.result.Ok? <==> ex.Answered? && 200 <= ex.code < 300 && decode(ex.body).DecodedHash?)
      && (a.result.Ok? ==> a.result.value == decode(ex.body).hash)
      && (ex.Answered? && !RejectedStatus(ex.code) && a.result.Err? ==>
            a.result == Err(ResponseNotDecoded(decode(ex.body).cause)))
      && (ex.Answered? && RejectedStatus(ex.code) ==> a.result == Err(BadStatus(ex.status, QuotedBody(ex.body))))
      && (ex.NotSent? ==> a.result == Err(RequestNotSent(ex.cause)))
      && (ex.NotBuilt? ==> a.result == Err(RequestNotCreated(ex.cause)))
  {
    var ex := HashExchange(cfg, password, auth);
    var handed := !ex.NotBuilt?;
    match Screen(ex)
    case Err(e) => Attempt(Err(e), handed)
    case Ok(body) =>
      match decode(body)
      case DecodeFailed(c) => Attempt(Err(ResponseNotDecoded(c)), handed)
      case DecodedHash(h) => Attempt(Ok(h), handed)
  }

  /** The exchange the datastore writer gives for this write. */
  function WriteExchange(cfg: Config, userId: int, hash: string, writer: Request -> Exchange): Exchange {
    writer(WriteRequest(cfg, userId, hash))
  }

  /**
    `setPassword`: send the write envelope to the datastore writer. It succeeds
    exactly on a 2xx answer, whose body is not looked at; a refused status
    reports the status line and the quoted body.
   */
  function WritePassword(cfg: Config, userId: int, hash: string, writer: Request -> Exchange)
    : (a: Attempt<()>)
    ensures var ex := WriteExchange(cfg, userId, hash, writer);
      && (a.handedToClient <==> !ex.NotBuilt?)
      && (a.result.Ok? <==> ex.Answered? && 200 <= ex.code < 300)
      && (ex.Answered? && RejectedStatus(ex.code) ==> a.result == Err(BadStatus(ex.status, QuotedBody(ex.body))))
      && (ex.NotSent? ==> a.result == Err(RequestNotSent(ex.cause)))
      && (ex.NotBuilt? ==> a.result == Err(RequestNotCreated(ex.cause)))
  {
    var ex := WriteExchange(cfg, userId, hash, writer);
    match Screen(ex)
    case Err(e) => Attempt(Err(e), !ex.NotBuilt?)
    case Ok(_) => Attempt(Ok(()), !ex.NotBuilt?)
  }

  /** A status error quotes the status line and the body text, in that order, after the service's name. */
  lemma StatusMessageShape(svc: Service, ex: Exchange)
    requires ex.Answered? && RejectedStatus(ex.code)
    ensures Screen(ex).Err?
    ensures Message(svc, Screen(ex).error)
         == ServiceName(svc) + " returned " + ex.status + ": " + QuotedBody(ex.body)
  {
  }
}

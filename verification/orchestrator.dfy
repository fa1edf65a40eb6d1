/**
  `Server.SetPassword`: hash the plaintext with the auth service, then write the
  hash into the user's `password` field through the datastore writer. The
  upstream services are inputs; the run records the requests handed to the
  HTTP client, in order, so that what was called can be stated.
 */
module Orchestrator {
  import opened Wrappers
  import opened Decimal
  import opened Wire
  import opened Upstream

  newtype int64 = x: int | -0x8000_0000_0000_0000 <= x < 0x8000_0000_0000_0000

  /** The operation's input record. */
  datatype SetPasswordRequest = SetPasswordRequest(userId: int64, password: string)

  /** The operation's (empty) success record. */
  datatype SetPasswordResponse = SetPasswordResponse

  datatype Step = HashStep | WriteStep

  /** A failed run: the step that failed and what its upstream call reported. */
  datatype Failure = Failure(step: Step, cause: CallError)

  datatype Outcome = Succeeded(response: SetPasswordResponse) | Failed(failure: Failure)

  /** A request handed to the HTTP client for one of the services. */
  datatype Call = Call(service: Service, request: Request)

  /** The outside world of one run: the two services and the JSON decoder of the hash reply. */
  datatype Upstreams = Upstreams(auth: Request -> Exchange, writer: Request -> Exchange, decode: BodyRead -> Decoded)

  datatype Run = Run(outcome: Outcome, calls: seq<Call>)

  /** Go's `int(in.UserID)` on a 64-bit platform, where `int` and `int64` have the same range. */
  function GoInt(x: int64): int {
    x as int
  }

  function StepContext(step: Step): string {
    match step
    case HashStep => "hash password: "
    case WriteStep => "set password: "
  }

  function StepService(step: Step): Service {
    match step
    case HashStep => Auth
    case WriteStep => DatastoreWriter
  }

  /** The text of the error `SetPassword` returns. */
  function ErrorMessage(f: Failure): (m: string)
    ensures StartsWith(m, StepContext(f.step))
    ensures m[|StepContext(f.step)|..] == Message(StepService(f.step), f.cause)
  {
    StepContext(f.step) + Message(StepService(f.step), f.cause)
  }

  function SentCalls(handed: bool, c: Call): seq<Call> {
    if handed then [c] else []
  }

  /** The hash the hash step returns, for the given input and upstreams. */
  function HashOutcome(cfg: Config, input: SetPasswordRequest, up: Upstreams): Attempt<string> {
    HashPassword(cfg, input.password, up.auth, up.decode)
  }

  /**
    `SetPassword`. The write step runs only after the hash step returned a
    hash, and is given exactly that hash. A failure of either step is wrapped
    with the step's context and ends the run.
   */
  function SetPassword(cfg: Config, input: SetPasswordRequest, up: Upstreams): (r: Run)
    ensures |r.calls| <= 2
    ensures forall i :: 0 <= i < |r.calls| && r.calls[i].service == DatastoreWriter ==>
              && HashOutcome(cfg, input, up).result.Ok?
              && r.calls[i].request == WriteRequest(cfg, GoInt(input.userId), HashOutcome(cfg, input, up).result.value)
    ensures r.outcome.Succeeded? ==> |r.calls| == 2
  {
    var hashing := HashOutcome(cfg, input, up);
    var hashCalls := SentCalls(hashing.handedToClient, Call(Auth, HashRequest(cfg, input.password)));
    match hashing.result
    case Err(e) => Run(Failed(Failure(HashStep, e)), hashCalls)
    case Ok(hash) =>
      var userId := GoInt(input.userId);
      var writing := WritePassword(cfg, userId, hash, up.writer);
      var calls := hashCalls + SentCalls(writing.handedToClient, Call(DatastoreWriter, WriteRequest(cfg, userId, hash)));
      match writing.result
      case Err(e) => Run(Failed(Failure(WriteStep, e)), calls)
      case Ok(_) => Run(Succeeded(SetPasswordResponse), calls)
  }

  /** The hash step succeeded: a 2xx answer whose body the decoder turned into a hash. */
  predicate HashAccepted(cfg: Config, input: SetPasswordRequest, up: Upstreams) {
    var ex := HashExchange(cfg, input.password, up.auth);
    ex.Answered? && 200 <= ex.code < 300 && up.decode(ex.body).DecodedHash?
  }

  function AcceptedHash(cfg: Config, input: SetPasswordRequest, up: Upstreams): string
    requires HashAccepted(cfg, input, up)
  {
    up.decode(HashExchange(cfg, input.password, up.auth).body).hash
  }

  /**
    Any failure of the hash step (request not created, not sent, refused
    status, or a body the decoder refused) ends the run with an error worded
    `hash password: ...`, and the datastore writer is never called.
   */
  lemma HashFailureStopsRun(cfg: Config, input: SetPasswordRequest, up: Upstreams)
    requires !HashAccepted(cfg, input, up)
    ensures var r := SetPassword(cfg, input, up);
      && r.outcome.Failed?
      && r.outcome.failure.step == HashStep
      && StartsWith(ErrorMessage(r.outcome.failure), "hash password: ")
      && |r.calls| <= 1
      && (forall c :: c in r.calls ==> c == Call(Auth, HashRequest(cfg, input.password)))
  {
  }

  /**
    When the hash step succeeded but the write step failed, the run ends with
    an error worded `set password: ...` that carries the writer's error, and
    each service was called at most once, auth first: nothing is retried.
   */
  lemma WriteFailureReported(cfg: Config, input: SetPasswordRequest, up: Upstreams)
    requires HashAccepted(cfg, input, up)
    requires var ex := WriteExchange(cfg, GoInt(input.userId), AcceptedHash(cfg, input, up), up.writer);
      !(ex.Answered? && 200 <= ex.code < 300)
    ensures var r := SetPassword(cfg, input, up);
      var ex := WriteExchange(cfg, GoInt(input.userId), AcceptedHash(cfg, input, up), up.writer);
      && r.outcome.Failed?
      && r.outcome.failure.step == WriteStep
      && StartsWith(ErrorMessage(r.outcome.failure), "set password: ")
      && (ex.Answered? ==> r.outcome.failure.cause == BadStatus(ex.status, QuotedBody(ex.body)))
      && (ex.NotSent? ==> r.outcome.failure.cause == RequestNotSent(ex.cause))
      && 1 <= |r.calls| <= 2
      && r.calls[0].service == Auth
      && (|r.calls| == 2 <==> !ex.NotBuilt?)
      && (|r.calls| == 2 ==> r.calls[1].service == DatastoreWriter)
  {
  }

  /**
    A successful run answers with the empty response; the auth service was
    called first with the password, and the datastore writer second with the
    hash the auth service returned, verbatim, for `user/<id>`.
   */
  lemma SuccessWritesReturnedHash(cfg: Config, input: SetPasswordRequest, up: Upstreams)
    ensures var r := SetPassword(cfg, input, up);
      r.outcome.Succeeded? ==>
        && HashAccepted(cfg, input, up)
        && r.outcome.response == SetPasswordResponse
        && |r.calls| == 2
        && r.calls[0] == Call(Auth, HashRequest(cfg, input.password))
        && r.calls[1].service == DatastoreWriter
        && r.calls[1].request.url.path == DatastoreWritePath
        && WriteBodyFields(r.calls[1].request.body) == Some((input.userId as int, AcceptedHash(cfg, input, up)))
  {
  }

  /** A run succeeds exactly when both upstreams accept. */
  lemma SuccessIff(cfg: Config, input: SetPasswordRequest, up: Upstreams)
    ensures SetPassword(cfg, input, up).outcome.Succeeded? <==>
      && HashAccepted(cfg, input, up)
      && var ex := WriteExchange(cfg, GoInt(input.userId), AcceptedHash(cfg, input, up), up.writer);
         ex.Answered? && 200 <= ex.code < 300
  {
  }

  /**
    The decoder's hash is written as it is, even when it is empty, which is
    what a 2xx reply without a `hash` member decodes to: nothing checks the
    hash, and the run then succeeds exactly when the writer answers 2xx.
   */
  lemma EmptyHashIsWritten(cfg: Config, input: SetPasswordRequest, up: Upstreams)
    ensures HashAccepted(cfg, input, up) && AcceptedHash(cfg, input, up) == "" ==>
      var r := SetPassword(cfg, input, up);
      var ex := WriteExchange(cfg, GoInt(input.userId), "", up.writer);
      && (forall c :: c in r.calls && c.service == DatastoreWriter ==>
            WriteBodyFields(c.request.body) == Some((input.userId as int, "")))
      && (!ex.NotBuilt? ==> r.calls[1].service == DatastoreWriter)
      && (r.outcome.Succeeded? <==> ex.Answered? && 200 <= ex.code < 300)
  {
  }

  /**
    A refused hash reply ends the run with the auth service's status line
    and the body it sent, or `[can not read body]` when the body could not be
    read, after the `hash password: ` context.
   */
  lemma RefusedHashReported(cfg: Config, input: SetPasswordRequest, up: Upstreams)
    ensures var ex := HashExchange(cfg, input.password, up.auth);
      var r := SetPassword(cfg, input, up);
      ex.Answered? && RejectedStatus(ex.code) ==>
        && r.outcome.Failed?
        && (ex.body.Read? ==>
              ErrorMessage(r.outcome.failure) == HashStatusLead + ex.status + ": " + ex.body.text)
        && (ex.body.Unreadable? ==>
              ErrorMessage(r.outcome.failure) == HashStatusLead + ex.status + ": " + "[can not read body]")
  {
    var ex := HashExchange(cfg, input.password, up.auth);
    if ex.Answered? && RejectedStatus(ex.code) {
      var f := SetPassword(cfg, input, up).outcome.failure;
      assert f == Failure(HashStep, BadStatus(ex.status, QuotedBody(ex.body)));
      HashStatusText(ex.status, QuotedBody(ex.body));
    }
  }

  /**
    A refused write reply, after a successful hash step, ends the run with the
    writer's status line and the body it sent, or `[can not read body]`, after
    the `set password: ` context.
   */
  lemma RefusedWriteReported(cfg: Config, input: SetPasswordRequest, up: Upstreams)
    ensures HashAccepted(cfg, input, up) ==>
      var ex := WriteExchange(cfg, GoInt(input.userId), AcceptedHash(cfg, input, up), up.writer);
      var r := SetPassword(cfg, input, up);
      ex.Answered? && RejectedStatus(ex.code) ==>
        && r.outcome.Failed?
        && (ex.body.Read? ==>
              ErrorMessage(r.outcome.failure) == WriteStatusLead + ex.status + ": " + ex.body.text)
        && (ex.body.Unreadable? ==>
              ErrorMessage(r.outcome.failure) == WriteStatusLead + ex.status + ": " + "[can not read body]")
  {
    if HashAccepted(cfg, input, up) {
      var ex := WriteExchange(cfg, GoInt(input.userId), AcceptedHash(cfg, input, up), up.writer);
      if ex.Answered? && RejectedStatus(ex.code) {
        var h := AcceptedHash(cfg, input, up);
        assert HashOutcome(cfg, input, up).result == Ok(h);
        var w := WritePassword(cfg, GoInt(input.userId), h, up.writer);
        assert w.result == Err(BadStatus(ex.status, QuotedBody(ex.body)));
        var f := SetPassword(cfg, input, up).outcome.failure;
        assert f == Failure(WriteStep, BadStatus(ex.status, QuotedBody(ex.body)));
        WriteStatusText(ex.status, QuotedBody(ex.body));
      }
    }
  }

  /**
    The leading words of a status error, after the step's context, for each
    step. They are written as joins of shorter literals, which keeps the
    prover's literal comparisons cheap; `Regroup` puts the pieces together.
   */
  const HashStatusLead := "hash password: " + "auth service" + " returned "
  const WriteStatusLead := "set password: " + "datastore writer service" + " returned "

  lemma HashStatusText(status: string, body: string)
    ensures ErrorMessage(Failure(HashStep, BadStatus(status, body))) == HashStatusLead + status + ": " + body
  {
    Regroup(StepContext(HashStep), ServiceName(Auth), " returned ", status, ": ", body);
  }

  lemma WriteStatusText(status: string, body: string)
    ensures ErrorMessage(Failure(WriteStep, BadStatus(status, body))) == WriteStatusLead + status + ": " + body
  {
    Regroup(StepContext(WriteStep), ServiceName(DatastoreWriter), " returned ", status, ": ", body);
  }

  lemma Regroup(a: string, b: string, c: string, d: string, e: string, f: string)
    ensures a + (b + c + d + e + f) == (a + b + c) + d + e + f
  {
  }

  /** Setting `admin` for user 7 when the auth service answers with hash `H1` writes `H1` to `user/7`. */
  lemma AdminForUserSeven(cfg: Config)
    ensures var up := Upstreams(
              _ => Answered(200, "200 OK", Read("{\"hash\":\"H1\"}")),
              _ => Answered(200, "200 OK", Read("")),
              body => if body == Read("{\"hash\":\"H1\"}") then DecodedHash("H1") else DecodeFailed("unexpected"));
      var r := SetPassword(cfg, SetPasswordRequest(7, "admin"), up);
      && r.outcome.Succeeded?
      && HashBodyPassword(r.calls[0].request.body) == Some("admin")
      && WriteBodyFields(r.calls[1].request.body) == Some((7, "H1"))
      && Fqid(7) == "user/7"
  {
    assert FormatInt(7) == "7";
  }

  // ---- the operation as a state machine ------------------------------------

  /** Idle, then Hashing, then Writing with the hash in hand, then Done; Halted on a failure. */
  datatype Phase = Idle | Hashing | Writing(hash: string) | Done | Halted(failure: Failure)

  datatype Machine = Machine(phase: Phase, calls: seq<Call>)

  /** One transition; the terminal phases stay put. */
  function Advance(cfg: Config, input: SetPasswordRequest, up: Upstreams, m: Machine): Machine {
    match m.phase
    case Idle => Machine(Hashing, m.calls)
    case Hashing =>
      var a := HashPassword(cfg, input.password, up.auth, up.decode);
      var calls := m.calls + SentCalls(a.handedToClient, Call(Auth, HashRequest(cfg, input.password)));
      (match a.result
       case Err(e) => Machine(Halted(Failure(HashStep, e)), calls)
       case Ok(h) => Machine(Writing(h), calls))
    case Writing(h) =>
      var a := WritePassword(cfg, GoInt(input.userId), h, up.writer);
      var calls := m.calls + SentCalls(a.handedToClient, Call(DatastoreWriter, WriteRequest(cfg, GoInt(input.userId), h)));
      (match a.result
       case Err(e) => Machine(Halted(Failure(WriteStep, e)), calls)
       case Ok(_) => Machine(Done, calls))
    case Done => m
    case Halted(_) => m
  }

  function Steps(cfg: Config, input: SetPasswordRequest, up: Upstreams, n: nat): Machine {
    if n == 0 then Machine(Idle, []) else Advance(cfg, input, up, Steps(cfg, input, up, n - 1))
  }

  /** What holds in every reachable phase: the write phase only ever holds the hash step's hash. */
  predicate Reachable(cfg: Config, input: SetPasswordRequest, up: Upstreams, m: Machine) {
    var hashing := HashOutcome(cfg, input, up);
    && |m.calls| <= 2
    && (m.phase.Writing? ==> hashing.result == Ok(m.phase.hash))
    && (m.phase.Done? ==> hashing.result.Ok?)
    && (forall i :: 0 <= i < |m.calls| && m.calls[i].service == DatastoreWriter ==>
          && hashing.result.Ok?
          && m.calls[i].request == WriteRequest(cfg, GoInt(input.userId), hashing.result.value))
    && (m.phase.Idle? || m.phase.Hashing? ==> m.calls == [])
    && (m.phase.Writing? ==> |m.calls| <= 1)
  }

  lemma {:induction false} StepsReachable(cfg: Config, input: SetPasswordRequest, up: Upstreams, n: nat)
    ensures Reachable(cfg, input, up, Steps(cfg, input, up, n))
  {
    if n > 0 {
      StepsReachable(cfg, input, up, n - 1);
      AdvanceReachable(cfg, input, up, Steps(cfg, input, up, n - 1));
    }
  }

  lemma AdvanceReachable(cfg: Config, input: SetPasswordRequest, up: Upstreams, m: Machine)
    requires Reachable(cfg, input, up, m)
    ensures Reachable(cfg, input, up, Advance(cfg, input, up, m))
  {
    match m.phase
    case Hashing =>
      HashingReachable(cfg, input, up, m);
    case Writing(h) =>
      WritingReachable(cfg, input, up, m);
    case _ =>
  }

  lemma HashingReachable(cfg: Config, input: SetPasswordRequest, up: Upstreams, m: Machine)
    requires Reachable(cfg, input, up, m) && m.phase.Hashing?
    ensures Reachable(cfg, input, up, Advance(cfg, input, up, m))
  {
    var next := Advance(cfg, input, up, m);
    assert next.calls == SentCalls(HashOutcome(cfg, input, up).handedToClient, Call(Auth, HashRequest(cfg, input.password)));
  }

  lemma WritingReachable(cfg: Config, input: SetPasswordRequest, up: Upstreams, m: Machine)
    requires Reachable(cfg, input, up, m) && m.phase.Writing?
    ensures Reachable(cfg, input, up, Advance(cfg, input, up, m))
  {
    var h := m.phase.hash;
    var hashing := HashOutcome(cfg, input, up);
    assert hashing.result == Ok(h);
    var c := Call(DatastoreWriter, WriteRequest(cfg, GoInt(input.userId), h));
    var next := Advance(cfg, input, up, m);
    var a := WritePassword(cfg, GoInt(input.userId), h, up.writer);
    var calls := m.calls + SentCalls(a.handedToClient, c);
    assert next.calls == calls;
    assert |calls| <= 2;
    forall i | 0 <= i < |calls| && calls[i].service == DatastoreWriter
      ensures calls[i].request == WriteRequest(cfg, GoInt(input.userId), hashing.result.value)
    {
      if i >= |m.calls| {
        assert calls[i] == c;
      }
    }
  }

  /** How a terminal phase reads as the operation's outcome. */
  function Settle(p: Phase): Outcome
    requires p.Done? || p.Halted?
  {
    if p.Done? then Succeeded(SetPasswordResponse) else Failed(p.failure)
  }

  /**
    Three transitions from Idle always reach Done or Halted, and the machine
    then agrees with `SetPassword` on the outcome and on the calls made.
   */
  lemma MachineAgrees(cfg: Config, input: SetPasswordRequest, up: Upstreams)
    ensures var m := Steps(cfg, input, up, 3);
      && (m.phase.Done? || m.phase.Halted?)
      && Run(Settle(m.phase), m.calls) == SetPassword(cfg, input, up)
      && Advance(cfg, input, up, m) == m
  {
    var m1 := Steps(cfg, input, up, 1);
    assert m1 == Machine(Hashing, []) by {
      assert Steps(cfg, input, up, 0) == Machine(Idle, []);
    }
    var m2 := Steps(cfg, input, up, 2);
    assert m2 == Advance(cfg, input, up, m1);
    AfterHashing(cfg, input, up);
  }

  /** From Hashing, the hash step's result decides: Halted on its error, otherwise Writing with its hash. */
  lemma AfterHashing(cfg: Config, input: SetPasswordRequest, up: Upstreams)
    ensures var m := Advance(cfg, input, up, Machine(Hashing, []));
      var m3 := Advance(cfg, input, up, m);
      && (m3.phase.Done? || m3.phase.Halted?)
      && Run(Settle(m3.phase), m3.calls) == SetPassword(cfg, input, up)
      && Advance(cfg, input, up, m3) == m3
  {
    var a := HashOutcome(cfg, input, up);
    var m := Advance(cfg, input, up, Machine(Hashing, []));
    assert m.calls == [] + SentCalls(a.handedToClient, Call(Auth, HashRequest(cfg, input.password)));
    assert [] + SentCalls(a.handedToClient, Call(Auth, HashRequest(cfg, input.password)))
        == SentCalls(a.handedToClient, Call(Auth, HashRequest(cfg, input.password)));
  }
}

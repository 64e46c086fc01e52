/**
 * The lifecycle of one action: phases and steps, the handler's outcomes, and the call an RPC client
 * makes of them. Handlers and observers look at the event and do not drive it.
 */
module ActionEvents {
  import opened Common

  type Json = string

  const NULL: Json := "null"

  /** The answer for an event that stopped where none should. */
  const UNKNOWN := Other("unknown error")

  datatype Kind = RequestResponse | RemoteNotification | LocalCall

  datatype Phase =
    | SendRequest | ReceiveRequest | SendResponse | ReceiveResponse | SendError | ReceiveError
    | SendNote | ReceiveNote
    | Execute

  datatype Step = Initial | Parsed | Handling | Handled | Failed

  datatype Error =
    | InvalidParams             // the input does not parse
    | InvalidOutput             // the handler's own output does not parse
    | ResponseOutputInvalid     // the remote's result does not parse
    | Thrown(error: Json)
    | Other(error: Json)        // whatever else a remote answers

  datatype Response = Success(result: Json) | Failure(error: Error)

  /** What a schema makes of a value; `received` drops the keys `output` does not declare. */
  datatype Spec = Spec(kind: Kind, input: Json -> Option<Json>, output: Json -> Option<Json>,
                       received: Json -> Option<Json>)

  /** A phase's handler: none, one that returns - a value or nothing - or one that throws. */
  datatype Handler = Absent | Returns(value: Option<Json>) | Throws(error: Json)

  datatype Data = Data(
    kind: Kind,
    phase: Phase,
    step: Step,
    input: Json,
    output: Json,
    error: Option<Error>,
    request: bool,
    response: Option<Response>)

  // ----- The tables -----

  predicate PhaseOf(kind: Kind, phase: Phase) {
    match kind
    case RequestResponse => !phase.SendNote? && !phase.ReceiveNote? && !phase.Execute?
    case RemoteNotification => phase.SendNote? || phase.ReceiveNote?
    case LocalCall => phase.Execute?
  }

  predicate StepAllowed(from: Step, to: Step) {
    match from
    case Initial => to.Parsed? || to.Failed?
    case Parsed => to.Handling? || to.Failed?
    case Handling => to.Handled? || to.Failed?
    case _ => false
  }

  function NextPhase(phase: Phase): Option<Phase> {
    match phase
    case SendRequest => Some(ReceiveResponse)
    case ReceiveRequest => Some(SendResponse)
    case _ => None
  }

  predicate IsErrorPhase(phase: Phase) {
    phase.SendError? || phase.ReceiveError?
  }

  function ErrorPhase(d: Data): Option<Phase> {
    if !d.kind.RequestResponse? then None
    else
      match d.phase
      case SendRequest => Some(SendError)
      case ReceiveRequest => Some(SendError)
      case ReceiveResponse => Some(ReceiveError)
      case _ => None
  }

  predicate ShouldValidateOutput(kind: Kind, phase: Phase) {
    || (kind.RequestResponse? && (phase.ReceiveRequest? || phase.ReceiveResponse?))
    || (kind.LocalCall? && phase.Execute?)
  }

  predicate IsComplete(d: Data) {
    d.step.Failed? || (d.step.Handled? && NextPhase(d.phase).None?)
  }

  // ----- Moves -----

  function At(d: Data, step: Step): Data
    requires StepAllowed(d.step, step)
  {
    d.(step := step)
  }

  function FailedWith(d: Data, error: Error): Data
    requires StepAllowed(d.step, Failed)
  {
    At(d, Failed).(error := Some(error))
  }

  function InErrorPhase(d: Data, phase: Phase, error: Error): Data {
    d.(phase := phase, step := Parsed, error := Some(error), output := NULL)
  }

  function NewData(kind: Kind, phase: Phase, input: Json): Data {
    Data(kind, phase, Initial, input, NULL, None, false, None)
  }

  function ParsedData(d: Data, spec: Spec): Data
    requires d.step.Initial?
  {
    if d.response.Some? && d.response.value.Failure? then
      var error := d.response.value.error;
      if d.kind.RequestResponse? && d.phase.ReceiveResponse?
      then InErrorPhase(d, ReceiveError, error)
      else FailedWith(d, error)
    else if d.kind.RequestResponse? && d.phase.ReceiveResponse? then
      match spec.received(d.output)
      case Some(value) => At(d, Parsed).(output := value)
      case None => InErrorPhase(d, ReceiveError, ResponseOutputInvalid)
    else if d.kind.RequestResponse? && d.phase.SendResponse? then At(d, Parsed)
    else
      match spec.input(d.input)
      case Some(value) => At(d, Parsed).(input := value)
      case None => FailedWith(d, InvalidParams)
  }

  function HandlingData(d: Data): Data
    requires d.step.Parsed?
  {
    At(d, Handling).(request := d.request || (d.kind.RequestResponse? && d.phase.SendRequest?))
  }

  function Completed(d: Data, spec: Spec, value: Option<Json>): Data
    requires d.step.Handling?
  {
    if value.Some? && ShouldValidateOutput(d.kind, d.phase) then
      match spec.output(value.value)
      case Some(parsed) => At(d, Handled).(output := parsed)
      case None => FailedWith(d, InvalidOutput)
    else At(d, Handled)
  }

  function ThrownBy(d: Data, error: Error): Data
    requires d.step.Handling?
  {
    if IsErrorPhase(d.phase) || ErrorPhase(d).None?
    then FailedWith(d, error)
    else InErrorPhase(d, ErrorPhase(d).value, error)
  }

  /** The handler's outcome, the event standing at `handling`. */
  function HandledData(d: Data, spec: Spec, handler: Handler): Data
    requires d.step.Handling?
  {
    match handler
    case Absent => At(d, Handled)
    case Returns(value) => Completed(d, spec, value)
    case Throws(error) => ThrownBy(d, Thrown(error))
  }

  function AfterHandling(d: Data, spec: Spec, handler: Handler): Data
    requires d.step.Parsed? || d.step.Failed?
  {
    if d.step.Failed? then d else HandledData(HandlingData(d), spec, handler)
  }

  /** The response a handled request is answered with. */
  function ResponseOf(d: Data): Response {
    if d.error.Some? then Failure(d.error.value) else Success(d.output)
  }

  function PhaseData(d: Data, phase: Phase): Data {
    var base := NewData(d.kind, phase, d.input);
    if !d.kind.RequestResponse? || !d.request then base
    else if phase.ReceiveResponse? then base.(request := true)
    else if phase.SendResponse? then base.(request := true, output := d.output, response := Some(ResponseOf(d)))
    else base
  }

  function WithRequest(d: Data): Data {
    d.(request := true)
  }

  function WithResponse(d: Data, r: Response): Data {
    d.(response := Some(r), output := if r.Success? then r.result else NULL)
  }

  // ----- What every move keeps -----

  function PhaseRank(phase: Phase): nat {
    if IsErrorPhase(phase) then 2 else if phase.ReceiveResponse? || phase.SendResponse? then 1 else 0
  }

  function StepRank(step: Step): nat {
    match step
    case Initial => 0
    case Parsed => 1
    case Handling => 2
    case Handled => 3
    case Failed => 4
  }

  /** Later in the lifecycle: by phase, then by step. */
  predicate Advances(d: Data, e: Data) {
    || PhaseRank(d.phase) < PhaseRank(e.phase)
    || (PhaseRank(d.phase) == PhaseRank(e.phase) && StepRank(d.step) < StepRank(e.step))
  }

  predicate Ok(d: Data) {
    && PhaseOf(d.kind, d.phase)
    && (d.error.Some? <==> d.step.Failed? || IsErrorPhase(d.phase))
    && (IsErrorPhase(d.phase) ==> !d.step.Initial?)
  }

  /** Parsing moves the event on, whatever it parses. */
  lemma ParseAdvances(d: Data, spec: Spec)
    requires Ok(d) && d.step.Initial?
    ensures Ok(ParsedData(d, spec)) && Advances(d, ParsedData(d, spec))
  {
  }

  /** Handling moves it twice, and every outcome is later than `handling` - a throw by way of the phase. */
  lemma HandleAdvances(d: Data, spec: Spec, handler: Handler)
    requires Ok(d) && d.step.Parsed?
    ensures var h, e := HandlingData(d), AfterHandling(d, spec, handler);
            Ok(h) && Advances(d, h) && Ok(e) && Advances(h, e)
  {
  }

  lemma TransitionAdvances(d: Data, phase: Phase)
    requires Ok(d) && d.step.Handled? && NextPhase(d.phase) == Some(phase)
    ensures Ok(PhaseData(d, phase)) && Advances(d, PhaseData(d, phase)) && PhaseData(d, phase).step.Initial?
  {
  }

  // ----- The result of a call -----

  datatype Result = Value(value: Json) | Err(error: Error)

  /** The terminal result; `None` where the source throws: an event that has not come to its end. */
  function Extracted(d: Data): Option<Result> {
    if d.error.Some? then Some(Err(d.error.value))
    else if d.step.Handled? then Some(Value(d.output))
    else None
  }

  /** The handler one side's environment looks up for each phase. */
  type Handlers = Phase -> Handler

  function Handle(d: Data, spec: Spec, hs: Handlers): Data
    requires d.step.Parsed? || d.step.Failed?
  {
    AfterHandling(d, spec, hs(d.phase))
  }

  /** A request's event up to where it is sent, or ends early. */
  function BeforeSend(spec: Spec, hs: Handlers, input: Json): Data
    requires spec.kind.RequestResponse?
  {
    Handle(ParsedData(NewData(RequestResponse, SendRequest, input), spec), spec, hs)
  }

  /** The whole call: what the event has become when the result is read. */
  function Called(spec: Spec, hs: Handlers, input: Json, response: Response): Data
    requires spec.kind.RequestResponse?
  {
    var sent := BeforeSend(spec, hs, input);
    if sent.phase.SendError? then Handle(sent, spec, hs)
    else if !sent.step.Handled? then sent
    else Handle(ParsedData(WithResponse(PhaseData(sent, ReceiveResponse), response), spec), spec, hs)
  }

  predicate Throwing(h: Handler) {
    h.Throws?
  }

  /** The send went out: the input parses and its handler does not throw. */
  predicate Sends(spec: Spec, hs: Handlers, input: Json) {
    spec.input(input).Some? && !Throwing(hs(SendRequest))
  }

  /** What the receive handler leaves of the parsed result: it may replace it, validly or not, or throw. */
  function Kept(spec: Spec, h: Handler, received: Json): Option<Json> {
    match h
    case Absent => Some(received)
    case Returns(value) => if value.Some? then spec.output(value.value) else Some(received)
    case Throws(_) => None
  }

  lemma SendOutcome(spec: Spec, hs: Handlers, input: Json)
    requires spec.kind.RequestResponse?
    ensures var d := BeforeSend(spec, hs, input);
            && Ok(d) && d.kind.RequestResponse?
            && (Sends(spec, hs, input) <==> d.step.Handled? && d.phase.SendRequest? && d.error.None?)
            && (spec.input(input).None? ==> d.step.Failed? && d.phase.SendRequest? && d.error == Some(InvalidParams))
            && (spec.input(input).Some? && Throwing(hs(SendRequest)) ==>
                  d.step.Parsed? && d.phase.SendError? && d.error == Some(Thrown(hs(SendRequest).error)))
            && (d.step.Handled? ==> d.request && d.response.None?)
  {
  }

  predicate ReceiveThrows(spec: Spec, hs: Handlers, response: Response) {
    response.Success? && spec.received(response.result).Some? && Throwing(hs(ReceiveResponse))
  }

  lemma ReceiveOutcome(spec: Spec, hs: Handlers, d: Data, response: Response)
    requires Ok(d) && d.kind.RequestResponse? && d.phase.ReceiveResponse? && d.step.Initial? && d.response.None?
    ensures var e := Handle(ParsedData(WithResponse(d, response), spec), spec, hs);
            && Ok(e)
            && (IsComplete(e) <==> !ReceiveThrows(spec, hs, response))
            && (response.Failure? ==> e.error.Some? && e.phase.ReceiveError?)
            && (response.Success? && spec.received(response.result).None? ==> e.error.Some? && e.phase.ReceiveError?)
            && (response.Success? && spec.received(response.result).Some? ==>
                  match Kept(spec, hs(ReceiveResponse), spec.received(response.result).value)
                  case Some(value) => e.error.None? && e.step.Handled? && e.output == value
                  case None => e.error.Some?)
  {
  }

  /**
   * A call always comes to a result, for every response and every handler that returns, throws or is
   * absent - and it is a value exactly when the request was sent, the remote answered success, its
   * result parses against the output schema, and the receive handler let it stand.
   */
  lemma CallAlwaysResults(spec: Spec, hs: Handlers, input: Json, response: Response)
    requires spec.kind.RequestResponse?
    ensures var d := Called(spec, hs, input, response);
            var good := && Sends(spec, hs, input) && response.Success? && spec.received(response.result).Some?
                        && Kept(spec, hs(ReceiveResponse), spec.received(response.result).value).Some?;
            && Extracted(d).Some?
            && (Extracted(d).value.Value? <==> good)
            && (good ==>
                  Some(Extracted(d).value.value) ==
                  Kept(spec, hs(ReceiveResponse), spec.received(response.result).value))
            && (d.error.Some? <==> d.step.Failed? || IsErrorPhase(d.phase))
  {
    SendOutcome(spec, hs, input);
    var sent := BeforeSend(spec, hs, input);
    if sent.phase.SendError? {
      HandleAdvances(sent, spec, hs(SendError));
    } else if sent.step.Handled? {
      TransitionAdvances(sent, ReceiveResponse);
      ReceiveOutcome(spec, hs, PhaseData(sent, ReceiveResponse), response);
    }
  }

  /**
   * The result comes from an event at its end exactly when no receive handler threw. One that did
   * leaves it waiting in its error phase, whose handler the call never runs.
   */
  lemma CallCompletes(spec: Spec, hs: Handlers, input: Json, response: Response)
    requires spec.kind.RequestResponse?
    ensures var d := Called(spec, hs, input, response);
            && (IsComplete(d) <==> !(Sends(spec, hs, input) && ReceiveThrows(spec, hs, response)))
            && (!IsComplete(d) ==> d.phase.ReceiveError? && d.step.Parsed?)
  {
    SendOutcome(spec, hs, input);
    var sent := BeforeSend(spec, hs, input);
    if sent.step.Handled? {
      TransitionAdvances(sent, ReceiveResponse);
      ReceiveOutcome(spec, hs, PhaseData(sent, ReceiveResponse), response);
    }
  }

  /** Which error a failed call reports: the first thing that went wrong, or what its own error handler threw. */
  lemma CallError(spec: Spec, hs: Handlers, input: Json, response: Response)
    requires spec.kind.RequestResponse?
    ensures var d := Called(spec, hs, input, response);
            && (spec.input(input).None? ==> Extracted(d) == Some(Err(InvalidParams)))
            && (spec.input(input).Some? && Throwing(hs(SendRequest)) ==>
                  Extracted(d) == Some(Err(Thrown(if Throwing(hs(SendError)) then hs(SendError).error
                                                  else hs(SendRequest).error))))
            && (Sends(spec, hs, input) && response.Failure? ==>
                  Extracted(d) == Some(Err(if Throwing(hs(ReceiveError)) then Thrown(hs(ReceiveError).error)
                                           else response.error)))
            && (Sends(spec, hs, input) && response.Success? && spec.received(response.result).None? ==>
                  Extracted(d) == Some(Err(if Throwing(hs(ReceiveError)) then Thrown(hs(ReceiveError).error)
                                           else ResponseOutputInvalid)))
            && (Sends(spec, hs, input) && ReceiveThrows(spec, hs, response) ==>
                  Extracted(d) == Some(Err(Thrown(hs(ReceiveResponse).error))))
  {
    SendOutcome(spec, hs, input);
  }

  // ----- The other side -----

  /** A request received, up to where its handler has run. */
  function Received(spec: Spec, hs: Handlers, input: Json): Data
    requires spec.kind.RequestResponse?
  {
    Handle(ParsedData(WithRequest(NewData(RequestResponse, ReceiveRequest, input)), spec), spec, hs)
  }

  /** What a request received is answered with. */
  function Served(spec: Spec, hs: Handlers, input: Json): Response
    requires spec.kind.RequestResponse?
  {
    var d := Received(spec, hs, input);
    if d.step.Handled? then
      var sent := Handle(ParsedData(PhaseData(d, SendResponse), spec), spec, hs);
      if sent.response.Some? then sent.response.value else Failure(UNKNOWN)
    else if d.step.Failed? && d.error.Some? then Failure(d.error.value)
    else if d.phase.SendError? then
      var e := Handle(d, spec, hs).error;
      Failure(if e.Some? then e.value else UNKNOWN)
    else Failure(UNKNOWN)
  }

  /**
   * A request is answered with what its handler returned, once that passes the output schema - and
   * nothing returned is null, unchecked. It is refused when its input does not parse, and a throw is
   * reported unless the error phase's own handler throws too. A throw while the response is being
   * sent changes nothing.
   */
  lemma ServedOutcome(spec: Spec, hs: Handlers, input: Json)
    requires spec.kind.RequestResponse?
    ensures Served(spec, hs, input) ==
            if spec.input(input).None? then Failure(InvalidParams)
            else
              match hs(ReceiveRequest)
              case Absent => Success("null")
              case Returns(None) => Success("null")
              case Returns(Some(value)) =>
                if spec.output(value).Some? then Success(spec.output(value).value) else Failure(InvalidOutput)
              case Throws(error) => Failure(Thrown(if Throwing(hs(SendError)) then hs(SendError).error else error))
  {
  }

  /**
   * From one side to the other: the caller is handed the value exactly when its input parses on both
   * sides, neither the sending, the serving nor the receiving handler throws, and what is served
   * passes the output schema on its own side and then, as the receiving handler leaves it, on the caller's.
   */
  lemma CallEndToEnd(spec: Spec, client: Handlers, server: Handlers, input: Json, handed: Json)
    requires spec.kind.RequestResponse?
    ensures var sent := BeforeSend(spec, client, input);
            var d := Called(spec, client, input, Served(spec, server, sent.input));
            Extracted(d) == Some(Value(handed)) <==>
            && Sends(spec, client, input)
            && spec.input(spec.input(input).value).Some?
            && var reply := Replied(spec, server(ReceiveRequest));
               && reply.Some? && spec.received(reply.value).Some?
               && Kept(spec, client(ReceiveResponse), spec.received(reply.value).value) == Some(handed)
  {
    var sent := BeforeSend(spec, client, input);
    assert spec.input(input).Some? && sent.step.Handled? ==> sent.input == spec.input(input).value;
    ServedOutcome(spec, server, sent.input);
    SendOutcome(spec, client, input);
    CallAlwaysResults(spec, client, input, Served(spec, server, sent.input));
  }

  /** What a handler replies with: its value, if the schema takes it, or null for nothing. */
  function Replied(spec: Spec, h: Handler): Option<Json> {
    match h
    case Absent => Some("null")
    case Returns(value) => if value.Some? then spec.output(value.value) else Some("null")
    case Throws(_) => None
  }

  /** A local call is its input parsed, its handler run and its output checked, and any of them can fail it. */
  lemma LocalCallOutcome(spec: Spec, hs: Handlers, input: Json)
    requires spec.kind.LocalCall?
    ensures Extracted(Handle(ParsedData(NewData(LocalCall, Execute, input), spec), spec, hs)) ==
            if spec.input(input).None? then Some(Err(InvalidParams))
            else
              match hs(Execute)
              case Absent => Some(Value("null"))
              case Returns(None) => Some(Value("null"))
              case Returns(Some(value)) =>
                Some(if spec.output(value).Some? then Value(spec.output(value).value) else Err(InvalidOutput))
              case Throws(error) => Some(Err(Thrown(error)))
  {
  }

  /** A notification goes out, or is taken in, exactly when it parses and its handler does not throw. */
  lemma NotificationOutcome(spec: Spec, hs: Handlers, phase: Phase, input: Json)
    requires spec.kind.RemoteNotification? && PhaseOf(RemoteNotification, phase)
    ensures var d := Handle(ParsedData(NewData(RemoteNotification, phase, input), spec), spec, hs);
            && IsComplete(d)
            && (spec.input(input).None? ==> Extracted(d) == Some(Err(InvalidParams)))
            && (spec.input(input).Some? && Throwing(hs(phase)) ==> Extracted(d) == Some(Err(Thrown(hs(phase).error))))
            && (spec.input(input).Some? && !Throwing(hs(phase)) ==>
                  d == NewData(RemoteNotification, phase, spec.input(input).value).(step := Handled))
  {
  }

  // ----- The event -----

  /** The two differ at most in what the setters of the messages fill in. */
  predicate SamePlace(d: Data, e: Data) {
    d.(request := e.request, response := e.response, output := e.output) == e
  }

  predicate Advancing(trace: seq<Data>) {
    |trace| <= 1 || (Advancing(trace[..|trace| - 1]) && Advances(trace[|trace| - 2], trace[|trace| - 1]))
  }

  /** An event takes at most fifteen places, so every run of one comes to an end. */
  lemma {:induction false} RunsAreShort(trace: seq<Data>)
    requires trace != [] && Advancing(trace)
    ensures |trace| - 1 <= 5 * PhaseRank(trace[|trace| - 1].phase) + StepRank(trace[|trace| - 1].step)
    ensures |trace| <= 15
  {
    if |trace| > 1 {
      RunsAreShort(trace[..|trace| - 1]);
    }
  }

  /** The event object: each method replaces its data, and `trace` records every step it was replaced at. */
  class ActionEvent {
    const spec: Spec
    var data: Data
    ghost var trace: seq<Data>

    ghost predicate Valid()
      reads this
    {
      && Ok(data) && data.kind == spec.kind
      && trace != [] && SamePlace(trace[|trace| - 1], data)
      && Advancing(trace)
    }

    constructor (spec: Spec, phase: Phase, input: Json)
      requires PhaseOf(spec.kind, phase) && !IsErrorPhase(phase)
      ensures Valid() && data == NewData(spec.kind, phase, input) && this.spec == spec
    {
      this.spec := spec;
      data := NewData(spec.kind, phase, input);
      trace := [NewData(spec.kind, phase, input)];
    }

    /** Every later record stands later in the lifecycle. */
    method SetData(next: Data)
      requires Valid() && Ok(next) && next.kind == spec.kind && Advances(data, next)
      modifies this
      ensures Valid() && data == next && trace == old(trace) + [next]
    {
      assert trace[|trace| - 1].phase == data.phase && trace[|trace| - 1].step == data.step
          && trace[|trace| - 1].kind == data.kind && trace[|trace| - 1].error == data.error;
      assert (trace + [next])[..|trace|] == trace;
      data := next;
      trace := trace + [next];
    }

    /** `false` where the source throws: only an event at `initial` parses. */
    method Parse() returns (legal: bool)
      requires Valid()
      modifies this
      ensures Valid() && (legal <==> old(data).step.Initial?)
      ensures data == if legal then ParsedData(old(data), spec) else old(data)
    {
      legal := data.step.Initial?;
      if legal {
        ParseAdvances(data, spec);
        SetData(ParsedData(data, spec));
      }
    }

    method HandleAsync(handler: Handler) returns (legal: bool)
      requires Valid()
      modifies this
      ensures Valid() && (legal <==> old(data).step.Parsed? || old(data).step.Failed?)
      ensures data == if legal then AfterHandling(old(data), spec, handler) else old(data)
    {
      if data.step.Failed? {
        return true;
      }
      if !data.step.Parsed? {
        return false;
      }
      HandleAdvances(data, spec, handler);
      SetData(HandlingData(data));
      match handler {
        case Absent => SetData(At(data, Handled));
        case Returns(value) => SetData(Completed(data, spec, value));
        case Throws(error) => SetData(ThrownBy(data, Thrown(error)));
      }
      legal := true;
    }

    method Transition(phase: Phase) returns (legal: bool)
      requires Valid()
      modifies this
      ensures Valid()
      ensures legal <==>
                old(data).step.Failed? || (old(data).step.Handled? && NextPhase(old(data).phase) == Some(phase))
      ensures data == if legal && !old(data).step.Failed? then PhaseData(old(data), phase) else old(data)
    {
      if data.step.Failed? {
        return true;
      }
      legal := data.step.Handled? && NextPhase(data.phase) == Some(phase);
      if legal {
        TransitionAdvances(data, phase);
        SetData(PhaseData(data, phase));
      }
    }

    method SetRequest() returns (legal: bool)
      requires Valid()
      modifies this
      ensures Valid()
      ensures legal <==> old(data).kind.RequestResponse? && old(data).phase.ReceiveRequest? && old(data).step.Initial?
      ensures data == if legal then WithRequest(old(data)) else old(data)
    {
      legal := data.kind.RequestResponse? && data.phase.ReceiveRequest? && data.step.Initial?;
      if legal {
        data := WithRequest(data);
      }
    }

    method SetResponse(r: Response) returns (legal: bool)
      requires Valid()
      modifies this
      ensures Valid()
      ensures legal <==> old(data).kind.RequestResponse? && old(data).phase.ReceiveResponse? && old(data).step.Initial?
      ensures data == if legal then WithResponse(old(data), r) else old(data)
    {
      legal := data.kind.RequestResponse? && data.phase.ReceiveResponse? && data.step.Initial?;
      if legal {
        data := WithResponse(data, r);
      }
    }
  }

  /** The client's request: every move it makes is legal, and it returns the call's result. */
  method RequestMethod(spec: Spec, hs: Handlers, input: Json, response: Response) returns (result: Result)
    requires spec.kind.RequestResponse?
    ensures Some(result) == Extracted(Called(spec, hs, input, response))
  {
    CallAlwaysResults(spec, hs, input, response);
    SendOutcome(spec, hs, input);
    var event := new ActionEvent(spec, SendRequest, input);
    var parsed := event.Parse();
    var handled := event.HandleAsync(hs(event.data.phase));
    assert parsed && handled && event.data == BeforeSend(spec, hs, input);
    if event.data.phase.SendError? {
      var again := event.HandleAsync(hs(event.data.phase));
      assert again;
    } else if event.data.step.Handled? {
      var moved := event.Transition(ReceiveResponse);
      var responded := event.SetResponse(response);
      var read := event.Parse();
      var received := event.HandleAsync(hs(event.data.phase));
      assert moved && responded && read && received;
    }
    result := Extracted(event.data).value;
  }

  /** The other side's receiver: every move it makes is legal too, and it always has a response to return. */
  method ReceiveRequestMethod(spec: Spec, hs: Handlers, input: Json) returns (response: Response)
    requires spec.kind.RequestResponse?
    ensures response == Served(spec, hs, input)
  {
    var event := new ActionEvent(spec, ReceiveRequest, input);
    var requested := event.SetRequest();
    var parsed := event.Parse();
    var handled := event.HandleAsync(hs(event.data.phase));
    assert requested && parsed && handled && event.data == Received(spec, hs, input);
    ServedOutcome(spec, hs, input);
    if event.data.step.Handled? {
      var moved := event.Transition(SendResponse);
      var read := event.Parse();
      var sent := event.HandleAsync(hs(event.data.phase));
      assert moved && read && sent;
      return event.data.response.value;
    }
    if event.data.phase.SendError? {
      var again := event.HandleAsync(hs(event.data.phase));
      assert again;
    }
    response := Failure(event.data.error.value);
  }
}

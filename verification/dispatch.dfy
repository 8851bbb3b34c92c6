/** `Isso.dispatch`: route a request, invoke the matched handler and translate its
    failures into responses. The router and the handlers are opaque: the routing
    result and the handler's outcome are inputs. */
module Dispatch {
  import opened Outcomes
  import opened Logs

  /** The parts of a request that dispatch reads itself: the HTTP method (`verb`) and
      `environ["PATH_INFO"]`, which a WSGI server may leave out when it is empty. */
  datatype Request = Request(verb: string, pathInfo: Option<string>)

  /** A werkzeug `HTTPException`, identified by its status code and name. */
  datatype HttpException = HttpException(code: nat, name: string)

  /** werkzeug's `InternalServerError()`. */
  const InternalServerError: HttpException := HttpException(500, "Internal Server Error")

  /** The keyword arguments a matched rule extracts from the path. */
  type Params = map<string, string>

  /** What `adapter.match()` does: return a handler with its values, or raise an
      `HTTPException` (not found, method not allowed, redirect, ...). */
  datatype RouteMatch<H> = Matched(handler: H, values: Params) | RoutingError(error: HttpException)

  /** What calling a handler does: return a response, raise an `HTTPException`, raise
      any other `Exception`, or raise a `BaseException` that is not an `Exception`
      (`KeyboardInterrupt`, `SystemExit`, `GeneratorExit`). Exceptions are described
      by their text. */
  datatype HandlerOutcome<Resp> =
    | Returned(response: Resp)
    | RaisedHttp(error: HttpException)
    | RaisedOther(exception: string)
    | RaisedBase(exception: string)

  /** What dispatch does: return the handler's response, return an `HTTPException`
      (which werkzeug also serves as a response), or let an exception escape. */
  datatype Reply<Resp> =
    | Response(response: Resp)
    | ErrorResponse(error: HttpException)
    | Propagated(exception: string)

  /** The `KeyError` raised when the catch-all reads a missing `PATH_INFO`. */
  const MissingPathInfo: string := "KeyError: 'PATH_INFO'"

  /** The reply together with the handler invocations made and the records logged. */
  datatype Dispatched<H, Resp> = Dispatched(reply: Reply<Resp>, invoked: seq<(H, Params)>, log: seq<LogEntry>)

  /** The record `logger.exception("%s %s", method, PATH_INFO)` writes for a failed handler. */
  function HandlerFailureEntry(verb: string, path: string, exception: string): LogEntry {
    LogEntry(Error, verb + " " + path, Some(exception))
  }

  /** What the `except Exception` branch does: log and return a 500, or, when the
      environ has no `PATH_INFO`, raise `KeyError` while building the log arguments,
      before anything is logged. */
  function CatchAllReply<Resp>(request: Request, exception: string): (Reply<Resp>, seq<LogEntry>) {
    match request.pathInfo
    case Some(path) => (ErrorResponse(InternalServerError), [HandlerFailureEntry(request.verb, path, exception)])
    case None => (Propagated(MissingPathInfo), [])
  }

  /** The catch-all branch: a handler `Exception` other than an `HTTPException`. */
  predicate CatchAll<H, Resp>(route: RouteMatch<H>, invoke: (H, Params) -> HandlerOutcome<Resp>) {
    route.Matched? && invoke(route.handler, route.values).RaisedOther?
  }

  function Dispatch<H, Resp>(request: Request, route: RouteMatch<H>,
                             invoke: (H, Params) -> HandlerOutcome<Resp>): (r: Dispatched<H, Resp>)
    ensures |r.invoked| <= 1 && |r.log| <= 1
    ensures r.invoked == [] <==> route.RoutingError?
    ensures r.log != [] <==> CatchAll(route, invoke) && request.pathInfo.Some?
    ensures r.reply.ErrorResponse? && r.reply.error != InternalServerError ==> r.log == []
    ensures r.reply.Propagated? <==>
      route.Matched? && (invoke(route.handler, route.values).RaisedBase? || (CatchAll(route, invoke) && request.pathInfo.None?))
  {
    match route
    case RoutingError(e) => Dispatched(ErrorResponse(e), [], [])
    case Matched(handler, values) =>
      var call := [(handler, values)];
      match invoke(handler, values)
      case Returned(resp) => Dispatched(Response(resp), call, [])
      case RaisedHttp(e) => Dispatched(ErrorResponse(e), call, [])
      case RaisedOther(x) =>
        var (reply, log) := CatchAllReply(request, x);
        Dispatched(reply, call, log)
      case RaisedBase(x) => Dispatched(Propagated(x), call, [])
  }

  /** A routing failure is returned as it was raised; no handler runs and nothing is logged. */
  lemma RoutingErrorPassesThrough<H, Resp>(request: Request, e: HttpException,
                                          invoke: (H, Params) -> HandlerOutcome<Resp>)
    ensures Dispatch(request, RoutingError(e), invoke) == Dispatched(ErrorResponse(e), [], [])
  {
  }

  /** After a successful match the handler runs exactly once, with the matched values;
      what it returns, or the `HTTPException` it raises, is the reply, and nothing is logged. */
  lemma HandlerOutcomePassesThrough<H, Resp>(request: Request, handler: H, values: Params,
                                            invoke: (H, Params) -> HandlerOutcome<Resp>)
    requires invoke(handler, values).Returned? || invoke(handler, values).RaisedHttp?
    ensures var r := Dispatch(request, Matched(handler, values), invoke);
      && r.invoked == [(handler, values)]
      && r.log == []
      && (invoke(handler, values).Returned? ==> r.reply == Response(invoke(handler, values).response))
      && (invoke(handler, values).RaisedHttp? ==> r.reply == ErrorResponse(invoke(handler, values).error))
  {
  }

  /** Any other handler `Exception` becomes a 500 with exactly one error record naming the
      method and the path; the exception travels in the record, never in the reply. */
  lemma UnexpectedFailureIs500<H, Resp>(request: Request, route: RouteMatch<H>,
                                       invoke: (H, Params) -> HandlerOutcome<Resp>)
    requires CatchAll(route, invoke)
    requires request.pathInfo.Some?
    ensures var r := Dispatch(request, route, invoke);
      && r.reply == ErrorResponse(InternalServerError)
      && |r.log| == 1
      && r.log[0].level == Error
      && r.log[0].message == request.verb + " " + request.pathInfo.value
      && r.log[0].exception == Some(invoke(route.handler, route.values).exception)
  {
  }

  /** A handler `Exception` on a request whose environ lacks `PATH_INFO`: formatting the
      log arguments raises `KeyError`, which escapes dispatch with nothing logged. */
  lemma MissingPathInfoEscapes<H, Resp>(request: Request, route: RouteMatch<H>,
                                       invoke: (H, Params) -> HandlerOutcome<Resp>)
    requires CatchAll(route, invoke)
    requires request.pathInfo.None?
    ensures var r := Dispatch(request, route, invoke);
      r.reply == Propagated(MissingPathInfo) && r.log == [] && |r.invoked| == 1
  {
  }

  /** A `BaseException` that is not an `Exception` passes `except Exception` untouched:
      it escapes dispatch unchanged, with no 500 and no record. */
  lemma BaseExceptionEscapes<H, Resp>(request: Request, handler: H, values: Params,
                                     invoke: (H, Params) -> HandlerOutcome<Resp>)
    requires invoke(handler, values).RaisedBase?
    ensures var r := Dispatch(request, Matched(handler, values), invoke);
      && r.reply == Propagated(invoke(handler, values).exception)
      && r.log == []
      && r.invoked == [(handler, values)]
  {
  }

  /** Two handlers that fail with different unexpected exceptions produce the same reply:
      the reply carries nothing of the exception. */
  lemma ReplyHidesException<H, Resp>(request: Request, route: RouteMatch<H>,
                                    invoke1: (H, Params) -> HandlerOutcome<Resp>,
                                    invoke2: (H, Params) -> HandlerOutcome<Resp>)
    requires CatchAll(route, invoke1) && CatchAll(route, invoke2)
    requires request.pathInfo.Some?
    ensures Dispatch(request, route, invoke1).reply == Dispatch(request, route, invoke2).reply
  {
  }

  // A small-step reading of the per-request life cycle,
  // Received -> Routed -> Invoked -> Responded, with ErrorResponded absorbing
  // failures raised by matching or by the handler, and Escaped absorbing
  // exceptions that leave dispatch.

  datatype Phase<H, Resp> =
    | Received(route: RouteMatch<H>)
    | Routed(handler: H, values: Params)
    | Invoked(outcome: HandlerOutcome<Resp>)
    | Responded(reply: Reply<Resp>)
    | ErrorResponded(reply: Reply<Resp>)
    | Escaped(reply: Reply<Resp>)
  {
    predicate Terminal() { Responded? || ErrorResponded? || Escaped? }
  }

  datatype Machine<H, Resp> = Machine(phase: Phase<H, Resp>, invoked: seq<(H, Params)>, log: seq<LogEntry>)

  function Step<H, Resp>(request: Request, invoke: (H, Params) -> HandlerOutcome<Resp>,
                         m: Machine<H, Resp>): Machine<H, Resp>
  {
    match m.phase
    case Received(RoutingError(e)) => m.(phase := ErrorResponded(ErrorResponse(e)))
    case Received(Matched(h, v)) => m.(phase := Routed(h, v))
    case Routed(h, v) => m.(phase := Invoked(invoke(h, v)), invoked := m.invoked + [(h, v)])
    case Invoked(Returned(resp)) => m.(phase := Responded(Response(resp)))
    case Invoked(RaisedHttp(e)) => m.(phase := ErrorResponded(ErrorResponse(e)))
    case Invoked(RaisedOther(x)) =>
      if request.pathInfo.Some? then
        m.(phase := ErrorResponded(ErrorResponse(InternalServerError)),
           log := m.log + [HandlerFailureEntry(request.verb, request.pathInfo.value, x)])
      else m.(phase := Escaped(Propagated(MissingPathInfo)))
    case Invoked(RaisedBase(x)) => m.(phase := Escaped(Propagated(x)))
    case Responded(_) => m
    case ErrorResponded(_) => m
    case Escaped(_) => m
  }

  function Run<H, Resp>(request: Request, invoke: (H, Params) -> HandlerOutcome<Resp>,
                        m: Machine<H, Resp>, steps: nat): Machine<H, Resp>
    decreases steps
  {
    if steps == 0 then m else Run(request, invoke, Step(request, invoke, m), steps - 1)
  }

  /** Once a reply is produced the machine stays put. */
  lemma {:induction false} TerminalIsStable<H, Resp>(request: Request,
                                                    invoke: (H, Params) -> HandlerOutcome<Resp>,
                                                    m: Machine<H, Resp>, steps: nat)
    requires m.phase.Terminal()
    ensures Run(request, invoke, m, steps) == m
  {
    if steps > 0 {
      assert Step(request, invoke, m) == m;
      TerminalIsStable(request, invoke, m, steps - 1);
    }
  }

  /** Dispatch is the life-cycle machine run to completion: after three steps, and
      after any number of further steps, the machine has produced dispatch's reply,
      made the same handler calls and written the same records; the error-absorbing
      state is reached exactly when the reply is an `HTTPException`, and the escape
      state exactly when an exception leaves dispatch. */
  lemma {:induction false} DispatchRunsLifeCycle<H, Resp>(request: Request, route: RouteMatch<H>,
                                                         invoke: (H, Params) -> HandlerOutcome<Resp>,
                                                         extra: nat)
    ensures var m := Run(request, invoke, Machine(Received(route), [], []), 3 + extra);
      var d := Dispatch(request, route, invoke);
      && m.phase.Terminal()
      && m.phase.reply == d.reply
      && m.invoked == d.invoked
      && m.log == d.log
      && (m.phase.ErrorResponded? <==> d.reply.ErrorResponse?)
      && (m.phase.Escaped? <==> d.reply.Propagated?)
  {
    var m0 := Machine(Received(route), [], []);
    var m1 := Step(request, invoke, m0);
    var m2 := Step(request, invoke, m1);
    var m3 := Step(request, invoke, m2);
    assert Run(request, invoke, m0, 3 + extra) == Run(request, invoke, m1, 2 + extra);
    assert Run(request, invoke, m1, 2 + extra) == Run(request, invoke, m2, 1 + extra);
    assert Run(request, invoke, m2, 1 + extra) == Run(request, invoke, m3, extra);
    TerminalIsStable(request, invoke, m3, extra);
  }
}

/**
 The servlet engine's request handler with the thread removed: it binds the
 response and the application into the request, runs the valve chain until
 a valve leaves the request dispatched, records a valve's exception on the
 response, and afterwards turns a fatal last error into a 500 response.

 Valves are foreign code. A valve is modelled by a function from what it
 sees of the exchange (the request's dispatched flag and the response's
 status, body and exception) to its outcome: it returns normally with the
 exchange it leaves behind, or it throws after leaving one.
 */
module ServletEngine {

  datatype Option<T> = None | Some(value: T)

  /** A PHP `\Exception` object. */
  datatype Exception = Exception(className: string, message: string)

  /** The application a request belongs to. */
  datatype Application = Application(name: string)

  /** A processing stage of the chain. */
  datatype Valve = Valve(name: string)

  /** The state of a request/response pair that valves read and write. */
  datatype Exchange = Exchange(dispatched: bool, statusCode: int, body: string, exception: Option<Exception>)

  /** What one valve invocation does. */
  datatype Outcome =
    | Ok(after: Exchange)
    | Throw(thrown: Exception, after: Exchange)

  /** One valve invocation: the valve, the exchange it saw, its outcome. */
  datatype Step = Step(valve: Valve, before: Exchange, outcome: Outcome)

  /** The invocations of one pass over the chain, where it ended, and the exception that ended it, if any. */
  datatype ChainRun = ChainRun(steps: seq<Step>, final: Exchange, thrown: Option<Exception>)

  /** An invocation stops the chain when it throws or leaves the request dispatched. */
  predicate Stops(o: Outcome)
  {
    o.Throw? || o.after.dispatched
  }

  /** The pass over `valves`, in order, starting from exchange `x`. */
  function Chain(valves: seq<Valve>, invoke: (Valve, Exchange) -> Outcome, x: Exchange): ChainRun
    decreases |valves|
  {
    if valves == [] then ChainRun([], x, None)
    else
      var step := Step(valves[0], x, invoke(valves[0], x));
      match step.outcome
      case Throw(e, y) => ChainRun([step], y, Some(e))
      case Ok(y) =>
        if y.dispatched then ChainRun([step], y, None)
        else
          var rest := Chain(valves[1..], invoke, y);
          ChainRun([step] + rest.steps, rest.final, rest.thrown)
  }

  // ---------------------------------------------------------------------------
  // Properties of the chain
  // ---------------------------------------------------------------------------

  /**
   Valves are invoked in array order, each on the exchange its predecessor
   left behind, the first on the starting exchange; the pass ends on the
   last invocation's exchange.
   */
  lemma {:induction false} ChainInOrder(valves: seq<Valve>, invoke: (Valve, Exchange) -> Outcome, x: Exchange)
    ensures var r := Chain(valves, invoke, x);
      && |r.steps| <= |valves|
      && (forall i :: 0 <= i < |r.steps| ==> r.steps[i].valve == valves[i])
      && (forall i :: 0 <= i < |r.steps| ==> r.steps[i].outcome == invoke(valves[i], r.steps[i].before))
      && (|r.steps| > 0 ==> r.steps[0].before == x)
      && (forall i :: 0 < i < |r.steps| ==> r.steps[i].before == r.steps[i - 1].outcome.after)
      && r.final == (if |r.steps| == 0 then x else r.steps[|r.steps| - 1].outcome.after)
    decreases |valves|
  {
    if valves != [] {
      var step := Step(valves[0], x, invoke(valves[0], x));
      if step.outcome.Ok? && !step.outcome.after.dispatched {
        ChainInOrder(valves[1..], invoke, step.outcome.after);
      }
    }
  }

  /**
   No valve is invoked after one that stopped the chain, and the pass stops
   early only because its last invocation stopped it.
   */
  lemma {:induction false} ChainShortCircuits(valves: seq<Valve>, invoke: (Valve, Exchange) -> Outcome, x: Exchange)
    ensures var r := Chain(valves, invoke, x);
      && (forall i :: 0 <= i < |r.steps| - 1 ==> !Stops(r.steps[i].outcome))
      && (|r.steps| < |valves| ==> |r.steps| > 0 && Stops(r.steps[|r.steps| - 1].outcome))
    decreases |valves|
  {
    if valves != [] {
      var step := Step(valves[0], x, invoke(valves[0], x));
      if step.outcome.Ok? && !step.outcome.after.dispatched {
        ChainShortCircuits(valves[1..], invoke, step.outcome.after);
      }
    }
  }

  /** Unfolds the pass over `valves[i..]` by its first invocation. */
  lemma ChainStep(valves: seq<Valve>, invoke: (Valve, Exchange) -> Outcome, i: nat, x: Exchange)
    requires i < |valves|
    ensures var o := invoke(valves[i], x);
      var c := Chain(valves[i..], invoke, x);
      var rest := Chain(valves[i + 1..], invoke, o.after);
      if Stops(o)
      then c == ChainRun([Step(valves[i], x, o)], o.after, if o.Throw? then Some(o.thrown) else None)
      else c == ChainRun([Step(valves[i], x, o)] + rest.steps, rest.final, rest.thrown)
  {
    assert valves[i..][0] == valves[i];
    assert valves[i..][1..] == valves[i + 1..];
  }

  /** When no invocation stops the chain, every valve is invoked exactly once, in order. */
  lemma ChainInvokesAll(valves: seq<Valve>, invoke: (Valve, Exchange) -> Outcome, x: Exchange)
    requires var r := Chain(valves, invoke, x); forall i :: 0 <= i < |r.steps| ==> !Stops(r.steps[i].outcome)
    ensures var r := Chain(valves, invoke, x);
      |r.steps| == |valves| && forall i :: 0 <= i < |valves| ==> r.steps[i].valve == valves[i]
  {
    ChainShortCircuits(valves, invoke, x);
    ChainInOrder(valves, invoke, x);
  }

  /** The pass reports an exception exactly when its last invocation threw it. */
  lemma {:induction false} ChainThrows(valves: seq<Valve>, invoke: (Valve, Exchange) -> Outcome, x: Exchange)
    ensures var r := Chain(valves, invoke, x);
      && (r.thrown.Some? <==> |r.steps| > 0 && r.steps[|r.steps| - 1].outcome.Throw?)
      && (r.thrown.Some? ==> r.thrown.value == r.steps[|r.steps| - 1].outcome.thrown)
    decreases |valves|
  {
    if valves != [] {
      var step := Step(valves[0], x, invoke(valves[0], x));
      if step.outcome.Ok? && !step.outcome.after.dispatched {
        ChainThrows(valves[1..], invoke, step.outcome.after);
      }
    }
  }

  // ---------------------------------------------------------------------------
  // The request and response objects and the handler
  // ---------------------------------------------------------------------------

  /** `E_ERROR` and `E_USER_ERROR`, PHP's fatal error types. */
  const E_ERROR: int := 1
  const E_USER_ERROR: int := 256

  /** The array `error_get_last()` returns. */
  datatype LastError = LastError(errorType: int, message: string)

  predicate IsFatal(lastError: Option<LastError>)
  {
    lastError.Some? && (lastError.value.errorType == E_ERROR || lastError.value.errorType == E_USER_ERROR)
  }

  class Response {
    var statusCode: int
    var body: string
    var exception: Option<Exception>

    constructor (statusCode: int, body: string)
      ensures this.statusCode == statusCode && this.body == body && exception == None
    {
      this.statusCode := statusCode;
      this.body := body;
      exception := None;
    }
  }

  class Request {
    var uri: string
    var response: Response?
    var context: Option<Application>
    var dispatched: bool

    constructor (uri: string)
      ensures this.uri == uri && response == null && context == None && !dispatched
    {
      this.uri := uri;
      response := null;
      context := None;
      dispatched := false;
    }
  }

  /**
   One valve invocation as the handler made it: the valve, the request and
   response objects passed to it, the response and application bound into
   the request at that moment, and the exchange the valve saw.
   */
  datatype Invocation = Invocation(
    valve: Valve,
    request: Request,
    response: Response,
    boundResponse: Response?,
    boundContext: Option<Application>,
    before: Exchange)

  class RequestHandler {
    var valves: seq<Valve>
    var application: Application
    var servletRequest: Request
    var servletResponse: Response
    /** The valve invocations of the last `Run`, in order. */
    ghost var invoked: seq<Invocation>

    /** The handler with its valves, application, request and response injected. */
    constructor (valves: seq<Valve>, application: Application, request: Request, response: Response)
      ensures this.valves == valves && this.application == application
      ensures servletRequest == request && servletResponse == response
      ensures invoked == []
    {
      this.valves := valves;
      this.application := application;
      servletRequest := request;
      servletResponse := response;
      invoked := [];
    }

    /** What valves currently see of the request and the response. */
    function Current(): Exchange
      reads this, servletRequest, servletResponse
    {
      Exchange(servletRequest.dispatched, servletResponse.statusCode, servletResponse.body, servletResponse.exception)
    }

    /** Writes the exchange a valve left behind back into the request and the response. */
    method Apply(x: Exchange)
      modifies servletRequest, servletResponse
      ensures Current() == x
      ensures servletRequest.uri == old(servletRequest.uri)
      ensures servletRequest.response == old(servletRequest.response)
      ensures servletRequest.context == old(servletRequest.context)
    {
      servletRequest.dispatched := x.dispatched;
      servletResponse.statusCode := x.statusCode;
      servletResponse.body := x.body;
      servletResponse.exception := x.exception;
    }

    method GetServletResponse() returns (r: Response)
      ensures r == servletResponse
    {
      r := servletResponse;
    }

    /**
     Binds the response and the application into the request, then invokes
     the valves in order until one throws or leaves the request dispatched.
     A thrown exception is stored on the response and does not escape.
     */
    method Run(invoke: (Valve, Exchange) -> Outcome)
      modifies this, servletRequest, servletResponse
      ensures valves == old(valves) && application == old(application)
      ensures servletRequest == old(servletRequest) && servletResponse == old(servletResponse)
      ensures servletRequest.uri == old(servletRequest.uri)
      ensures servletRequest.response == servletResponse && servletRequest.context == Some(application)
      ensures var r := Chain(valves, invoke, old(Current()));
        && |invoked| == |r.steps|
        && (forall i :: 0 <= i < |invoked| ==>
              invoked[i] == Invocation(r.steps[i].valve, servletRequest, servletResponse,
                                       servletResponse, Some(application), r.steps[i].before))
        && Current() == (if r.thrown.Some? then r.final.(exception := r.thrown) else r.final)
      ensures |invoked| <= |valves| && forall i :: 0 <= i < |invoked| ==> invoked[i].valve == valves[i]
    {
      var request, response := servletRequest, servletResponse;
      request.response := response;
      request.context := Some(application);
      var thrown := InvokeValves(invoke);
      if thrown.Some? {
        response.exception := thrown;
      }
      servletResponse := response;
      ChainInOrder(valves, invoke, old(Current()));
    }

    /**
     The valve loop of `Run`: invokes the valves in order, each with this
     handler's request and response, and stops right after the first that
     throws or leaves the request dispatched; returns what was thrown.
     */
    method InvokeValves(invoke: (Valve, Exchange) -> Outcome) returns (thrown: Option<Exception>)
      requires servletRequest.response == servletResponse && servletRequest.context == Some(application)
      modifies this`invoked, servletRequest, servletResponse
      ensures servletRequest.uri == old(servletRequest.uri)
      ensures servletRequest.response == servletResponse && servletRequest.context == Some(application)
      ensures var r := Chain(valves, invoke, old(Current()));
        && |invoked| == |r.steps|
        && (forall i :: 0 <= i < |invoked| ==>
              invoked[i] == Invocation(r.steps[i].valve, servletRequest, servletResponse,
                                       servletResponse, Some(application), r.steps[i].before))
        && Current() == r.final && thrown == r.thrown
    {
      ghost var r := Chain(valves, invoke, Current());
      invoked := [];
      ghost var steps: seq<Step> := [];
      ghost var current := Current();
      thrown := None;
      var i := 0;
      while i < |valves|
        invariant 0 <= i <= |valves|
        invariant servletRequest.uri == old(servletRequest.uri)
        invariant servletRequest.response == servletResponse && servletRequest.context == Some(application)
        invariant Current() == current
        invariant |invoked| == |steps| == i
        invariant forall j :: 0 <= j < i ==>
                    invoked[j] == Invocation(steps[j].valve, servletRequest, servletResponse,
                                             servletResponse, Some(application), steps[j].before)
        invariant r.steps == steps + Chain(valves[i..], invoke, current).steps
        invariant r.final == Chain(valves[i..], invoke, current).final
        invariant r.thrown == Chain(valves[i..], invoke, current).thrown
        decreases |valves| - i
      {
        ChainStep(valves, invoke, i, current);
        var outcome := InvokeOne(valves[i], invoke);
        steps := steps + [Step(valves[i], current, outcome)];
        current := outcome.after;
        if outcome.Throw? {
          thrown := Some(outcome.thrown);
          assert r.steps == steps && r.final == current && r.thrown == thrown;
          break;
        }
        if servletRequest.dispatched {
          assert r.steps == steps && r.final == current && r.thrown == thrown;
          break;
        }
        i := i + 1;
      }
    }

    /**
     One valve invocation with this handler's request and response: the
     valve acts on what it sees, and the invocation is recorded.
     */
    method InvokeOne(valve: Valve, invoke: (Valve, Exchange) -> Outcome) returns (outcome: Outcome)
      modifies this`invoked, servletRequest, servletResponse
      ensures outcome == invoke(valve, old(Current()))
      ensures Current() == outcome.after
      ensures invoked == old(invoked) + [Invocation(valve, servletRequest, servletResponse,
                                                    old(servletRequest.response), old(servletRequest.context),
                                                    old(Current()))]
      ensures servletRequest.uri == old(servletRequest.uri)
      ensures servletRequest.response == old(servletRequest.response)
      ensures servletRequest.context == old(servletRequest.context)
    {
      var before := Current();
      outcome := invoke(valve, before);
      invoked := invoked + [Invocation(valve, servletRequest, servletResponse,
                                       servletRequest.response, servletRequest.context, before)];
      Apply(outcome.after);
    }

    /**
     The shutdown hook: a last error of type `E_ERROR` or `E_USER_ERROR`
     sets status 500 and appends the error's message to the body; any other
     last error, or none, leaves the response as it is.
     */
    method Shutdown(lastError: Option<LastError>)
      modifies this`servletResponse, servletResponse
      ensures servletResponse == old(servletResponse)
      ensures valves == old(valves) && application == old(application) && servletRequest == old(servletRequest)
      ensures servletResponse.exception == old(servletResponse.exception)
      ensures IsFatal(lastError) ==>
                servletResponse.statusCode == 500 && servletResponse.body == old(servletResponse.body) + lastError.value.message
      ensures !IsFatal(lastError) ==>
                servletResponse.statusCode == old(servletResponse.statusCode) && servletResponse.body == old(servletResponse.body)
    {
      var response := servletResponse;
      if IsFatal(lastError) {
        response.statusCode := 500;
        response.body := response.body + lastError.value.message;
      }
      servletResponse := response;
    }
  }
}

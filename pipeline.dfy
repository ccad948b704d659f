/**
 * The middleware runner of build/Srvem.js. Units are appended in order by `use`, plain
 * handlers are wrapped in an adapter by `handle`, and every request gets a fresh
 * `Context` that each unit's `main` receives in chain order, each awaited before the
 * next; afterwards `finish()` is called once. There is no early stop: a unit that
 * finishes the context does not keep the later units from running, and the final
 * `finish` then rejects. A rejecting unit stops the walk and `finish` is not called.
 *
 * A unit's `main(ctx)` is modelled as a script of context operations (a `Step` list),
 * interpreted both by specification functions on `ContextState` and by methods that
 * call the `Context` methods.
 */
module Pipeline {
  import opened JsValues
  import opened NodeHttp
  import opened ContextModel

  /** One operation a unit performs on the context; `Finish` and `Redirect` are awaited. */
  datatype Step =
    | SetStatusCode(code: int)
    | SetStatusMessage(message: string)
    | SetSendDate(sendDate: bool)
    | SetBody(body: JsValue)
    | SetHeader(name: string, value: JsValue)
    | RemoveHeader(name: string)
    | Finish(body: JsValue, statusCode: Option<int>)
    | Terminate(statusCode: Option<int>)
    | Redirect(chunks: seq<string>, statusCode: Option<int>)
    | Throw(reason: string)

  /** A plain handler function `(ctx) => Promise<void>`, as given to `handle`. */
  datatype Handler = Handler(steps: seq<Step>)

  /** A chain entry: a middleware object, or the adapter `handle` builds around a handler. */
  datatype Unit = Middleware(steps: seq<Step>) | Adapter(handler: Handler)

  // ---------------------------------------------------------------------------
  // Specification
  // ---------------------------------------------------------------------------

  /** One step on the context. No step un-finishes the response or removes a logged event. */
  function AfterStep(s: ContextState, step: Step): (r: Settlement)
    ensures s.res.finished ==> r.state.res.finished
    ensures s.res.events <= r.state.res.events
  {
    match step
    case SetStatusCode(code) => Settlement(s.(res := s.res.(statusCode := code)), Resolved)
    case SetStatusMessage(message) => Settlement(s.(res := s.res.(statusMessage := message)), Resolved)
    case SetSendDate(sendDate) => Settlement(s.(res := s.res.(sendDate := sendDate)), Resolved)
    case SetBody(body) => Settlement(s.(body := body), Resolved)
    case SetHeader(name, value) => Settlement(s.(res := s.res.(headers := s.res.headers[name := value])), Resolved)
    case RemoveHeader(name) => Settlement(s.(res := s.res.(headers := s.res.headers - {name})), Resolved)
    case Finish(body, statusCode) => AfterFinish(s, body, statusCode)
    case Terminate(statusCode) => Settlement(AfterTerminate(s, statusCode), Resolved)
    case Redirect(chunks, statusCode) => AfterRedirect(s, chunks, statusCode)
    case Throw(reason) => Settlement(s, Rejected(reason))
  }

  /** A script run to its end, or up to and including its first rejecting step. */
  function AfterSteps(steps: seq<Step>, s: ContextState): (r: Settlement)
    decreases |steps|
    ensures s.res.finished ==> r.state.res.finished
    ensures s.res.events <= r.state.res.events
  {
    if steps == [] then Settlement(s, Resolved)
    else
      var first := AfterStep(s, steps[0]);
      if first.outcome.Rejected? then first else AfterSteps(steps[1..], first.state)
  }

  /** A handler called on the context. */
  function AfterCall(h: Handler, s: ContextState): (r: Settlement)
    ensures h.steps == [] ==> r == Settlement(s, Resolved)
    ensures s.res.finished ==> r.state.res.finished
    ensures s.res.events <= r.state.res.events
  {
    AfterSteps(h.steps, s)
  }

  /** A unit's `main(ctx)`; an adapter's `main` returns what its handler returns. */
  function AfterMain(u: Unit, s: ContextState): (r: Settlement)
    ensures (u.Middleware? && u.steps == []) || (u.Adapter? && u.handler.steps == []) ==> r == Settlement(s, Resolved)
    ensures s.res.finished ==> r.state.res.finished
    ensures s.res.events <= r.state.res.events
  {
    match u
    case Middleware(steps) => AfterSteps(steps, s)
    case Adapter(h) => AfterCall(h, s)
  }

  lemma AdapterForwards(h: Handler, s: ContextState)
    ensures AfterMain(Adapter(h), s) == AfterCall(h, s)
  {
  }

  /** Where the walk over the chain ends: after the last unit, or at the first rejecting one. */
  datatype Walk = Completed(state: ContextState) | Stopped(at: nat, reason: string, state: ContextState)

  /** The walk from unit `i` on: each unit's `main` is awaited before the next one starts. */
  function WalkFrom(chain: seq<Unit>, i: nat, s: ContextState): (w: Walk)
    requires i <= |chain|
    decreases |chain| - i
    ensures w.Stopped? ==> i <= w.at < |chain|
    ensures s.res.finished ==> w.state.res.finished
    ensures s.res.events <= w.state.res.events
  {
    if i == |chain| then Completed(s)
    else
      var r := AfterMain(chain[i], s);
      if r.outcome.Rejected? then Stopped(i, r.outcome.reason, r.state)
      else WalkFrom(chain, i + 1, r.state)
  }

  /** How serving one request ends: aborted by a rejecting unit, or with the outcome of the final `finish()`. */
  datatype Served = Aborted(at: nat, reason: string, state: ContextState) | Finalised(outcome: Outcome, state: ContextState)

  /**
   * One request: the walk over the whole chain, then, only if no unit rejected, the runner's
   * own `finish()` with no arguments, whose outcome is the request's.
   */
  function ServeSpec(chain: seq<Unit>, s: ContextState): (r: Served)
    ensures r.Aborted? <==> WalkFrom(chain, 0, s).Stopped?
    ensures r.Aborted? ==> r.at < |chain| && WalkFrom(chain, 0, s) == Stopped(r.at, r.reason, r.state)
    ensures r.Finalised? ==>
      var t := WalkFrom(chain, 0, s).state;
      && (r.outcome.Rejected? <==> t.res.finished)
      && r.state.res.finished
      && r.state.body == t.body && r.state.res.statusCode == t.res.statusCode
      && t.res.events <= r.state.res.events
    ensures s.res.events <= r.state.res.events
  {
    match WalkFrom(chain, 0, s)
    case Stopped(at, reason, t) => Aborted(at, reason, t)
    case Completed(t) =>
      var f := AfterFinish(t, Undefined, None);
      Finalised(f.outcome, f.state)
  }

  /** The indices of the units whose `main` was called, in call order. */
  function Invoked(chain: seq<Unit>, served: Served): (calls: seq<nat>)
    ensures |calls| <= |chain|
    ensures forall k :: 0 <= k < |calls| ==> calls[k] == k
    ensures served.Finalised? ==> |calls| == |chain|
    ensures served.Aborted? && served.at < |chain| ==> |calls| == served.at + 1
  {
    var n := if served.Aborted? && served.at < |chain| then served.at + 1 else |chain|;
    seq(n, k => k)
  }

  // ---------------------------------------------------------------------------
  // Properties of the walk
  // ---------------------------------------------------------------------------

  /** A walk can be cut at any unit `k`: first the units before `k`, then the walk from `k`. */
  lemma {:induction false} WalkSplits(chain: seq<Unit>, i: nat, k: nat, s: ContextState)
    requires i <= k <= |chain|
    decreases k - i
    ensures WalkFrom(chain, i, s) ==
      match WalkFrom(chain[..k], i, s)
      case Stopped(at, reason, t) => Stopped(at, reason, t)
      case Completed(t) => WalkFrom(chain, k, t)
  {
    if i < k {
      assert chain[..k][i] == chain[i];
      var r := AfterMain(chain[i], s);
      if r.outcome.Resolved? {
        WalkSplits(chain, i + 1, k, r.state);
      }
    }
  }

  /**
   * Unit `j` runs exactly when every unit before it resolved, on the state they left, and the
   * walk stops at the first unit that rejects: nothing after it runs.
   */
  lemma RunsInOrder(chain: seq<Unit>, s: ContextState, j: nat)
    requires j < |chain|
    requires WalkFrom(chain, 0, s).Completed? || j <= WalkFrom(chain, 0, s).at
    ensures WalkFrom(chain[..j], 0, s).Completed?
    ensures var before := WalkFrom(chain[..j], 0, s).state;
            var r := AfterMain(chain[j], before);
            ((WalkFrom(chain, 0, s).Stopped? && j == WalkFrom(chain, 0, s).at) <==> r.outcome.Rejected?)
            && (r.outcome.Rejected? ==> WalkFrom(chain, 0, s) == Stopped(j, r.outcome.reason, r.state))
  {
    WalkSplits(chain, 0, j, s);
  }

  /**
   * No early stop: once a unit has finished the context, the later units still run, and when
   * they all resolve the final `finish()` is still called, rejects and writes nothing.
   */
  lemma FinishAfterFinishedChain(chain: seq<Unit>, s: ContextState, j: nat)
    requires j <= |chain|
    requires WalkFrom(chain[..j], 0, s).Completed? && WalkFrom(chain[..j], 0, s).state.res.finished
    requires WalkFrom(chain, 0, s).Completed?
    ensures Invoked(chain, ServeSpec(chain, s)) == seq(|chain|, k => k)
    ensures ServeSpec(chain, s) == Finalised(Rejected(AlreadyFinished), WalkFrom(chain, 0, s).state)
  {
    WalkSplits(chain, 0, j, s);
  }

  /** The number of response heads in an event log. */
  function HeadsWritten(events: seq<Event>): nat
  {
    if events == [] then 0 else (if events[0].WriteHead? then 1 else 0) + HeadsWritten(events[1..])
  }

  lemma {:induction false} HeadsWrittenConcat(a: seq<Event>, b: seq<Event>)
    ensures HeadsWritten(a + b) == HeadsWritten(a) + HeadsWritten(b)
  {
    if a != [] {
      assert (a + b)[1..] == a[1..] + b;
      HeadsWrittenConcat(a[1..], b);
    } else {
      assert a + b == b;
    }
  }

  /** At most one head has been written, and once one has, the response is finished. */
  predicate HeadOnce(s: ContextState)
  {
    HeadsWritten(s.res.events) <= 1 && (HeadsWritten(s.res.events) == 1 ==> s.res.finished)
  }

  lemma HeadOnceAfterFinish(s: ContextState, body: JsValue, statusCode: Option<int>)
    requires HeadOnce(s)
    ensures HeadOnce(AfterFinish(s, body, statusCode).state)
  {
    var t := AfterFinish(s, body, statusCode).state;
    if !s.res.finished {
      var written := if Truthy(t.body) then [Write(t.body, None)] else [];
      var head := [WriteHead(t.res.statusCode, s.res.headers)];
      HeadsWrittenConcat(s.res.events, head);
      HeadsWrittenConcat(s.res.events + head, written);
      HeadsWrittenConcat(s.res.events + head + written, [End]);
      assert HeadsWritten(written) == 0;
    }
  }

  lemma HeadOnceAfterStep(s: ContextState, step: Step)
    requires HeadOnce(s)
    ensures HeadOnce(AfterStep(s, step).state)
  {
    match step
    case Finish(body, statusCode) => HeadOnceAfterFinish(s, body, statusCode);
    case Redirect(chunks, statusCode) => HeadOnceAfterFinish(s, Str(Concat(chunks)), RedirectStatus(statusCode));
    case Terminate(statusCode) => HeadsWrittenConcat(s.res.events, [End]);
    case _ =>
  }

  lemma {:induction false} HeadOnceAfterSteps(steps: seq<Step>, s: ContextState)
    requires HeadOnce(s)
    decreases |steps|
    ensures HeadOnce(AfterSteps(steps, s).state)
  {
    if steps != [] {
      HeadOnceAfterStep(s, steps[0]);
      var first := AfterStep(s, steps[0]);
      if first.outcome.Resolved? {
        HeadOnceAfterSteps(steps[1..], first.state);
      }
    }
  }

  lemma {:induction false} HeadOnceAfterWalk(chain: seq<Unit>, i: nat, s: ContextState)
    requires i <= |chain| && HeadOnce(s)
    decreases |chain| - i
    ensures HeadOnce(WalkFrom(chain, i, s).state)
  {
    if i < |chain| {
      match chain[i] {
        case Middleware(steps) => HeadOnceAfterSteps(steps, s);
        case Adapter(h) => HeadOnceAfterSteps(h.steps, s);
      }
      var r := AfterMain(chain[i], s);
      if r.outcome.Resolved? {
        HeadOnceAfterWalk(chain, i + 1, r.state);
      }
    }
  }

  /**
   * Serving a request on a response with no head yet writes its head at most once, whatever the
   * units do: every later `finish` is rejected before it writes. This holds for scripts whose
   * `finish` calls are awaited, as every step here is.
   */
  lemma HeadWrittenAtMostOnce(chain: seq<Unit>, s: ContextState)
    requires HeadsWritten(s.res.events) == 0
    ensures HeadsWritten(ServeSpec(chain, s).state.res.events) <= 1
  {
    HeadOnceAfterWalk(chain, 0, s);
    var w := WalkFrom(chain, 0, s);
    if w.Completed? {
      HeadOnceAfterFinish(w.state, Undefined, None);
    }
  }

  // ---------------------------------------------------------------------------
  // Scenarios
  // ---------------------------------------------------------------------------

  /** The state a request starts with: a null body on a fresh Node response. */
  const Fresh: ContextState := ContextState(Null, ResponseState(200, "", true, "utf8", map[], false, []))

  /** A handler that sets a header and finishes: its response goes out, then the runner's own `finish()` rejects. */
  lemma GreetingScenario()
    ensures var chain := [Adapter(Handler([SetHeader("X-A", Str("1")), Finish(Str("hi"), Some(200))]))];
            var served := ServeSpec(chain, Fresh);
            && served.Finalised? && served.outcome == Rejected(AlreadyFinished)
            && served.state.res.events
               == [WriteHead(200, map["X-A" := Str("1")]), Write(Str("hi"), None), End]
  {
  }

  /** Terminating does not short-circuit: the next unit still runs and changes the status of the ended response. */
  lemma NoShortCircuitScenario()
    ensures var chain := [Middleware([Terminate(Some(404))]), Middleware([SetStatusCode(500)])];
            var served := ServeSpec(chain, Fresh);
            && served == Finalised(Rejected(AlreadyFinished), served.state)
            && served.state.res.statusCode == 500
            && served.state.res.events == [End]
  {
  }

  /** A unit that throws stops the walk: the next unit does not run, and the response is never ended. */
  lemma FailureScenario()
    ensures var chain := [Middleware([Throw("boom")]), Middleware([SetHeader("X-B", Str("late"))])];
            ServeSpec(chain, Fresh) == Aborted(0, "boom", Fresh)
            && Invoked(chain, ServeSpec(chain, Fresh)) == [0]
  {
  }

  // ---------------------------------------------------------------------------
  // Implementation
  // ---------------------------------------------------------------------------

  method Perform(step: Step, ctx: Context) returns (outcome: Outcome)
    modifies ctx, ctx.response
    ensures Settlement(ctx.State(), outcome) == AfterStep(old(ctx.State()), step)
  {
    outcome := Resolved;
    match step
    case SetStatusCode(code) => ctx.SetStatusCode(code);
    case SetStatusMessage(message) => ctx.SetStatusMessage(message);
    case SetSendDate(sendDate) => ctx.SetSendDate(sendDate);
    case SetBody(body) => ctx.body := body;
    case SetHeader(name, value) => ctx.SetHeader(name, value);
    case RemoveHeader(name) => ctx.RemoveHeader(name);
    case Finish(body, statusCode) => outcome := ctx.Finish(body, statusCode);
    case Terminate(statusCode) => var resolved := ctx.Terminate(statusCode);
    case Redirect(chunks, statusCode) => outcome := ctx.CompleteRedirect(chunks, statusCode);
    case Throw(reason) => outcome := Rejected(reason);
  }

  method RunSteps(steps: seq<Step>, ctx: Context) returns (outcome: Outcome)
    modifies ctx, ctx.response
    ensures Settlement(ctx.State(), outcome) == AfterSteps(steps, old(ctx.State()))
  {
    outcome := Resolved;
    var i := 0;
    while i < |steps|
      invariant i <= |steps|
      invariant outcome == Resolved
      invariant AfterSteps(steps, old(ctx.State())) == AfterSteps(steps[i..], ctx.State())
    {
      assert steps[i..][1..] == steps[i + 1..];
      outcome := Perform(steps[i], ctx);
      if outcome.Rejected? {
        return;
      }
      i := i + 1;
    }
  }

  /** Calling a plain handler function. */
  method Call(h: Handler, ctx: Context) returns (outcome: Outcome)
    modifies ctx, ctx.response
    ensures Settlement(ctx.State(), outcome) == AfterCall(h, old(ctx.State()))
  {
    outcome := RunSteps(h.steps, ctx);
  }

  /** `main(ctx)`; the adapter's `main` is `return handler(ctx)`. */
  method RunMain(u: Unit, ctx: Context) returns (outcome: Outcome)
    modifies ctx, ctx.response
    ensures Settlement(ctx.State(), outcome) == AfterMain(u, old(ctx.State()))
  {
    match u
    case Middleware(steps) => outcome := RunSteps(steps, ctx);
    case Adapter(h) => outcome := Call(h, ctx);
  }

  class Srvem {
    /** The chain: middleware and adapted handlers, in registration order. */
    var middleware: seq<Unit>

    constructor ()
      ensures middleware == []
    {
      middleware := [];
    }

    /** `use(...middleware)`: appended in argument order; earlier entries stay. */
    method Use(units: seq<Unit>)
      modifies this
      ensures middleware == old(middleware) + units
    {
      for i := 0 to |units|
        invariant middleware == old(middleware) + units[..i]
      {
        middleware := middleware + [units[i]];
      }
      assert units[..|units|] == units;
    }

    /** `handle(...handlers)`: one adapter per handler, in argument order. */
    method Handle(handlers: seq<Handler>)
      modifies this
      ensures |middleware| == |old(middleware)| + |handlers|
      ensures middleware[..|old(middleware)|] == old(middleware)
      ensures forall k :: 0 <= k < |handlers| ==> middleware[|old(middleware)| + k] == Adapter(handlers[k])
    {
      for i := 0 to |handlers|
        invariant |middleware| == |old(middleware)| + i
        invariant middleware[..|old(middleware)|] == old(middleware)
        invariant forall k :: 0 <= k < i ==> middleware[|old(middleware)| + k] == Adapter(handlers[k])
      {
        middleware := middleware + [Adapter(handlers[i])];
      }
    }

    /**
     * The request listener: a fresh context, every unit's `main` awaited in chain order with that
     * context, then `finish()` once, unless a unit rejected. The chain itself is not modified.
     */
    method Serve(request: Request, response: Response) returns (ctx: Context, invoked: seq<nat>, served: Served)
      modifies response
      ensures fresh(ctx) && ctx.request == request && ctx.response == response
      ensures served == ServeSpec(middleware, ContextState(Null, old(response.State())))
      ensures ctx.State() == served.state
      ensures invoked == Invoked(middleware, served)
    {
      ctx := new Context(request, response);
      ghost var start := ctx.State();
      invoked := [];
      var i := 0;
      while i < |middleware|
        invariant i <= |middleware|
        invariant ctx.response == response
        invariant WalkFrom(middleware, 0, start) == WalkFrom(middleware, i, ctx.State())
        invariant invoked == seq(i, k => k)
      {
        invoked := invoked + [i];
        var outcome := RunMain(middleware[i], ctx);
        if outcome.Rejected? {
          served := Aborted(i, outcome.reason, ctx.State());
          return;
        }
        i := i + 1;
      }
      var outcome := ctx.Finish(Undefined, None);
      served := Finalised(outcome, ctx.State());
    }
  }
}

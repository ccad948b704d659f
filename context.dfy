/**
 * The per-request `Context` of the runner (src/Context.ts and its compiled twin
 * build/Context.js, which have the same logic). Every response property is read
 * from and written to the server response directly; only `body` lives on the
 * context. `finish` and `terminate` are the finalisation state machine.
 */
module ContextModel {
  import opened JsValues
  import opened NodeHttp

  /** Everything a context operation can observe or change: its body and its response. */
  datatype ContextState = ContextState(body: JsValue, res: ResponseState)

  /** The state after an operation that returns a promise, and how that promise settles. */
  datatype Settlement = Settlement(state: ContextState, outcome: Outcome)

  /**
   * `terminate(statusCode?)`: a truthy status overrides the response's, the response is
   * ended and then marked finished. There is no finished check, so it never rejects.
   */
  function AfterTerminate(s: ContextState, statusCode: Option<int>): (t: ContextState)
    ensures t.res.finished
    ensures t.res.events == s.res.events + [End]
    ensures t.res.statusCode == OverrideStatus(s.res.statusCode, statusCode)
    ensures t.body == s.body
    ensures t.res.(statusCode := s.res.statusCode, finished := s.res.finished, events := s.res.events) == s.res
  {
    s.(res := s.res.(statusCode := OverrideStatus(s.res.statusCode, statusCode),
                     events := s.res.events + [End],
                     finished := true))
  }

  /**
   * `finish(body?, statusCode?)`. The truthy overrides are applied first; then a finished
   * response rejects; otherwise the head is written with the current status and headers,
   * the body is written only if it is truthy, and the response is terminated.
   */
  function AfterFinish(s: ContextState, body: JsValue, statusCode: Option<int>): (r: Settlement)
    // the overrides land whether or not the call is rejected
    ensures r.state.body == (if Truthy(body) then body else s.body)
    ensures r.state.res.statusCode == OverrideStatus(s.res.statusCode, statusCode)
    ensures r.outcome.Rejected? <==> s.res.finished
    ensures s.res.finished ==> r.outcome.reason == AlreadyFinished && r.state.res.events == s.res.events
    ensures !s.res.finished ==>
      r.state.res.events == s.res.events
        + [WriteHead(r.state.res.statusCode, s.res.headers)]
        + (if Truthy(r.state.body) then [Write(r.state.body, None)] else [])
        + [End]
    ensures r.state.res.finished
    // nothing else about the response changes
    ensures r.state.res.(statusCode := s.res.statusCode, finished := s.res.finished, events := s.res.events) == s.res
  {
    var o := s.(body := if Truthy(body) then body else s.body,
                res := s.res.(statusCode := OverrideStatus(s.res.statusCode, statusCode)));
    if o.res.finished then
      Settlement(o, Rejected(AlreadyFinished))
    else
      var head := o.res.(events := o.res.events + [WriteHead(o.res.statusCode, o.res.headers)]);
      var written := if Truthy(o.body) then head.(events := head.events + [Write(o.body, None)]) else head;
      Settlement(AfterTerminate(o.(res := written), None), Resolved)
  }

  /** The body `redirect` collects: the `data` chunks in arrival order. */
  function Concat(chunks: seq<string>): (body: string)
    ensures body == "" <==> forall k :: 0 <= k < |chunks| ==> chunks[k] == ""
    ensures chunks != [] ==> chunks[0] <= body
  {
    if chunks == [] then "" else chunks[0] + Concat(chunks[1..])
  }

  /** Each `data` event appends its chunk: `newBody += chunk`. */
  lemma {:induction false} ConcatAppend(chunks: seq<string>, chunk: string)
    ensures Concat(chunks + [chunk]) == Concat(chunks) + chunk
  {
    if chunks == [] {
      assert chunks + [chunk] == [chunk];
    } else {
      calc {
        Concat(chunks + [chunk]);
        (chunks + [chunk])[0] + Concat((chunks + [chunk])[1..]);
        { assert (chunks + [chunk])[1..] == chunks[1..] + [chunk]; }
        chunks[0] + Concat(chunks[1..] + [chunk]);
        { ConcatAppend(chunks[1..], chunk); }
        chunks[0] + Concat(chunks[1..]) + chunk;
      }
    }
  }

  /** The accumulation `redirect`'s `data` handler performs, one chunk at a time. */
  method CollectBody(chunks: seq<string>) returns (newBody: string)
    ensures newBody == Concat(chunks)
  {
    newBody := "";
    for i := 0 to |chunks|
      invariant newBody == Concat(chunks[..i])
    {
      ConcatAppend(chunks[..i], chunks[i]);
      assert chunks[..i + 1] == chunks[..i] + [chunks[i]];
      newBody := newBody + chunks[i];
    }
    assert chunks[..|chunks|] == chunks;
  }

  /** The status `redirect` hands to `finish`: its parameter, which defaults to 301 when omitted. */
  function RedirectStatus(statusCode: Option<int>): (code: Option<int>)
    ensures statusCode.None? ==> code == Some(301)
    ensures statusCode.Some? ==> code == statusCode
  {
    Some(if statusCode.None? then 301 else statusCode.value)
  }

  /**
   * The completion step of `redirect`: when the dependent response ends, `finish` is called
   * with the collected body and the redirect status.
   */
  function AfterRedirect(s: ContextState, chunks: seq<string>, statusCode: Option<int>): (r: Settlement)
    ensures r.state.res.finished
    ensures r.outcome.Rejected? <==> s.res.finished
    ensures r.state.body == (if Concat(chunks) != "" then Str(Concat(chunks)) else s.body)
    ensures statusCode.None? ==> r.state.res.statusCode == 301
    ensures statusCode.Some? ==> r.state.res.statusCode == OverrideStatus(s.res.statusCode, statusCode)
  {
    AfterFinish(s, Str(Concat(chunks)), RedirectStatus(statusCode))
  }

  /** A second `finish` is rejected and writes nothing, whatever the first one did. */
  lemma SecondFinishRejected(s: ContextState, body1: JsValue, code1: Option<int>, body2: JsValue, code2: Option<int>)
    ensures var first := AfterFinish(s, body1, code1);
            var second := AfterFinish(first.state, body2, code2);
            second.outcome == Rejected(AlreadyFinished) && second.state.res.events == first.state.res.events
  {
  }

  class Context {
    const request: Request
    const response: Response

    /** Response body; the last writer wins. */
    var body: JsValue

    constructor (request: Request, response: Response)
      ensures this.request == request && this.response == response
      ensures body == Null
    {
      this.request := request;
      this.response := response;
      body := Null;
    }

    function State(): ContextState
      reads this, response
    {
      ContextState(body, response.State())
    }

    /** Request method: a projection of the immutable request. */
    function Method(): (m: string)
      ensures m == request.httpMethod
    {
      request.httpMethod
    }

    /** Request url: a projection of the immutable request. */
    function Url(): (u: string)
      ensures u == request.url
    {
      request.url
    }

    /** `statusCode`: read straight from the response. */
    function StatusCode(): (code: int)
      reads response
      ensures code == response.State().statusCode
    {
      response.statusCode
    }

    method SetStatusCode(statusCode: int)
      modifies response
      ensures StatusCode() == statusCode
      ensures response.State() == old(response.State()).(statusCode := statusCode)
    {
      response.statusCode := statusCode;
    }

    /** `statusMessage`: read straight from the response. */
    function StatusMessage(): (message: string)
      reads response
      ensures message == response.State().statusMessage
    {
      response.statusMessage
    }

    method SetStatusMessage(statusMessage: string)
      modifies response
      ensures StatusMessage() == statusMessage
      ensures response.State() == old(response.State()).(statusMessage := statusMessage)
    {
      response.statusMessage := statusMessage;
    }

    /** `sendDate`: read straight from the response. */
    function SendDate(): (sendDate: bool)
      reads response
      ensures sendDate == response.State().sendDate
    {
      response.sendDate
    }

    method SetSendDate(value: bool)
      modifies response
      ensures SendDate() == value
      ensures response.State() == old(response.State()).(sendDate := value)
    {
      response.sendDate := value;
    }

    /** `headers`: the response's header map (Node hands out a copy). */
    function Headers(): (headers: map<string, JsValue>)
      reads response
      ensures headers == response.State().headers
    {
      response.headers
    }

    /** `headerNames`: the names of the response's headers (their order is not modelled). */
    function HeaderNames(): (names: set<string>)
      reads response
      ensures forall n :: n in names <==> response.HasHeader(n)
    {
      response.headers.Keys
    }

    /** `hasHeader(name)`: Node reports a header present when its name is a key, whatever its value. */
    predicate HasHeader(name: string): (present: bool)
      reads response
      ensures present <==> name in response.State().headers
    {
      response.HasHeader(name)
    }

    function GetHeader(name: string): (v: JsValue)
      reads response
      ensures name in response.headers ==> v == response.headers[name]
      ensures name !in response.headers ==> v == Undefined
    {
      response.GetHeader(name)
    }

    method SetHeader(name: string, value: JsValue)
      modifies response
      ensures HasHeader(name) && GetHeader(name) == value
      ensures response.State() == old(response.State()).(headers := old(response.headers)[name := value])
    {
      response.SetHeader(name, value);
    }

    method RemoveHeader(name: string)
      modifies response
      ensures !HasHeader(name)
      ensures response.State() == old(response.State()).(headers := old(response.headers) - {name})
    {
      response.RemoveHeader(name);
    }

    /** `finished`: read straight from the response, which only `terminate`'s end callback sets. */
    predicate Finished(): (finished: bool)
      reads response
      ensures finished == response.State().finished
    {
      response.finished
    }

    method Terminate(statusCode: Option<int>) returns (resolved: Context)
      modifies response
      ensures resolved == this
      ensures State() == AfterTerminate(old(State()), statusCode)
    {
      if statusCode.Some? && statusCode.value != 0 {
        SetStatusCode(statusCode.value);
      }
      response.End();
      response.finished := true;
      resolved := this;
    }

    method Finish(body: JsValue, statusCode: Option<int>) returns (outcome: Outcome)
      modifies this, response
      ensures Settlement(State(), outcome) == AfterFinish(old(State()), body, statusCode)
    {
      if Truthy(body) {
        this.body := body;
      }
      if statusCode.Some? && statusCode.value != 0 {
        SetStatusCode(statusCode.value);
      }
      if Finished() {
        return Rejected(AlreadyFinished);
      }
      response.WriteHead(StatusCode(), Headers());
      if Truthy(this.body) {
        response.Write(this.body, None);
      }
      var resolved := Terminate(None);
      outcome := Resolved;
    }

    /** The `end` handler of `redirect`'s dependent request. */
    method CompleteRedirect(chunks: seq<string>, statusCode: Option<int>) returns (outcome: Outcome)
      modifies this, response
      ensures Settlement(State(), outcome) == AfterRedirect(old(State()), chunks, statusCode)
    {
      var newBody := CollectBody(chunks);
      outcome := Finish(Str(newBody), RedirectStatus(statusCode));
    }
  }
}

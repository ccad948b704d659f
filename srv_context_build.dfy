/**
 * `SrvContext` as compiled in build/SrvContext.js, which differs from src/SrvContext.ts:
 * `finish` does not copy the headers onto the response but passes them to `addTrailers`
 * and then to `writeHead`, and `_terminate` resolves with `true` (the value of the
 * assignment `this.response.finished = true`) rather than with the context.
 */
module SrvContextBuild {
  import opened JsValues
  import opened NodeHttp
  import opened BufferedContext
  import SrvContextSrc

  /**
   * `finish()`: a finished response rejects with no write. Otherwise the properties are
   * committed (the response's own header map stays as it was), then AddTrailers(headers),
   * WriteHead(statusCode, headers), Write(body) and End are logged, and the response is finished.
   */
  function AfterFinish(b: Buffered, r: ResponseState): (c: Commit)
    ensures r.finished ==> c == Commit(r, Rejected(AlreadyFinished))
    ensures !r.finished ==>
      && c.outcome == Resolved
      && c.response.finished
      && c.response.events == r.events
           + [AddTrailers(b.headers), WriteHead(b.statusCode, b.headers),
              Write(b.body, Some(b.defaultEncoding)), End]
      && c.response.statusCode == b.statusCode && c.response.statusMessage == b.statusMessage
      && c.response.defaultEncoding == b.defaultEncoding && c.response.sendDate == b.sendDate
      && c.response.headers == r.headers
  {
    if r.finished then
      Commit(r, Rejected(AlreadyFinished))
    else
      var committed := PropertiesBack(b, r);
      var written := committed.(events := committed.events
                                  + [AddTrailers(b.headers), WriteHead(b.statusCode, b.headers),
                                     Write(b.body, Some(b.defaultEncoding))]);
      Commit(Ended(written), Resolved)
  }

  /**
   * The two variants log the same head and body for the same buffered fields; the compiled one
   * adds a trailer event first and leaves the response's header map alone.
   */
  lemma VariantsDiffer(b: Buffered, r: ResponseState)
    requires !r.finished
    ensures var compiled := AfterFinish(b, r).response;
            var source := SrvContextSrc.AfterFinish(b, r).response;
            && compiled.events == r.events + [AddTrailers(b.headers)] + (source.events[|r.events|..])
            && compiled.(events := source.events, headers := source.headers) == source
  {
    var tail := [WriteHead(b.statusCode, b.headers), Write(b.body, Some(b.defaultEncoding)), End];
    assert SrvContextSrc.AfterFinish(b, r).response.events[|r.events|..] == tail;
  }

  class SrvContext {
    const request: Request
    const response: Response

    var body: JsValue
    var headers: map<string, JsValue>
    var statusCode: int
    var statusMessage: string
    var defaultEncoding: string
    var sendDate: bool

    /** The `encoder` request header must be present: without it the constructor throws. */
    constructor (request: Request, response: Response)
      requires "encoder" in request.headers
      ensures this.request == request && this.response == response
      ensures Fields() == BufferedContext.Buffered(Null, response.headers, response.statusCode,
                                                   response.statusMessage, DefaultEncoding(request.headers["encoder"]),
                                                   response.sendDate)
    {
      this.request := request;
      this.response := response;
      body := Null;
      headers := response.headers;
      statusCode := response.statusCode;
      statusMessage := response.statusMessage;
      defaultEncoding := DefaultEncoding(request.headers["encoder"]);
      sendDate := response.sendDate;
    }

    function Fields(): Buffered
      reads this
    {
      BufferedContext.Buffered(body, headers, statusCode, statusMessage, defaultEncoding, sendDate)
    }

    /** `isFinished()`: whether the server response has been finished. */
    predicate IsFinished(): (finished: bool)
      reads response
      ensures finished == response.State().finished
    {
      response.finished
    }

    method SetResponsePropertiesBack()
      modifies response
      ensures response.State() == PropertiesBack(Fields(), old(response.State()))
    {
      response.statusCode := statusCode;
      response.statusMessage := statusMessage;
      response.SetDefaultEncoding(defaultEncoding);
      response.sendDate := sendDate;
    }

    /** `_terminate()`: ends the response, marks it finished and resolves with `true`. */
    method TerminateResponse() returns (resolved: bool)
      modifies response
      ensures resolved
      ensures response.State() == Ended(old(response.State()))
    {
      response.End();
      response.finished := true;
      resolved := response.finished;
    }

    method Terminate() returns (resolved: bool)
      modifies response
      ensures resolved
      ensures response.State() == AfterTerminate(Fields(), old(response.State()))
    {
      SetResponsePropertiesBack();
      resolved := TerminateResponse();
    }

    method Finish() returns (outcome: Outcome)
      modifies response
      ensures Commit(response.State(), outcome) == AfterFinish(Fields(), old(response.State()))
    {
      if IsFinished() {
        return Rejected(AlreadyFinished);
      }
      SetResponsePropertiesBack();
      response.AddTrailers(headers);
      response.WriteHead(statusCode, headers);
      response.Write(body, Some(defaultEncoding));
      var resolved := TerminateResponse();
      outcome := Resolved;
    }

    /** `hasHeader(name)`: the buffered value under exactly this name is truthy. */
    predicate HasHeader(name: string): (present: bool)
      reads this
      ensures present <==> name in headers && headers[name] !in Falsy
    {
      BufferedContext.HasHeader(headers, name)
    }

    method GetHeaderNames() returns (names: seq<string>)
      ensures forall n :: n in names <==> n in headers
      ensures forall i, j :: 0 <= i < j < |names| ==> names[i] != names[j]
    {
      names := HeaderNames(headers);
    }

    function GetHeader(name: string): (v: JsValue)
      reads this
      ensures HasHeader(name) ==> v == headers[name]
      ensures !HasHeader(name) ==> v == Null
    {
      BufferedContext.GetHeader(headers, name)
    }

    method SetHeader(name: string, value: JsValue)
      modifies this
      ensures Fields() == old(Fields()).(headers := old(headers)[name := value])
      ensures response.State() == old(response.State())
    {
      headers := headers[name := value];
    }

    method RemoveHeader(name: string) returns (removed: bool)
      modifies this
      ensures (headers, removed) == BufferedContext.RemoveHeader(old(headers), name)
      ensures Fields() == old(Fields()).(headers := headers)
      ensures response.State() == old(response.State())
    {
      if HasHeader(name) {
        headers := headers - {name};
        removed := true;
      } else {
        removed := false;
      }
    }
  }
}

/**
 * `SrvContext` as written in src/SrvContext.ts. `finish` copies the buffered properties
 * and then every buffered header onto the response (`_setHeadersBack`) before writing the
 * head, the body (unconditionally) and ending it; `_terminate` resolves with the context.
 */
module SrvContextSrc {
  import opened JsValues
  import opened NodeHttp
  import opened BufferedContext

  /** `_setHeadersBack()`: every buffered header is set on the response, overriding what it had. */
  function HeadersBack(b: Buffered, r: ResponseState): (t: ResponseState)
    ensures forall n :: n in t.headers <==> n in r.headers || n in b.headers
    ensures forall n :: n in b.headers ==> t.headers[n] == b.headers[n]
    ensures forall n :: n in r.headers && n !in b.headers ==> t.headers[n] == r.headers[n]
    ensures t.(headers := r.headers) == r
  {
    r.(headers := r.headers + b.headers)
  }

  /**
   * `finish()`: a finished response rejects before anything is copied or logged. Otherwise the
   * properties and headers are committed, then WriteHead(statusCode, headers), Write(body) even
   * for a falsy body, and End are logged, and the response is finished.
   */
  function AfterFinish(b: Buffered, r: ResponseState): (c: Commit)
    ensures r.finished ==> c == Commit(r, Rejected(AlreadyFinished))
    ensures !r.finished ==>
      && c.outcome == Resolved
      && c.response.finished
      && c.response.events == r.events
           + [WriteHead(b.statusCode, b.headers), Write(b.body, Some(b.defaultEncoding)), End]
      && c.response.statusCode == b.statusCode && c.response.statusMessage == b.statusMessage
      && c.response.defaultEncoding == b.defaultEncoding && c.response.sendDate == b.sendDate
      && c.response.headers == HeadersBack(b, r).headers
  {
    if r.finished then
      Commit(r, Rejected(AlreadyFinished))
    else
      var committed := HeadersBack(b, PropertiesBack(b, r));
      var written := committed.(events := committed.events
                                  + [WriteHead(b.statusCode, b.headers), Write(b.body, Some(b.defaultEncoding))]);
      Commit(Ended(written), Resolved)
  }

  /**
   * `removeHeader` only edits the buffered copy taken at construction, so a header the
   * response already had is still on it after `finish`, with its old value.
   */
  lemma RemovedHeaderStaysOnResponse(b: Buffered, r: ResponseState, name: string)
    requires !r.finished && name in r.headers
    ensures var removed := b.(headers := RemoveHeader(b.headers, name).0);
            HasHeader(b.headers, name) ==>
              name in AfterFinish(removed, r).response.headers
              && AfterFinish(removed, r).response.headers[name] == r.headers[name]
  {
  }

  class SrvContext {
    const request: Request
    const nativeResponse: Response

    var body: JsValue
    var headers: map<string, JsValue>
    var statusCode: int
    var statusMessage: string
    var defaultEncoding: string
    var sendDate: bool

    /** The `encoder` request header must be present: without it the constructor throws. */
    constructor (request: Request, nativeResponse: Response)
      requires "encoder" in request.headers
      ensures this.request == request && this.nativeResponse == nativeResponse
      ensures Fields() == BufferedContext.Buffered(Null, nativeResponse.headers, nativeResponse.statusCode,
                                     nativeResponse.statusMessage, DefaultEncoding(request.headers["encoder"]),
                                     nativeResponse.sendDate)
    {
      this.request := request;
      this.nativeResponse := nativeResponse;
      body := Null;
      headers := nativeResponse.headers;
      statusCode := nativeResponse.statusCode;
      statusMessage := nativeResponse.statusMessage;
      defaultEncoding := DefaultEncoding(request.headers["encoder"]);
      sendDate := nativeResponse.sendDate;
    }

    function Fields(): Buffered
      reads this
    {
      BufferedContext.Buffered(body, headers, statusCode, statusMessage, defaultEncoding, sendDate)
    }

    /** `isFinished()`: whether the server response has been finished. */
    predicate IsFinished(): (finished: bool)
      reads nativeResponse
      ensures finished == nativeResponse.State().finished
    {
      nativeResponse.finished
    }

    method SetResponsePropertiesBack()
      modifies nativeResponse
      ensures nativeResponse.State() == PropertiesBack(Fields(), old(nativeResponse.State()))
    {
      nativeResponse.statusCode := statusCode;
      nativeResponse.statusMessage := statusMessage;
      nativeResponse.SetDefaultEncoding(defaultEncoding);
      nativeResponse.sendDate := sendDate;
    }

    method SetHeadersBack()
      modifies nativeResponse
      ensures nativeResponse.State() == HeadersBack(Fields(), old(nativeResponse.State()))
    {
      var pending := headers.Keys;
      while pending != {}
        invariant pending <= headers.Keys
        invariant nativeResponse.State() == old(nativeResponse.State()).(
          headers := old(nativeResponse.headers) + map n | n in headers.Keys - pending :: headers[n])
        decreases pending
      {
        var name :| name in pending;
        ghost var done := map n | n in headers.Keys - pending :: headers[n];
        nativeResponse.SetHeader(name, headers[name]);
        pending := pending - {name};
        assert (map n | n in headers.Keys - pending :: headers[n]) == done[name := headers[name]];
      }
      assert (map n | n in headers.Keys - pending :: headers[n]) == headers;
    }

    /** `_terminate()`: ends the response, marks it finished and resolves with the context. */
    method TerminateResponse() returns (resolved: SrvContext)
      modifies nativeResponse
      ensures resolved == this
      ensures nativeResponse.State() == Ended(old(nativeResponse.State()))
    {
      nativeResponse.End();
      nativeResponse.finished := true;
      resolved := this;
    }

    method Terminate() returns (resolved: SrvContext)
      modifies nativeResponse
      ensures resolved == this
      ensures nativeResponse.State() == AfterTerminate(Fields(), old(nativeResponse.State()))
    {
      SetResponsePropertiesBack();
      resolved := TerminateResponse();
    }

    method Finish() returns (outcome: Outcome)
      modifies nativeResponse
      ensures Commit(nativeResponse.State(), outcome) == AfterFinish(Fields(), old(nativeResponse.State()))
    {
      if IsFinished() {
        return Rejected(AlreadyFinished);
      }
      SetResponsePropertiesBack();
      SetHeadersBack();
      nativeResponse.WriteHead(statusCode, headers);
      nativeResponse.Write(body, Some(defaultEncoding));
      var resolved := TerminateResponse();
      outcome := Resolved;
    }

    /** `hasHeader(name)`: the buffered value under exactly this name is truthy. */
    predicate HasHeader(name: string): (present: bool)
      reads this
      ensures present <==> name in headers && headers[name] !in Falsy
    {
      BufferedContext.HasHeader(headers, name)
    }

    method GetHeaderNames() returns (names: seq<string>)
      ensures forall n :: n in names <==> n in headers
      ensures forall i, j :: 0 <= i < j < |names| ==> names[i] != names[j]
    {
      names := HeaderNames(headers);
    }

    function GetHeader(name: string): (v: JsValue)
      reads this
      ensures HasHeader(name) ==> v == headers[name]
      ensures !HasHeader(name) ==> v == Null
    {
      BufferedContext.GetHeader(headers, name)
    }

    method SetHeader(name: string, value: JsValue)
      modifies this
      ensures Fields() == old(Fields()).(headers := old(headers)[name := value])
      ensures nativeResponse.State() == old(nativeResponse.State())
    {
      headers := headers[name := value];
    }

    method RemoveHeader(name: string) returns (removed: bool)
      modifies this
      ensures (headers, removed) == BufferedContext.RemoveHeader(old(headers), name)
      ensures Fields() == old(Fields()).(headers := headers)
      ensures nativeResponse.State() == old(nativeResponse.State())
    {
      if HasHeader(name) {
        headers := headers - {name};
        removed := true;
      } else {
        removed := false;
      }
    }
  }
}

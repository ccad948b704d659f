/**
 * An abstract stand-in for the two Node `http` objects the runner is handed per
 * request: the inbound request (a value: method, url and headers) and the server
 * response (an object whose fields the contexts assign). Everything the response
 * would put on the wire is appended to an event log instead.
 */
module NodeHttp {
  import opened JsValues

  /** An inbound request header value: Node gives a string, or an array of strings. */
  datatype RequestHeader = Single(value: string) | Multiple(values: seq<string>)

  datatype Request = Request(httpMethod: string, url: string, headers: map<string, RequestHeader>)

  /** What the response is asked to do, in call order. */
  datatype Event =
    | WriteHead(statusCode: int, headers: map<string, JsValue>)
    | AddTrailers(trailers: map<string, JsValue>)
    | Write(chunk: JsValue, encoding: Option<string>)
    | End

  /** A snapshot of every field of a response, so that specifications can speak of it as a value. */
  datatype ResponseState = ResponseState(
    statusCode: int,
    statusMessage: string,
    sendDate: bool,
    defaultEncoding: string,
    headers: map<string, JsValue>,
    finished: bool,
    events: seq<Event>)

  class Response {
    var statusCode: int
    var statusMessage: string
    var sendDate: bool
    var defaultEncoding: string
    var headers: map<string, JsValue>
    var finished: bool
    var events: seq<Event>

    /**
     * A fresh server response with Node's initial values, except that Node's initial
     * `statusMessage` is `undefined`, for which the empty string stands here.
     */
    constructor ()
      ensures State() == ResponseState(200, "", true, "utf8", map[], false, [])
    {
      statusCode, statusMessage, sendDate, defaultEncoding := 200, "", true, "utf8";
      headers, finished, events := map[], false, [];
    }

    function State(): ResponseState
      reads this
    {
      ResponseState(statusCode, statusMessage, sendDate, defaultEncoding, headers, finished, events)
    }

    method WriteHead(code: int, head: map<string, JsValue>)
      modifies this
      ensures State() == old(State()).(events := old(events) + [Event.WriteHead(code, head)])
    {
      events := events + [Event.WriteHead(code, head)];
    }

    method AddTrailers(trailers: map<string, JsValue>)
      modifies this
      ensures State() == old(State()).(events := old(events) + [Event.AddTrailers(trailers)])
    {
      events := events + [Event.AddTrailers(trailers)];
    }

    method Write(chunk: JsValue, encoding: Option<string>)
      modifies this
      ensures State() == old(State()).(events := old(events) + [Event.Write(chunk, encoding)])
    {
      events := events + [Event.Write(chunk, encoding)];
    }

    /** Logs the end of the response; setting `finished` is left to the caller's callback. */
    method End()
      modifies this
      ensures State() == old(State()).(events := old(events) + [Event.End])
    {
      events := events + [Event.End];
    }

    method SetDefaultEncoding(encoding: string)
      modifies this
      ensures State() == old(State()).(defaultEncoding := encoding)
    {
      defaultEncoding := encoding;
    }

    /** A header is present when its name is a key, whatever its value. */
    predicate HasHeader(name: string)
      reads this
    {
      name in headers
    }

    function GetHeader(name: string): (v: JsValue)
      reads this
      ensures name !in headers ==> v == Undefined
    {
      if name in headers then headers[name] else Undefined
    }

    method SetHeader(name: string, value: JsValue)
      modifies this
      ensures State() == old(State()).(headers := old(headers)[name := value])
    {
      headers := headers[name := value];
    }

    method RemoveHeader(name: string)
      modifies this
      ensures State() == old(State()).(headers := old(headers) - {name})
    {
      headers := headers - {name};
    }
  }
}

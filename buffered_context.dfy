/**
 * What the two variants of `SrvContext` (src/SrvContext.ts and build/SrvContext.js)
 * have in common. Unlike `Context`, a `SrvContext` buffers the response properties
 * and a case-sensitive header dictionary in its own fields; nothing reaches the server
 * response before `finish`/`terminate`. Both copy the status code, message, encoding
 * and sendDate; only the src `finish` also copies the headers onto the response, and
 * the body is written, never copied. The dictionary queries use
 * JavaScript truthiness, so a header stored with a falsy value counts as absent.
 */
module BufferedContext {
  import opened JsValues
  import opened NodeHttp

  /** The fields a `SrvContext` keeps for itself until it commits them. */
  datatype Buffered = Buffered(
    body: JsValue,
    headers: map<string, JsValue>,
    statusCode: int,
    statusMessage: string,
    defaultEncoding: string,
    sendDate: bool)

  /** How a `finish` leaves the server response, and how its promise settles. */
  datatype Commit = Commit(response: ResponseState, outcome: Outcome)

  // ---------------------------------------------------------------------------
  // The header dictionary
  // ---------------------------------------------------------------------------

  /** `hasHeader(name)` is `!!headers[name]`: a missing key reads as `undefined`. */
  predicate HasHeader(headers: map<string, JsValue>, name: string): (present: bool)
    ensures present ==> name in headers
    ensures present <==> name in headers && headers[name] !in Falsy
  {
    name in headers && Truthy(headers[name])
  }

  /** `getHeader(name)`: the stored value when `hasHeader(name)`, otherwise `null`. */
  function GetHeader(headers: map<string, JsValue>, name: string): (v: JsValue)
    ensures Truthy(v) <==> HasHeader(headers, name)
    ensures HasHeader(headers, name) ==> v == headers[name]
    ensures !HasHeader(headers, name) ==> v == Null
  {
    if HasHeader(headers, name) then headers[name] else Null
  }

  /** The dictionary after `setHeader(name, value)`, and whether the header then counts as present. */
  lemma SetHeaderStores(headers: map<string, JsValue>, name: string, value: JsValue)
    ensures var after := headers[name := value];
            && name in after && after[name] == value
            && (HasHeader(after, name) <==> Truthy(value))
            && (forall n :: n != name ==> (n in after <==> n in headers))
            && (forall n :: n != name && n in headers ==> after[n] == headers[n])
  {
  }

  /** The dictionary after `removeHeader(name)`, and the value it returns. */
  function RemoveHeader(headers: map<string, JsValue>, name: string): (r: (map<string, JsValue>, bool))
    ensures r.1 <==> HasHeader(headers, name)
    ensures r.1 ==> r.0 == headers - {name} && name !in r.0
    ensures !r.1 ==> r.0 == headers
  {
    if HasHeader(headers, name) then (headers - {name}, true) else (headers, false)
  }

  /** A header set to a falsy value is still a key, yet `hasHeader`, `getHeader` and `removeHeader` treat it as absent. */
  lemma FalsyHeaderIsAbsent(headers: map<string, JsValue>, name: string, value: JsValue)
    requires !Truthy(value)
    ensures var after := headers[name := value];
            && name in after
            && !HasHeader(after, name)
            && GetHeader(after, name) == Null
            && RemoveHeader(after, name) == (after, false)
  {
  }

  /**
   * `getHeaderNames()`: the `for (const name in this.headers) names.push(name)` loop. Every key
   * is listed exactly once, including keys whose value is falsy; the enumeration order is not modelled.
   */
  method HeaderNames(headers: map<string, JsValue>) returns (names: seq<string>)
    ensures forall n :: n in names <==> n in headers
    ensures forall i, j :: 0 <= i < j < |names| ==> names[i] != names[j]
  {
    names := [];
    var pending := headers.Keys;
    while pending != {}
      invariant pending <= headers.Keys
      invariant forall n :: n in names ==> n in headers && n !in pending
      invariant forall n :: n in headers ==> n in names || n in pending
      invariant forall i, j :: 0 <= i < j < |names| ==> names[i] != names[j]
      decreases pending
    {
      var name :| name in pending;
      names := names + [name];
      pending := pending - {name};
    }
  }

  // ---------------------------------------------------------------------------
  // The default encoding, read from the request
  // ---------------------------------------------------------------------------

  /** The separator `Array.prototype.toString` puts between elements. */
  const Comma: char := ','

  /**
   * `Array.prototype.toString`: the elements joined by commas. The text starts with the
   * first element, and two or more elements leave at least one comma between each pair.
   */
  function Join(values: seq<string>): (text: string)
    ensures |values| == 1 ==> text == values[0]
    ensures |values| >= 1 ==> values[0] <= text
    ensures |values| >= 2 ==> values[0] + [Comma] <= text && |text| >= |values| - 1
    ensures |values| >= 1 ==> multiset(text)[Comma] >= |values| - 1
  {
    if |values| == 0 then ""
    else if |values| == 1 then values[0]
    else
      var rest := Join(values[1..]);
      assert multiset(values[0] + [Comma] + rest) == multiset(values[0]) + multiset([Comma]) + multiset(rest);
      values[0] + [Comma] + rest
  }

  /**
   * The request header's `toString()`: a single value as it is, a repeated header as its
   * values joined by commas. It is empty only for an empty value, no values, or one empty value.
   */
  function HeaderText(h: RequestHeader): (text: string)
    ensures h.Single? ==> text == h.value
    ensures text == "" <==>
      (h.Single? && h.value == "") || (h.Multiple? && (|h.values| == 0 || (|h.values| == 1 && h.values[0] == "")))
  {
    match h
    case Single(value) => value
    case Multiple(values) => JoinEmpty(values); Join(values)
  }

  /** A joined array is empty only when it has no element, or one empty element. */
  lemma JoinEmpty(values: seq<string>)
    ensures Join(values) == "" <==> |values| == 0 || (|values| == 1 && values[0] == "")
  {
    if |values| > 1 {
      assert |Join(values)| >= 1;
    }
  }

  /** `request.headers['encoder'].toString() || 'UTF-8'`. */
  function DefaultEncoding(encoder: RequestHeader): (encoding: string)
    ensures encoding != ""
    ensures HeaderText(encoder) != "" ==> encoding == HeaderText(encoder)
    ensures HeaderText(encoder) == "" ==> encoding == "UTF-8"
  {
    var text := HeaderText(encoder);
    if text != "" then text else "UTF-8"
  }

  // ---------------------------------------------------------------------------
  // Committing the buffered fields to the response
  // ---------------------------------------------------------------------------

  /** `_setResponsePropertiesBack()`: status code, message, default encoding and sendDate, nothing else. */
  function PropertiesBack(b: Buffered, r: ResponseState): (t: ResponseState)
    ensures t.statusCode == b.statusCode && t.statusMessage == b.statusMessage
    ensures t.defaultEncoding == b.defaultEncoding && t.sendDate == b.sendDate
    ensures t.headers == r.headers && t.finished == r.finished && t.events == r.events
  {
    r.(statusCode := b.statusCode, statusMessage := b.statusMessage,
       defaultEncoding := b.defaultEncoding, sendDate := b.sendDate)
  }

  /** The response once `end` has called back: the end is logged, then `finished` is set. */
  function Ended(r: ResponseState): (t: ResponseState)
    ensures t.finished && t.events == r.events + [End]
    ensures t.(finished := r.finished, events := r.events) == r
  {
    r.(events := r.events + [End], finished := true)
  }

  /**
   * `terminate()` (the same in both variants): the scalar properties are copied, the headers
   * are not, the response is ended and marked finished. There is no finished check.
   */
  function AfterTerminate(b: Buffered, r: ResponseState): (t: ResponseState)
    ensures t.finished
    ensures t.events == r.events + [End]
    ensures t.headers == r.headers
    ensures t.statusCode == b.statusCode && t.statusMessage == b.statusMessage
    ensures t.defaultEncoding == b.defaultEncoding && t.sendDate == b.sendDate
  {
    Ended(PropertiesBack(b, r))
  }
}

/**
 * The older runner of src/Srvem.ts. Its middleware come from an external package
 * (`@srvem/middleware`, not part of this model) and take no context: the listener
 * writes the current request and response into fields of each shared middleware
 * object and then calls its `main()`, in registration order, without awaiting it.
 * Because the request state lives on objects shared by every request, each
 * request overwrites what the previous one left there.
 *
 * What `main()` does is unknown here; it is modelled as recording what it observes
 * (the middleware's own request and response fields) in a journal shared by the
 * middleware, so that the order and the arguments of the calls can be stated.
 */
module LegacyPipeline {
  import opened JsValues
  import opened NodeHttp

  /** One call of `main()`: which middleware object, and the request/response fields it saw. */
  datatype Invocation = Invocation(middleware: SrvMiddleware, request: Option<Request>, response: Response?)

  class Journal {
    var entries: seq<Invocation>

    constructor ()
      ensures entries == []
    {
      entries := [];
    }
  }

  class SrvMiddleware {
    const journal: Journal
    var request: Option<Request>
    var response: Response?

    constructor (journal: Journal)
      ensures this.journal == journal
      ensures request == None && response == null
    {
      this.journal := journal;
      request := None;
      response := null;
    }

    method RunMain()
      modifies journal
      ensures journal.entries == old(journal.entries) + [Invocation(this, request, response)]
    {
      journal.entries := journal.entries + [Invocation(this, request, response)];
    }
  }

  class Srvem {
    var middleware: seq<SrvMiddleware>

    constructor ()
      ensures middleware == []
    {
      middleware := [];
    }

    /** `use(middleware)`: appended at the end of the chain. */
    method Use(m: SrvMiddleware)
      modifies this
      ensures middleware == old(middleware) + [m]
    {
      middleware := middleware + [m];
    }

    /**
     * The listener `callback()` returns, for one request: each middleware, in order, gets this
     * request and response assigned to its fields and then has its `main()` called, once per
     * position in the chain. Afterwards every middleware holds this request and response,
     * whatever an earlier request left there; the chain itself is left as it was.
     */
    method Callback(request: Request, response: Response, journal: Journal)
      requires forall k :: 0 <= k < |middleware| ==> middleware[k].journal == journal
      modifies middleware, journal
      ensures |journal.entries| == |old(journal.entries)| + |middleware|
      ensures journal.entries[..|old(journal.entries)|] == old(journal.entries)
      ensures forall k :: 0 <= k < |middleware| ==>
        journal.entries[|old(journal.entries)| + k] == Invocation(middleware[k], Some(request), response)
      ensures forall k :: 0 <= k < |middleware| ==>
        middleware[k].request == Some(request) && middleware[k].response == response
      ensures middleware == old(middleware)
    {
      var i := 0;
      while i < |middleware|
        invariant i <= |middleware|
        invariant |journal.entries| == |old(journal.entries)| + i
        invariant journal.entries[..|old(journal.entries)|] == old(journal.entries)
        invariant forall k :: 0 <= k < i ==>
          journal.entries[|old(journal.entries)| + k] == Invocation(middleware[k], Some(request), response)
        invariant forall k :: 0 <= k < i ==>
          middleware[k].request == Some(request) && middleware[k].response == response
      {
        var m := middleware[i];
        m.request := Some(request);
        m.response := response;
        m.RunMain();
        i := i + 1;
      }
    }
  }
}

/**
 * The Streamable HTTP server's session registry and request router
 * (index.ts): the process-wide `transports` map, the POST, GET and DELETE
 * handlers for `/mcp`, the `onsessioninitialized` and `onclose` callbacks
 * each new transport is given, and the SIGINT shutdown loop.
 *
 * The SDK's StreamableHTTPServerTransport is opaque here. What one call of
 * its `handleRequest` did is given as an `SdkRun`: whether it assigned a
 * freshly generated session id (firing `onsessioninitialized`), whether it
 * closed the transport (firing `onclose`), and whether it returned or threw,
 * and if it threw, whether response headers had already gone out.
 * Events are sequential: the asynchronous interleaving of requests is not
 * modelled.
 */
module Sessions {
  import opened Wrappers

  // Error codes of section 5.1 of the JSON-RPC 2.0 specification.
  const ServerErrorCode := -32000    // implementation-defined server error
  const InternalErrorCode := -32603  // Internal error

  /** The body `{jsonrpc, error: {code, message}, id}` of a JSON-RPC error response. */
  datatype ErrorBody = ErrorBody(jsonrpc: string, code: int, message: string, id: Option<int>)

  /** What a handler leaves on the HTTP response. */
  datatype Response =
    | ByTransport                         // the SDK transport wrote it (or had already sent headers)
    | Json(status: int, error: ErrorBody) // res.status(status).json(error)
    | Text(status: int, text: string)     // res.status(status).send(text)
    | Rejected                            // the async handler rejected; the application wrote nothing

  const BadRequest: Response :=
    Json(400, ErrorBody("2.0", ServerErrorCode, "Bad Request: No valid session ID provided", None))
  const InternalError: Response :=
    Json(500, ErrorBody("2.0", InternalErrorCode, "Internal server error", None))
  const InvalidSession: Response := Text(400, "Invalid or missing session ID")
  const TerminationError: Response := Text(500, "Error processing session termination")

  /** How an awaited SDK call ended. */
  datatype Outcome = Returned | Threw(headersSent: bool)

  /** What one opaque `handleRequest` call did (for a new transport, `server.connect` too). */
  datatype SdkRun = SdkRun(generatedId: Option<string>, closes: bool, outcome: Outcome)

  /** `randomUUID()` never yields the empty string. */
  predicate GeneratesNonEmpty(run: SdkRun) {
    run.generatedId != Some("")
  }

  /** The `mcp-session-id` header is truthy: present and not the empty string. */
  predicate Present(sid: Option<string>) {
    sid.Some? && sid.value != ""
  }

  /** `sessionId && transports[sessionId]`, for an own key of the registry. */
  predicate IsRegistered(keys: set<string>, sid: Option<string>) {
    Present(sid) && sid.value in keys
  }

  /** The three cases a POST falls into. */
  datatype Route = Continuation(id: string) | Initialization | Invalid

  /**
   * The POST classification: a truthy, registered id continues its session;
   * no id (or an empty one) with an initialize body starts a new one;
   * everything else, including an unknown id with an initialize body, is invalid.
   */
  function Classify(keys: set<string>, sid: Option<string>, isInit: bool): (r: Route)
    ensures r.Continuation? <==> IsRegistered(keys, sid)
    ensures r.Continuation? ==> r.id == sid.value
    ensures r.Initialization? <==> !Present(sid) && isInit
    ensures r.Invalid? <==> (Present(sid) && sid.value !in keys) || (!Present(sid) && !isInit)
  {
    if IsRegistered(keys, sid) then Continuation(sid.value)
    else if !Present(sid) && isInit then Initialization
    else Invalid
  }

  /** An empty-string session id routes exactly like a missing one. */
  lemma EmptyIdIsAbsent(keys: set<string>, isInit: bool)
    ensures Classify(keys, Some(""), isInit) == Classify(keys, None, isInit)
  {
  }

  /**
   * The POST response: the fixed 400 for an invalid request; otherwise the
   * transport's own answer, unless the SDK threw before any header went out,
   * in which case the 500 internal error.
   */
  function PostResponse(route: Route, outcome: Outcome): (r: Response)
    ensures route.Invalid? ==> r == BadRequest
    ensures !route.Invalid? ==> (r == InternalError <==> outcome == Threw(false))
    ensures !route.Invalid? && outcome != Threw(false) ==> r == ByTransport
  {
    if route.Invalid? then BadRequest
    else match outcome
      case Returned => ByTransport
      case Threw(headersSent) => if headersSent then ByTransport else InternalError
  }

  /** A present id that is not registered is rejected with the fixed 400, whatever the body. */
  lemma UnknownSessionRejected(keys: set<string>, sid: Option<string>, isInit: bool, outcome: Outcome)
    requires Present(sid) && sid.value !in keys
    ensures Classify(keys, sid, isInit) == Invalid
    ensures PostResponse(Classify(keys, sid, isInit), outcome) == BadRequest
  {
  }

  /** The DELETE response for a registered session. */
  function DeleteResponse(outcome: Outcome): (r: Response)
    ensures r == TerminationError <==> outcome == Threw(false)
    ensures r != TerminationError ==> r == ByTransport
  {
    match outcome
    case Returned => ByTransport
    case Threw(headersSent) => if headersSent then ByTransport else TerminationError
  }

  /** The GET handler's answer: 400 unless the id is registered; then the transport's, or a rejection when it threw. */
  function GetReply(keys: set<string>, sid: Option<string>, outcome: Outcome): (r: Response)
    ensures r == InvalidSession <==> !IsRegistered(keys, sid)
    ensures r == Rejected <==> IsRegistered(keys, sid) && outcome.Threw?
    ensures r == ByTransport <==> IsRegistered(keys, sid) && outcome.Returned?
  {
    if !IsRegistered(keys, sid) then InvalidSession
    else if outcome.Returned? then ByTransport
    else Rejected
  }

  /** The DELETE handler's answer: 400 unless the id is registered; then `DeleteResponse`. */
  function DeleteReply(keys: set<string>, sid: Option<string>, outcome: Outcome): (r: Response)
    ensures r == InvalidSession <==> !IsRegistered(keys, sid)
    ensures r == TerminationError <==> IsRegistered(keys, sid) && outcome == Threw(false)
    ensures r == ByTransport <==> IsRegistered(keys, sid) && outcome != Threw(false)
  {
    if !IsRegistered(keys, sid) then InvalidSession
    else DeleteResponse(outcome)
  }

  // ---------------------------------------------------------------------
  // index.ts:290 as written. The registry is a plain object literal, so
  // `transports[sessionId]` is also truthy for a name every object
  // inherits from Object.prototype.

  /** The names an empty object literal inherits from Object.prototype. */
  const InheritedNames: set<string> := {
    "__proto__", "constructor", "hasOwnProperty", "isPrototypeOf",
    "propertyIsEnumerable", "toLocaleString", "toString", "valueOf",
    "__defineGetter__", "__defineSetter__", "__lookupGetter__", "__lookupSetter__"
  }

  /** The POST classification as written: an inherited name counts as a registered id. */
  function RouteAsWritten(keys: set<string>, sid: Option<string>, isInit: bool): (r: Route)
    ensures r.Continuation? <==> Present(sid) && (sid.value in keys || sid.value in InheritedNames)
  {
    if Present(sid) && (sid.value in keys || sid.value in InheritedNames) then Continuation(sid.value)
    else if !Present(sid) && isInit then Initialization
    else Invalid
  }

  /**
   * The POST response as written. On an inherited name the "transport" is a
   * function or Object.prototype itself, which has no `handleRequest`: the
   * call throws a TypeError before any header is sent, and the catch block
   * answers 500.
   */
  function PostResponseAsWritten(keys: set<string>, sid: Option<string>, isInit: bool, outcome: Outcome): Response {
    match RouteAsWritten(keys, sid, isInit)
    case Continuation(id) =>
      if id in keys then PostResponse(Continuation(id), outcome) else InternalError
    case route => PostResponse(route, outcome)
  }

  /**
   * The GET answer as written: `!transports[sessionId]` is false for an
   * inherited name, `transport.handleRequest` is not a function, and the
   * TypeError rejects the handler.
   */
  function GetReplyAsWritten(keys: set<string>, sid: Option<string>, outcome: Outcome): Response {
    if Present(sid) && sid.value !in keys && sid.value in InheritedNames then Rejected
    else GetReply(keys, sid, outcome)
  }

  /**
   * The DELETE answer as written: the same TypeError is thrown inside the
   * try block before any header is sent, so the catch block answers 500.
   */
  function DeleteReplyAsWritten(keys: set<string>, sid: Option<string>, outcome: Outcome): Response {
    if Present(sid) && sid.value !in keys && sid.value in InheritedNames then TerminationError
    else DeleteReply(keys, sid, outcome)
  }

  /**
   * `mcp-session-id: constructor` on an empty registry: POST answers 500, GET
   * rejects and DELETE answers 500 where an unknown id should get 400.
   */
  lemma InheritedNameCounterexample()
    ensures PostResponse(Classify({}, Some("constructor"), false), Returned) == BadRequest
    ensures PostResponseAsWritten({}, Some("constructor"), false, Returned) == InternalError
    ensures GetReply({}, Some("constructor"), Returned) == InvalidSession
    ensures GetReplyAsWritten({}, Some("constructor"), Returned) == Rejected
    ensures DeleteReply({}, Some("constructor"), Returned) == InvalidSession
    ensures DeleteReplyAsWritten({}, Some("constructor"), Returned) == TerminationError
  {
  }

  /** The code as written and the corrected handlers differ exactly on inherited names that are not registered. */
  lemma AsWrittenDiffersOnlyOnInheritedNames(keys: set<string>, sid: Option<string>, isInit: bool, outcome: Outcome)
    ensures PostResponseAsWritten(keys, sid, isInit, outcome) != PostResponse(Classify(keys, sid, isInit), outcome)
        <==> Present(sid) && sid.value in InheritedNames && sid.value !in keys
    ensures GetReplyAsWritten(keys, sid, outcome) != GetReply(keys, sid, outcome)
        <==> Present(sid) && sid.value in InheritedNames && sid.value !in keys
    ensures DeleteReplyAsWritten(keys, sid, outcome) != DeleteReply(keys, sid, outcome)
        <==> Present(sid) && sid.value in InheritedNames && sid.value !in keys
  {
  }

  // ---------------------------------------------------------------------

  /** One StreamableHTTPServerTransport: the session id the SDK assigns it, and whether it has been closed. */
  class Transport {
    var sessionId: Option<string>
    var closed: bool

    /** `new StreamableHTTPServerTransport(...)`: no session id yet, open. */
    constructor ()
      ensures sessionId == None && !closed
    {
      sessionId := None;
      closed := false;
    }
  }

  /** The process-wide `transports` object and the handlers that use it. */
  class Registry {
    var transports: map<string, Transport>

    /** Every entry is keyed by its own transport's (non-empty) session id, and every registered transport is open. */
    ghost predicate Valid()
      reads this, transports.Values
    {
      forall id :: id in transports ==> id != "" && transports[id].sessionId == Some(id) && !transports[id].closed
    }

    /** `const transports = {}`. */
    constructor ()
      ensures Valid() && transports == map[]
    {
      transports := map[];
    }

    /** The `onsessioninitialized` callback: store the transport under the id the SDK generated. */
    method OnSessionInitialized(t: Transport, id: string)
      modifies this
      ensures transports == old(transports)[id := t]
    {
      transports := transports[id := t];
    }

    /**
     * The `onclose` hook: remove the entry under the transport's own id, if
     * that id is set and still registered. Nothing else is removed, and a
     * second call changes nothing.
     */
    method OnClose(t: Transport)
      modifies this
      ensures transports == if Present(t.sessionId) then old(transports) - {t.sessionId.value} else old(transports)
    {
      var sid := t.sessionId;
      if Present(sid) && sid.value in transports {
        transports := transports - {sid.value};
      }
    }

    /**
     * One opaque `transport.handleRequest` call, through the callbacks it may
     * fire: an uninitialized transport may be given a generated id (and then
     * registered by `onsessioninitialized`); the transport may be closed
     * (and then unregistered by `onclose`).
     */
    method HandleRequest(t: Transport, run: SdkRun)
      modifies this, t
      ensures t.sessionId == if old(t.sessionId).None? then run.generatedId else old(t.sessionId)
      ensures t.closed == (old(t.closed) || run.closes)
      ensures var registered :=
          if old(t.sessionId).None? && run.generatedId.Some? then old(transports)[run.generatedId.value := t]
          else old(transports);
        transports == if run.closes && Present(t.sessionId) then registered - {t.sessionId.value} else registered
    {
      if t.sessionId.None? && run.generatedId.Some? {
        t.sessionId := run.generatedId;
        OnSessionInitialized(t, run.generatedId.value);
      }
      if run.closes {
        t.closed := true;  // the SDK's close() ends by firing onclose
        OnClose(t);
      }
    }

    /**
     * `mcpPostHandler`. A continuation reuses the registered transport and
     * adds no entry; an initialization creates a fresh transport, which is
     * registered only if the SDK fires `onsessioninitialized`; an invalid
     * request gets the fixed 400 and changes nothing.
     */
    method Post(sid: Option<string>, isInit: bool, run: SdkRun) returns (route: Route, t: Transport?, resp: Response)
      requires Valid() && GeneratesNonEmpty(run)
      modifies this, transports.Values
      ensures Valid()
      ensures route == Classify(old(transports).Keys, sid, isInit)
      ensures resp == PostResponse(route, run.outcome)
      ensures route.Invalid? ==> t == null && transports == old(transports)
      ensures route.Continuation? ==>
        && t == old(transports)[route.id] && t.closed == run.closes
        && transports == if run.closes then old(transports) - {route.id} else old(transports)
      ensures route.Initialization? ==>
        && t != null && fresh(t)
        && t.sessionId == run.generatedId && t.closed == run.closes
        && transports == if run.generatedId.None? then old(transports)
                         else if run.closes then old(transports) - {run.generatedId.value}
                         else old(transports)[run.generatedId.value := t]
      ensures forall u :: u in old(transports).Values && u != t ==> unchanged(u)
    {
      route := Classify(transports.Keys, sid, isInit);
      match route {
        case Continuation(id) =>
          t := transports[id];
          ghost var before := transports;
          HandleRequest(t, run);
          forall k | k in transports
            ensures transports[k].sessionId == Some(k) && !transports[k].closed
          {
            assert k in before;
            if k != id {
              assert before[k].sessionId == Some(k);
            }
          }
        case Initialization =>
          var created := new Transport();
          t := created;
          HandleRequest(created, run);
        case Invalid =>
          t := null;
      }
      resp := PostResponse(route, run.outcome);
    }

    /**
     * `mcpGetHandler`: a missing, empty or unregistered id gets 400 "Invalid or
     * missing session ID" and changes nothing; otherwise the registered
     * transport serves the stream, and a throw rejects the handler.
     */
    method Get(sid: Option<string>, run: SdkRun) returns (resp: Response)
      requires Valid()
      modifies this, transports.Values
      ensures Valid()
      ensures !IsRegistered(old(transports).Keys, sid) ==>
        resp == InvalidSession && transports == old(transports) && unchanged(old(transports).Values)
      ensures resp == GetReply(old(transports).Keys, sid, run.outcome)
      ensures IsRegistered(old(transports).Keys, sid) ==>
        && old(transports)[sid.value].closed == run.closes
        && (forall u :: u in old(transports).Values && u != old(transports)[sid.value] ==> unchanged(u))
        && transports == if run.closes then old(transports) - {sid.value} else old(transports)
    {
      resp := GetReply(transports.Keys, sid, run.outcome);
      if IsRegistered(transports.Keys, sid) {
        Serve(sid.value, run);
      }
    }

    /**
     * `mcpDeleteHandler`: a missing, empty or unregistered id gets 400 and
     * changes nothing; otherwise the registered transport handles the
     * termination, and a throw before any header gives 500.
     */
    method Delete(sid: Option<string>, run: SdkRun) returns (resp: Response)
      requires Valid()
      modifies this, transports.Values
      ensures Valid()
      ensures !IsRegistered(old(transports).Keys, sid) ==>
        resp == InvalidSession && transports == old(transports) && unchanged(old(transports).Values)
      ensures resp == DeleteReply(old(transports).Keys, sid, run.outcome)
      ensures IsRegistered(old(transports).Keys, sid) ==>
        && old(transports)[sid.value].closed == run.closes
        && (forall u :: u in old(transports).Values && u != old(transports)[sid.value] ==> unchanged(u))
        && transports == if run.closes then old(transports) - {sid.value} else old(transports)
    {
      resp := DeleteReply(transports.Keys, sid, run.outcome);
      if IsRegistered(transports.Keys, sid) {
        Serve(sid.value, run);
      }
    }

    /** `handleRequest` on the transport registered under `id`, as GET and DELETE call it. */
    method Serve(id: string, run: SdkRun)
      requires Valid() && id in transports
      modifies this, transports.Values
      ensures Valid()
      ensures old(transports)[id].closed == run.closes
      ensures forall u :: u in old(transports).Values && u != old(transports)[id] ==> unchanged(u)
      ensures transports == if run.closes then old(transports) - {id} else old(transports)
    {
      var t := transports[id];
      ghost var before := transports;
      assert forall k :: k in before && k != id ==> before[k] != t;
      HandleRequest(t, run);
      forall k | k in transports
        ensures transports[k].sessionId == Some(k) && !transports[k].closed
      {
        assert k in before;
        if k != id {
          assert before[k].sessionId == Some(k);
        }
      }
    }

    /** `await transports[sessionId].close(); delete transports[sessionId];` for a close that does not throw. */
    method CloseSession(id: string)
      requires Valid() && id in transports
      modifies this, transports[id]
      ensures Valid()
      ensures transports == old(transports) - {id}
      ensures old(transports)[id].closed
    {
      var t := transports[id];
      t.closed := true;  // the SDK's close() ends by firing onclose
      OnClose(t);
      transports := transports - {id};  // now a no-op
    }

    /**
     * The SIGINT handler: try `close()` on every registered transport; an
     * entry is deleted only after its close succeeded, a close that throws
     * (the ids in `failing`) is logged and the loop goes on; then the
     * process exits with status 0.
     */
    method Shutdown(failing: set<string>) returns (attempted: set<string>, exitCode: int)
      requires Valid()
      modifies this, transports.Values
      ensures Valid()
      ensures attempted == old(transports).Keys
      ensures transports.Keys == old(transports).Keys * failing
      ensures forall id :: id in transports ==> transports[id] == old(transports)[id]
      ensures forall id :: id in old(transports) && id !in failing ==> old(transports)[id].closed
      ensures exitCode == 0
    {
      ghost var snapshot := transports;
      var pending := transports.Keys;
      attempted := {};
      while pending != {}
        invariant Valid()
        invariant pending <= snapshot.Keys
        invariant attempted == snapshot.Keys - pending
        invariant transports.Keys == snapshot.Keys - (attempted - failing)
        invariant forall id :: id in transports ==> transports[id] == snapshot[id]
        invariant forall id :: id in attempted && id !in failing ==> snapshot[id].closed
        decreases pending
      {
        var id :| id in pending;
        pending := pending - {id};
        attempted := attempted + {id};
        if id !in failing {
          CloseSession(id);
        }
      }
      exitCode := 0;
    }
  }

  /** A client's session lifecycle, as callers can reason about it from the contracts alone. */
  method SessionLifecycle()
  {
    var registry := new Registry();
    var route, t, resp := registry.Post(None, true, SdkRun(Some("s1"), false, Returned));
    assert route == Initialization && resp == ByTransport;
    assert registry.transports == map["s1" := t];

    var route2, t2, resp2 := registry.Post(Some("s1"), false, SdkRun(None, false, Returned));
    assert route2 == Continuation("s1") && t2 == t;

    var route3, t3, resp3 := registry.Post(Some("s2"), true, SdkRun(Some("s3"), false, Returned));
    assert route3 == Invalid && resp3 == BadRequest && registry.transports == map["s1" := t];

    var ack := registry.Delete(Some("s1"), SdkRun(None, true, Returned));
    assert ack == ByTransport && registry.transports == map[];

    var stream := registry.Get(Some("s1"), SdkRun(None, false, Returned));
    assert stream == InvalidSession;
  }
}

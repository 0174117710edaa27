/**
 * The endpoint builder (src/resources/builder/builder.js): four routes per
 * collection, each handler checking its inputs inline, calling the data-access
 * layer and answering with exactly one response write.
 *
 * A handler returns the data-access call it made (`None` when it made none);
 * the settled result of that call is the `reply` parameter. The identifier
 * that `idService.generate()` would produce for a POST is the `newId` parameter.
 */
module Builder {
  import opened Wrappers
  import opened Errors
  import opened Values
  import opened Requests
  import opened Base
  import Ids

  /** A response body: none, one JSON object, or a JSON array. */
  datatype Payload = Empty | Json(doc: Document) | JsonArray(docs: seq<Document>)

  /** The call a handler makes on the data-access layer, with the arguments it passes. */
  datatype StoreCall =
    | GetCall(collection: string, maybeId: Option<string>, query: map<string, string>)
    | PostCall(collection: string, data: Document)
    | PutCall(collection: string, id: string, data: Document)
    | RemoveCall(collection: string, id: string)

  /** A registered route: the verb and the path pattern. */
  datatype Route = Route(verb: string, path: string)

  /**
   * `res`: the status code set so far (`None` once set to `undefined`), the
   * body sent and the number of `send` calls.
   */
  class Response {
    var statusCode: Option<int>
    var body: Payload
    var writes: nat

    /** A fresh response has the default status 200 and has sent nothing. */
    constructor ()
      ensures Unsent()
    {
      statusCode := Some(200);
      body := Empty;
      writes := 0;
    }

    predicate Unsent()
      reads this
    {
      statusCode == Some(200) && body == Empty && writes == 0
    }

    /** `res.status(code)`. */
    method Status(code: Option<int>)
      modifies this`statusCode
      ensures statusCode == code
    {
      statusCode := code;
    }

    /** `res.send(payload)`: one write. */
    method Send(payload: Payload)
      modifies this`body, this`writes
      ensures body == payload && writes == old(writes) + 1
    {
      body := payload;
      writes := writes + 1;
    }
  }

  /** `app`: the routes registered so far. */
  class Router {
    var routes: seq<Route>

    constructor ()
      ensures routes == []
    {
      routes := [];
    }
  }

  /** A descriptor's `body`: `{message}` when it has a message, nothing otherwise. */
  function ErrorBody(e: ErrorDescriptor): (p: Payload)
    ensures p == Empty <==> e.message.None?
    ensures p != Empty ==> p == Json(map["message" := Text(e.message.value)])
  {
    match e.message
    case Some(m) => Json(map["message" := Text(m)])
    case None => Empty
  }

  /** `err.status`: a driver error carries none. */
  function FailureStatus(f: Failure): Option<int> {
    match f
    case Known(e) => Some(e.status)
    case Raw => None
  }

  /** `err.body`: a driver error carries none. */
  function FailureBody(f: Failure): Payload {
    match f
    case Known(e) => ErrorBody(e)
    case Raw => Empty
  }

  /** What `res.send(result)` sends for a document or an array of documents. */
  function ResultBody(r: Resolution): Payload
    requires !r.Acknowledged?
  {
    match r
    case Single(doc) => Json(doc)
    case Listing(docs) => JsonArray(docs)
  }

  /** The response holds the status and body of an error descriptor. */
  predicate WroteError(res: Response, e: ErrorDescriptor)
    reads res
  {
    res.statusCode == Some(e.status) && res.body == ErrorBody(e)
  }

  /** The response holds what the failure callback `res.status(err.status).send(err.body)` writes. */
  predicate WroteFailure(res: Response, f: Failure)
    reads res
  {
    res.statusCode == FailureStatus(f) && res.body == FailureBody(f)
  }

  /** `throwError`: writes the descriptor's status and body. */
  method ThrowError(res: Response, err: ErrorDescriptor)
    modifies res
    ensures WroteError(res, err) && res.writes == old(res.writes) + 1
  {
    res.Status(Some(err.status));
    res.Send(ErrorBody(err));
  }

  /** The failure callback of every handler: `res.status(err.status).send(err.body)`. */
  method SendFailure(res: Response, f: Failure)
    modifies res
    ensures WroteFailure(res, f) && res.writes == old(res.writes) + 1
  {
    res.Status(FailureStatus(f));
    res.Send(FailureBody(f));
  }

  /**
   * `GET /C/:id?`: a given, malformed identifier is answered with INVALID_ID
   * and no call; otherwise the collection, identifier and query go to `get`
   * unchanged, and the result is sent with the default status.
   */
  method HandleGet(collection: string, req: Request, res: Response, reply: Outcome) returns (call: Option<StoreCall>)
    requires res.Unsent()
    requires reply.Ok? ==> !reply.value.Acknowledged?
    modifies res
    ensures res.writes == 1
    ensures call.None? <==> Validate("get", req).Some?
    ensures call.None? ==> WroteError(res, Validate("get", req).value)
    ensures call.Some? ==> call.value == GetCall(collection, req.id, req.query)
    ensures call.Some? && reply.Ok? ==> res.statusCode == Some(200) && res.body == ResultBody(reply.value)
    ensures call.Some? && reply.Err? ==> WroteFailure(res, reply.failure)
  {
    var id := req.id;
    if IsPresent(id) && !Ids.IsValid(id.value) {
      ThrowError(res, INVALID_ID);
      return None;
    }
    call := Some(GetCall(collection, id, req.query));
    match reply
    case Ok(result) => res.Send(ResultBody(result));
    case Err(failure) => SendFailure(res, failure);
  }

  /**
   * `POST /C`: a body without own attributes is answered with
   * EMPTY_REQUEST_BODY, no identifier is assigned and no call is made;
   * otherwise the new identifier is written into the body as `_id`, the body
   * goes to `post`, and success is answered 201 with `{_id}`.
   */
  method HandlePost(collection: string, req: Request, res: Response, newId: string, reply: Outcome) returns (call: Option<StoreCall>)
    requires res.Unsent()
    modifies res, req.body
    ensures res.writes == 1
    ensures call.None? <==> old(Validate("post", req)).Some?
    ensures call.None? <==> old(req.body.own) == map[]
    ensures call.None? ==> WroteError(res, EMPTY_REQUEST_BODY) && req.body.own == old(req.body.own)
    ensures call.Some? ==>
      req.body.own == old(req.body.own)["_id" := ObjectId(newId)] && call.value == PostCall(collection, req.body.own)
    ensures call.Some? && reply.Ok? ==> res.statusCode == Some(201) && res.body == Json(map["_id" := ObjectId(newId)])
    ensures call.Some? && reply.Err? ==> WroteFailure(res, reply.failure)
  {
    var item := req.body;
    HasAnyAttributeIff(item);
    if !HasAnyAttribute(item) {
      ThrowError(res, EMPTY_REQUEST_BODY);
      return None;
    }
    item.own := item.own["_id" := ObjectId(newId)];
    call := Some(PostCall(collection, item.own));
    match reply
    case Ok(_) =>
      res.Status(Some(201));
      res.Send(Json(map["_id" := item.own["_id"]]));
    case Err(failure) => SendFailure(res, failure);
  }

  /**
   * `PUT /C/:id`: the identifier is checked before the body; a valid request
   * goes to `put` with the identifier and the body, and success is answered
   * 204 with no body.
   */
  method HandlePut(collection: string, req: Request, res: Response, reply: Outcome) returns (call: Option<StoreCall>)
    requires req.id.Some?
    requires res.Unsent()
    modifies res
    ensures res.writes == 1
    ensures call.None? <==> Validate("put", req).Some?
    ensures call.None? ==> WroteError(res, Validate("put", req).value)
    ensures call.Some? ==> call.value == PutCall(collection, req.id.value, req.body.own)
    ensures call.Some? && reply.Ok? ==> res.statusCode == Some(204) && res.body == Empty
    ensures call.Some? && reply.Err? ==> WroteFailure(res, reply.failure)
  {
    var id := req.id.value;
    var item := req.body;
    if !Ids.IsValid(id) {
      ThrowError(res, INVALID_ID);
      return None;
    }
    if !HasAnyAttribute(item) {
      ThrowError(res, EMPTY_REQUEST_BODY);
      return None;
    }
    call := Some(PutCall(collection, id, item.own));
    match reply
    case Ok(_) =>
      res.Status(Some(204));
      res.Send(Empty);
    case Err(failure) => SendFailure(res, failure);
  }

  /**
   * A PUT served end to end: the handler's checks, and `put` on the store when
   * they pass. A valid request for an identifier that is not stored is answered
   * 404 with no body and writes nothing; a store that refuses the first
   * connection is answered 503, and so is one that refuses only the lookup's
   * connection, after `updatedAt` was stamped on the body; a write the store
   * refuses reaches the client as the driver's raw error.
   */
  method ServePut(store: Store, collection: string, req: Request, res: Response, now: string) returns (call: Option<StoreCall>)
    requires store.Valid() && req.id.Some? && res.Unsent()
    modifies store, req.body, res
    ensures res.writes == 1 && store.openConnections == old(store.openConnections)
    ensures call.None? <==> old(Validate("put", req)).Some?
    ensures call.None? ==> store.collections == old(store.collections) && req.body.own == old(req.body.own)
    ensures call.Some? && old(store.connectsLeft) == 0 ==>
      WroteError(res, DB_UNAVAILABLE) && req.body.own == old(req.body.own) && store.collections == old(store.collections)
    ensures call.Some? && old(store.connectsLeft) == 1 ==>
      && WroteError(res, DB_UNAVAILABLE) && store.collections == old(store.collections)
      && req.body.own == old(req.body.own)["updatedAt" := Text(now)]
    ensures call.Some? && old(store.connectsLeft) >= 2 && !old(store.readFault) && req.id.value !in old(store.Docs(collection)) ==>
      res.statusCode == Some(404) && res.body == Empty && store.collections == old(store.collections)
    ensures call.Some? && old(store.connectsLeft) >= 2 && !old(store.readFault) && old(store.writeFault) &&
            req.id.value in old(store.Docs(collection)) ==>
      WroteFailure(res, Raw) && store.collections == old(store.collections)
    ensures call.Some? && old(store.connectsLeft) >= 2 && !old(store.readFault) && !old(store.writeFault) &&
            req.id.value in old(store.Docs(collection)) && !ChangesId(old(req.body.own), req.id.value) ==>
      var id := req.id.value;
      var docs := old(store.Docs(collection));
      res.statusCode == Some(204) &&
      store.collections == old(store.collections)[collection := docs[id := docs[id] + old(req.body.own)["updatedAt" := Text(now)]]]
  {
    var reply := Ok(Acknowledged);
    HasAnyAttributeIff(req.body);
    if Validate("put", req).None? {
      reply := store.Put(collection, req.id.value, req.body, now);
    }
    HasAnyAttributeIff(req.body);
    call := HandlePut(collection, req, res, reply);
  }

  /**
   * `DELETE /C/:id`: a malformed identifier is answered with INVALID_ID and
   * no call; otherwise the identifier goes to `remove`, and success is
   * answered 204 with no body.
   */
  method HandleDelete(collection: string, req: Request, res: Response, reply: Outcome) returns (call: Option<StoreCall>)
    requires req.id.Some?
    requires res.Unsent()
    modifies res
    ensures res.writes == 1
    ensures call.None? <==> Validate("delete", req).Some?
    ensures call.None? ==> WroteError(res, INVALID_ID)
    ensures call.Some? ==> call.value == RemoveCall(collection, req.id.value)
    ensures call.Some? && reply.Ok? ==> res.statusCode == Some(204) && res.body == Empty
    ensures call.Some? && reply.Err? ==> WroteFailure(res, reply.failure)
  {
    var id := req.id.value;
    if !Ids.IsValid(id) {
      ThrowError(res, INVALID_ID);
      return None;
    }
    call := Some(RemoveCall(collection, id));
    match reply
    case Ok(_) =>
      res.Status(Some(204));
      res.Send(Empty);
    case Err(failure) => SendFailure(res, failure);
  }

  /** `build`: registers the four routes of the collection on `app`, in this order. */
  method Build(app: Router, collection: string)
    modifies app
    ensures app.routes == old(app.routes) + [
      Route("get", "/" + collection + "/:id?"),
      Route("post", "/" + collection),
      Route("put", "/" + collection + "/:id"),
      Route("delete", "/" + collection + "/:id")
    ]
  {
    app.routes := app.routes + [Route("get", "/" + collection + "/:id?")];
    app.routes := app.routes + [Route("post", "/" + collection)];
    app.routes := app.routes + [Route("put", "/" + collection + "/:id")];
    app.routes := app.routes + [Route("delete", "/" + collection + "/:id")];
  }
}

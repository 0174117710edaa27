/**
 * The request validator (src/services/request/request.js): a verb-by-verb
 * decision that returns one of the error descriptors or nothing.
 */
module Requests {
  import opened Wrappers
  import opened Errors
  import opened Values
  import Ids

  /** The parts of a request the pipeline reads: `req.params.id`, `req.body` and `req.query`. */
  datatype Request = Request(id: Option<string>, body: JsObject, query: map<string, string>)

  /**
   * `hasAnyAttribute`: a for-in walk over the enumerable properties, own and
   * inherited, that answers true at the first own one.
   */
  predicate HasAnyAttribute(data: JsObject)
    reads data
  {
    exists attr :: attr in data.own.Keys + data.inherited && attr in data.own
  }

  /** A body has an attribute iff it has an own one; inherited ones never count. */
  lemma HasAnyAttributeIff(data: JsObject)
    ensures HasAnyAttribute(data) <==> data.own != map[]
  {
    if data.own != map[] {
      var attr :| attr in data.own;
      assert attr in data.own.Keys + data.inherited;
    }
  }

  /** The request names an identifier that `isValid` accepts. */
  predicate CarriesValidId(id: Option<string>) {
    id.Some? && Ids.IsValid(id.value)
  }

  /** `validate`: the three checks in their order; a verb none of them names is always valid. */
  function Validate(verb: string, req: Request): (err: Option<ErrorDescriptor>)
    reads req.body
    ensures err.Some? ==> err.value == INVALID_ID || err.value == EMPTY_REQUEST_BODY
  {
    if verb == "get" && IsPresent(req.id) && !Ids.IsValid(req.id.value) then Some(INVALID_ID)
    else if (verb == "put" || verb == "delete") && (!IsPresent(req.id) || !Ids.IsValid(req.id.value)) then Some(INVALID_ID)
    else if (verb == "put" || verb == "post") && !HasAnyAttribute(req.body) then Some(EMPTY_REQUEST_BODY)
    else None
  }

  /** GET: only an identifier that is given and malformed is an error; no identifier lists the collection. */
  lemma ValidateGet(req: Request)
    ensures Validate("get", req) == if IsPresent(req.id) && !Ids.IsValid(req.id.value) then Some(INVALID_ID) else None
  {
  }

  /** PUT: the identifier is checked first, then the body must have an own attribute. */
  lemma ValidatePut(req: Request)
    ensures Validate("put", req) ==
      if !CarriesValidId(req.id) then Some(INVALID_ID)
      else if req.body.own == map[] then Some(EMPTY_REQUEST_BODY)
      else None
  {
    HasAnyAttributeIff(req.body);
  }

  /** DELETE: a missing or malformed identifier is the only error; the body is never looked at. */
  lemma ValidateDelete(req: Request)
    ensures Validate("delete", req) == if !CarriesValidId(req.id) then Some(INVALID_ID) else None
  {
  }

  /** POST: the identifier is never checked; a body with no own attribute is the only error. */
  lemma ValidatePost(req: Request)
    ensures Validate("post", req) == if req.body.own == map[] then Some(EMPTY_REQUEST_BODY) else None
  {
    HasAnyAttributeIff(req.body);
  }

  /** Any verb other than get, put, delete and post passes. */
  lemma ValidateOtherVerb(verb: string, req: Request)
    requires verb !in {"get", "put", "delete", "post"}
    ensures Validate(verb, req) == None
  {
  }

  /** A body whose attributes all come from its prototype is empty for POST and PUT. */
  lemma PrototypeOnlyBodyIsEmpty(verb: string, req: Request)
    requires verb == "post" || (verb == "put" && CarriesValidId(req.id))
    requires req.body.own == map[] && req.body.inherited != {}
    ensures Validate(verb, req) == Some(EMPTY_REQUEST_BODY)
  {
    HasAnyAttributeIff(req.body);
  }
}

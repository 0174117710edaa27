/**
 * The closed table of error descriptors (src/constants/errors.js).
 * A descriptor is `{status, body: {message}}`; RESOURCE_NOT_FOUND has no body.
 */
module Errors {
  import opened Wrappers

  /** `message == None` stands for a descriptor with no `body` property. */
  datatype ErrorDescriptor = ErrorDescriptor(status: int, message: Option<string>)

  const INVALID_ID := ErrorDescriptor(400, Some("Id should be a string of 24 hex characters."))
  const EMPTY_REQUEST_BODY := ErrorDescriptor(400, Some("Request body cannot be empty."))
  const RESOURCE_NOT_FOUND := ErrorDescriptor(404, None)
  const DB_UNAVAILABLE := ErrorDescriptor(503, Some("Failed to connect to database."))
  const UNEXPECTED_ERROR := ErrorDescriptor(500, Some("Unexpected server error."))

  /** The five names of the table, as `module.exports` lists them. */
  const TABLE: map<string, ErrorDescriptor> := map[
    "INVALID_ID" := INVALID_ID,
    "EMPTY_REQUEST_BODY" := EMPTY_REQUEST_BODY,
    "RESOURCE_NOT_FOUND" := RESOURCE_NOT_FOUND,
    "DB_UNAVAILABLE" := DB_UNAVAILABLE,
    "UNEXPECTED_ERROR" := UNEXPECTED_ERROR
  ]

  /** Errors a client caused (4xx) carry no 5xx status and vice versa. */
  predicate IsClientError(e: ErrorDescriptor) { 400 <= e.status < 500 }

  /**
   * The table has five distinct entries; the two 400 errors are told apart only
   * by their message, and only RESOURCE_NOT_FOUND lacks a body.
   */
  lemma TableIsClosed()
    ensures |TABLE| == 5 && |TABLE.Values| == 5
    ensures TABLE.Values == {INVALID_ID, EMPTY_REQUEST_BODY, RESOURCE_NOT_FOUND, DB_UNAVAILABLE, UNEXPECTED_ERROR}
    ensures INVALID_ID != EMPTY_REQUEST_BODY && INVALID_ID.status == EMPTY_REQUEST_BODY.status
    ensures forall e :: e in TABLE.Values ==> (e.message.None? <==> e == RESOURCE_NOT_FOUND)
    ensures forall e :: e in TABLE.Values ==> (IsClientError(e) <==> e.status != 503 && e.status != 500)
  {
    forall e | e in TABLE.Values
      ensures e in {INVALID_ID, EMPTY_REQUEST_BODY, RESOURCE_NOT_FOUND, DB_UNAVAILABLE, UNEXPECTED_ERROR}
    {
      var name :| name in TABLE && TABLE[name] == e;
    }
    assert TABLE["INVALID_ID"] in TABLE.Values && TABLE["EMPTY_REQUEST_BODY"] in TABLE.Values;
    assert TABLE["RESOURCE_NOT_FOUND"] in TABLE.Values && TABLE["DB_UNAVAILABLE"] in TABLE.Values;
    assert TABLE["UNEXPECTED_ERROR"] in TABLE.Values;
    assert TABLE.Values == {INVALID_ID, EMPTY_REQUEST_BODY, RESOURCE_NOT_FOUND, DB_UNAVAILABLE, UNEXPECTED_ERROR};
    DescriptorsAreDistinct();
  }

  /** The five descriptors are pairwise different. */
  lemma DescriptorsAreDistinct()
    ensures |{INVALID_ID, EMPTY_REQUEST_BODY, RESOURCE_NOT_FOUND, DB_UNAVAILABLE, UNEXPECTED_ERROR}| == 5
  {
    var statuses := {INVALID_ID, EMPTY_REQUEST_BODY};
    assert |statuses| == 2;
    assert |statuses + {RESOURCE_NOT_FOUND}| == 3;
    assert |statuses + {RESOURCE_NOT_FOUND} + {DB_UNAVAILABLE}| == 4;
    assert |statuses + {RESOURCE_NOT_FOUND} + {DB_UNAVAILABLE} + {UNEXPECTED_ERROR}| == 5;
    assert statuses + {RESOURCE_NOT_FOUND} + {DB_UNAVAILABLE} + {UNEXPECTED_ERROR}
        == {INVALID_ID, EMPTY_REQUEST_BODY, RESOURCE_NOT_FOUND, DB_UNAVAILABLE, UNEXPECTED_ERROR};
  }
}

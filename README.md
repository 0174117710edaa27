# glorious-crud, modelled in Dafny

glorious-crud generates REST endpoints for the collections of a document
database. For a collection `C` it registers `GET /C/:id?`, `POST /C`,
`PUT /C/:id` and `DELETE /C/:id`. Each handler validates the request inline,
calls a generic data-access layer and answers with exactly one response write.
The data-access layer opens a connection per operation. It maps connection
failure to `DB_UNAVAILABLE` and read failures to `UNEXPECTED_ERROR`, and
checks that a document exists before updating or deleting it.

This project models that pipeline in eight modules:

- `Errors` (`errors.dfy`) is the closed table of five error descriptors.
- `Ids` (`ids.dfy`) is the identifier check `isValid`.
- `Query` (`query.dfy`) is the query compiler `build`, with its filter loop,
  its sort and order rules, and `parseInt(...) || 0` for the limit. The
  integer parsing of JavaScript's `parseInt` (leading white space, sign,
  `0x` prefix, longest digit prefix, NaN) is written out.
- `Values` (`values.dfy`) holds field values, documents, and `JsObject`, a
  mutable object with own and inherited enumerable properties.
- `Requests` (`requests.dfy`) is the verb-by-verb validator and `hasAnyAttribute`.
- `Base` (`base.dfy`) is the data-access layer. It is a `Store` class over an
  in-memory map per collection. A counter says how many more connection
  attempts succeed, one flag makes every read (`find`, `findOne`) fail, another
  makes every write (`save`, `update`, `deleteOne`) fail, and two counters
  track open connections and connections ever opened.
- `Builder` (`builder.dfy`) holds the route registration and the four
  handlers. A `Response` class records the status, the body and the number
  of writes.
- `Wrappers` (`wrappers.dfy`) holds `Option`.

The handlers take the settled result of their data-access call as a
parameter (`reply`). They return the call they made, or `None` when they
made none. `ServePut` shows how a handler and the store compose.

Facts of the code that the model keeps as written:

- The identifier pattern `[a-f|0-9]` also admits `|`, so 24 bars are a valid
  identifier (`Ids.BarsAreValid`). The program's own INVALID_ID message, "Id
  should be a string of 24 hex characters." (`src/constants/errors.js:5`),
  shows that hexadecimal characters were meant; the class as written does not
  enforce that.
- `build` returns filter, sort and limit. `limit` is the parsed `$limit` as it
  is, so it can be negative (`Query.NegativeLimit`) or read in hexadecimal
  after `0x` (`Query.HexLimit`), and it is 0 when absent.
- `get` passes the raw query to `find` and `findOne`. It does not call the
  query compiler, so there is no sorting or limiting there. A key starting
  with `$`, `$sortBy`, `$order` and `$limit` included, reaches MongoDB as a
  top-level operator, which it refuses; `onGetComplete` turns that error into
  UNEXPECTED_ERROR (500). So `GET /C?$limit=5` fails
  (`Base.BuiltInParamIsOperator`, `Base.Store.GetAllResources`).
- A write the store refuses (`save`, `update`, `deleteOne`) reaches the caller
  as the driver's own error object (`Base.Failure.Raw`), not as a descriptor.
  For `put` and `remove` this happens after the existence check has passed.
  The handler then calls `res.status(undefined).send(undefined)`.
- `put` and `remove` open a connection and then call `get`, which opens a
  second one. When only the second fails, the result is DB_UNAVAILABLE after
  one connection was opened and, for `put`, after `updatedAt` was stamped.
- `put` stamps `updatedAt` on the caller's object before the existence check,
  so the stamp stays even when the check fails.

## Model

| member | source | states |
|---|---|---|
| Errors.TableIsClosed | src/constants/errors.js:1-29 | The table has five names and exactly five distinct descriptors as values. The two 400 errors differ only in their message. Only RESOURCE_NOT_FOUND has no body. The 4xx errors are exactly those that are neither 503 nor 500. |
| Errors.DescriptorsAreDistinct | src/constants/errors.js:1-29 | The five descriptors are pairwise different. |
| Ids.IsValid | src/services/id/id.js:9-12 | The length test and the pattern test; `Ids.IsValidIff` characterizes it, and `Ids.HexIdIsValid`, `Ids.WrongLengthIsInvalid` and `Ids.ForeignCharacterIsInvalid` state its consequences. |
| Ids.MatchesIdPatternIff | src/services/id/id.js:10 | The anchored pattern `^[a-f(bar)0-9]+$` (the bar character inside the class) matches exactly the non-empty strings whose every character is in the class. |
| Ids.IsValidIff | src/services/id/id.js:9-12 | `isValid(id)` holds iff `id` has 24 characters, all in {a-f, the bar, 0-9}. |
| Ids.WrongLengthIsInvalid | src/services/id/id.js:11 | A string of any length other than 24 is invalid, whatever its characters. |
| Ids.ForeignCharacterIsInvalid | src/services/id/id.js:10-11 | One character outside the class anywhere makes the string invalid. |
| Ids.UppercaseHexIsInvalid | src/services/id/id.js:10 | An uppercase A-F anywhere makes the string invalid. |
| Ids.HexIdIsValid | src/services/id/id.js:5-12 | Every 24-character lowercase hexadecimal string, the shape `generate` yields, is accepted by `isValid`. |
| Ids.BarsAreValid | src/services/id/id.js:10 | The class as written admits the bar character: twenty-four bars form a valid identifier. |
| Ids.SampleValidId | src/services/id/id.test.js:14-17 | `5adccd330a5b7e4ffc5bf1dc` is valid. |
| Ids.SampleInvalidIds | src/services/id/id.test.js:19-32 | The 25- and 23-character variants and the one ending in `g` are invalid. |
| Query.IsBuiltInQueryParam | src/services/query/query.js:22-25 | Membership in the three reserved names; `Query.ReservedNames` and `Query.OrdinaryFieldIsNotReserved` state what it accepts. |
| Query.ReservedNames | src/services/query/query.js:22-25 | `$sortBy`, `$order` and `$limit` are reserved, and they are three distinct names. |
| Query.OrdinaryFieldIsNotReserved | src/services/query/query.js:22-25 | A field name that does not start with `$` is never reserved, so the filter always keeps it. |
| Query.BuildFilter | src/services/query/query.js:13-20 | The loop's result holds exactly the non-reserved keys of the input, each with its input value. |
| Query.BuildQueryOrderValue | src/services/query/query.js:33-35 | The order value is 1 or -1, and it is 1 iff `$order` is exactly `asc`. |
| Query.BuildQuerySort | src/services/query/query.js:27-31 | The sort is empty iff `$sortBy` is absent or empty. Otherwise its only key is the `$sortBy` value, mapped to the order value. |
| Query.TrimStart | src/services/query/query.js:38 | `parseInt`'s white-space skip drops only white space, and the suffix it leaves does not start with white space. |
| Query.DigitRun | src/services/query/query.js:38 | The digit run `parseInt` reads is the longest prefix of digits of the radix. |
| Query.ParseInt | src/services/query/query.js:38 | JavaScript's `parseInt` without a radix. `Query.ParseDecimalString`, `Query.ParseDecimalDigits`, `Query.ParseNegated`, `Query.ParsePlus`, `Query.ParseSkipsWhitespace` and `Query.HexLimit` characterize it on decimal, signed, space-led and `0x` inputs. |
| Query.NothingToTrim | src/services/query/query.js:38 | A string that does not start with white space is read by `parseInt` from its first character. |
| Query.BuildQueryLimit | src/services/query/query.js:37-39 | A non-zero limit is what `parseInt` reads from a present `$limit`. An absent `$limit` gives 0. A parsed number is the limit, and NaN gives 0. |
| Query.Build | src/services/query/query.js:5-11 | The filter holds exactly the non-reserved parameters with their values. The sort comes from `$sortBy` and `$order`, and the limit from `$limit`. |
| Query.DigitRunOfDigits | src/services/query/query.js:38 | A string made only of digits is read whole. |
| Query.ParseDecimalDigits | src/services/query/query.js:38 | `parseInt` reads any non-empty run of decimal digits, leading zeros included (`007` gives 7), as the number they denote. |
| Query.ParseDecimalString | src/services/query/query.js:38 | `parseInt` reads back the decimal spelling of every natural number. |
| Query.LimitOfDecimal | src/services/query/query.js:37-39 | A `$limit` spelled as a natural number `n` in decimal gives limit `n`. |
| Query.NegativeLimit | src/services/query/query.js:37-39 | `-n` gives limit `-n`: the sign is kept and nothing clamps it. |
| Query.ParseNegated | src/services/query/query.js:38 | A leading `-` negates the magnitude `parseInt` reads after it, and NaN stays NaN. |
| Query.ParsePlus | src/services/query/query.js:38 | A leading `+` is accepted, and the rest is read as an unsigned magnitude. |
| Query.ParseSkipsWhitespace | src/services/query/query.js:38 | A leading white-space character does not change what `parseInt` reads. |
| Query.HexLimit | src/services/query/query.js:37-39 | After a `0x` prefix the limit is the hexadecimal digit run, or 0 when there is none. |
| Query.LimitWithoutDigits | src/services/query/query.js:37-39 | A `$limit` that starts with no decimal digit, sign or white space, a letter for instance, gives 0. |
| Query.SampleLimits | src/services/query/query.test.js:56-65 | `$limit` `10` gives 10, and no `$limit` gives 0. |
| Query.SampleSorts | src/services/query/query.test.js:33-54 | `desc` and an absent order sort descending, `asc` ascending, and no `$sortBy` gives no sort. |
| Query.SampleFilter | src/services/query/query.test.js:13-31 | The sample parameters compile to the filter `{username}` alone. |
| Requests.HasAnyAttribute | src/services/request/request.js:17-22 | The for-in walk finds an own attribute; `Requests.HasAnyAttributeIff` characterizes it as "the own properties are not empty". The copy at `src/resources/builder/builder.js:56-61` is the same predicate. |
| Requests.HasAnyAttributeIff | src/services/request/request.js:17-22 | A body has an attribute iff it has an own one. Inherited enumerable properties never count. |
| Requests.Validate | src/services/request/request.js:6-15 | The only errors `validate` returns are INVALID_ID and EMPTY_REQUEST_BODY. |
| Requests.ValidateGet | src/services/request/request.js:9-10 | For get, INVALID_ID exactly when an identifier is given and malformed, and nothing otherwise. |
| Requests.ValidatePut | src/services/request/request.js:11-14 | For put, INVALID_ID when the identifier is missing or malformed. Otherwise EMPTY_REQUEST_BODY when the body has no own attribute, else nothing. |
| Requests.ValidateDelete | src/services/request/request.js:11-12 | For delete, INVALID_ID exactly when the identifier is missing or malformed. The body is never looked at. |
| Requests.ValidatePost | src/services/request/request.js:13-14 | For post, EMPTY_REQUEST_BODY exactly when the body has no own attribute. The identifier is never checked. |
| Requests.ValidateOtherVerb | src/services/request/request.js:6-15 | Any other verb is always valid. |
| Requests.PrototypeOnlyBodyIsEmpty | src/services/request/request.js:13-22 | A body with only inherited properties is empty for post, and for put with a valid identifier. |
| Base.OnGetComplete | src/resources/base/base.js:76-84 | A driver error gives UNEXPECTED_ERROR, and only it does. A null document gives RESOURCE_NOT_FOUND, and only it does. Any document or array, an empty one included, resolves as it came. |
| Base.IdFilter | src/resources/base/base.js:63-64 | The lookup filter holds exactly the query's fields and `_id`. `_id` is the identifier, and every other field has its query value. |
| Base.FindById | src/resources/base/base.js:63-68 | `findOne` on that filter finds a document iff some stored document matches, and then it is the one stored under the identifier. |
| Base.FindAll | src/resources/base/base.js:70-74 | Over a well-keyed collection, `find(query).toArray()` lists every matching document and nothing else, with no document twice. |
| Base.BuiltInParamIsOperator | src/resources/base/base.js:8-16 | A raw query holding `$sortBy`, `$order` or `$limit` names a top-level operator, so `get` refuses it. |
| Base.IdFilterAlone | src/resources/base/base.js:28 | The existence check looks up the identifier alone, and every document stored under it matches. |
| Base.Store.Docs | src/resources/base/base.js:10 | A collection of a consistent store is well keyed: each document carries its key as `_id`. |
| Base.Store.Connect | src/resources/base/base.js:46-51 | Connecting succeeds iff the store still accepts a connection, and then exactly one connection is opened and one fewer attempt will succeed. |
| Base.Store.Close | src/resources/base/base.js:57 | `client.close()` releases one open connection. |
| Base.Store.GetSingleResource | src/resources/base/base.js:63-68 | The stored document is returned when it matches the query with `_id` set. Otherwise RESOURCE_NOT_FOUND. UNEXPECTED_ERROR on a read fault or when the query names an operator (a key starting with `$`). |
| Base.Store.GetAllResources | src/resources/base/base.js:70-74 | The listing of the documents matching the raw query, never "not found". UNEXPECTED_ERROR on a read fault or when the query names an operator. |
| Base.Store.Get | src/resources/base/base.js:8-16 | DB_UNAVAILABLE when no connection is accepted. Otherwise the single-document or listing result, chosen by whether the identifier is truthy. The connection is closed on every path. |
| Base.Store.Save | src/resources/base/base.js:21 | `save` stores the document under its `_id`, or on a write fault fails with the raw driver error and changes nothing. |
| Base.Store.Update | src/resources/base/base.js:29 | `$set` merges the fields into the stored document. A missing document is left alone. A write fault, or a change of `_id`, fails raw and changes nothing. |
| Base.Store.DeleteOne | src/resources/base/base.js:39 | `deleteOne` removes the document stored under the identifier, if any. A write fault fails raw and changes nothing. |
| Base.Store.Post | src/resources/base/base.js:18-23 | Once connected, `createdAt` is stamped on the caller's object and that object is saved under its `_id`, or a write fault fails raw. DB_UNAVAILABLE touches nothing. Connections are balanced. |
| Base.Store.Put | src/resources/base/base.js:25-34 | Once connected, `updatedAt` is stamped first. If the lookup's own connection then fails, the result is DB_UNAVAILABLE with the stamp kept. A failed existence check is the result, with no write. Otherwise a write fault fails raw with no write, or the fields are merged into the stored document. Two connections are opened and both are closed. |
| Base.Store.Remove | src/resources/base/base.js:36-44 | DB_UNAVAILABLE when either the first connection or the lookup's connection fails. A failed existence check is the result, with no delete. Otherwise a write fault fails raw with no delete, or the document is removed. Two connections are opened and both are closed. |
| Base.Store.PostThenGet | src/resources/base/base.js:8-23 | A posted object is then found by its identifier, with its fields plus `createdAt`. |
| Base.Store.PutThenGet | src/resources/base/base.js:8-34 | After a put, get shows the stored fields overwritten by the new ones plus `updatedAt`. A `createdAt` the put does not name is kept. |
| Builder.ErrorBody | src/resources/builder/builder.js:63-65 | An error body is `{message}` when the descriptor has a message, and empty otherwise. |
| Builder.ThrowError | src/resources/builder/builder.js:63-65 | Writes the descriptor's status and body, in one write. |
| Builder.SendFailure | src/resources/builder/builder.js:14-16 | The failure callback writes the failure's status and body, in one write. |
| Builder.HandleGet | src/resources/builder/builder.js:8-17 | No data-access call iff `validate('get')` fails, and then its error is written. Otherwise collection, identifier and query go through unchanged. Success sends the result with 200, and failure sends its status and body. Exactly one write. |
| Builder.HandlePost | src/resources/builder/builder.js:19-29 | No call iff the body has no own attribute (iff `validate('post')` fails), with EMPTY_REQUEST_BODY written. Otherwise the new identifier is set as `_id` before the call. Success answers 201 `{_id}`. Exactly one write. |
| Builder.HandlePut | src/resources/builder/builder.js:31-43 | No call iff `validate('put')` fails, the identifier being checked before the body, and then its error is written. Otherwise identifier and body go to `put`. Success answers 204 with no body. Exactly one write. |
| Builder.ServePut | src/resources/builder/builder.js:31-43 | A valid PUT for an identifier that is not stored answers 404 with no write to the store. A refused first connection answers 503. A refused lookup connection answers 503 too, with `updatedAt` left on the body. A refused write sends the raw error with nothing changed. A stored document is merged and answered 204. |
| Builder.HandleDelete | src/resources/builder/builder.js:45-54 | No call iff `validate('delete')` fails, and then INVALID_ID is written. Otherwise the identifier goes to `remove`. Success answers 204. Exactly one write. |
| Builder.Build | src/resources/builder/builder.js:6-54 | Exactly four routes are appended, in order: GET `/C/:id?`, POST `/C`, PUT `/C/:id`, DELETE `/C/:id`. |

## Left out

- The MongoDB driver is replaced by the in-memory `Store`. `ObjectID(id)` conversion is not modelled: identifiers are the store keys, and an `_id` value is `ObjectId(hex)`. The driver's throw on a non-hex identifier, such as one containing `|`, is therefore not modelled.
- `idService.generate()` is a foreign call. Its result is the `newId` parameter of `Builder.HandlePost`, and `Ids.HexIdIsValid` states that its shape passes `isValid`.
- `dateService.getNow().toJSON()` is the `now` string parameter. The date module is not part of this model.
- Promises and callbacks are sequential methods returning an `Outcome`. The connection lifecycle is kept only as the two counters. A store's faults are fixed for the whole operation: its read fault hits every read, and its write fault hits every write. Each operation does at most one of each, so every path of the code can be reached. Interleavings of concurrent requests, such as a delete between `put`'s check and its update, are not modelled.
- Base.Store.Post: requires the caller's object to carry an `_id`, which the POST handler always sets. The driver generating an `_id` for `save` is not modelled.
- Base.Store.GetAllResources: the order in which `find` returns documents is not modelled; the listing is any order of the matching documents.
- Base.Store.GetSingleResource: the caller's `query` object is not mutated (`query._id = ...`); the lookup uses the query with `_id` set as a new value.
- Base.Matches: query values are matched as text fields only. Nested query objects (`a[b]=1`), arrays and operators inside a field's value are not modelled.
- Base.Store.GetAllResources: every top-level key starting with `$` is refused here. MongoDB's own operators that accept a string (`$where`, `$comment`, `$expr`) would run instead, and what they do is not modelled.
- Base.Store.GetSingleResource: every top-level key starting with `$` is refused here, as for `Base.Store.GetAllResources`; `$where`, `$comment` and `$expr` are not modelled.
- Builder.HandleGet: `reply` is never the acknowledgement of a write, because `get` only resolves with a document or an array.
- Query.ParseInt: numbers above 2^53, where JavaScript's `parseInt` loses precision, are exact here. Infinity and fractional digits are not read, as in `parseInt`.
- The override hooks of the resource configuration (`options.get`, `onGetSuccess`, ...) are not in the builder code modelled here, which takes no options.
- The earlier pass-through variants `src/resources/base.js` and `src/resources/builder.js` are superseded and not part of this model.
- `src/resources/base/base.test.js:140-146` expects `update` without `$set`. The model follows the code, which uses `$set`.
- Bootstrap, configuration, the documentation and status resources, and the test mocks are HTTP plumbing with no logic.
- Requests.HasAnyAttribute: a body with an own key `hasOwnProperty`, such as JSON `{"hasOwnProperty": 1}`, counts as having an attribute. In the code, `data.hasOwnProperty(attr)` (`src/services/request/request.js:19`, `src/resources/builder/builder.js:58`) then calls a non-function and throws a TypeError. The route handler throws, no identifier is generated and no store call is made; the model instead validates such a body and, for POST and PUT, makes the call.
- Builder.SendFailure: how the framework handles `res.status(undefined)` for a raw driver error (Node refuses a status outside 100-999 and throws) is not modelled. The `Response` records status `None`, and `Response.writes` counts `send` calls, not bytes written to the connection.
- Non-enumerable properties of a request body are not modelled. `JsObject` holds only enumerable own and inherited names.

/**
 * Generic data access over the document store (src/resources/base/base.js).
 *
 * The driver is replaced by an in-memory store: one map from identifier to
 * document per collection, the number of further connection attempts that
 * succeed, a flag that makes every read (`find`, `findOne`) report an error, a
 * flag that makes every write (`save`, `update`, `deleteOne`) report one, and
 * counters of the connections that are open and that were ever opened. Every
 * operation opens a connection, does its work and closes the connection
 * before it completes.
 */
module Base {
  import opened Wrappers
  import opened Errors
  import opened Values
  import Query

  /** How an operation fails: a descriptor of the table, or the driver's own error object, passed on as it came. */
  datatype Failure = Known(descriptor: ErrorDescriptor) | Raw

  /** What an operation resolves with: one document, an array of documents, or the driver's acknowledgement of a write. */
  datatype Resolution = Single(doc: Document) | Listing(docs: seq<Document>) | Acknowledged

  /** The settled promise of an operation. */
  datatype Outcome = Ok(value: Resolution) | Err(failure: Failure)

  /** What `findOne` (a document or null) or `toArray` (an array) hands to its callback. */
  datatype Found = One(doc: Option<Document>) | All(docs: seq<Document>)

  /**
   * `onGetComplete`: any driver error becomes UNEXPECTED_ERROR, a null
   * document becomes RESOURCE_NOT_FOUND, and everything else, any array
   * included, resolves as it came.
   */
  function OnGetComplete(failed: bool, result: Found): (o: Outcome)
    ensures failed <==> o == Err(Known(UNEXPECTED_ERROR))
    ensures o == Err(Known(RESOURCE_NOT_FOUND)) <==> !failed && result == One(None)
    ensures o.Err? ==> o == Err(Known(UNEXPECTED_ERROR)) || o == Err(Known(RESOURCE_NOT_FOUND))
    ensures o.Ok? && result.One? ==> o.value == Single(result.doc.value)
    ensures o.Ok? && result.All? ==> o.value == Listing(result.docs)
  {
    if failed then Err(Known(UNEXPECTED_ERROR))
    else match result
      case One(None) => Err(Known(RESOURCE_NOT_FOUND))
      case One(Some(doc)) => Ok(Single(doc))
      case All(docs) => Ok(Listing(docs))
  }

  /** Equality filtering: every field of the filter is present in the document with the same value. */
  predicate Matches(doc: Document, filter: Document) {
    forall field :: field in filter ==> field in doc && doc[field] == filter[field]
  }

  /** The query-string parameters as an equality filter on text fields. */
  function AsFilter(query: map<string, string>): Document {
    map field | field in query :: Text(query[field])
  }

  /** `getSingleResource`'s filter: the query with `_id` set to the identifier. */
  function IdFilter(query: map<string, string>, id: string): (filter: Document)
    ensures "_id" in filter && filter["_id"] == ObjectId(id)
    ensures forall field :: field in filter <==> field == "_id" || field in query
    ensures forall field :: field in query && field != "_id" ==> filter[field] == Text(query[field])
  {
    AsFilter(query)["_id" := ObjectId(id)]
  }

  /** A document stored under `key` carries that key as its `_id`. */
  predicate IsStoredUnder(doc: Document, key: string) {
    "_id" in doc && doc["_id"] == ObjectId(key)
  }

  /** Every document of a collection is stored under its own `_id`. */
  predicate WellKeyed(docs: map<string, Document>) {
    forall key :: key in docs ==> IsStoredUnder(docs[key], key)
  }

  /**
   * `findOne` on a filter that fixes `_id`: the document stored under that
   * identifier if it matches the rest of the filter. Over a well-keyed
   * collection this finds a document exactly when some stored document matches.
   */
  function FindById(docs: map<string, Document>, id: string, filter: Document): (found: Option<Document>)
    requires WellKeyed(docs) && "_id" in filter && filter["_id"] == ObjectId(id)
    ensures found.Some? <==> exists key :: key in docs && Matches(docs[key], filter)
    ensures found.Some? ==> id in docs && found.value == docs[id] && Matches(found.value, filter)
  {
    if id in docs && Matches(docs[id], filter) then Some(docs[id]) else None
  }

  /** The keys of the documents of a collection that match a filter. */
  function MatchingKeys(docs: map<string, Document>, filter: Document): set<string> {
    set key | key in docs && Matches(docs[key], filter)
  }

  /** `found` lists the documents stored under the keys `listed`, each once, all of them matching the filter. */
  predicate ListsKeys(found: seq<Document>, listed: set<string>, docs: map<string, Document>, filter: Document) {
    && |found| == |listed|
    && (forall i :: 0 <= i < |found| ==> found[i] in docs.Values && Matches(found[i], filter))
    && (forall key :: key in listed ==> key in docs && docs[key] in found)
  }

  /** Every document of `found` carries as `_id` one of the keys `listed`. */
  predicate IdsAmong(found: seq<Document>, listed: set<string>) {
    forall i :: 0 <= i < |found| ==> "_id" in found[i] && found[i]["_id"].ObjectId? && found[i]["_id"].hex in listed
  }

  /** No document occurs twice in `found`. */
  predicate NoRepeats(found: seq<Document>) {
    forall i, j :: 0 <= i < j < |found| ==> found[i] != found[j]
  }

  /** `found` lists the matching documents of a collection, each of them once and no other, in some order. */
  predicate IsListing(found: seq<Document>, docs: map<string, Document>, filter: Document) {
    ListsKeys(found, MatchingKeys(docs, filter), docs, filter) && NoRepeats(found)
  }

  /** Appending one more matching document keeps a listing a listing. */
  lemma ListsOneMore(found: seq<Document>, listed: set<string>, docs: map<string, Document>, filter: Document, key: string)
    requires ListsKeys(found, listed, docs, filter)
    requires key in docs && key !in listed && Matches(docs[key], filter)
    ensures ListsKeys(found + [docs[key]], listed + {key}, docs, filter)
  {
    var more := found + [docs[key]];
    forall k | k in listed + {key} ensures k in docs && docs[k] in more {
      if k != key {
        assert docs[k] in found;
      }
    }
  }

  /** A document stored under a key not yet listed is new to the listing. */
  lemma NoRepeatsOneMore(found: seq<Document>, listed: set<string>, doc: Document, key: string)
    requires IdsAmong(found, listed) && NoRepeats(found)
    requires key !in listed && IsStoredUnder(doc, key)
    ensures IdsAmong(found + [doc], listed + {key}) && NoRepeats(found + [doc])
  {
    forall i | 0 <= i < |found| ensures found[i] != doc {
      assert found[i]["_id"].hex != key;
    }
  }

  /** Taking one key out of the pending ones moves it into the listed ones exactly when its document matches. */
  lemma ListedAfterStep(docs: map<string, Document>, filter: Document, pending: set<string>, listed: set<string>, key: string)
    requires listed == MatchingKeys(docs, filter) - pending && key in pending && key in docs
    ensures Matches(docs[key], filter) ==> listed + {key} == MatchingKeys(docs, filter) - (pending - {key})
    ensures !Matches(docs[key], filter) ==> listed == MatchingKeys(docs, filter) - (pending - {key})
  {
  }

  /** `find(filter).toArray()` over one collection: every matching document, each once. */
  method FindAll(docs: map<string, Document>, filter: Document) returns (found: seq<Document>)
    requires WellKeyed(docs)
    ensures IsListing(found, docs, filter)
  {
    var pending := docs.Keys;
    found := [];
    ghost var listed: set<string> := {};
    while pending != {}
      invariant pending <= docs.Keys
      invariant listed == MatchingKeys(docs, filter) - pending
      invariant ListsKeys(found, listed, docs, filter)
      invariant IdsAmong(found, listed) && NoRepeats(found)
      decreases pending
    {
      var key :| key in pending;
      ListedAfterStep(docs, filter, pending, listed, key);
      if Matches(docs[key], filter) {
        ListsOneMore(found, listed, docs, filter, key);
        NoRepeatsOneMore(found, listed, docs[key], key);
        found := found + [docs[key]];
        listed := listed + {key};
      }
      pending := pending - {key};
    }
    assert MatchingKeys(docs, filter) - {} == MatchingKeys(docs, filter);
  }

  /** A `$set` of these fields would give the document a different `_id`. */
  predicate ChangesId(fields: Document, id: string) {
    "_id" in fields && fields["_id"] != ObjectId(id)
  }

  /** The existence check's filter, for an empty query, is the identifier alone; a well-keyed document always matches it. */
  lemma IdFilterAlone(id: string)
    ensures IdFilter(map[], id) == map["_id" := ObjectId(id)]
    ensures forall doc :: IsStoredUnder(doc, id) ==> Matches(doc, IdFilter(map[], id))
  {
    assert AsFilter(map[]) == map[];
  }

  /** A query key that the store reads as one of its own top-level operators, not as a field name. */
  predicate IsOperator(field: string) {
    field != [] && field[0] == '$'
  }

  /** The raw query names a top-level operator, which `find` and `findOne` refuse with an error. */
  predicate NamesOperator(query: map<string, string>) {
    exists field :: field in query && IsOperator(field)
  }

  /**
   * The query compiler's own parameters reach `find` unchanged when `get`
   * lists a collection, so a query that carries one of them names an operator.
   */
  lemma BuiltInParamIsOperator(query: map<string, string>, key: string)
    requires key in query && Query.IsBuiltInQueryParam(key)
    ensures NamesOperator(query)
  {
    assert key == Query.SORT_BY || key == Query.ORDER || key == Query.LIMIT;
    assert IsOperator(key);
  }

  class Store {
    var collections: map<string, map<string, Document>>
    var connectsLeft: nat
    var readFault: bool
    var writeFault: bool
    var openConnections: nat
    var connectionsOpened: nat

    /** Each collection is well keyed. */
    ghost predicate Valid()
      reads this
    {
      forall name :: name in collections ==> WellKeyed(collections[name])
    }

    /** `db.collection(name)`: a collection that was never written to is empty. */
    function Docs(name: string): (docs: map<string, Document>)
      reads this
      ensures Valid() ==> WellKeyed(docs)
    {
      if name in collections then collections[name] else map[]
    }

    /** A `find` or `findOne` with this query reports an error: a driver fault, or an operator the store refuses. */
    predicate ReadFails(query: map<string, string>)
      reads this
    {
      readFault || NamesOperator(query)
    }

    constructor (initial: map<string, map<string, Document>>, connectsLeft: nat, readFault: bool, writeFault: bool)
      requires forall name :: name in initial ==> WellKeyed(initial[name])
      ensures Valid()
      ensures collections == initial && this.connectsLeft == connectsLeft
      ensures this.readFault == readFault && this.writeFault == writeFault
      ensures openConnections == 0 && connectionsOpened == 0
    {
      collections := initial;
      this.connectsLeft := connectsLeft;
      this.readFault := readFault;
      this.writeFault := writeFault;
      openConnections := 0;
      connectionsOpened := 0;
    }

    /**
     * `MongoClient.connect`: succeeds while the store still accepts
     * connections (`connectsLeft` counts the attempts that will succeed),
     * and then opens one connection.
     */
    method Connect() returns (connected: bool)
      modifies this`connectsLeft, this`openConnections, this`connectionsOpened
      ensures connected <==> old(connectsLeft) > 0
      ensures connectsLeft == (if connected then old(connectsLeft) - 1 else old(connectsLeft))
      ensures openConnections == old(openConnections) + (if connected then 1 else 0)
      ensures connectionsOpened == old(connectionsOpened) + (if connected then 1 else 0)
    {
      connected := connectsLeft > 0;
      if connected {
        connectsLeft := connectsLeft - 1;
        openConnections := openConnections + 1;
        connectionsOpened := connectionsOpened + 1;
      }
    }

    /** `client.close()`. */
    method Close()
      requires openConnections > 0
      modifies this`openConnections
      ensures openConnections == old(openConnections) - 1
    {
      openConnections := openConnections - 1;
    }

    /** `getSingleResource`: `findOne` on the query with `_id` set, classified by `onGetComplete`. */
    method GetSingleResource(name: string, id: string, query: map<string, string>) returns (outcome: Outcome)
      requires Valid()
      ensures ReadFails(query) ==> outcome == Err(Known(UNEXPECTED_ERROR))
      ensures !ReadFails(query) ==> (outcome.Ok? <==> id in Docs(name) && Matches(Docs(name)[id], IdFilter(query, id)))
      ensures !ReadFails(query) && outcome.Ok? ==> outcome.value == Single(Docs(name)[id])
      ensures !ReadFails(query) && outcome.Err? ==> outcome == Err(Known(RESOURCE_NOT_FOUND))
    {
      var failed := readFault || NamesOperator(query);
      var found := if failed then None else FindById(Docs(name), id, IdFilter(query, id));
      outcome := OnGetComplete(failed, One(found));
    }

    /** `getAllResources`: `find(query).toArray()`, classified by `onGetComplete`; never "not found". */
    method GetAllResources(name: string, query: map<string, string>) returns (outcome: Outcome)
      requires Valid()
      ensures ReadFails(query) ==> outcome == Err(Known(UNEXPECTED_ERROR))
      ensures !ReadFails(query) ==> outcome.Ok? && outcome.value.Listing? && IsListing(outcome.value.docs, Docs(name), AsFilter(query))
    {
      var failed := readFault || NamesOperator(query);
      var found: seq<Document> := [];
      if !failed {
        found := FindAll(Docs(name), AsFilter(query));
      }
      outcome := OnGetComplete(failed, All(found));
    }

    /**
     * `get`: with an identifier, the one document matching the query and that
     * identifier, or RESOURCE_NOT_FOUND; without one, the array of matches.
     */
    method Get(name: string, id: Option<string>, query: map<string, string>) returns (outcome: Outcome)
      requires Valid()
      modifies this`connectsLeft, this`openConnections, this`connectionsOpened
      ensures openConnections == old(openConnections)
      ensures old(connectsLeft) == 0 ==>
        outcome == Err(Known(DB_UNAVAILABLE)) && connectsLeft == 0 && connectionsOpened == old(connectionsOpened)
      ensures old(connectsLeft) > 0 ==>
        connectsLeft == old(connectsLeft) - 1 && connectionsOpened == old(connectionsOpened) + 1
      ensures old(connectsLeft) > 0 && ReadFails(query) ==> outcome == Err(Known(UNEXPECTED_ERROR))
      ensures old(connectsLeft) > 0 && !ReadFails(query) && IsPresent(id) ==>
        && (outcome.Ok? <==> id.value in Docs(name) && Matches(Docs(name)[id.value], IdFilter(query, id.value)))
        && (outcome.Ok? ==> outcome.value == Single(Docs(name)[id.value]))
        && (outcome.Err? ==> outcome == Err(Known(RESOURCE_NOT_FOUND)))
      ensures old(connectsLeft) > 0 && !ReadFails(query) && !IsPresent(id) ==>
        outcome.Ok? && outcome.value.Listing? && IsListing(outcome.value.docs, Docs(name), AsFilter(query))
    {
      var connected := Connect();
      if !connected {
        return Err(Known(DB_UNAVAILABLE));
      }
      if IsPresent(id) {
        outcome := GetSingleResource(name, id.value, query);
      } else {
        outcome := GetAllResources(name, query);
      }
      Close();
    }

    /** `save`: inserts the document, or replaces the one stored under the same `_id`. */
    method Save(name: string, doc: Document) returns (outcome: Outcome)
      requires Valid() && "_id" in doc && doc["_id"].ObjectId?
      modifies this`collections
      ensures Valid()
      ensures writeFault ==> outcome == Err(Raw) && collections == old(collections)
      ensures !writeFault ==>
        outcome == Ok(Acknowledged) && collections == old(collections)[name := old(Docs(name))[doc["_id"].hex := doc]]
    {
      if writeFault {
        return Err(Raw);
      }
      collections := collections[name := Docs(name)[doc["_id"].hex := doc]];
      outcome := Ok(Acknowledged);
    }

    /**
     * `update({_id}, {$set: fields})`: merges the fields into the document stored
     * under the identifier, if there is one; the driver refuses to change `_id`.
     */
    method Update(name: string, id: string, fields: Document) returns (outcome: Outcome)
      requires Valid()
      modifies this`collections
      ensures Valid()
      ensures writeFault || (id in old(Docs(name)) && ChangesId(fields, id)) ==>
        outcome == Err(Raw) && collections == old(collections)
      ensures !writeFault && id !in old(Docs(name)) ==> outcome == Ok(Acknowledged) && collections == old(collections)
      ensures !writeFault && id in old(Docs(name)) && !ChangesId(fields, id) ==>
        outcome == Ok(Acknowledged) && collections == old(collections)[name := old(Docs(name))[id := old(Docs(name))[id] + fields]]
    {
      if writeFault || (id in Docs(name) && ChangesId(fields, id)) {
        return Err(Raw);
      }
      if id in Docs(name) {
        var docs := Docs(name);
        assert IsStoredUnder(docs[id], id);
        collections := collections[name := docs[id := docs[id] + fields]];
      }
      outcome := Ok(Acknowledged);
    }

    /** `deleteOne({_id})`: removes the document stored under the identifier, if there is one. */
    method DeleteOne(name: string, id: string) returns (outcome: Outcome)
      requires Valid()
      modifies this`collections
      ensures Valid()
      ensures writeFault ==> outcome == Err(Raw) && collections == old(collections)
      ensures !writeFault && id !in old(Docs(name)) ==> outcome == Ok(Acknowledged) && collections == old(collections)
      ensures !writeFault && id in old(Docs(name)) ==>
        outcome == Ok(Acknowledged) && collections == old(collections)[name := old(Docs(name)) - {id}]
    {
      if writeFault {
        return Err(Raw);
      }
      if id in Docs(name) {
        collections := collections[name := Docs(name) - {id}];
      }
      outcome := Ok(Acknowledged);
    }

    /**
     * `post`: once connected, stamps `createdAt` on the caller's object and
     * saves it; a save error reaches the caller unmapped.
     */
    method Post(name: string, data: JsObject, now: string) returns (outcome: Outcome)
      requires Valid()
      requires "_id" in data.own && data.own["_id"].ObjectId?
      modifies this`collections, this`connectsLeft, this`openConnections, this`connectionsOpened, data`own
      ensures Valid()
      ensures openConnections == old(openConnections)
      ensures old(connectsLeft) == 0 ==>
        && outcome == Err(Known(DB_UNAVAILABLE)) && connectsLeft == 0 && connectionsOpened == old(connectionsOpened)
        && data.own == old(data.own) && collections == old(collections)
      ensures old(connectsLeft) > 0 ==>
        && connectsLeft == old(connectsLeft) - 1 && connectionsOpened == old(connectionsOpened) + 1
        && data.own == old(data.own)["createdAt" := Text(now)]
      ensures old(connectsLeft) > 0 && writeFault ==> outcome == Err(Raw) && collections == old(collections)
      ensures old(connectsLeft) > 0 && !writeFault ==>
        outcome == Ok(Acknowledged) && collections == old(collections)[name := old(Docs(name))[old(data.own)["_id"].hex := data.own]]
    {
      var connected := Connect();
      if !connected {
        return Err(Known(DB_UNAVAILABLE));
      }
      data.own := data.own["createdAt" := Text(now)];
      outcome := Save(name, data.own);
      Close();
    }

    /**
     * `put`: once connected, stamps `updatedAt` on the caller's object, then
     * looks the document up with `get`, which opens a second connection; a
     * failed lookup is the result and nothing is written, otherwise the
     * fields are `$set` on the document.
     */
    method Put(name: string, id: string, data: JsObject, now: string) returns (outcome: Outcome)
      requires Valid()
      modifies this`collections, this`connectsLeft, this`openConnections, this`connectionsOpened, data`own
      ensures Valid()
      ensures openConnections == old(openConnections)
      ensures connectsLeft == (if old(connectsLeft) >= 2 then old(connectsLeft) - 2 else 0)
      ensures connectionsOpened == old(connectionsOpened) + (old(connectsLeft) - connectsLeft)
      ensures old(connectsLeft) == 0 ==>
        outcome == Err(Known(DB_UNAVAILABLE)) && data.own == old(data.own) && collections == old(collections)
      ensures old(connectsLeft) > 0 ==> data.own == old(data.own)["updatedAt" := Text(now)]
      ensures old(connectsLeft) == 1 ==> outcome == Err(Known(DB_UNAVAILABLE)) && collections == old(collections)
      ensures old(connectsLeft) >= 2 && readFault ==> outcome == Err(Known(UNEXPECTED_ERROR)) && collections == old(collections)
      ensures old(connectsLeft) >= 2 && !readFault && id != "" && id !in old(Docs(name)) ==>
        outcome == Err(Known(RESOURCE_NOT_FOUND)) && collections == old(collections)
      ensures old(connectsLeft) >= 2 && !readFault && (id in old(Docs(name)) || id == "") && writeFault ==>
        outcome == Err(Raw) && collections == old(collections)
      ensures old(connectsLeft) >= 2 && !readFault && id in old(Docs(name)) && ChangesId(data.own, id) ==>
        outcome == Err(Raw) && collections == old(collections)
      ensures old(connectsLeft) >= 2 && !readFault && !writeFault && id in old(Docs(name)) && !ChangesId(data.own, id) ==>
        outcome == Ok(Acknowledged) && collections == old(collections)[name := old(Docs(name))[id := old(Docs(name))[id] + data.own]]
      ensures old(connectsLeft) >= 2 && !readFault && !writeFault && id == "" && id !in old(Docs(name)) ==>
        outcome == Ok(Acknowledged) && collections == old(collections)
    {
      var connected := Connect();
      if !connected {
        return Err(Known(DB_UNAVAILABLE));
      }
      data.own := data.own["updatedAt" := Text(now)];
      IdFilterAlone(id);
      var existing := Get(name, Some(id), map[]);
      if existing.Err? {
        outcome := existing;
      } else {
        outcome := Update(name, id, data.own);
      }
      Close();
    }

    /**
     * `remove`: once connected, looks the document up with `get`, which opens
     * a second connection; a failed lookup is the result and nothing is
     * deleted, otherwise `deleteOne`.
     */
    method Remove(name: string, id: string) returns (outcome: Outcome)
      requires Valid()
      modifies this`collections, this`connectsLeft, this`openConnections, this`connectionsOpened
      ensures Valid()
      ensures openConnections == old(openConnections)
      ensures connectsLeft == (if old(connectsLeft) >= 2 then old(connectsLeft) - 2 else 0)
      ensures connectionsOpened == old(connectionsOpened) + (old(connectsLeft) - connectsLeft)
      ensures old(connectsLeft) < 2 ==> outcome == Err(Known(DB_UNAVAILABLE)) && collections == old(collections)
      ensures old(connectsLeft) >= 2 && readFault ==> outcome == Err(Known(UNEXPECTED_ERROR)) && collections == old(collections)
      ensures old(connectsLeft) >= 2 && !readFault && id != "" && id !in old(Docs(name)) ==>
        outcome == Err(Known(RESOURCE_NOT_FOUND)) && collections == old(collections)
      ensures old(connectsLeft) >= 2 && !readFault && (id in old(Docs(name)) || id == "") && writeFault ==>
        outcome == Err(Raw) && collections == old(collections)
      ensures old(connectsLeft) >= 2 && !readFault && !writeFault && id in old(Docs(name)) ==>
        outcome == Ok(Acknowledged) && collections == old(collections)[name := old(Docs(name)) - {id}]
      ensures old(connectsLeft) >= 2 && !readFault && !writeFault && id == "" && id !in old(Docs(name)) ==>
        outcome == Ok(Acknowledged) && collections == old(collections)
    {
      var connected := Connect();
      if !connected {
        return Err(Known(DB_UNAVAILABLE));
      }
      IdFilterAlone(id);
      var existing := Get(name, Some(id), map[]);
      if existing.Err? {
        outcome := existing;
      } else {
        outcome := DeleteOne(name, id);
      }
      Close();
    }

    /**
     * Round trip: an object posted with identifier `hex` is then found by that
     * identifier, holding the fields it was posted with and `createdAt`.
     */
    method PostThenGet(name: string, data: JsObject, now: string) returns (posted: Outcome, got: Outcome)
      requires Valid() && connectsLeft >= 2 && !readFault && !writeFault
      requires "_id" in data.own && data.own["_id"].ObjectId? && data.own["_id"].hex != ""
      modifies this`collections, this`connectsLeft, this`openConnections, this`connectionsOpened, data`own
      ensures Valid() && openConnections == old(openConnections)
      ensures posted == Ok(Acknowledged)
      ensures got == Ok(Single(old(data.own)["createdAt" := Text(now)]))
    {
      var hex := data.own["_id"].hex;
      posted := Post(name, data, now);
      IdFilterAlone(hex);
      got := Get(name, Some(hex), map[]);
    }

    /**
     * Round trip: after a `put` on a stored document, `get` by its identifier
     * shows the stored fields overwritten by the new ones and a new
     * `updatedAt`; a `createdAt` the update does not name is kept.
     */
    method PutThenGet(name: string, id: string, data: JsObject, now: string) returns (updated: Outcome, got: Outcome)
      requires Valid() && connectsLeft >= 3 && !readFault && !writeFault
      requires id != "" && id in Docs(name) && !ChangesId(data.own, id)
      modifies this`collections, this`connectsLeft, this`openConnections, this`connectionsOpened, data`own
      ensures Valid() && openConnections == old(openConnections)
      ensures updated == Ok(Acknowledged)
      ensures got == Ok(Single(old(Docs(name))[id] + old(data.own)["updatedAt" := Text(now)]))
      ensures "createdAt" !in old(data.own) && "createdAt" in old(Docs(name))[id] ==>
        "createdAt" in got.value.doc && got.value.doc["createdAt"] == old(Docs(name))[id]["createdAt"]
    {
      updated := Put(name, id, data, now);
      IdFilterAlone(id);
      got := Get(name, Some(id), map[]);
    }
  }
}

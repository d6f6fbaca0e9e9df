/** The remote store the backend client talks to: two collections of JSON
    records, `ingredients` and `recipes`, reached by plain request/response.
    Nothing here is code of the adapter; it is the model's assumption about
    the store, chosen to behave like the json-server the client is written
    against: item routes find a record by its `id` member, "not found" is a
    response that is not ok, a create appends the posted record as it is
    (the store itself does not enforce unique ids), a partial update merges
    the body's members into the record and answers with the merged record,
    and a delete removes the record and answers with the record removed. */
module Store {
  import opened Wrappers
  import opened Json

  datatype Collection = Ingredients | Recipes

  datatype Verb = Get | Post | Patch | Delete

  /** One request: its verb, the collection it addresses, the item id for an
      item route (None for the collection route) and the JSON body sent. */
  datatype Request = Request(verb: Verb, collection: Collection, id: Option<string>, body: Option<Json>)

  /** What comes back: whether the status was a success, and the parsed body. */
  datatype Response = Response(ok: bool, body: Json)

  const NotFound: Response := Response(false, EmptyObject)

  /** The string `id` member of a record, if it has one. */
  function RecordId(record: Json): Option<string> {
    if record.JObject? && "id" in record.fields && record.fields["id"].JString?
    then Some(record.fields["id"].str)
    else None
  }

  /** The first record whose id is `id`. */
  function Find(records: seq<Json>, id: string): (r: Option<Json>)
    ensures r.None? <==> forall k :: 0 <= k < |records| ==> RecordId(records[k]) != Some(id)
    ensures r.Some? ==> r.value in records && RecordId(r.value) == Some(id)
  {
    if records == [] then None
    else if RecordId(records[0]) == Some(id) then Some(records[0])
    else Find(records[1..], id)
  }

  /** A record appended under a fresh id is the one found under that id. */
  lemma {:induction false} FindAppended(records: seq<Json>, record: Json, id: string)
    requires Find(records, id).None? && RecordId(record) == Some(id)
    ensures Find(records + [record], id) == Some(record)
  {
    if records != [] {
      assert (records + [record])[1..] == records[1..] + [record];
      FindAppended(records[1..], record, id);
    }
  }

  /** The collection without the records whose id is `id`. */
  function WithoutId(records: seq<Json>, id: string): (r: seq<Json>)
    ensures forall x :: x in r <==> x in records && RecordId(x) != Some(id)
  {
    if records == [] then []
    else (if RecordId(records[0]) == Some(id) then [] else [records[0]]) + WithoutId(records[1..], id)
  }

  /** A shallow merge: the patch's members replace or extend the record's. */
  function Merge(record: Json, patch: map<string, Json>): Json {
    if record.JObject? then JObject(record.fields + patch) else record
  }

  /** Merges `patch` into every record whose id is `id`. */
  function PatchRecords(records: seq<Json>, id: string, patch: map<string, Json>): (r: seq<Json>)
    ensures |r| == |records|
    ensures forall k :: 0 <= k < |records| ==>
              r[k] == if RecordId(records[k]) == Some(id) then Merge(records[k], patch) else records[k]
  {
    seq(|records|, k requires 0 <= k < |records| =>
      if RecordId(records[k]) == Some(id) then Merge(records[k], patch) else records[k])
  }

  /** How the store answers one request on one collection: the collection
      afterwards, and the response. */
  function Serve(records: seq<Json>, req: Request): (seq<Json>, Response) {
    match req.verb
    case Get =>
      if req.id.None? then (records, Response(true, JArray(records)))
      else (match Find(records, req.id.value)
            case None => (records, NotFound)
            case Some(record) => (records, Response(true, record)))
    case Post =>
      if req.id.None? && req.body.Some? && req.body.value.JObject?
      then (records + [req.body.value], Response(true, req.body.value))
      else (records, Response(false, EmptyObject))
    case Patch =>
      if req.id.Some? && req.body.Some? && req.body.value.JObject?
      then (match Find(records, req.id.value)
            case None => (records, NotFound)
            case Some(record) =>
              (PatchRecords(records, req.id.value, req.body.value.fields),
               Response(true, Merge(record, req.body.value.fields))))
      else (records, NotFound)
    case Delete =>
      if req.id.None? then (records, NotFound)
      else (match Find(records, req.id.value)
            case None => (records, NotFound)
            case Some(record) => (WithoutId(records, req.id.value), Response(true, record)))
  }

  /** Every record has a string id and no two records share one. */
  ghost predicate UniqueIds(records: seq<Json>) {
    && (forall k :: 0 <= k < |records| ==> RecordId(records[k]).Some?)
    && (forall k, l :: 0 <= k < l < |records| ==> RecordId(records[k]) != RecordId(records[l]))
  }

  /** Requests after which the ids stay unique: a create whose record
      carries an id not yet in the collection, and a partial update whose
      body does not touch `id`. */
  predicate KeepsIds(records: seq<Json>, req: Request) {
    && (req.verb == Post ==> req.body.Some? && RecordId(req.body.value).Some?
                             && Find(records, RecordId(req.body.value).value).None?)
    && (req.verb == Patch && req.body.Some? && req.body.value.JObject? ==> "id" !in req.body.value.fields)
  }

  lemma {:induction false} WithoutIdKeepsUniqueIds(records: seq<Json>, id: string)
    requires UniqueIds(records)
    ensures UniqueIds(WithoutId(records, id))
  {
    if records != [] {
      var rest := records[1..];
      assert UniqueIds(rest) by {
        forall k, l | 0 <= k < l < |rest| ensures RecordId(rest[k]) != RecordId(rest[l]) {
          assert rest[k] == records[k + 1] && rest[l] == records[l + 1];
        }
      }
      WithoutIdKeepsUniqueIds(rest, id);
      var tail := WithoutId(rest, id);
      if RecordId(records[0]) != Some(id) {
        var r := [records[0]] + tail;
        forall x | x in tail ensures RecordId(x) != RecordId(records[0]) {
          var k :| 0 <= k < |rest| && rest[k] == x;
          assert records[k + 1] == x;
        }
        forall k, l | 0 <= k < l < |r| ensures RecordId(r[k]) != RecordId(r[l]) {
          if k == 0 {
            assert r[l] == tail[l - 1] && r[l] in tail;
          } else {
            assert r[k] == tail[k - 1] && r[l] == tail[l - 1];
          }
        }
      }
    }
  }

  /** Creating under a fresh id and updating without touching `id` keep
      the ids unique, and so does every other request. */
  lemma ServeKeepsUniqueIds(records: seq<Json>, req: Request)
    requires UniqueIds(records) && KeepsIds(records, req)
    ensures UniqueIds(Serve(records, req).0)
  {
    var after := Serve(records, req).0;
    match req.verb
    case Get =>
    case Post =>
      if req.id.None? && req.body.Some? && req.body.value.JObject? {
        assert after == records + [req.body.value];
      }
    case Patch =>
      if req.id.Some? && req.body.Some? && req.body.value.JObject? && Find(records, req.id.value).Some? {
        var patch := req.body.value.fields;
        assert forall k :: 0 <= k < |records| ==> RecordId(after[k]) == RecordId(records[k]);
      }
    case Delete =>
      if req.id.Some? {
        WithoutIdKeepsUniqueIds(records, req.id.value);
      }
  }

  /** A partial update changes the found record only in the members it
      sends; every other member keeps its value. */
  lemma {:induction false} FindPatched(records: seq<Json>, id: string, patch: map<string, Json>)
    requires "id" !in patch
    ensures Find(PatchRecords(records, id, patch), id) ==
              match Find(records, id) case None => None case Some(record) => Some(Merge(record, patch))
  {
    if records != [] {
      var r := PatchRecords(records, id, patch);
      assert r[1..] == PatchRecords(records[1..], id, patch);
      FindPatched(records[1..], id, patch);
      if RecordId(records[0]) == Some(id) {
        assert RecordId(r[0]) == Some(id);
      } else {
        assert r[0] == records[0];
      }
    }
  }

  /** The store: the two collections in listing order, and every request
      received so far. */
  class RemoteStore {
    var ingredients: seq<Json>
    var recipes: seq<Json>
    ghost var requests: seq<Request>

    ghost predicate Valid()
      reads this
    {
      UniqueIds(ingredients) && UniqueIds(recipes)
    }

    constructor ()
      ensures Valid()
      ensures ingredients == [] && recipes == [] && requests == []
    {
      ingredients, recipes, requests := [], [], [];
    }

    /** `fetch`: the request is recorded and the addressed collection
        answers it; the other collection is left alone. */
    method Fetch(req: Request) returns (resp: Response)
      modifies this
      ensures requests == old(requests) + [req]
      ensures req.collection == Ingredients ==>
                (ingredients, resp) == Serve(old(ingredients), req) && recipes == old(recipes)
      ensures req.collection == Recipes ==>
                (recipes, resp) == Serve(old(recipes), req) && ingredients == old(ingredients)
    {
      requests := requests + [req];
      if req.collection == Ingredients {
        var (after, response) := Serve(ingredients, req);
        ingredients, resp := after, response;
      } else {
        var (after, response) := Serve(recipes, req);
        recipes, resp := after, response;
      }
    }
  }
}

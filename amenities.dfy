/** The amenity catalogue (app/api/amenities/route.js): the list a
    society's members see, and creation by an admin. */
module AmenityApi {
  import opened Common
  import opened Entities
  import opened Sorting
  import opened Store
  import opened Auth
  import JsonText

  /** `.sort({ name: 1 })`. */
  function ByName(): ((ObjectId, Amenity), (ObjectId, Amenity)) -> bool {
    (p: (ObjectId, Amenity), q: (ObjectId, Amenity)) => LexLe(p.1.name, q.1.name)
  }

  lemma {:induction false} ByNameIsPreorder()
    ensures TotalPreorder(ByName())
  {
    forall p: (ObjectId, Amenity), q: (ObjectId, Amenity) ensures ByName()(p, q) || ByName()(q, p) {
      LexLeTotal(p.1.name, q.1.name);
    }
    forall p: (ObjectId, Amenity), q: (ObjectId, Amenity), o: (ObjectId, Amenity) | ByName()(p, q) && ByName()(q, o)
      ensures ByName()(p, o)
    {
      LexLeTransitive(p.1.name, q.1.name, o.1.name);
    }
  }

  /** GET /api/amenities: either kind of token (route.js:68-71); the
      society read is the user's own, or the admin's query parameter
      falling back to the admin's society (:75-86), and it must be an
      object id (:89-92). */
  method List(db: Db, header: Option<Token>, query: Option<string>) returns (status: int, rows: seq<(ObjectId, Amenity)>)
    ensures VerifyAnyToken(header, db.admins).Err? ==> status == Unauthorized && rows == []
    ensures status != 200 ==> rows == []
    ensures VerifyAnyToken(header, db.admins).Ok? ==>
      var sid := ScopedSociety(VerifyAnyToken(header, db.admins).value, query);
      && (!IsObjectId(sid) <==> status == BadRequest)
      && (IsObjectId(sid) <==> status == 200)
      // only that society's amenities, by name
      && (status == 200 ==>
            multiset(rows) == multiset(Selected(db.amenities, (k: ObjectId, a: Amenity) => a.societyId == AsObjectId(sid))))
    ensures Sorted(rows, ByName())
  {
    rows := [];
    var verdict := VerifyAnyToken(header, db.admins);
    if verdict.Err? {
      return verdict.status, [];
    }
    var sid := ScopedSociety(verdict.value, query);
    if sid == "" || !IsObjectId(sid) {
      return BadRequest, [];
    }
    var id := AsObjectId(sid);
    ByNameIsPreorder();
    rows := Find(db.amenities, (k: ObjectId, a: Amenity) => a.societyId == id, ByName());
    status := 200;
  }

  /** The JSON body of POST /api/amenities; `None` is an absent field,
      and `capacity` the number the body carries. */
  datatype AmenityBody = AmenityBody(
    name: Option<string>,
    kind: Option<string>,
    description: Option<string>,
    capacity: Option<int>,
    location: Option<string>,
    societyId: Option<string>,
    status: Option<string>,
    pricing: Option<JsonText.Json>)

  /** Every required field truthy (route.js:125-127): a capacity of 0 is missing. */
  predicate Complete(body: AmenityBody) {
    Truthy(body.name) && Truthy(body.kind) && Truthy(body.description)
    && body.capacity.Some? && body.capacity.value != 0 && Truthy(body.location) && Truthy(body.societyId)
  }

  /** POST /api/amenities: an admin token with an `id`, else 403
      (route.js:117-121), and every required field (:125-127). The body's
      society is taken as given: nothing ties it to the admin's (:128).
      The new amenity is stored under `newId`; a society id that does not
      cast fails validation (400). */
  method Create(db: Db, header: Option<Token>, body: AmenityBody, newId: ObjectId) returns (status: int)
    modifies db
    ensures db.Snapshot() == old(db.Snapshot()).(amenities := db.amenities)
    ensures header.None? ==> status == Unauthorized
    ensures header.Some? && Verify(header, AdminSecret, false, Forbidden).Err? ==> status == Forbidden
    ensures Verify(header, AdminSecret, false, Forbidden).Ok? && !Complete(body) ==> status == BadRequest
    ensures status != 201 ==> db.amenities == old(db.amenities)
    ensures status == 201 <==>
      Verify(header, AdminSecret, false, Forbidden).Ok? && Complete(body) && IsObjectId(body.societyId.value)
      && newId !in old(db.amenities)
    ensures status == 201 ==>
      db.amenities == old(db.amenities)[newId := Amenity(body.name.value, body.kind.value, body.description.value,
        body.capacity.value, body.location.value, AsObjectId(body.societyId.value), body.status, body.pricing)]
  {
    var verdict := Verify(header, AdminSecret, false, Forbidden);
    if verdict.Err? {
      return verdict.status;
    }
    if !Complete(body) {
      return BadRequest;
    }
    var sid := AsObjectId(body.societyId.value);
    if sid.None? {
      return BadRequest;
    }
    if newId in db.amenities {
      return ServerError;
    }
    db.amenities := db.amenities[newId := Amenity(body.name.value, body.kind.value, body.description.value,
      body.capacity.value, body.location.value, sid, body.status, body.pricing)];
    return 201;
  }
}

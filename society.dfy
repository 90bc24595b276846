/** A society's own record (app/api/society/route.js): reading it, for
    its members only, and creating it, by its admin. */
module SocietyApi {
  import opened Common
  import opened Entities
  import opened Store
  import opened Auth

  /** GET /api/society?societyId=...: either kind of token (route.js:56-59);
      the query must name an object id (:71-73) and must be exactly the
      caller's society (:76-79). */
  function Read(header: Option<Token>, admins: map<ObjectId, AdminDoc>, societies: map<ObjectId, Society>,
                query: Option<string>): (r: Reply<Society>)
    ensures VerifyAnyToken(header, admins).Err? ==> r == Err(Unauthorized)
    ensures VerifyAnyToken(header, admins).Ok? && (!Truthy(query) || !IsObjectId(query.value)) ==> r == Err(BadRequest)
    ensures (VerifyAnyToken(header, admins).Ok? && Truthy(query) && IsObjectId(query.value)
             && query.value != VerifyAnyToken(header, admins).value.societyId) ==> r == Err(Forbidden)
    ensures (VerifyAnyToken(header, admins).Ok? && Truthy(query) && IsObjectId(query.value)
             && query.value == VerifyAnyToken(header, admins).value.societyId) ==>
      (AsObjectId(query.value).value in societies <==> r.Ok?)
      && (r.Err? ==> r.status == NotFound)
    // what is returned is always the caller's own society
    ensures r.Ok? ==>
      && VerifyAnyToken(header, admins).Ok?
      && var sid := AsObjectId(VerifyAnyToken(header, admins).value.societyId);
         sid.Some? && sid.value in societies && r.value == societies[sid.value]
  {
    match VerifyAnyToken(header, admins)
    case Err(code) => Err(code)
    case Ok(ctx) =>
      if !Truthy(query) || !IsObjectId(query.value) then Err(BadRequest)
      else if query.value != ctx.societyId then Err(Forbidden)
      else
        var sid := AsObjectId(query.value).value;
        if sid in societies then Ok(societies[sid]) else Err(NotFound)
  }

  /** The JSON body of POST /api/society; `None` is an absent field. */
  datatype SocietyBody = SocietyBody(
    name: Option<string>,
    address: Option<string>,
    pincode: Option<string>,
    latitude: Option<real>,
    longitude: Option<real>,
    adminId: Option<string>)

  /** A coordinate is present when truthy: a latitude of 0 counts as missing. */
  predicate CoordTruthy(c: Option<real>) {
    c.Some? && c.value != 0.0
  }

  predicate Complete(body: SocietyBody) {
    Truthy(body.name) && Truthy(body.address) && Truthy(body.pincode)
    && CoordTruthy(body.latitude) && CoordTruthy(body.longitude) && Truthy(body.adminId)
  }

  /** POST /api/society: an admin token with an `id`, else 403
      (route.js:110-114); every field present (:118-120); the society's
      admin must be the caller (:122-124). The new society is stored under
      `newId`; an admin id that does not cast fails validation (400). */
  method Create(db: Db, header: Option<Token>, body: SocietyBody, newId: ObjectId) returns (status: int)
    modifies db
    ensures db.Snapshot() == old(db.Snapshot()).(societies := db.societies)
    ensures header.None? ==> status == Unauthorized
    ensures header.Some? && Verify(header, AdminSecret, false, Forbidden).Err? ==> status == Forbidden
    ensures Verify(header, AdminSecret, false, Forbidden).Ok? && !Complete(body) ==> status == BadRequest
    ensures (Verify(header, AdminSecret, false, Forbidden).Ok? && Complete(body)
             && body.adminId.value != header.value.claims.id.value) ==> status == Forbidden
    // the caller's own, complete society is created unless its admin id does not cast (400)
    // or the new id is taken (the driver's duplicate-key error, 500)
    ensures (Verify(header, AdminSecret, false, Forbidden).Ok? && Complete(body)
             && body.adminId.value == header.value.claims.id.value) ==>
      && (AsObjectId(body.adminId.value).None? ==> status == BadRequest)
      && (AsObjectId(body.adminId.value).Some? && newId !in old(db.societies) ==> status == 201)
      && (AsObjectId(body.adminId.value).Some? && newId in old(db.societies) ==> status == ServerError)
    ensures status != 201 ==> db.societies == old(db.societies)
    // a created society is the caller's, with the body's fields
    ensures status == 201 ==>
      && Verify(header, AdminSecret, false, Forbidden).Ok? && Complete(body)
      && newId !in old(db.societies) && newId in db.societies
      && db.societies == old(db.societies)[newId := db.societies[newId]]
      && var s := db.societies[newId];
         && Some(s.adminId) == AsObjectId(header.value.claims.id.value)
         && s.name == body.name.value && s.address == body.address.value && s.pincode == body.pincode.value
         && s.location == Location(body.latitude, body.longitude)
  {
    var verdict := Verify(header, AdminSecret, false, Forbidden);
    if verdict.Err? {
      return verdict.status;
    }
    if !Complete(body) {
      return BadRequest;
    }
    if body.adminId.value != verdict.value.id.value {
      return Forbidden;
    }
    var adminId := AsObjectId(body.adminId.value);
    if adminId.None? {
      return BadRequest;
    }
    if newId in db.societies {
      return ServerError;
    }
    db.societies := db.societies[newId := Society(body.name.value, body.address.value, body.pincode.value,
                                                  Location(body.latitude, body.longitude), adminId.value)];
    return 201;
  }
}

/** The admin's own profile (app/api/admin/me/route.js): reading it
    without the password, and updating it without touching the account's
    protected fields. */
module AdminProfile {
  import opened Common
  import opened Entities
  import opened Store
  import opened Auth
  import JsonText

  /** The profile as returned: everything but the password
      (`.select('-password')`, route.js:31, :75). */
  datatype AdminView = AdminView(email: string, societyId: Option<ObjectId>, profile: map<string, JsonText.Json>)

  function View(a: AdminDoc): (v: AdminView)
    ensures v.email == a.email && v.societyId == a.societyId && v.profile == a.profile
  {
    AdminView(a.email, a.societyId, a.profile)
  }

  /** This route's token check has no society fallback: an admin token
      with an `id` (route.js:8-18). */
  function Caller(header: Option<Token>): Reply<Claims> {
    Verify(header, AdminSecret, false, Unauthorized)
  }

  /** GET /api/admin/me: the caller's own record (route.js:21-42); an id
      that does not cast makes the lookup throw (500). */
  function Get(header: Option<Token>, admins: map<ObjectId, AdminDoc>): (r: Reply<AdminView>)
    ensures Caller(header).Err? ==> r == Err(Unauthorized)
    ensures Caller(header).Ok? && AsObjectId(header.value.claims.id.value).None? ==> r == Err(ServerError)
    ensures Caller(header).Ok? && AsObjectId(header.value.claims.id.value).Some? ==>
      var k := AsObjectId(header.value.claims.id.value).value;
      && (k !in admins ==> r == Err(NotFound))
      && (k in admins ==> r == Ok(View(admins[k])))
  {
    match Caller(header)
    case Err(code) => Err(code)
    case Ok(c) =>
      match AsObjectId(c.id.value)
      case None => Err(ServerError)
      case Some(k) => if k in admins then Ok(View(admins[k])) else Err(NotFound)
  }

  /** The body keys this route never writes (route.js:57-60). */
  const Protected: set<string> := {"email", "password", "societyId", "_id"}

  /** Deletes the protected keys from the body, one after the other. */
  method Strip(body: map<string, JsonText.Json>) returns (u: map<string, JsonText.Json>)
    ensures u.Keys == body.Keys - Protected
    ensures forall k | k in u :: u[k] == body[k]
  {
    u := body;
    u := u - {"email"};
    u := u - {"password"};
    u := u - {"societyId"};
    u := u - {"_id"};
  }

  /** PUT /api/admin/me with a JSON object body: the protected keys are
      dropped first; nothing left is 400 (:62-64), an empty name is 400
      (:67-69); the rest is set on the caller's own profile, and an
      unknown admin is 404 (:71-79). */
  method Put(db: Db, header: Option<Token>, body: map<string, JsonText.Json>) returns (status: int)
    modifies db
    ensures db.Snapshot() == old(db.Snapshot()).(admins := db.admins)
    ensures Caller(header).Err? ==> status == Unauthorized
    ensures Caller(header).Ok? && body.Keys <= Protected ==> status == BadRequest
    ensures (Caller(header).Ok? && !(body.Keys <= Protected)
             && "name" in body && body["name"] == JsonText.Str("")) ==> status == BadRequest
    // past the body checks, the caller's id decides: 500 when it does not cast,
    // 404 when no admin has it, 200 otherwise
    ensures (Caller(header).Ok? && !(body.Keys <= Protected)
             && !("name" in body && body["name"] == JsonText.Str(""))) ==>
      && (AsObjectId(header.value.claims.id.value).None? ==> status == ServerError)
      && (AsObjectId(header.value.claims.id.value).Some? ==>
            && (AsObjectId(header.value.claims.id.value).value !in old(db.admins) ==> status == NotFound)
            && (AsObjectId(header.value.claims.id.value).value in old(db.admins) ==> status == 200))
    ensures status != 200 ==> db.admins == old(db.admins)
    ensures status == 200 ==>
      && Caller(header).Ok? && AsObjectId(header.value.claims.id.value).Some?
      && var k := AsObjectId(header.value.claims.id.value).value;
         && k in old(db.admins) && k in db.admins
         && db.admins == old(db.admins)[k := db.admins[k]]
         // the protected fields of the record never change
         && db.admins[k].email == old(db.admins)[k].email
         && db.admins[k].password == old(db.admins)[k].password
         && db.admins[k].societyId == old(db.admins)[k].societyId
         // every other body field is set, and nothing else in the profile changes
         && db.admins[k].profile.Keys == old(db.admins)[k].profile.Keys + (body.Keys - Protected)
         && (forall f | f in body && f !in Protected :: db.admins[k].profile[f] == body[f])
         && (forall f | f in old(db.admins)[k].profile && f !in body :: db.admins[k].profile[f] == old(db.admins)[k].profile[f])
  {
    var verdict := Caller(header);
    if verdict.Err? {
      return verdict.status;
    }
    var update := Strip(body);
    if update == map[] {
      assert body.Keys <= Protected;
      return BadRequest;
    }
    assert !(body.Keys <= Protected) by {
      var f :| f in update;
      assert f in body && f !in Protected;
    }
    if "name" in update && update["name"] == JsonText.Str("") {
      return BadRequest;
    }
    var k := AsObjectId(verdict.value.id.value);
    if k.None? {
      return ServerError;
    }
    if k.value !in db.admins {
      return NotFound;
    }
    var a := db.admins[k.value];
    db.admins := db.admins[k.value := a.(profile := a.profile + update)];
    return 200;
  }
}

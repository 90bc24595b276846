/** Complaints (app/api/complaints/route.js): the list a caller may see,
    and the admin's update of one complaint. */
module ComplaintApi {
  import opened Common
  import opened Entities
  import opened Sorting
  import opened Store
  import opened Auth
  import JsonText

  /** What a caller sees of a society's complaints (route.js:78-91): an
      admin all of them, a user only their own. */
  predicate Visible(c: Complaint, sid: ObjectId, caller: Option<ObjectId>) {
    c.societyId == sid && (caller.None? || c.userId == caller.value)
  }

  lemma {:induction false} ComplaintOrderIsPreorder()
    ensures TotalPreorder(NewestFirst((c: Complaint) => c.createdAt))
  {
    NewestFirstIsPreorder((c: Complaint) => c.createdAt);
  }

  /** GET /api/complaints: either kind of token (route.js:50-53); the
      society is scoped as for amenities and must be an object id
      (:57-74); newest first (:82, :88). A user id that does not cast
      makes the query throw (500). */
  method List(db: Db, header: Option<Token>, query: Option<string>) returns (status: int, rows: seq<(ObjectId, Complaint)>)
    ensures VerifyAnyToken(header, db.admins).Err? ==> status == Unauthorized && rows == []
    ensures status != 200 ==> rows == []
    ensures VerifyAnyToken(header, db.admins).Ok? ==>
      var ctx := VerifyAnyToken(header, db.admins).value;
      var sid := ScopedSociety(ctx, query);
      && (!IsObjectId(sid) <==> status == BadRequest)
      && (status == 200 <==> IsObjectId(sid) && (ctx.isAdmin || AsObjectId(ctx.id).Some?))
      && (status == 200 ==>
            var caller := if ctx.isAdmin then None else AsObjectId(ctx.id);
            multiset(rows) == multiset(Selected(db.complaints,
              (k: ObjectId, c: Complaint) => Visible(c, AsObjectId(sid).value, caller))))
    ensures Sorted(rows, NewestFirst((c: Complaint) => c.createdAt))
  {
    rows := [];
    var verdict := VerifyAnyToken(header, db.admins);
    if verdict.Err? {
      return verdict.status, [];
    }
    var ctx := verdict.value;
    var sid := ScopedSociety(ctx, query);
    if sid == "" || !IsObjectId(sid) {
      return BadRequest, [];
    }
    var society := AsObjectId(sid).value;
    var caller: Option<ObjectId> := None;
    if !ctx.isAdmin {
      caller := AsObjectId(ctx.id);
      if caller.None? {
        return ServerError, [];
      }
    }
    ComplaintOrderIsPreorder();
    rows := Find(db.complaints, (k: ObjectId, c: Complaint) => Visible(c, society, caller),
                 NewestFirst((c: Complaint) => c.createdAt));
    status := 200;
  }

  /** `{ $set: update }` on a complaint's named fields: the update's fields
      win, every other field stays. */
  function SetFields(fields: map<string, JsonText.Json>, update: map<string, JsonText.Json>): (r: map<string, JsonText.Json>)
    ensures r.Keys == fields.Keys + update.Keys
    ensures forall k | k in update :: r[k] == update[k]
    ensures forall k | k in fields && k !in update :: r[k] == fields[k]
  {
    fields + update
  }

  /** Setting the same fields twice is setting them once. */
  lemma {:induction false} SetFieldsIdempotent(fields: map<string, JsonText.Json>, update: map<string, JsonText.Json>)
    ensures SetFields(SetFields(fields, update), update) == SetFields(fields, update)
  {
  }

  /** PUT /api/complaints?id=...: an admin token with an `id`, else 403
      (route.js:114-118); the id must be an object id (:122); the body's
      fields are set as given, with no check of the complaint's society
      (:124-128); an unknown complaint is 404 (:132). */
  method Update(db: Db, header: Option<Token>, id: Option<string>, update: map<string, JsonText.Json>) returns (status: int)
    modifies db
    ensures db.Snapshot() == old(db.Snapshot()).(complaints := db.complaints)
    ensures header.None? ==> status == Unauthorized
    ensures header.Some? && Verify(header, AdminSecret, false, Forbidden).Err? ==> status == Forbidden
    ensures Verify(header, AdminSecret, false, Forbidden).Ok? && (!Truthy(id) || !IsObjectId(id.value)) ==> status == BadRequest
    ensures status != 200 ==> db.complaints == old(db.complaints)
    ensures status == 200 <==>
      Verify(header, AdminSecret, false, Forbidden).Ok? && Truthy(id) && IsObjectId(id.value)
      && AsObjectId(id.value).value in old(db.complaints)
    ensures (Verify(header, AdminSecret, false, Forbidden).Ok? && Truthy(id) && IsObjectId(id.value)
             && AsObjectId(id.value).value !in old(db.complaints)) ==> status == NotFound
    ensures status == 200 ==>
      var k := AsObjectId(id.value).value;
      db.complaints == old(db.complaints)[k := old(db.complaints)[k].(fields := SetFields(old(db.complaints)[k].fields, update))]
  {
    var verdict := Verify(header, AdminSecret, false, Forbidden);
    if verdict.Err? {
      return verdict.status;
    }
    if !Truthy(id) || !IsObjectId(id.value) {
      return BadRequest;
    }
    var k := AsObjectId(id.value).value;
    if k !in db.complaints {
      return NotFound;
    }
    var c := db.complaints[k];
    db.complaints := db.complaints[k := c.(fields := SetFields(c.fields, update))];
    return 200;
  }

  /** A resident's token cannot update a complaint, not even their own:
      the route verifies only the admin secret. */
  lemma {:induction false} ResidentCannotUpdate(c: Claims)
    ensures Verify(Some(UserTok(c)), AdminSecret, false, Forbidden) == Err(Forbidden)
  {
  }
}

/** Guests: a resident registers visitors (app/api/user/guests/route.js)
    and the admin lists a society's visitors by status
    (app/api/admin/guests/route.js). */
module Guests {
  import opened Common
  import opened Entities
  import opened Sorting
  import opened Store
  import opened Auth

  /** The statuses a guest can have, and so the admin's status filters
      (admin guests route.js:37). */
  predicate IsGuestStatus(s: string) {
    s == "pending" || s == "approved" || s == "rejected" || s == "checked-in" || s == "checked-out"
  }

  /** A JSON count as the body carries it: a number, or a text. */
  datatype Count = Num(n: int) | Text(s: string)

  predicate CountTruthy(c: Option<Count>) {
    match c
    case None => false
    case Some(Num(n)) => n != 0
    case Some(Text(s)) => s != ""
  }

  /** `Number(c) || 1`: the count's value, or 1 for NaN and 0. */
  function PeopleOf(c: Count): (r: int)
    ensures r != 0
    ensures c.Num? && c.n != 0 ==> r == c.n
    ensures c.Text? && c.s != [] && AllDigits(c.s) && DigitsValue(c.s) != 0 ==> r == DigitsValue(c.s)
  {
    match c
    case Num(n) => if n != 0 then n else 1
    case Text(s) =>
      match NumberOfText(s)
      case Some(n) => if n != 0 then n else 1
      case None => 1
  }

  /** The JSON body of POST /api/user/guests; `None` is an absent field. */
  datatype GuestBody = GuestBody(
    name: Option<string>,
    noOfPeople: Option<Count>,
    date: Option<DateText>,
    carNo: Option<string>,
    purpose: Option<string>,
    validUntil: Option<DateText>)

  /** The short guest code `G-` and the last six digits of the clock
      (route.js:42). */
  function GuestCode(now: nat): (r: string)
    ensures |r| > 2 && |r| <= 8 && |r| - 2 <= |NatText(now)| && r[..2] == "G-" && AllDigits(r[2..])
    ensures |r| - 2 == if |NatText(now)| <= 6 then |NatText(now)| else 6
    ensures r[2..] == NatText(now)[|NatText(now)| - (|r| - 2)..]
  {
    var t := NatText(now);
    var tail := if |t| <= 6 then t else t[|t| - 6..];
    assert ("G-" + tail)[2..] == tail;
    "G-" + tail
  }

  /** The guest document POST /api/user/guests builds (route.js:35-53) for
      the caller `userId` of society `societyId`, as the token carries
      them. A missing required field is 400, and so is a document that
      fails validation on save (an Invalid Date, an id that does not cast). */
  function NewGuest(userId: string, societyId: string, body: GuestBody, now: nat): (r: Reply<Guest>)
    ensures r.Err? ==> r.status == BadRequest
    ensures (!Truthy(body.name) || !CountTruthy(body.noOfPeople) || body.date.None? || !Truthy(body.purpose)
             || body.validUntil.None?) ==> r.Err?
    ensures r.Ok? <==>
      && Truthy(body.name) && CountTruthy(body.noOfPeople) && Truthy(body.purpose)
      && body.date.Some? && body.date.value.At? && body.validUntil.Some? && body.validUntil.value.At?
      && AsObjectId(userId).Some? && AsObjectId(societyId).Some?
    // a new guest is pending, has no QR yet, and belongs to the token's user and society
    ensures r.Ok? ==>
      && r.value.status == "pending" && r.value.qrCode.None? && r.value.entryStamp.None?
      && Some(r.value.userId) == AsObjectId(userId) && Some(r.value.societyId) == AsObjectId(societyId)
      && r.value.name == body.name.value && r.value.purpose == body.purpose.value
      && r.value.date == body.date.value.ms && r.value.validUntil == body.validUntil.value.ms
      && r.value.noOfPeople == PeopleOf(body.noOfPeople.value) && r.value.noOfPeople != 0
      && r.value.createdAt == now && r.value.code == GuestCode(now)
      // an absent or empty car number is stored as null (:46)
      && (r.value.carNo.Some? <==> Truthy(body.carNo))
      && (r.value.carNo.Some? ==> r.value.carNo == body.carNo)
  {
    if !Truthy(body.name) || !CountTruthy(body.noOfPeople) || body.date.None? || !Truthy(body.purpose)
       || body.validUntil.None? then Err(BadRequest)
    else
      match (body.date.value, body.validUntil.value, AsObjectId(userId), AsObjectId(societyId))
      case (At(day), At(until), Some(uid), Some(sid)) =>
        Ok(Guest(GuestCode(now), body.name.value, PeopleOf(body.noOfPeople.value), day,
                 if Truthy(body.carNo) then body.carNo else None, body.purpose.value, uid, "pending",
                 until, None, sid, now, None))
      case _ => Err(BadRequest)
  }

  /** POST /api/user/guests at `now`: the user token needs `id` and
      `societyId` (route.js:15-27); the new guest is stored under `newId`
      (a clash with a stored id is the driver's duplicate-key error, 500). */
  method Add(db: Db, header: Option<Token>, body: GuestBody, now: nat, newId: ObjectId) returns (status: int)
    modifies db
    ensures db.Snapshot() == old(db.Snapshot()).(guests := db.guests)
    ensures Verify(header, UserSecret, true, Unauthorized).Err? ==>
      status == Unauthorized && db.guests == old(db.guests)
    ensures Verify(header, UserSecret, true, Unauthorized).Ok? ==>
      var c := Verify(header, UserSecret, true, Unauthorized).value;
      var g := NewGuest(c.id.value, c.societyId.value, body, now);
      && (g.Err? ==> status == BadRequest && db.guests == old(db.guests))
      && (g.Ok? && newId !in old(db.guests) ==> status == 201 && db.guests == old(db.guests)[newId := g.value])
      && (g.Ok? && newId in old(db.guests) ==> status == ServerError && db.guests == old(db.guests))
  {
    var verdict := Verify(header, UserSecret, true, Unauthorized);
    if verdict.Err? {
      return verdict.status;
    }
    var c := verdict.value;
    var g := NewGuest(c.id.value, c.societyId.value, body, now);
    if g.Err? {
      return g.status;
    }
    if newId in db.guests {
      return ServerError;
    }
    db.guests := db.guests[newId := g.value];
    return 201;
  }

  lemma {:induction false} GuestOrderIsPreorder()
    ensures TotalPreorder(NewestFirst((g: Guest) => g.createdAt))
  {
    NewestFirstIsPreorder((g: Guest) => g.createdAt);
  }

  /** GET /api/user/guests: the caller's own guests, newest first
      (route.js:77-84). Only `id` is needed in the token, and no society
      filter applies: a guest is the caller's whatever its society. */
  method Mine(db: Db, header: Option<Token>) returns (status: int, rows: seq<(ObjectId, Guest)>)
    ensures Verify(header, UserSecret, false, Unauthorized).Err? ==> status == Unauthorized && rows == []
    ensures status == 200 <==>
      Verify(header, UserSecret, false, Unauthorized).Ok? && AsObjectId(header.value.claims.id.value).Some?
    ensures status != 200 ==> rows == []
    ensures status == 200 ==>
      var uid := AsObjectId(header.value.claims.id.value).value;
      multiset(rows) == multiset(Selected(db.guests, (k: ObjectId, g: Guest) => g.userId == uid))
    ensures Sorted(rows, NewestFirst((g: Guest) => g.createdAt))
  {
    rows := [];
    var verdict := Verify(header, UserSecret, false, Unauthorized);
    if verdict.Err? {
      return verdict.status, [];
    }
    var uid := AsObjectId(verdict.value.id.value);
    if uid.None? {
      return ServerError, [];   // the `userId` filter does not cast
    }
    GuestOrderIsPreorder();
    rows := Find(db.guests, (k: ObjectId, g: Guest) => g.userId == uid.value, NewestFirst((g: Guest) => g.createdAt));
    status := 200;
  }

  /** The status filter the admin list applies (admin guests route.js:35-44):
      only a whitelisted status other than 'all'; anything else is ignored. */
  function StatusFilter(statusFilter: Option<string>): (f: Option<string>)
    ensures f.Some? <==> statusFilter.Some? && IsGuestStatus(statusFilter.value)
    ensures f.Some? ==> f == statusFilter
  {
    if Truthy(statusFilter) && statusFilter.value != "all" && IsGuestStatus(statusFilter.value) then statusFilter
    else None
  }

  predicate Listed(g: Guest, sid: ObjectId, f: Option<string>) {
    g.societyId == sid && (f.None? || g.status == f.value)
  }

  /** GET /api/admin/guests: any admin token with an `id` (route.js:14-21)
      lists the guests of the society named in the query, which must be
      an object id (:28-30); nothing ties that society to the admin. */
  method ForSociety(db: Db, header: Option<Token>, societyQuery: Option<string>, statusFilter: Option<string>)
    returns (status: int, rows: seq<(ObjectId, Guest)>)
    ensures Verify(header, AdminSecret, false, Unauthorized).Err? ==> status == Unauthorized && rows == []
    ensures Verify(header, AdminSecret, false, Unauthorized).Ok? && (!Truthy(societyQuery) || !IsObjectId(societyQuery.value)) ==>
      status == BadRequest && rows == []
    ensures status == 200 <==>
      Verify(header, AdminSecret, false, Unauthorized).Ok? && Truthy(societyQuery) && IsObjectId(societyQuery.value)
    ensures status != 200 ==> rows == []
    ensures status == 200 ==>
      var sid := AsObjectId(societyQuery.value).value;
      var f := if statusFilter.Some? && IsGuestStatus(statusFilter.value) then statusFilter else None;
      multiset(rows) == multiset(Selected(db.guests, (k: ObjectId, g: Guest) => Listed(g, sid, f)))
    ensures Sorted(rows, NewestFirst((g: Guest) => g.createdAt))
  {
    rows := [];
    var verdict := Verify(header, AdminSecret, false, Unauthorized);
    if verdict.Err? {
      return verdict.status, [];
    }
    if !Truthy(societyQuery) || !IsObjectId(societyQuery.value) {
      return BadRequest, [];
    }
    var sid := AsObjectId(societyQuery.value).value;
    var f := StatusFilter(statusFilter);
    GuestOrderIsPreorder();
    rows := Find(db.guests, (k: ObjectId, g: Guest) => Listed(g, sid, f), NewestFirst((g: Guest) => g.createdAt));
    status := 200;
  }
}

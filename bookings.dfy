/** A resident's amenity bookings: creation (app/api/bookings/route.js)
    and the QR credential for one booking
    (app/api/bookings/generate-qr/route.js). */
module Bookings {
  import opened Common
  import opened Entities
  import opened Store
  import opened Auth
  import Qr

  /** The JSON body of POST /api/bookings; `None` is an absent or empty
      field, and `numberOfPeople` is the number the body carries. */
  datatype BookingRequest = BookingRequest(
    amenityId: Option<string>,
    bookingDate: Option<DateText>,
    startTime: Option<string>,
    endTime: Option<string>,
    numberOfPeople: Option<int>,
    purpose: Option<string>)

  /** Any required field falsy (route.js:31-33); a count of 0 is falsy. */
  predicate Incomplete(req: BookingRequest, societyId: string) {
    !Truthy(req.amenityId) || req.bookingDate.None? || !Truthy(req.startTime) || !Truthy(req.endTime)
    || req.numberOfPeople.None? || req.numberOfPeople == Some(0) || societyId == ""
  }

  /** `amenity.societyId?.toString() === societyId`: the stored id's text
      equals the token's text exactly. */
  predicate OfSociety(a: Amenity, societyId: string) {
    a.societyId.Some? && a.societyId.value == societyId
  }

  /** The guard chain of POST /api/bookings after the token check
      (route.js:31-44), and the document it then builds (:67-95), for the
      caller `userId` of society `societyId` (both as the token carries
      them). The amenity checks run in the order: found, same society,
      operational, within capacity. */
  function Admit(userId: string, societyId: string, req: BookingRequest, amenities: map<ObjectId, Amenity>): (r: Reply<Booking>)
    ensures Incomplete(req, societyId) ==> r == Err(BadRequest)
    ensures !Incomplete(req, societyId) && (!IsObjectId(req.amenityId.value) || !IsObjectId(societyId)) ==> r == Err(BadRequest)
    ensures !Incomplete(req, societyId) && IsObjectId(req.amenityId.value) && IsObjectId(societyId) ==>
      var aid := AsObjectId(req.amenityId.value).value;
      && (aid !in amenities ==> r == Err(NotFound))
      && (aid in amenities && !OfSociety(amenities[aid], societyId) ==> r == Err(Forbidden))
      && (aid in amenities && OfSociety(amenities[aid], societyId) && amenities[aid].status != Some("operational") ==>
            r == Err(BadRequest))
      && ((aid in amenities && OfSociety(amenities[aid], societyId) && amenities[aid].status == Some("operational")
             && req.numberOfPeople.value > amenities[aid].capacity) ==> r == Err(BadRequest))
    ensures r.Err? ==> r.status in {BadRequest, Forbidden, NotFound}
    // a new booking is pending, of the token's user and society, for an operational amenity of that society
    ensures r.Ok? ==>
      && Some(r.value.amenityId) == AsObjectId(req.amenityId.value) && r.value.amenityId in amenities
      && Some(r.value.userId) == AsObjectId(userId)
      && r.value.societyId == societyId && OfSociety(amenities[r.value.amenityId], societyId)
      && amenities[r.value.amenityId].status == Some("operational")
      && r.value.numberOfPeople == req.numberOfPeople.value && r.value.numberOfPeople != 0
      && r.value.numberOfPeople <= amenities[r.value.amenityId].capacity
      && r.value.status == "pending" && r.value.entryStamp.None? && r.value.exitStamp.None?
      && Some(At(r.value.bookingDate)) == req.bookingDate
      && r.value.startTime == req.startTime.value && r.value.endTime == req.endTime.value
      && r.value.purpose == OrElse(req.purpose, "")
    // payment: nothing to pay unless the amenity is chargeable, and the amount is never computed (:68-75)
    ensures r.Ok? ==>
      && r.value.paymentAmount == 0
      && r.value.paymentStatus == (if Chargeable(amenities[r.value.amenityId]) then "pending" else "not_required")
  {
    if Incomplete(req, societyId) then Err(BadRequest)
    else if !IsObjectId(req.amenityId.value) || !IsObjectId(societyId) then Err(BadRequest)
    else
      var aid := AsObjectId(req.amenityId.value).value;
      if aid !in amenities then Err(NotFound)
      else
        var amenity := amenities[aid];
        if !OfSociety(amenity, societyId) then Err(Forbidden)
        else if amenity.status != Some("operational") then Err(BadRequest)
        else if req.numberOfPeople.value > amenity.capacity then Err(BadRequest)
        else
          var paymentStatus := if Chargeable(amenity) then "pending" else "not_required";
          // the document's casts: an Invalid Date or a user id that is no
          // object id fails validation on save (:97, :108)
          match (req.bookingDate.value, AsObjectId(userId))
          case (At(day), Some(uid)) =>
            Ok(Booking(aid, uid, amenity.societyId.value, day, req.startTime.value, req.endTime.value,
                       req.numberOfPeople.value, OrElse(req.purpose, ""), "pending", 0, paymentStatus, None, None))
          case _ => Err(BadRequest)
  }

  /** POST /api/bookings: the user token needs `id` and `societyId`
      (route.js:15-22); an admitted booking is stored under `newId`
      (a clash with a stored id is the driver's duplicate-key error, 500). */
  method Create(db: Db, header: Option<Token>, req: BookingRequest, newId: ObjectId) returns (status: int)
    modifies db
    ensures db.Snapshot() == old(db.Snapshot()).(bookings := db.bookings)
    ensures Verify(header, UserSecret, true, Unauthorized).Err? ==>
      status == Unauthorized && db.bookings == old(db.bookings)
    ensures Verify(header, UserSecret, true, Unauthorized).Ok? ==>
      var c := Verify(header, UserSecret, true, Unauthorized).value;
      var r := Admit(c.id.value, c.societyId.value, req, old(db.amenities));
      && (r.Err? ==> status == r.status && db.bookings == old(db.bookings))
      // there is no overlap check: whatever is already booked, an admitted request is stored (:46-65)
      && (r.Ok? && newId !in old(db.bookings) ==> status == 201 && db.bookings == old(db.bookings)[newId := r.value])
      && (r.Ok? && newId in old(db.bookings) ==> status == ServerError && db.bookings == old(db.bookings))
  {
    var verdict := Verify(header, UserSecret, true, Unauthorized);
    if verdict.Err? {
      return verdict.status;
    }
    var c := verdict.value;
    var r := Admit(c.id.value, c.societyId.value, req, db.amenities);
    if r.Err? {
      return r.status;
    }
    if newId in db.bookings {
      return ServerError;
    }
    db.bookings := db.bookings[newId := r.value];
    return 201;
  }

  /** POST /api/bookings/generate-qr: the QR text for one of the caller's
      own bookings. The user token needs only `id` (route.js:15-22); a
      booking that is absent and one of another user both give 404
      (:32-35); no status is required (:36-39). The text is what
      `QRCode.toDataURL` encodes. */
  function GenerateQr(header: Option<Token>, bookingId: Option<string>, bookings: map<ObjectId, Booking>): (r: Reply<string>)
    ensures Verify(header, UserSecret, false, Unauthorized).Err? ==> r == Err(Unauthorized)
    ensures Verify(header, UserSecret, false, Unauthorized).Ok? && (!Truthy(bookingId) || !IsObjectId(bookingId.value)) ==>
      r == Err(BadRequest)
    ensures r.Ok? ==>
      && bookingId.Some? && AsObjectId(bookingId.value).Some?
      && var bid := AsObjectId(bookingId.value).value;
         && bid in bookings
         && Some(bookings[bid].userId) == AsObjectId(header.value.claims.id.value)
         && r.value == Qr.Encode(bid, bookings[bid].amenityId, bookings[bid].userId)
    // a caller id that does not cast fails the `userId` filter (500)
    ensures Verify(header, UserSecret, false, Unauthorized).Ok? && Truthy(bookingId) && IsObjectId(bookingId.value)
            && AsObjectId(header.value.claims.id.value).None? ==>
      r == Err(ServerError)
    ensures r.Err? && Verify(header, UserSecret, false, Unauthorized).Ok? && Truthy(bookingId) && IsObjectId(bookingId.value)
            && AsObjectId(header.value.claims.id.value).Some? ==>
      r == Err(NotFound) && var bid := AsObjectId(bookingId.value).value;
        bid !in bookings || Some(bookings[bid].userId) != AsObjectId(header.value.claims.id.value)
  {
    match Verify(header, UserSecret, false, Unauthorized)
    case Err(code) => Err(code)
    case Ok(c) =>
      if !Truthy(bookingId) || !IsObjectId(bookingId.value) then Err(BadRequest)
      else
        var bid := AsObjectId(bookingId.value).value;
        match AsObjectId(c.id.value)
        case None => Err(ServerError)   // the `userId` filter cannot be cast
        case Some(uid) =>
          if bid in bookings && bookings[bid].userId == uid then
            Ok(Qr.Encode(bid, bookings[bid].amenityId, bookings[bid].userId))
          else Err(NotFound)
  }

  /** The QR issued for a booking is read back by the check-in route as
      that same booking. */
  lemma {:induction false} IssuedQrNamesBooking(header: Option<Token>, bookingId: Option<string>, bookings: map<ObjectId, Booking>)
    requires GenerateQr(header, bookingId, bookings).Ok?
    ensures Qr.Read(GenerateQr(header, bookingId, bookings).value) == Qr.Names(AsObjectId(bookingId.value).value)
  {
    var bid := AsObjectId(bookingId.value).value;
    Qr.ReadEncoded(bid, bookings[bid].amenityId, bookings[bid].userId);
  }

  /** Issuing a QR neither depends on nor changes a booking's status:
      any status gives the same answer. */
  lemma {:induction false} QrIgnoresStatus(header: Option<Token>, bookingId: Option<string>, bookings: map<ObjectId, Booking>,
                                           k: ObjectId, status: string)
    requires k in bookings
    ensures GenerateQr(header, bookingId, bookings) == GenerateQr(header, bookingId, bookings[k := bookings[k].(status := status)])
  {
    var other := bookings[k := bookings[k].(status := status)];
    if GenerateQr(header, bookingId, bookings).Ok? || GenerateQr(header, bookingId, other).Ok? {
      var bid := AsObjectId(bookingId.value).value;
      assert bid in bookings <==> bid in other;
      assert bid in bookings ==> bookings[bid].userId == other[bid].userId && bookings[bid].amenityId == other[bid].amenityId;
    }
  }
}

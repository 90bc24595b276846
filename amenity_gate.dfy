/** The amenity door: check-in by scanning a booking's QR
    (app/api/amenities/checkin/route.js) and check-out by booking id
    (app/api/amenities/checkout/route.js). Each moves the booking one
    step, `confirmed|approved -> checked-in -> checked-out`, and then tries
    to log the passage in the attendance ledger, ignoring a failure. */
module AmenityGate {
  import opened Common
  import opened Entities
  import opened Store
  import Attendance
  import Qr

  /** The guard id the check-in stub hard-codes (checkin route.js:13). */
  const CheckInGuard := "GUARD_DEVICE_001"

  predicate CheckInAllowed(status: string) {
    status == "confirmed" || status == "approved"
  }

  /** The checks a found booking must pass before check-in, in their order
      (checkin route.js:46-58): a status that allows check-in, then an
      operational amenity (a missing amenity has no status), then a
      booking day that is today. `None` lets the booking in. */
  function CheckInRefusal(b: Booking, amenities: map<ObjectId, Amenity>, now: int): (r: Option<int>)
    ensures r.Some? ==> r.value == BadRequest
    ensures r.None? <==>
      CheckInAllowed(b.status) && b.amenityId in amenities && amenities[b.amenityId].status == Some("operational")
      && DayOf(b.bookingDate) == DayOf(now)
  {
    if !CheckInAllowed(b.status) then Some(BadRequest)
    else if b.amenityId !in amenities || amenities[b.amenityId].status != Some("operational") then Some(BadRequest)
    else if DayOf(now) != DayOf(b.bookingDate) then Some(BadRequest)
    else None
  }

  /** The booking after a successful check-in (:62-64). */
  function CheckedIn(b: Booking, now: int): (r: Booking)
    ensures r.status == "checked-in" && r.entryStamp == Some(now)
    ensures r.(status := b.status, entryStamp := b.entryStamp) == b
  {
    b.(status := "checked-in", entryStamp := Some(now))
  }

  /** The ledger draft of a check-in (:68-76): the booking's user and
      society, the amenity's name or "Amenity", by QR, verified by the
      scanning guard. */
  function CheckInDraft(bid: ObjectId, b: Booking, user: User, amenity: Amenity, guardId: string, now: int): Attendance.Draft {
    Attendance.Draft(Some(b.userId), None, Some(bid), Some(user.name), Some(now), Some("entry"), Some("amenity_checkin"),
      Some(if amenity.name != "" then amenity.name else "Amenity"), None, None, Some("qr_code"), Some(guardId),
      Some("verified"), Some(b.societyId))
  }

  /** The check-in record is stored exactly when the user has a name and
      the guard id is an object id; it is then an amenity entry of that
      booking, by QR. */
  lemma {:induction false} CheckInDraftValidates(bid: ObjectId, b: Booking, user: User, amenity: Amenity, guardId: string, now: int)
    ensures var r := Attendance.Validate(CheckInDraft(bid, b, user, amenity, guardId, now), now);
      && (r.Some? <==> user.name != "" && IsObjectId(guardId))
      && (r.Some? ==>
            && r.value.direction == Attendance.Entry && r.value.source == Attendance.AmenityCheckin
            && r.value.verification == Attendance.QrCode && r.value.bookingId == Some(bid)
            && r.value.userId == Some(b.userId) && r.value.societyId == b.societyId && r.value.timestamp == now
            && r.value.guestId.None? && r.value.personName == user.name && r.value.status == Attendance.Verified
            && r.value.location == (if amenity.name != "" then amenity.name else "Amenity")
            && r.value.verifiedBy == AsObjectId(guardId) && r.value.vehicleNumber.None? && r.value.purpose.None?)
  {
    var d := CheckInDraft(bid, b, user, amenity, guardId, now);
    Attendance.NamesDecode(Attendance.Entry, Attendance.AmenityCheckin, Attendance.QrCode, Attendance.Verified);
    CastOwnText(b.societyId);
    if user.name != "" && IsObjectId(guardId) {
      Attendance.WellFormedDraftValidates(d, now);
    }
  }

  /** The ledger record a check-in stores for booking `bid` (:67-75): an
      entry at the amenity, by QR, of the booking's user under their name,
      verified by the scanning guard. */
  predicate CheckInRecord(r: Attendance.Record, bid: ObjectId, b: Booking, user: User, amenity: Amenity,
                          guardId: string, now: int) {
    && r.userId == Some(b.userId) && r.guestId.None? && r.bookingId == Some(bid)
    && r.personName == user.name && r.timestamp == now && r.direction == Attendance.Entry
    && r.source == Attendance.AmenityCheckin && r.verification == Attendance.QrCode
    && r.location == (if amenity.name != "" then amenity.name else "Amenity")
    && r.verifiedBy == AsObjectId(guardId) && r.status == Attendance.Verified && r.societyId == b.societyId
    && r.vehicleNumber.None? && r.purpose.None?
  }

  /** POST /api/amenities/checkin: the QR text of the body, scanned by
      `guardId` at `now`. */
  method CheckIn(db: Db, guardId: string, qrDataString: Option<string>, now: int) returns (status: int)
    modifies db
    ensures db.Snapshot() == old(db.Snapshot()).(bookings := db.bookings, attendance := db.attendance)
    // no text, or one that is no booking QR, is 400 (:27-28, :31-37); an id that passes `isValid` but not the cast is 500
    ensures !Truthy(qrDataString) || Qr.Read(qrDataString.value).Unreadable? ==>
      status == BadRequest && db.Snapshot() == old(db.Snapshot())
    ensures Truthy(qrDataString) && Qr.Read(qrDataString.value).Uncastable? ==>
      status == ServerError && db.Snapshot() == old(db.Snapshot())
    ensures Truthy(qrDataString) && Qr.Read(qrDataString.value).Names? ==>
      var bid := Qr.Read(qrDataString.value).bookingId;
      && (bid !in old(db.bookings) ==> status == NotFound && db.Snapshot() == old(db.Snapshot()))
      && (bid in old(db.bookings) && CheckInRefusal(old(db.bookings)[bid], old(db.amenities), now).Some? ==>
            status == BadRequest && db.Snapshot() == old(db.Snapshot()))
      // a booking that passes is checked in, whatever happens after the save (:62-64)
      && (bid in old(db.bookings) && CheckInRefusal(old(db.bookings)[bid], old(db.amenities), now).None? ==>
            && db.bookings == old(db.bookings)[bid := CheckedIn(old(db.bookings)[bid], now)]
            // the ledger append is best effort; the response then needs the booking's user (:67-77, :81-86)
            && (status == 200 <==> old(db.bookings)[bid].userId in old(db.users))
            && (status != 200 ==> status == ServerError && db.attendance == old(db.attendance))
            && (db.attendance == old(db.attendance) ||
                  (|db.attendance| == |old(db.attendance)| + 1
                   && db.attendance[..|old(db.attendance)|] == old(db.attendance)
                   && CheckInRecord(db.attendance[|old(db.attendance)|], bid, old(db.bookings)[bid],
                        old(db.users)[old(db.bookings)[bid].userId], old(db.amenities)[old(db.bookings)[bid].amenityId],
                        guardId, now)))
            && ((IsObjectId(guardId) && old(db.bookings)[bid].userId in old(db.users)
                 && old(db.users)[old(db.bookings)[bid].userId].name != "") <==> |db.attendance| > |old(db.attendance)|))
  {
    if !Truthy(qrDataString) {
      return BadRequest;
    }
    var read := Qr.Read(qrDataString.value);
    if read.Unreadable? {
      return BadRequest;
    }
    if read.Uncastable? {
      return ServerError;
    }
    var bid := read.bookingId;
    if bid !in db.bookings {
      return NotFound;
    }
    var booking := db.bookings[bid];
    var refusal := CheckInRefusal(booking, db.amenities, now);
    if refusal.Some? {
      return refusal.value;
    }
    db.bookings := db.bookings[bid := CheckedIn(booking, now)];
    if booking.userId !in db.users {
      // `booking.userId._id` throws inside the swallowed try, then
      // `booking.userId.name` throws in the response
      return ServerError;
    }
    var user := db.users[booking.userId];
    var amenity := db.amenities[booking.amenityId];
    CheckInDraftValidates(bid, booking, user, amenity, guardId, now);
    var record := Attendance.Validate(CheckInDraft(bid, booking, user, amenity, guardId, now), now);
    if record.Some? {
      db.attendance := db.attendance + [record.value];
    }
    return 200;
  }

  /** With the stub's guard id the check-in ledger append always fails,
      silently: the stub id is not an object id. */
  lemma StubCheckInNeverLogs(bid: ObjectId, b: Booking, user: User, amenity: Amenity, now: int)
    ensures Attendance.Validate(CheckInDraft(bid, b, user, amenity, CheckInGuard, now), now).None?
  {
    assert !IsHexDigit(CheckInGuard[0]);
    CheckInDraftValidates(bid, b, user, amenity, CheckInGuard, now);
  }

  /** Re-scanning a QR after a successful check-in fails the status check. */
  lemma {:induction false} RescanRefused(b: Booking, amenities: map<ObjectId, Amenity>, now: int, later: int)
    ensures CheckInRefusal(CheckedIn(b, now), amenities, later) == Some(BadRequest)
  {
  }

  /** The booking after a successful check-out (checkout route.js:51-55). */
  function CheckedOut(b: Booking, now: int): (r: Booking)
    ensures r.status == "checked-out" && r.exitStamp == Some(now)
    ensures r.(status := b.status, exitStamp := b.exitStamp) == b
  {
    b.(status := "checked-out", exitStamp := Some(now))
  }

  /** The ledger draft of a check-out (:59-68): it has no `personName`
      (and no `source`), and `booking.amenityId` is not populated, so its
      `.name` is undefined. */
  function CheckOutDraft(b: Booking, guardId: string, now: int): Attendance.Draft {
    Attendance.Draft(Some(b.userId), None, None, None, Some(now), Some("exit"), None,
      Some("Amenity Check-out"), None, None, Some("qr_code"), Some(guardId), Some("verified"), Some(b.societyId))
  }

  /** The check-out record is always rejected, whoever the guard: the
      schema requires `personName` (models/attendance.js:10). */
  lemma CheckOutNeverLogs(b: Booking, guardId: string, now: int)
    ensures Attendance.Validate(CheckOutDraft(b, guardId, now), now).None?
  {
  }

  /** POST /api/amenities/checkout: the booking id of the body, at `now`. */
  method CheckOut(db: Db, guardId: string, bookingId: Option<string>, now: int) returns (status: int)
    modifies db
    // the ledger never changes: the exit record is rejected and the error swallowed (:58-71)
    ensures db.Snapshot() == old(db.Snapshot()).(bookings := db.bookings)
    ensures !Truthy(bookingId) || !IsObjectId(bookingId.value) ==> status == BadRequest && db.bookings == old(db.bookings)
    ensures Truthy(bookingId) && IsObjectId(bookingId.value) ==>
      var bid := AsObjectId(bookingId.value).value;
      && (bid !in old(db.bookings) ==> status == NotFound && db.bookings == old(db.bookings))
      && (bid in old(db.bookings) && old(db.bookings)[bid].status != "checked-in" ==>
            status == BadRequest && db.bookings == old(db.bookings))
      && (bid in old(db.bookings) && old(db.bookings)[bid].status == "checked-in" ==>
            status == 200 && db.bookings == old(db.bookings)[bid := CheckedOut(old(db.bookings)[bid], now)])
  {
    if !Truthy(bookingId) || !IsObjectId(bookingId.value) {
      return BadRequest;
    }
    var bid := AsObjectId(bookingId.value).value;
    if bid !in db.bookings {
      return NotFound;
    }
    var booking := db.bookings[bid];
    if booking.status != "checked-in" {
      return BadRequest;
    }
    db.bookings := db.bookings[bid := CheckedOut(booking, now)];
    var record := Attendance.Validate(CheckOutDraft(booking, guardId, now), now);
    assert record.None?;
    return 200;
  }

  /** Checking out twice: the second attempt finds the status no longer
      'checked-in'. */
  lemma {:induction false} SecondCheckOutRefused(b: Booking, now: int)
    ensures CheckedOut(b, now).status != "checked-in"
  {
  }
}

/** The amenity-booking QR credential: the JSON text generate-qr
    (app/api/bookings/generate-qr/route.js) writes and the check-in
    route (app/api/amenities/checkin/route.js) reads back. */
module Qr {
  import opened Common
  import opened JsonText

  const BookingType := "AMENITY_BOOKING"

  /** The object generate-qr stringifies: the type tag and the booking's,
      amenity's and owner's ids, each as `ObjectId.toString()` writes it. */
  function Payload(bookingId: ObjectId, amenityId: ObjectId, userId: ObjectId): (v: Json)
    ensures v.Obj? && |v.members| == 4 && NoNumbers(v)
  {
    var ms := [Member("type", Str(BookingType)), Member("bookingId", Str(bookingId)),
               Member("amenityId", Str(amenityId)), Member("userId", Str(userId))];
    assert forall i | 0 <= i < |ms| :: ms[i].value.Str?;
    Obj(ms)
  }

  /** Each property of the payload reads back as the id written there. */
  lemma {:induction false} PayloadFields(bookingId: ObjectId, amenityId: ObjectId, userId: ObjectId)
    ensures var v := Payload(bookingId, amenityId, userId);
      && Property(v, "type") == Some(Str(BookingType))
      && Property(v, "bookingId") == Some(Str(bookingId))
      && Property(v, "amenityId") == Some(Str(amenityId))
      && Property(v, "userId") == Some(Str(userId))
  {
    var m0, m1, m2, m3 := Member("type", Str(BookingType)), Member("bookingId", Str(bookingId)),
      Member("amenityId", Str(amenityId)), Member("userId", Str(userId));
    var l1 := [] + [m0];
    var l2 := l1 + [m1];
    var l3 := l2 + [m2];
    var l4 := l3 + [m3];
    assert Payload(bookingId, amenityId, userId).members == l4;
    LookupSnoc([], m0, "type");
    LookupSnoc(l1, m1, "type");
    LookupSnoc(l1, m1, "bookingId");
    LookupSnoc(l2, m2, "type");
    LookupSnoc(l2, m2, "bookingId");
    LookupSnoc(l2, m2, "amenityId");
    LookupSnoc(l3, m3, "type");
    LookupSnoc(l3, m3, "bookingId");
    LookupSnoc(l3, m3, "amenityId");
    LookupSnoc(l3, m3, "userId");
  }

  /** `qrDataString`: the text encoded in the QR image. */
  function Encode(bookingId: ObjectId, amenityId: ObjectId, userId: ObjectId): (r: string)
    // `JSON.parse` of the QR text gives back the payload written
    ensures Parse(r) == Some(Payload(bookingId, amenityId, userId))
  {
    ParseStringify(Payload(bookingId, amenityId, userId));
    Stringify(Payload(bookingId, amenityId, userId))
  }

  /** What the check-in route makes of a scanned text. */
  datatype QrRead =
    | Unreadable                       // the 400 "Invalid or unreadable QR code"
    | Names(bookingId: ObjectId)       // passes; `findById` looks this id up
    | Uncastable                       // passes `isValid`, but `findById` cannot cast it: 500

  /** bson's `ObjectId.isValid` on a parsed value: a string of 24 hex
      digits, any number (a timestamp seed), or an object whose `id` is
      such a string. */
  predicate IsValidId(v: Json) {
    match v
    case Str(s) => IsObjectId(s)
    case Number(_) => true
    case Obj(ms) => (match Lookup(ms, "id") case Some(Str(s)) => IsObjectId(s) case _ => false)
    case _ => false
  }

  /** checkin route.js:31-39: `JSON.parse`, then the type tag, then a
      truthy and valid `bookingId`. Only a string id survives the cast
      `findById` applies; a number or an object is cast from its
      `toString()`, which is never 24 hex digits. */
  function Read(text: string): (r: QrRead)
    ensures r.Names? <==>
      Parse(text).Some? && Property(Parse(text).value, "type") == Some(Str(BookingType))
      && Property(Parse(text).value, "bookingId").Some?
      && Property(Parse(text).value, "bookingId").value.Str?
      && IsObjectId(Property(Parse(text).value, "bookingId").value.s)
    ensures r.Names? ==> Some(r.bookingId) == AsObjectId(Property(Parse(text).value, "bookingId").value.s)
    ensures r.Uncastable? ==>
      && Parse(text).Some? && Property(Parse(text).value, "bookingId").Some?
      && !Property(Parse(text).value, "bookingId").value.Str?
      && IsValidId(Property(Parse(text).value, "bookingId").value)
  {
    match Parse(text)
    case None => Unreadable
    case Some(v) =>
      if Property(v, "type") != Some(Str(BookingType)) then Unreadable
      else match Property(v, "bookingId")
        case None => Unreadable
        case Some(id) =>
          if !JsonText.Truthy(id) || !IsValidId(id) then Unreadable
          else if id.Str? then Names(AsObjectId(id.s).value)
          else Uncastable
  }

  /** The QR generate-qr issues for a booking passes check-in's parse
      checks and names that same booking. */
  lemma {:induction false} ReadEncoded(bookingId: ObjectId, amenityId: ObjectId, userId: ObjectId)
    ensures Read(Encode(bookingId, amenityId, userId)) == Names(bookingId)
  {
    var v := Payload(bookingId, amenityId, userId);
    PayloadFields(bookingId, amenityId, userId);
    ParseStringify(v);
    CastOwnText(bookingId);
  }

  /** Two QR texts that check-in reads as different bookings were issued
      for different bookings. */
  lemma {:induction false} EncodeDistinguishes(b1: ObjectId, a1: ObjectId, u1: ObjectId,
                                              b2: ObjectId, a2: ObjectId, u2: ObjectId)
    requires b1 != b2
    ensures Encode(b1, a1, u1) != Encode(b2, a2, u2)
  {
    ReadEncoded(b1, a1, u1);
    ReadEncoded(b2, a2, u2);
  }
}

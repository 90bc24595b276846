/** The stored documents the handlers read and write, as far as the
    handlers use them. Each lives in the store under its `_id`; a
    reference to another document is that document's id. */
module Entities {
  import opened Common
  import opened JsonText

  /** A resident (`models/user`): the fields the gate and booking routes read. */
  datatype User = User(name: string, societyId: ObjectId, carNumbers: seq<string>)

  /** A society worker (`models/worker`). */
  datatype Worker = Worker(name: string, societyId: ObjectId, department: Option<string>)

  /** A visitor registered by a resident (`models/guest`). `code` is the
      short `guestId` text ("G-" and six digits); `entryStamp` is the
      `timestamps.entry` the vehicle gate assigns. */
  datatype Guest = Guest(
    code: string,
    name: string,
    noOfPeople: int,
    date: int,
    carNo: Option<string>,
    purpose: string,
    userId: ObjectId,
    status: string,
    validUntil: int,
    qrCode: Option<string>,
    societyId: ObjectId,
    createdAt: int,
    entryStamp: Option<int>)

  /** A bookable amenity (`models/amenity`). `status` and `pricing` are
      absent when the creating request gave none. */
  datatype Amenity = Amenity(
    name: string,
    kind: string,
    description: string,
    capacity: int,
    location: string,
    societyId: Option<ObjectId>,
    status: Option<string>,
    pricing: Option<Json>)

  /** `amenity.pricing?.isChargeable` is truthy. */
  predicate Chargeable(a: Amenity) {
    a.pricing.Some? &&
    (match Property(a.pricing.value, "isChargeable")
     case Some(flag) => JsonText.Truthy(flag)
     case None => false)
  }

  /** An amenity booking (`models/booking`); the stamps are
      `timestamps.entry` and `timestamps.exit`. */
  datatype Booking = Booking(
    amenityId: ObjectId,
    userId: ObjectId,
    societyId: ObjectId,
    bookingDate: int,
    startTime: string,
    endTime: string,
    numberOfPeople: int,
    purpose: string,
    status: string,
    paymentAmount: int,
    paymentStatus: string,
    entryStamp: Option<int>,
    exitStamp: Option<int>)

  /** A society's geographic position; each coordinate may be absent. */
  datatype Location = Location(latitude: Option<real>, longitude: Option<real>)

  /** A housing society (`models/society`). */
  datatype Society = Society(name: string, address: string, pincode: string, location: Location, adminId: ObjectId)

  /** A complaint (`models/complaint`): who filed it, where and when, and
      every other field (`status`, `assignedWorker`, `resolution`,
      `feedback`, ...) by name, as the admin update writes them. */
  datatype Complaint = Complaint(societyId: ObjectId, userId: ObjectId, createdAt: int, fields: map<string, Json>)

  /** A notice board entry (`models/announcement`). */
  datatype Announcement = Announcement(
    societyId: ObjectId, audience: string, targetedUsers: seq<ObjectId>, createdAt: int, title: string)

  /** A society administrator (`models/admin`): the protected fields and
      every other profile field by name. */
  datatype AdminDoc = AdminDoc(email: string, password: string, societyId: Option<ObjectId>, profile: map<string, Json>)

  /** How the vehicle gate classified a plate on entry. */
  datatype VehicleKind = ResidentCar | GuestCar | UnknownCar

  function VehicleKindName(k: VehicleKind): string {
    match k
    case ResidentCar => "resident"
    case GuestCar => "guest"
    case UnknownCar => "unauthorized"
  }

  /** One gate passage of a vehicle (`models/vehicleEntry`); `exitTime` is
      `None` while the vehicle is inside. */
  datatype VehicleEntry = VehicleEntry(
    vehicleNumber: string,
    entryTime: int,
    exitTime: Option<int>,
    kind: VehicleKind,
    purpose: string,
    residentId: Option<ObjectId>,
    guestId: Option<ObjectId>,
    capturedImage: Option<string>,
    societyId: ObjectId,
    securityGuardId: string)
}

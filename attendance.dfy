/** The attendance ledger's record schema (models/attendance.js): which
    fields a record must have, the values its enumerations admit, the
    defaults mongoose fills in and the object-id casts it applies. A
    handler hands `Validate` a draft of what it passed to
    `AttendanceLog.create`; `None` is mongoose's ValidationError. */
module Attendance {
  import opened Common

  datatype Direction = Entry | Exit
  datatype Source = MainGate | AmenityCheckin | DeliveryPoint | ManualAdmin
  datatype Method = FacialRecognition | ManualCheck | QrCode | Override | VehiclePlate
  datatype LogStatus = Verified | Failed | ManualOverride

  function DirectionName(d: Direction): string {
    match d
    case Entry => "entry"
    case Exit => "exit"
  }

  function SourceName(s: Source): string {
    match s
    case MainGate => "main_gate"
    case AmenityCheckin => "amenity_checkin"
    case DeliveryPoint => "delivery_point"
    case ManualAdmin => "manual_admin"
  }

  function MethodName(m: Method): string {
    match m
    case FacialRecognition => "facial_recognition"
    case ManualCheck => "manual"
    case QrCode => "qr_code"
    case Override => "override"
    case VehiclePlate => "vehicle_plate"
  }

  function StatusName(s: LogStatus): string {
    match s
    case Verified => "verified"
    case Failed => "failed"
    case ManualOverride => "manual_override"
  }

  /** The `type` enumeration: exactly "entry" and "exit" are admitted. */
  function DirectionOf(s: string): (r: Option<Direction>)
    ensures r.Some? ==> DirectionName(r.value) == s
    ensures r.None? ==> forall d: Direction :: DirectionName(d) != s
  {
    if s == "entry" then Some(Entry)
    else if s == "exit" then Some(Exit)
    else None
  }

  /** The `source` enumeration. */
  function SourceOf(s: string): (r: Option<Source>)
    ensures r.Some? ==> SourceName(r.value) == s
    ensures r.None? ==> forall x: Source :: SourceName(x) != s
  {
    if s == "main_gate" then Some(MainGate)
    else if s == "amenity_checkin" then Some(AmenityCheckin)
    else if s == "delivery_point" then Some(DeliveryPoint)
    else if s == "manual_admin" then Some(ManualAdmin)
    else None
  }

  /** The `verificationMethod` enumeration. */
  function MethodOf(s: string): (r: Option<Method>)
    ensures r.Some? ==> MethodName(r.value) == s
    ensures r.None? ==> forall m: Method :: MethodName(m) != s
  {
    if s == "facial_recognition" then Some(FacialRecognition)
    else if s == "manual" then Some(ManualCheck)
    else if s == "qr_code" then Some(QrCode)
    else if s == "override" then Some(Override)
    else if s == "vehicle_plate" then Some(VehiclePlate)
    else None
  }

  /** The `status` enumeration. */
  function StatusOf(s: string): (r: Option<LogStatus>)
    ensures r.Some? ==> StatusName(r.value) == s
    ensures r.None? ==> forall x: LogStatus :: StatusName(x) != s
  {
    if s == "verified" then Some(Verified)
    else if s == "failed" then Some(Failed)
    else if s == "manual_override" then Some(ManualOverride)
    else None
  }

  /** A stored ledger record: every required field present, every
      enumeration decoded, every reference a canonical object id. */
  datatype Record = Record(
    userId: Option<ObjectId>,
    guestId: Option<ObjectId>,
    bookingId: Option<ObjectId>,
    personName: string,
    timestamp: int,
    direction: Direction,
    source: Source,
    location: string,
    vehicleNumber: Option<string>,
    purpose: Option<string>,
    verification: Method,
    verifiedBy: Option<ObjectId>,
    status: LogStatus,
    societyId: ObjectId)

  /** What a handler passes to `AttendanceLog.create`; `None` is a field
      it leaves undefined. References the handler takes from stored
      documents are already ids; the ones it takes from a request or a
      device context are strings that still have to be cast. */
  datatype Draft = Draft(
    userId: Option<ObjectId>,
    guestId: Option<ObjectId>,
    bookingId: Option<ObjectId>,
    personName: Option<string>,
    timestamp: Option<int>,
    direction: Option<string>,
    source: Option<string>,
    location: Option<string>,
    vehicleNumber: Option<string>,
    purpose: Option<string>,
    verification: Option<string>,
    verifiedBy: Option<string>,
    status: Option<string>,
    societyId: Option<string>)

  /** A string enumeration field: required, so absent or "" fails; a
      present value must be one of the names. */
  function Required<E>(field: Option<string>, decode: string -> Option<E>): Option<E> {
    if Truthy(field) then decode(field.value) else None
  }

  /** A string enumeration field with a default: absent takes the
      default, a present value (even "") must be one of the names. */
  function Defaulted<E>(field: Option<string>, decode: string -> Option<E>, default: E): Option<E> {
    if field.None? then Some(default) else decode(field.value)
  }

  /** mongoose validation of a draft at time `now`; `None` is the
      ValidationError (or CastError) that `create` throws. */
  function Validate(d: Draft, now: int): (r: Option<Record>)
    // personName, location and societyId are required (models/attendance.js:10, 19, 37)
    ensures !Truthy(d.personName) || !Truthy(d.location) || d.societyId.None? ==> r.None?
    ensures r.Some? ==> Some(r.value.personName) == d.personName && r.value.personName != ""
    ensures r.Some? ==> Some(r.value.location) == d.location && r.value.location != ""
    ensures r.Some? ==> Some(r.value.societyId) == AsObjectId(d.societyId.value)
    // type and verificationMethod are required enumerations (:12, :24-28)
    ensures r.Some? ==> d.direction == Some(DirectionName(r.value.direction))
    ensures r.Some? ==> d.verification == Some(MethodName(r.value.verification))
    // source and status default to main_gate and verified (:13-18, :31-36)
    ensures r.Some? ==> if d.source.None? then r.value.source == MainGate else d.source == Some(SourceName(r.value.source))
    ensures r.Some? ==> if d.status.None? then r.value.status == Verified else d.status == Some(StatusName(r.value.status))
    // timestamp defaults to the creation time (:11)
    ensures r.Some? ==> r.value.timestamp == if d.timestamp.Some? then d.timestamp.value else now
    // optional references are kept as given; verifiedBy must cast (:6-8, :29)
    ensures r.Some? ==> r.value.userId == d.userId && r.value.guestId == d.guestId && r.value.bookingId == d.bookingId
    ensures r.Some? ==> r.value.vehicleNumber == d.vehicleNumber && r.value.purpose == d.purpose
    ensures r.Some? ==> r.value.verifiedBy == if d.verifiedBy.None? then None else AsObjectId(d.verifiedBy.value)
    ensures d.verifiedBy.Some? && !IsObjectId(d.verifiedBy.value) ==> r.None?
  {
    var direction := Required(d.direction, DirectionOf);
    var source := Defaulted(d.source, SourceOf, MainGate);
    var verification := Required(d.verification, MethodOf);
    var status := Defaulted(d.status, StatusOf, Verified);
    var society := if d.societyId.Some? then AsObjectId(d.societyId.value) else None;
    var verifier := if d.verifiedBy.Some? then AsObjectId(d.verifiedBy.value) else None;
    if !Truthy(d.personName) || !Truthy(d.location) then None
    else if direction.None? || source.None? || verification.None? || status.None? || society.None? then None
    else if d.verifiedBy.Some? && verifier.None? then None
    else Some(Record(
      d.userId, d.guestId, d.bookingId,
      d.personName.value,
      if d.timestamp.Some? then d.timestamp.value else now,
      direction.value, source.value, d.location.value,
      d.vehicleNumber, d.purpose, verification.value, verifier, status.value, society.value))
  }

  /** Every name an enumeration admits decodes back to its value. */
  lemma NamesDecode(d: Direction, s: Source, m: Method, x: LogStatus)
    ensures DirectionOf(DirectionName(d)) == Some(d)
    ensures SourceOf(SourceName(s)) == Some(s)
    ensures MethodOf(MethodName(m)) == Some(m)
    ensures StatusOf(StatusName(x)) == Some(x)
  {
  }

  /** A draft whose required fields are all present and well formed is accepted. */
  lemma {:induction false} WellFormedDraftValidates(d: Draft, now: int)
    requires Truthy(d.personName) && Truthy(d.location)
    requires d.direction.Some? && DirectionOf(d.direction.value).Some?
    requires d.verification.Some? && MethodOf(d.verification.value).Some?
    requires d.source.None? || SourceOf(d.source.value).Some?
    requires d.status.None? || StatusOf(d.status.value).Some?
    requires d.societyId.Some? && IsObjectId(d.societyId.value)
    requires d.verifiedBy.None? || IsObjectId(d.verifiedBy.value)
    ensures Validate(d, now).Some?
  {
  }
}

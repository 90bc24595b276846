/** The vehicle gate (app/api/gate/vehicle-scan/route.js): a plate read
    on entry is classified as a resident's car, an expected guest's car
    or an unauthorized one, and logged twice (a vehicle passage and an
    attendance record); a plate read on exit closes the most recent open
    passage of that plate. */
module VehicleScan {
  import opened Common
  import opened Entities
  import opened Store
  import Attendance

  /** The device context `verifyGuardToken` returns, as raw strings. */
  datatype GuardCtx = GuardCtx(guardId: string, societyId: string)

  /** The context the stub in route.js:12 hard-codes. */
  const StubGuard := GuardCtx("GUARD_DEVICE_001", "YOUR_SOCIETY_ID_FOR_TESTING")

  datatype ScanBody = ScanBody(
    plateNumber: Option<string>,
    direction: Option<string>,
    gateLocation: Option<string>,
    imageOfPlateUrl: Option<string>)

  /** `User.findOne({ societyId, carNumbers: plate })` matches `u`. */
  predicate OwnsPlate(u: User, society: ObjectId, plate: string) {
    u.societyId == society && plate in u.carNumbers
  }

  /** The guest query: same society and car, approved, registered for
      the day of `now`. */
  predicate ExpectedGuest(g: Guest, society: ObjectId, plate: string, now: int) {
    g.societyId == society && g.carNo == Some(plate) && g.status == "approved" && DayOf(g.date) == DayOf(now)
  }

  /** A passage of `plate` in `society` with no exit time yet. */
  predicate OpenFor(v: VehicleEntry, plate: string, society: ObjectId) {
    v.vehicleNumber == plate && v.societyId == society && v.exitTime.None?
  }

  /** Position `i` holds the open passage `findOneAndUpdate` picks with
      `sort: { entryTime: -1 }`: no open passage entered later. */
  predicate LatestOpen(vs: seq<VehicleEntry>, plate: string, society: ObjectId, i: int) {
    0 <= i < |vs| && OpenFor(vs[i], plate, society)
    && forall j | 0 <= j < |vs| && OpenFor(vs[j], plate, society) :: vs[j].entryTime <= vs[i].entryTime
  }

  /** The guest `g` after the gate let it in. */
  function Admitted(g: Guest, now: int): (r: Guest)
    ensures r.status == "checked-in" && r.entryStamp == Some(now)
    ensures r.(status := g.status, entryStamp := g.entryStamp) == g
  {
    g.(status := "checked-in", entryStamp := Some(now))
  }

  /** `guestVehicle.userId?.name || 'N/A'`. */
  function HostName(users: map<ObjectId, User>, g: Guest): (r: string)
    ensures r != ""
    ensures g.userId in users && users[g.userId].name != "" ==> r == users[g.userId].name
  {
    if g.userId in users && users[g.userId].name != "" then users[g.userId].name else "N/A"
  }

  /** The attendance draft both directions build (route.js:81-88,
      105-112): main gate, plate verification, the guard as verifier and
      the guard context's society. */
  function GateDraft(userId: Option<ObjectId>, guestId: Option<ObjectId>, personName: string, now: int,
                     direction: string, body: ScanBody, purpose: string, guard: GuardCtx): Attendance.Draft
  {
    Attendance.Draft(userId, guestId, None, Some(personName), Some(now), Some(direction), Some("main_gate"),
      body.gateLocation, body.plateNumber, Some(purpose), Some("vehicle_plate"), Some(guard.guardId),
      Some("verified"), Some(guard.societyId))
  }

  /** The draft is stored exactly when the guard id and the society cast
      to object ids and the person has a name; the record is then an
      entry or exit at the main gate, verified by plate, at `now`. */
  lemma {:induction false} GateDraftValidates(userId: Option<ObjectId>, guestId: Option<ObjectId>, personName: string, now: int,
                                             direction: string, body: ScanBody, purpose: string, guard: GuardCtx)
    requires direction == "entry" || direction == "exit"
    requires Truthy(body.gateLocation)
    ensures var r := Attendance.Validate(GateDraft(userId, guestId, personName, now, direction, body, purpose, guard), now);
      && (r.Some? <==> personName != "" && IsObjectId(guard.guardId) && IsObjectId(guard.societyId))
      && (r.Some? ==>
        && r.value.direction == (if direction == "entry" then Attendance.Entry else Attendance.Exit)
        && r.value.source == Attendance.MainGate && r.value.verification == Attendance.VehiclePlate
        && r.value.status == Attendance.Verified && r.value.timestamp == now
        && r.value.userId == userId && r.value.guestId == guestId && r.value.bookingId.None?
        && r.value.personName == personName && r.value.purpose == Some(purpose)
        && r.value.verifiedBy == AsObjectId(guard.guardId)
        && Some(r.value.location) == body.gateLocation && r.value.vehicleNumber == body.plateNumber
        && Some(r.value.societyId) == AsObjectId(guard.societyId))
  {
    var d := GateDraft(userId, guestId, personName, now, direction, body, purpose, guard);
    Attendance.NamesDecode(Attendance.Entry, Attendance.MainGate, Attendance.VehiclePlate, Attendance.Verified);
    Attendance.NamesDecode(Attendance.Exit, Attendance.MainGate, Attendance.VehiclePlate, Attendance.Verified);
    if personName != "" && IsObjectId(guard.guardId) && IsObjectId(guard.societyId) {
      Attendance.WellFormedDraftValidates(d, now);
    }
  }

  /** The stub's guard id is no object id, so with it no gate attendance
      record could ever be stored. Its society does not cast either, so
      with the stub every entry or exit scan already fails at the first
      query, before anything is written (see `Scan`). */
  lemma StubGuardNeverLogs(userId: Option<ObjectId>, guestId: Option<ObjectId>, personName: string, now: int,
                           direction: string, body: ScanBody, purpose: string)
    requires direction == "entry" || direction == "exit"
    requires Truthy(body.gateLocation)
    ensures Attendance.Validate(GateDraft(userId, guestId, personName, now, direction, body, purpose, StubGuard), now).None?
  {
    assert !IsHexDigit(StubGuard.guardId[0]);
    GateDraftValidates(userId, guestId, personName, now, direction, body, purpose, StubGuard);
  }

  /** The stub's society is no object id either, so the first query of
      every entry or exit scan fails to cast. */
  lemma StubSocietyDoesNotCast()
    ensures !IsObjectId(StubGuard.societyId)
  {
    assert !IsHexDigit(StubGuard.societyId[0]);
  }

  /** The index of the open passage of `plate` in `society` entered last,
      or -1 when none is open. */
  method FindLatestOpen(vs: seq<VehicleEntry>, plate: string, society: ObjectId) returns (idx: int)
    ensures idx == -1 <==> forall j | 0 <= j < |vs| :: !OpenFor(vs[j], plate, society)
    ensures idx != -1 ==> LatestOpen(vs, plate, society, idx)
  {
    idx := -1;
    var i := 0;
    while i < |vs|
      invariant 0 <= i <= |vs|
      invariant idx == -1 <==> forall j | 0 <= j < i :: !OpenFor(vs[j], plate, society)
      invariant idx != -1 ==> 0 <= idx < i && OpenFor(vs[idx], plate, society)
      invariant idx != -1 ==> forall j | 0 <= j < i && OpenFor(vs[j], plate, society) :: vs[j].entryTime <= vs[idx].entryTime
    {
      if OpenFor(vs[i], plate, society) && (idx == -1 || vs[i].entryTime > vs[idx].entryTime) {
        idx := i;
      }
      i := i + 1;
    }
  }

  /** How the entry branch classified a plate (route.js:30-71): the kind,
      the user and guest it names, and the name and purpose it logs. */
  datatype Match = Match(kind: VehicleKind, userId: Option<ObjectId>, guestId: Option<ObjectId>,
                         personName: string, purpose: string)

  /** The classification order, resident roster first, then an expected
      guest, then unauthorized; a guest match admits that guest. */
  method Classify(db: Db, sid: ObjectId, plate: string, now: int) returns (m: Match)
    modifies db
    ensures db.Snapshot() == old(db.Snapshot()).(guests := db.guests)
    ensures m.kind == ResidentCar <==> exists u | u in old(db.users) :: OwnsPlate(old(db.users)[u], sid, plate)
    ensures m.kind == GuestCar <==>
      (forall u | u in old(db.users) :: !OwnsPlate(old(db.users)[u], sid, plate))
      && exists g | g in old(db.guests) :: ExpectedGuest(old(db.guests)[g], sid, plate, now)
    ensures m.kind == ResidentCar ==>
      && m.userId.Some? && m.userId.value in old(db.users) && OwnsPlate(old(db.users)[m.userId.value], sid, plate)
      && m.guestId.None? && db.guests == old(db.guests)
      && m.personName == old(db.users)[m.userId.value].name && m.purpose == "Resident Vehicle Entry: " + plate
    ensures m.kind == GuestCar ==>
      && m.guestId.Some? && m.guestId.value in old(db.guests)
      && ExpectedGuest(old(db.guests)[m.guestId.value], sid, plate, now)
      && db.guests == old(db.guests)[m.guestId.value := Admitted(old(db.guests)[m.guestId.value], now)]
      && (m.userId.Some? <==> old(db.guests)[m.guestId.value].userId in old(db.users))
      && (m.userId.Some? ==> m.userId.value == old(db.guests)[m.guestId.value].userId)
      && m.personName == "Guest: " + old(db.guests)[m.guestId.value].name + " (Vehicle: " + plate + ")"
      && m.purpose == "Guest Vehicle Entry: " + plate + " (Host: " + HostName(old(db.users), old(db.guests)[m.guestId.value]) + ")"
    ensures m.kind == UnknownCar ==>
      && m.userId.None? && m.guestId.None? && db.guests == old(db.guests)
      && m.personName == "Vehicle: " + plate && m.purpose == "Vehicle " + plate + " entry"
  {
    if exists u | u in db.users :: OwnsPlate(db.users[u], sid, plate) {
      var u :| u in db.users && OwnsPlate(db.users[u], sid, plate);
      m := Match(ResidentCar, Some(u), None, db.users[u].name, "Resident Vehicle Entry: " + plate);
    } else if exists g | g in db.guests :: ExpectedGuest(db.guests[g], sid, plate, now) {
      var g :| g in db.guests && ExpectedGuest(db.guests[g], sid, plate, now);
      var guest := db.guests[g];
      var host := if guest.userId in db.users then Some(guest.userId) else None;
      m := Match(GuestCar, host, Some(g), "Guest: " + guest.name + " (Vehicle: " + plate + ")",
                 "Guest Vehicle Entry: " + plate + " (Host: " + HostName(db.users, guest) + ")");
      db.guests := db.guests[g := Admitted(guest, now)];
    } else {
      m := Match(UnknownCar, None, None, "Vehicle: " + plate, "Vehicle " + plate + " entry");
    }
  }

  /** An attendance record the gate stored at `now` for `plate` in `sid`:
      at the scanned gate, verified by plate by the scanning guard, and of
      no booking. */
  predicate GateRecord(r: Attendance.Record, direction: Attendance.Direction, plate: string, sid: ObjectId, now: int,
                       body: ScanBody, guard: GuardCtx) {
    r.direction == direction && r.source == Attendance.MainGate
    && r.verification == Attendance.VehiclePlate && r.status == Attendance.Verified
    && r.timestamp == now && r.societyId == sid && r.vehicleNumber == Some(plate)
    && Some(r.location) == body.gateLocation && r.verifiedBy == AsObjectId(guard.guardId) && r.bookingId.None?
  }

  /** The entry branch once the request is complete and the society casts:
      one open passage is appended, even if one is already open
      (route.js:74-78), then one attendance entry record (:81-88); if that
      record is rejected the passage stays and the answer is 500. */
  method Enter(db: Db, guard: GuardCtx, body: ScanBody, plate: string, sid: ObjectId, now: int) returns (status: int)
    requires body.plateNumber == Some(plate) && body.direction == Some("entry") && Truthy(body.gateLocation)
    requires AsObjectId(guard.societyId) == Some(sid)
    modifies db
    ensures db.Snapshot() == old(db.Snapshot()).(guests := db.guests, vehicles := db.vehicles, attendance := db.attendance)
    ensures |db.vehicles| == |old(db.vehicles)| + 1 && db.vehicles[..|old(db.vehicles)|] == old(db.vehicles)
    ensures var v := db.vehicles[|old(db.vehicles)|];
      && v.vehicleNumber == plate && v.entryTime == now && v.exitTime.None? && v.societyId == sid
      && v.capturedImage == body.imageOfPlateUrl && v.securityGuardId == guard.guardId
      && (v.kind == ResidentCar <==> exists u | u in old(db.users) :: OwnsPlate(old(db.users)[u], sid, plate))
      && (v.kind == GuestCar <==>
            (forall u | u in old(db.users) :: !OwnsPlate(old(db.users)[u], sid, plate))
            && exists g | g in old(db.guests) :: ExpectedGuest(old(db.guests)[g], sid, plate, now))
      && (v.kind == ResidentCar ==>
            && v.residentId.Some? && v.residentId.value in old(db.users)
            && OwnsPlate(old(db.users)[v.residentId.value], sid, plate)
            && v.guestId.None? && db.guests == old(db.guests)
            && v.purpose == "Resident Vehicle Entry: " + plate)
      && (v.kind == GuestCar ==>
            && v.guestId.Some? && v.guestId.value in old(db.guests)
            && ExpectedGuest(old(db.guests)[v.guestId.value], sid, plate, now)
            && db.guests == old(db.guests)[v.guestId.value := Admitted(old(db.guests)[v.guestId.value], now)]
            // the passage names the host when the host exists (route.js:58, :76)
            && (v.residentId.Some? <==> old(db.guests)[v.guestId.value].userId in old(db.users))
            && (v.residentId.Some? ==> v.residentId.value == old(db.guests)[v.guestId.value].userId)
            && v.purpose == "Guest Vehicle Entry: " + plate + " (Host: " + HostName(old(db.users), old(db.guests)[v.guestId.value]) + ")")
      && (v.kind == UnknownCar ==>
            && v.residentId.None? && v.guestId.None? && db.guests == old(db.guests)
            && v.purpose == "Vehicle " + plate + " entry")
      // the record is stored exactly when the guard id casts and a resident match has a name
      && (status == 200 <==>
            IsObjectId(guard.guardId) && (v.kind == ResidentCar ==> old(db.users)[v.residentId.value].name != ""))
      && (status == 200 ==>
            && |db.attendance| == |old(db.attendance)| + 1
            && db.attendance[..|old(db.attendance)|] == old(db.attendance)
            && GateRecord(db.attendance[|old(db.attendance)|], Attendance.Entry, plate, sid, now, body, guard)
            && db.attendance[|old(db.attendance)|].userId == v.residentId
            && db.attendance[|old(db.attendance)|].guestId == v.guestId
            && db.attendance[|old(db.attendance)|].purpose == Some(v.purpose)
            // the record names the resident, the guest with the plate, or the plate alone (route.js:33, :42, :59)
            && db.attendance[|old(db.attendance)|].personName ==
                 match v.kind
                 case ResidentCar => old(db.users)[v.residentId.value].name
                 case GuestCar => "Guest: " + old(db.guests)[v.guestId.value].name + " (Vehicle: " + plate + ")"
                 case UnknownCar => "Vehicle: " + plate)
    ensures status == 200 || status == ServerError
    ensures status == ServerError ==> db.attendance == old(db.attendance)
    ensures status == 200 ==> IsObjectId(guard.guardId)
  {
    var m := Classify(db, sid, plate, now);
    var passage := VehicleEntry(plate, now, None, m.kind, m.purpose, m.userId, m.guestId, body.imageOfPlateUrl, sid, guard.guardId);
    db.vehicles := db.vehicles + [passage];
    GateDraftValidates(m.userId, m.guestId, m.personName, now, "entry", body, m.purpose, guard);
    var record := Attendance.Validate(GateDraft(m.userId, m.guestId, m.personName, now, "entry", body, m.purpose, guard), now);
    if record.None? {
      return ServerError;
    }
    db.attendance := db.attendance + [record.value];
    return 200;
  }

  /** The exit branch once the request is complete and the society casts:
      the latest open passage of the plate is closed and nothing else
      (route.js:90-96); then one attendance exit record names whoever
      entered with it (:98-112). With no open passage nothing is written. */
  method Leave(db: Db, guard: GuardCtx, body: ScanBody, plate: string, sid: ObjectId, now: int) returns (status: int)
    requires body.plateNumber == Some(plate) && body.direction == Some("exit") && Truthy(body.gateLocation)
    requires AsObjectId(guard.societyId) == Some(sid)
    modifies db
    ensures db.Snapshot() == old(db.Snapshot()).(vehicles := db.vehicles, attendance := db.attendance)
    ensures status == 200 || status == ServerError
    ensures status == ServerError ==> db.attendance == old(db.attendance)
    ensures |db.attendance| > |old(db.attendance)| ==> IsObjectId(guard.guardId)
    ensures (forall j | 0 <= j < |old(db.vehicles)| :: !OpenFor(old(db.vehicles)[j], plate, sid)) ==>
      status == 200 && db.Snapshot() == old(db.Snapshot())
    // with an open passage the exit is logged exactly when the guard id casts: the name is never empty
    ensures (exists j | 0 <= j < |old(db.vehicles)| :: OpenFor(old(db.vehicles)[j], plate, sid)) ==>
      (status == 200 <==> IsObjectId(guard.guardId))
    ensures (exists j | 0 <= j < |old(db.vehicles)| :: OpenFor(old(db.vehicles)[j], plate, sid)) ==>
      exists i | LatestOpen(old(db.vehicles), plate, sid, i) ::
        && db.vehicles == old(db.vehicles)[i := old(db.vehicles)[i].(exitTime := Some(now))]
        && (status == 200 ==>
              && |db.attendance| == |old(db.attendance)| + 1
              && db.attendance[..|old(db.attendance)|] == old(db.attendance)
              && GateRecord(db.attendance[|old(db.attendance)|], Attendance.Exit, plate, sid, now, body, guard)
              && db.attendance[|old(db.attendance)|].purpose == Some("Vehicle Exit: " + plate)
              // the passage's resident and guest, each while it still exists (route.js:100-101)
              && db.attendance[|old(db.attendance)|].userId ==
                   (if old(db.vehicles)[i].residentId.Some? && old(db.vehicles)[i].residentId.value in old(db.users)
                    then old(db.vehicles)[i].residentId else None)
              && db.attendance[|old(db.attendance)|].guestId ==
                   (if old(db.vehicles)[i].guestId.Some? && old(db.vehicles)[i].guestId.value in old(db.guests)
                    then old(db.vehicles)[i].guestId else None)
              // the resident's name, else the guest's, else the plate (route.js:99)
              && db.attendance[|old(db.attendance)|].personName ==
                   (if db.attendance[|old(db.attendance)|].userId.Some?
                       && old(db.users)[old(db.vehicles)[i].residentId.value].name != ""
                    then old(db.users)[old(db.vehicles)[i].residentId.value].name
                    else if db.attendance[|old(db.attendance)|].guestId.Some?
                       && old(db.guests)[old(db.vehicles)[i].guestId.value].name != ""
                    then old(db.guests)[old(db.vehicles)[i].guestId.value].name
                    else "Vehicle: " + plate))
  {
    var i := FindLatestOpen(db.vehicles, plate, sid);
    if i == -1 {
      return 200;
    }
    var passage := db.vehicles[i];
    db.vehicles := db.vehicles[i := passage.(exitTime := Some(now))];
    var resident := if passage.residentId.Some? && passage.residentId.value in db.users
                    then passage.residentId else None;
    var guest := if passage.guestId.Some? && passage.guestId.value in db.guests
                 then passage.guestId else None;
    var personName :=
      if resident.Some? && db.users[resident.value].name != "" then db.users[resident.value].name
      else if guest.Some? && db.guests[guest.value].name != "" then db.guests[guest.value].name
      else "Vehicle: " + plate;
    var purpose := "Vehicle Exit: " + plate;
    GateDraftValidates(resident, guest, personName, now, "exit", body, purpose, guard);
    var record := Attendance.Validate(GateDraft(resident, guest, personName, now, "exit", body, purpose, guard), now);
    if record.None? {
      return ServerError;
    }
    db.attendance := db.attendance + [record.value];
    return 200;
  }

  /** POST /api/gate/vehicle-scan with device context `guard` at time
      `now`: the request checks, then the entry or exit branch. */
  method Scan(db: Db, guard: GuardCtx, body: ScanBody, now: int) returns (status: int)
    modifies db
    // a missing plate, direction or gate is 400 before anything is read (route.js:24-26)
    ensures !Truthy(body.plateNumber) || !Truthy(body.direction) || !Truthy(body.gateLocation) ==>
      status == BadRequest && db.Snapshot() == old(db.Snapshot())
    // a direction other than entry or exit is accepted and ignored (:36, :90, :120)
    ensures Truthy(body.plateNumber) && Truthy(body.gateLocation) && Truthy(body.direction)
            && body.direction.value != "entry" && body.direction.value != "exit" ==>
      status == 200 && db.Snapshot() == old(db.Snapshot())
    // the society is the context's, never the body's: one that does not cast fails the first query (:28, :38, :92)
    ensures Truthy(body.plateNumber) && Truthy(body.gateLocation)
            && (body.direction == Some("entry") || body.direction == Some("exit")) && !IsObjectId(guard.societyId) ==>
      status == ServerError && db.Snapshot() == old(db.Snapshot())
    // only guests, vehicle passages and attendance records ever change, and the ledgers only grow
    ensures db.Snapshot() == old(db.Snapshot()).(guests := db.guests, vehicles := db.vehicles, attendance := db.attendance)
    ensures |db.vehicles| >= |old(db.vehicles)| && |db.attendance| >= |old(db.attendance)|
    ensures status == 200 || status == BadRequest || status == ServerError
    // a complete entry scan in a society that casts succeeds when the guard id casts and
    // every resident owning the plate has a name
    ensures body.plateNumber.Some? && body.plateNumber.value != "" && Truthy(body.gateLocation)
            && body.direction == Some("entry") && IsObjectId(guard.societyId) && IsObjectId(guard.guardId)
            && (forall u | u in old(db.users) ::
                  OwnsPlate(old(db.users)[u], AsObjectId(guard.societyId).value, body.plateNumber.value) ==>
                  old(db.users)[u].name != "") ==>
      status == 200
    // a complete exit scan in a society that casts succeeds exactly when no passage is open
    // or the guard id casts
    ensures body.plateNumber.Some? && body.plateNumber.value != "" && Truthy(body.gateLocation)
            && body.direction == Some("exit") && IsObjectId(guard.societyId) ==>
      (status == 200 <==>
         (forall j | 0 <= j < |old(db.vehicles)| ::
            !OpenFor(old(db.vehicles)[j], body.plateNumber.value, AsObjectId(guard.societyId).value))
         || IsObjectId(guard.guardId))
    // every scan that reaches the ledger with a guard id that is no object id fails
    ensures status == 200 && (body.direction == Some("entry") || |db.attendance| > |old(db.attendance)|) ==>
      IsObjectId(guard.guardId)
  {
    if !Truthy(body.plateNumber) || !Truthy(body.direction) || !Truthy(body.gateLocation) {
      return BadRequest;
    }
    var plate, direction := body.plateNumber.value, body.direction.value;
    if direction != "entry" && direction != "exit" {
      return 200;
    }
    var society := AsObjectId(guard.societyId);
    if society.None? {
      return ServerError;
    }
    if direction == "entry" {
      status := Enter(db, guard, body, plate, society.value, now);
    } else {
      status := Leave(db, guard, body, plate, society.value, now);
    }
  }

  /** Last in, first closed: after a passage of `plate` entered at a time
      no earlier than any other passage of the ledger is appended, the
      exit scan picks exactly that passage. */
  lemma {:induction false} NewestPassageClosedFirst(vs: seq<VehicleEntry>, v: VehicleEntry, plate: string, society: ObjectId, i: int)
    requires OpenFor(v, plate, society)
    requires forall j | 0 <= j < |vs| :: vs[j].entryTime < v.entryTime
    requires LatestOpen(vs + [v], plate, society, i)
    ensures i == |vs|
  {
    var ws := vs + [v];
    assert OpenFor(ws[|vs|], plate, society);
    forall j | 0 <= j < |vs|
      ensures ws[j] == vs[j]
    {
    }
  }

  /** Closing a passage leaves it closed: a plate's open passages are
      exactly the old ones minus the closed one. */
  lemma {:induction false} ClosingRemovesOnlyThatPassage(vs: seq<VehicleEntry>, plate: string, society: ObjectId, i: int, now: int)
    requires LatestOpen(vs, plate, society, i)
    ensures var ws := vs[i := vs[i].(exitTime := Some(now))];
      forall j | 0 <= j < |ws| :: OpenFor(ws[j], plate, society) <==> j != i && OpenFor(vs[j], plate, society)
  {
  }
}

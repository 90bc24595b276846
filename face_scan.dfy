/** The face-recognition gate (app/api/gate/face-scan/route.js): a
    recognised resident or worker of the device's society is logged in
    the attendance ledger. */
module FaceScan {
  import opened Common
  import opened Entities
  import opened Store
  import Attendance

  /** What a device check would return: the device's id and society, as
      raw strings. The helper in route.js:10 has an empty body, so the
      route receives no context at all (`None`). */
  datatype DeviceCtx = DeviceCtx(id: string, societyId: string)

  datatype FaceBody = FaceBody(
    identifiedPersonId: Option<string>,
    personType: Option<string>,
    direction: Option<string>,
    gateLocation: Option<string>)

  predicate Complete(body: FaceBody) {
    Truthy(body.identifiedPersonId) && Truthy(body.personType) && Truthy(body.direction) && Truthy(body.gateLocation)
  }

  /** `logData` once the person is known (route.js:32-41, 51-54, 61-64):
      `type` is the request's direction as given; a worker's `workerId`
      is no schema field and is dropped. */
  function FaceDraft(ctx: DeviceCtx, body: FaceBody, userId: Option<ObjectId>, personName: string, purpose: string, now: int): Attendance.Draft
    requires Complete(body)
  {
    Attendance.Draft(userId, None, None, Some(personName), Some(now), body.direction, Some("main_gate"),
      body.gateLocation, None, Some(purpose), Some("facial_recognition"), Some(ctx.id), Some("verified"),
      Some(ctx.societyId))
  }

  /** The face-scan record is stored exactly when the direction is entry
      or exit, the person has a name and the device's id and society
      are object ids; it is then a verified main-gate record by face. */
  lemma {:induction false} FaceDraftValidates(ctx: DeviceCtx, body: FaceBody, userId: Option<ObjectId>, personName: string, purpose: string, now: int)
    requires Complete(body)
    ensures var r := Attendance.Validate(FaceDraft(ctx, body, userId, personName, purpose, now), now);
      && (r.Some? <==>
            (body.direction.value == "entry" || body.direction.value == "exit")
            && personName != "" && IsObjectId(ctx.id) && IsObjectId(ctx.societyId))
      && (r.Some? ==>
            && Attendance.DirectionName(r.value.direction) == body.direction.value
            && r.value.source == Attendance.MainGate && r.value.verification == Attendance.FacialRecognition
            && r.value.status == Attendance.Verified && r.value.userId == userId && r.value.timestamp == now
            && Some(r.value.societyId) == AsObjectId(ctx.societyId))
  {
    var d := FaceDraft(ctx, body, userId, personName, purpose, now);
    Attendance.NamesDecode(Attendance.Entry, Attendance.MainGate, Attendance.FacialRecognition, Attendance.Verified);
    Attendance.NamesDecode(Attendance.Exit, Attendance.MainGate, Attendance.FacialRecognition, Attendance.Verified);
    if (body.direction.value == "entry" || body.direction.value == "exit")
       && personName != "" && IsObjectId(ctx.id) && IsObjectId(ctx.societyId) {
      Attendance.WellFormedDraftValidates(d, now);
    }
  }

  /** `${worker.department}`: an absent department prints as "undefined". */
  function DepartmentText(w: Worker): (r: string)
    ensures w.department.Some? ==> r == w.department.value
    ensures w.department.None? ==> r == "undefined"
  {
    if w.department.Some? then w.department.value else "undefined"
  }

  /** POST /api/gate/face-scan at `now`. */
  method Scan(db: Db, ctx: Option<DeviceCtx>, body: FaceBody, now: int) returns (status: int)
    modifies db
    ensures db.Snapshot() == old(db.Snapshot()).(attendance := db.attendance)
    // at most one record is appended, and only on success (:69-71)
    ensures status == 200 <==> |db.attendance| == |old(db.attendance)| + 1
    ensures status != 200 ==> db.attendance == old(db.attendance)
    ensures status == 200 ==> db.attendance[..|old(db.attendance)|] == old(db.attendance)
    // the helper returns nothing, so reading `isValid` throws (:10, :16-17, :78)
    ensures ctx.None? ==> status == ServerError
    ensures ctx.Some? && !Complete(body) ==> status == BadRequest                       // :21-23
    ensures ctx.Some? && Complete(body) && !IsObjectId(body.identifiedPersonId.value) ==> status == BadRequest   // :26-28
    ensures ctx.Some? && Complete(body) && IsObjectId(body.identifiedPersonId.value) ==>
      var pid := AsObjectId(body.identifiedPersonId.value).value;
      var kind := body.personType.value;
      && (kind != "user" && kind != "worker" ==> status == BadRequest)               // :65-67
      && (kind == "user" && pid !in old(db.users) ==> status == NotFound)             // :46
      && (kind == "user" && pid in old(db.users) && old(db.users)[pid].societyId != ctx.value.societyId ==>
            status == Forbidden)                                                      // :48-50
      && (kind == "worker" && pid !in old(db.workers) ==> status == NotFound)         // :57
      && (kind == "worker" && pid in old(db.workers) && old(db.workers)[pid].societyId != ctx.value.societyId ==>
            status == Forbidden)                                                      // :58-60
      // a person found in the device's society is logged exactly when the record validates (:69-71)
      && (kind == "user" && pid in old(db.users) && old(db.users)[pid].societyId == ctx.value.societyId ==>
            (status == 200 <==> (body.direction.value == "entry" || body.direction.value == "exit")
                                && old(db.users)[pid].name != "" && IsObjectId(ctx.value.id) && IsObjectId(ctx.value.societyId)))
      && (kind == "worker" && pid in old(db.workers) && old(db.workers)[pid].societyId == ctx.value.societyId ==>
            (status == 200 <==> (body.direction.value == "entry" || body.direction.value == "exit")
                                && old(db.workers)[pid].name != "" && IsObjectId(ctx.value.id) && IsObjectId(ctx.value.societyId)))
      // a success is the person's own record, in the device's society
      && (status == 200 ==>
            var r := db.attendance[|old(db.attendance)|];
            && Attendance.DirectionName(r.direction) == body.direction.value
            && r.source == Attendance.MainGate && r.verification == Attendance.FacialRecognition
            && r.status == Attendance.Verified && r.timestamp == now
            && Some(r.societyId) == AsObjectId(ctx.value.societyId)
            && (kind == "user" ==> pid in old(db.users) && r.userId == Some(pid)
                                   && r.personName == old(db.users)[pid].name && r.societyId == old(db.users)[pid].societyId)
            && (kind == "worker" ==> pid in old(db.workers) && r.userId.None?
                                     && r.personName == old(db.workers)[pid].name && r.societyId == old(db.workers)[pid].societyId))
  {
    if ctx.None? {
      return ServerError;
    }
    var device := ctx.value;
    if !Complete(body) {
      return BadRequest;
    }
    if !IsObjectId(body.identifiedPersonId.value) {
      return BadRequest;
    }
    var pid := AsObjectId(body.identifiedPersonId.value).value;
    var direction := body.direction.value;
    var userId: Option<ObjectId>;
    var personName: string;
    var purpose: string;
    if body.personType.value == "user" {
      if pid !in db.users {
        return NotFound;
      }
      var user := db.users[pid];
      if user.societyId != device.societyId {
        return Forbidden;
      }
      userId, personName, purpose := Some(pid), user.name, "Resident " + direction;
      CastOwnText(user.societyId);
    } else if body.personType.value == "worker" {
      if pid !in db.workers {
        return NotFound;
      }
      var worker := db.workers[pid];
      if worker.societyId != device.societyId {
        return Forbidden;
      }
      userId, personName, purpose := None, worker.name, "Staff " + direction + " (" + DepartmentText(worker) + ")";
      CastOwnText(worker.societyId);
    } else {
      return BadRequest;
    }
    FaceDraftValidates(device, body, userId, personName, purpose, now);
    var record := Attendance.Validate(FaceDraft(device, body, userId, personName, purpose, now), now);
    if record.None? {
      return ServerError;
    }
    db.attendance := db.attendance + [record.value];
    return 200;
  }
}

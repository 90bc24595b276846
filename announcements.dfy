/** The notice board a resident sees (app/api/user/announcements/route.js). */
module Announcements {
  import opened Common
  import opened Entities
  import opened Sorting
  import opened Store
  import opened Auth

  /** The query of route.js:61-70: the caller's society, and an audience
      of everyone or of a list of users that names the caller. */
  predicate Visible(a: Announcement, uid: ObjectId, sid: ObjectId) {
    a.societyId == sid
    && (a.audience == "all" || (a.audience == "specific_users" && uid in a.targetedUsers))
  }

  /** Only these two audiences ever reach a resident: an announcement for
      specific blocks, or of any other audience, is never shown. */
  lemma {:induction false} OnlyTwoAudiences(a: Announcement, uid: ObjectId, sid: ObjectId)
    ensures Visible(a, uid, sid) ==> a.audience in {"all", "specific_users"}
    ensures a.audience == "specific_blocks" ==> !Visible(a, uid, sid)
  {
  }

  lemma {:induction false} AnnouncementOrderIsPreorder()
    ensures TotalPreorder(NewestFirst((a: Announcement) => a.createdAt))
  {
    NewestFirstIsPreorder((a: Announcement) => a.createdAt);
  }

  /** GET /api/user/announcements: a user token with `id` and `societyId`
      (route.js:18-38), both object ids or 500 (:45-48); the visible
      announcements, newest first (:72-79). */
  method List(db: Db, header: Option<Token>) returns (status: int, rows: seq<(ObjectId, Announcement)>)
    ensures Verify(header, UserSecret, true, Unauthorized).Err? ==> status == Unauthorized && rows == []
    ensures (Verify(header, UserSecret, true, Unauthorized).Ok?
             && (!IsObjectId(header.value.claims.id.value) || !IsObjectId(header.value.claims.societyId.value))) ==>
      status == ServerError && rows == []
    ensures status != 200 ==> rows == []
    ensures Verify(header, UserSecret, true, Unauthorized).Ok?
            && IsObjectId(header.value.claims.id.value) && IsObjectId(header.value.claims.societyId.value) ==>
      status == 200
    ensures status == 200 ==>
      && Verify(header, UserSecret, true, Unauthorized).Ok?
      && IsObjectId(header.value.claims.id.value) && IsObjectId(header.value.claims.societyId.value)
      && var uid := AsObjectId(header.value.claims.id.value).value;
         var sid := AsObjectId(header.value.claims.societyId.value).value;
         // an announcement is listed exactly when it is visible to the caller
         && (forall k | k in db.announcements :: (k, db.announcements[k]) in rows <==> Visible(db.announcements[k], uid, sid))
         && multiset(rows) == multiset(Selected(db.announcements, (k: ObjectId, a: Announcement) => Visible(a, uid, sid)))
    ensures Sorted(rows, NewestFirst((a: Announcement) => a.createdAt))
  {
    rows := [];
    var verdict := Verify(header, UserSecret, true, Unauthorized);
    if verdict.Err? {
      return verdict.status, [];
    }
    var c := verdict.value;
    if !IsObjectId(c.id.value) || !IsObjectId(c.societyId.value) {
      return ServerError, [];
    }
    var uid := AsObjectId(c.id.value).value;
    var sid := AsObjectId(c.societyId.value).value;
    var keep := (k: ObjectId, a: Announcement) => Visible(a, uid, sid);
    AnnouncementOrderIsPreorder();
    rows := Find(db.announcements, keep, NewestFirst((a: Announcement) => a.createdAt));
    forall k | k in db.announcements
      ensures (k, db.announcements[k]) in rows <==> Visible(db.announcements[k], uid, sid)
    {
      if Visible(db.announcements[k], uid, sid) {
        SelectedAreFound(rows, db.announcements, keep, k);
      }
      if (k, db.announcements[k]) in rows {
        var i :| 0 <= i < |rows| && rows[i] == (k, db.announcements[k]);
        FoundAreSelected(rows, db.announcements, keep, i);
      }
    }
    status := 200;
  }
}

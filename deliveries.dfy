/** The two readers of delivery records in the attendance ledger: a
    resident's pending deliveries (app/api/user/deliveries/pending/route.js)
    and the admin's delivery log (app/api/admin/logs/delivery/route.js).
    Both are read-only: they are functions of the ledger. */
module Deliveries {
  import opened Common
  import opened Sorting
  import opened Auth
  import opened Entities
  import opened Attendance

  /** How far back a delivery still counts as pending: 12 hours
      (pending route.js:36-37), and how many are shown (:50). */
  const PendingWindow := 12 * HourMs
  const PendingCap := 5

  /** `timestamp: -1`: newest first. */
  function NewestFirst(): (Record, Record) -> bool {
    Descending((r: Record) => r.timestamp)
  }

  /** The query of pending route.js:39-48: the caller's own delivery-point
      entries of their society since `since`. */
  predicate IsPending(r: Record, uid: ObjectId, sid: ObjectId, since: int) {
    r.societyId == sid && r.userId == Some(uid) && r.source == DeliveryPoint && r.direction == Entry
    && r.timestamp >= since
  }

  /** The pending deliveries of user `uid` of society `sid` at `now`:
      matching entries only, newest first, at most five. */
  function Pending(ledger: seq<Record>, uid: ObjectId, sid: ObjectId, now: int): (r: seq<Record>)
    ensures |r| <= PendingCap
    ensures forall i | 0 <= i < |r| :: r[i] in ledger && IsPending(r[i], uid, sid, now - PendingWindow)
    ensures forall i, j | 0 <= i < j < |r| :: r[i].timestamp >= r[j].timestamp
  {
    var found := Filter(ledger, (x: Record) => IsPending(x, uid, sid, now - PendingWindow));
    DescendingIsPreorder((x: Record) => x.timestamp);
    var sorted := Sort(found, NewestFirst());
    var r := Take(sorted, PendingCap);
    SortKeepsMembers(found, NewestFirst());
    assert forall i | 0 <= i < |r| :: r[i] in found by {
      forall i | 0 <= i < |r| ensures r[i] in found {
        assert r[i] == sorted[i];
      }
    }
    r
  }

  /** Nothing pending is missed: a matching entry that is not listed is
      no newer than any listed one, and only when the five slots are full. */
  lemma {:induction false} PendingComplete(ledger: seq<Record>, uid: ObjectId, sid: ObjectId, now: int, x: Record)
    requires x in ledger && IsPending(x, uid, sid, now - PendingWindow)
    ensures var r := Pending(ledger, uid, sid, now);
      x in r || (|r| == PendingCap && forall i | 0 <= i < |r| :: r[i].timestamp >= x.timestamp)
  {
    var found := Filter(ledger, (y: Record) => IsPending(y, uid, sid, now - PendingWindow));
    DescendingIsPreorder((y: Record) => y.timestamp);
    var sorted := Sort(found, NewestFirst());
    assert x in multiset(found);
    assert x in sorted by {
      assert x in multiset(sorted);
    }
    TakeKeepsTop(sorted, NewestFirst(), PendingCap, x);
    if x !in Take(sorted, PendingCap) {
      assert |Take(sorted, PendingCap)| == PendingCap;
    }
  }

  /** Exit records are never consulted: logging a later exit leaves the
      pending list exactly as it was. */
  lemma {:induction false} ExitKeepsPending(ledger: seq<Record>, uid: ObjectId, sid: ObjectId, now: int, exit: Record)
    requires exit.direction == Exit
    ensures Pending(ledger + [exit], uid, sid, now) == Pending(ledger, uid, sid, now)
  {
    FilterSkips(ledger, (x: Record) => IsPending(x, uid, sid, now - PendingWindow), exit);
  }

  /** GET /api/user/deliveries/pending at `now`: the user token needs `id`
      and `societyId` (route.js:14-21); ids that do not cast make the
      query throw (500). */
  function PendingDeliveries(header: Option<Token>, ledger: seq<Record>, now: int): (r: Reply<seq<Record>>)
    ensures Verify(header, UserSecret, true, Unauthorized).Err? ==> r == Err(Unauthorized)
    ensures r.Ok? <==>
      && Verify(header, UserSecret, true, Unauthorized).Ok?
      && AsObjectId(header.value.claims.id.value).Some? && AsObjectId(header.value.claims.societyId.value).Some?
    ensures r.Err? ==> r.status in {Unauthorized, ServerError}
    ensures r.Ok? ==>
      r.value == Pending(ledger, AsObjectId(header.value.claims.id.value).value,
                         AsObjectId(header.value.claims.societyId.value).value, now)
  {
    match Verify(header, UserSecret, true, Unauthorized)
    case Err(code) => Err(code)
    case Ok(c) =>
      match (AsObjectId(c.id.value), AsObjectId(c.societyId.value))
      case (Some(uid), Some(sid)) => Ok(Pending(ledger, uid, sid, now))
      case _ => Err(ServerError)
  }

  // ---------------------------------------------------------------------
  // The admin delivery log

  /** How many leading characters of `s` are decimal digits. */
  function DigitRun(s: string): (n: nat)
    ensures n <= |s| && AllDigits(s[..n]) && (n < |s| ==> !('0' <= s[n] <= '9'))
  {
    if s == [] || !('0' <= s[0] <= '9') then 0
    else
      var n := DigitRun(s[1..]);
      assert s[..n + 1] == [s[0]] + s[1..][..n];
      n + 1
  }

  /** `parseInt(s, 10)`: leading white space, an optional sign, then the
      longest run of digits; no digit at all is NaN (`None`). */
  function ParseInt(s: string): (r: Option<int>)
    ensures r.None? <==> DigitRun(SignFree(s[LeadingSpace(s)..])) == 0
  {
    var t := s[LeadingSpace(s)..];
    var u := SignFree(t);
    var n := DigitRun(u);
    if n == 0 then None
    else Some((if t != [] && t[0] == '-' then -1 else 1) * DigitsValue(u[..n]))
  }

  /** The text after an optional leading sign. */
  function SignFree(t: string): (u: string)
    ensures u == t || (t != [] && (t[0] == '-' || t[0] == '+') && u == t[1..])
  {
    if t != [] && (t[0] == '-' || t[0] == '+') then t[1..] else t
  }

  /** The digit run of digits followed by a non-digit is those digits. */
  lemma {:induction false} DigitRunPrefix(x: string, y: string)
    requires AllDigits(x) && (y == [] || !('0' <= y[0] <= '9'))
    ensures DigitRun(x + y) == |x|
  {
    if x != [] {
      assert (x + y)[1..] == x[1..] + y;
      DigitRunPrefix(x[1..], y);
    }
  }

  /** `parseInt` reads back any count written in decimal, whatever
      non-digit text follows it. */
  lemma {:induction false} ParseIntNatText(n: nat, rest: string)
    requires rest == [] || !('0' <= rest[0] <= '9')
    ensures ParseInt(NatText(n) + rest) == Some(n)
  {
    var s := NatText(n) + rest;
    assert '0' <= s[0] <= '9';
    assert LeadingSpace(s) == 0;
    assert s[0..] == s;
    assert SignFree(s) == s;
    DigitRunPrefix(NatText(n), rest);
    var k := DigitRun(s);
    assert s[..k] == NatText(n);
    NatTextValue(n);
  }

  /** The default page size of the log (route.js:74). */
  lemma DefaultLimit()
    ensures ParseInt("100") == Some(100)
  {
    assert NatText(100) == "100" by {
      assert NatText(10) == "10";
    }
    ParseIntNatText(100, "");
    assert NatText(100) + "" == "100";
  }

  /** The log query (route.js:77-87): the society's delivery-point
      records, of one day when a day is given. The day window is the one
      the route writes (`$gte startOfDay`, `$lt endOfDay`, :85), open at
      the day's last millisecond. */
  predicate IsDeliveryLog(r: Record, sid: ObjectId, day: Option<int>) {
    r.societyId == sid && r.source == DeliveryPoint && (day.None? || InDayAsWritten(r.timestamp, day.value))
  }

  /** The society's delivery log, newest first, cut to `limit` as MongoDB
      reads it. */
  function DeliveryLog(ledger: seq<Record>, sid: ObjectId, day: Option<int>, limit: int): (r: seq<Record>)
    ensures forall i | 0 <= i < |r| :: r[i] in ledger && r[i].societyId == sid && r[i].source == DeliveryPoint
    ensures day.Some? ==> forall i | 0 <= i < |r| ::
      DayOf(r[i].timestamp) == day.value && r[i].timestamp != EndOfDay(day.value)
    ensures forall i, j | 0 <= i < j < |r| :: r[i].timestamp >= r[j].timestamp
    ensures limit != 0 ==> |r| <= if limit > 0 then limit else -limit
  {
    var found := Filter(ledger, (x: Record) => IsDeliveryLog(x, sid, day));
    DescendingIsPreorder((x: Record) => x.timestamp);
    var sorted := Sort(found, NewestFirst());
    var r := Limit(sorted, limit);
    SortKeepsMembers(found, NewestFirst());
    assert forall i | 0 <= i < |r| :: r[i] in found && IsDeliveryLog(r[i], sid, day) by {
      forall i | 0 <= i < |r| ensures r[i] in found {
        assert r[i] == sorted[i];
      }
    }
    assert day.Some? ==> forall i | 0 <= i < |r| ::
        DayOf(r[i].timestamp) == day.value && r[i].timestamp != EndOfDay(day.value) by {
      if day.Some? {
        forall i | 0 <= i < |r|
          ensures DayOf(r[i].timestamp) == day.value && r[i].timestamp != EndOfDay(day.value)
        {
          InDayAsWrittenIsDayOf(r[i].timestamp, day.value);
        }
      }
    }
    r
  }

  /** Every delivery record of the society (of that day, when filtered,
      but for its last millisecond) is listed unless the limit cut it off
      behind newer ones. */
  lemma {:induction false} DeliveryLogComplete(ledger: seq<Record>, sid: ObjectId, day: Option<int>, limit: int, x: Record)
    requires x in ledger && x.societyId == sid && x.source == DeliveryPoint
    requires day.None? || (DayOf(x.timestamp) == day.value && x.timestamp != EndOfDay(day.value))
    ensures var r := DeliveryLog(ledger, sid, day, limit);
      x in r || (limit != 0 && forall i | 0 <= i < |r| :: r[i].timestamp >= x.timestamp)
  {
    if day.Some? {
      InDayAsWrittenIsDayOf(x.timestamp, day.value);
    }
    var found := Filter(ledger, (y: Record) => IsDeliveryLog(y, sid, day));
    DescendingIsPreorder((y: Record) => y.timestamp);
    var sorted := Sort(found, NewestFirst());
    assert x in multiset(found);
    assert x in sorted by {
      assert x in multiset(sorted);
    }
    if limit != 0 {
      TakeKeepsTop(sorted, NewestFirst(), if limit > 0 then limit else -limit, x);
    }
  }

  /** A delivery stamped at the last millisecond of the filtered day
      belongs to that day, yet the log as written never lists it. */
  lemma {:induction false} DayEndDeliveryUnlisted(ledger: seq<Record>, sid: ObjectId, d: int, limit: int, x: Record)
    requires x.timestamp == EndOfDay(d)
    ensures DayOf(x.timestamp) == d && x !in DeliveryLog(ledger, sid, Some(d), limit)
  {
    LastMillisecondMissed(d);
  }

  /** The page size: the `limit` parameter read as an integer, 100 when
      it is absent or empty (route.js:74); `None` is NaN. */
  function PageSize(limitText: Option<string>): (r: Option<int>)
    ensures !Truthy(limitText) ==> r == Some(100)
    ensures Truthy(limitText) ==> r == ParseInt(limitText.value)
  {
    DefaultLimit();
    ParseInt(if Truthy(limitText) then limitText.value else "100")
  }

  /** GET /api/admin/logs/delivery. `date` is the `date` query parameter
      (`None` when absent or empty) and `limitText` the `limit` one. */
  function AdminDeliveryLogs(header: Option<Token>, admins: map<ObjectId, AdminDoc>, ledger: seq<Record>,
                             date: Option<DateText>, limitText: Option<string>): (r: Reply<seq<Record>>)
    // every refusal of the admin check is 401 (:14-40, :55-60)
    ensures VerifyAdminToken(header, admins).Err? ==> r == Err(Unauthorized)
    ensures r.Err? ==> r.status in {Unauthorized, ServerError}
    // the society is the verified context's, never a request parameter (:67, :77-80)
    ensures r.Ok? ==>
      && VerifyAdminToken(header, admins).Ok?
      && var sid := AsObjectId(VerifyAdminToken(header, admins).value.societyId);
         && sid.Some?
         && forall i | 0 <= i < |r.value| :: r.value[i].societyId == sid.value && r.value[i].source == DeliveryPoint
    // a date keeps that day's records only (:82-87)
    ensures r.Ok? && date.Some? ==>
      date.value.At? && forall i | 0 <= i < |r.value| :: DayOf(r.value[i].timestamp) == DayOf(date.value.ms)
    ensures r.Ok? ==> forall i, j | 0 <= i < j < |r.value| :: r.value[i].timestamp >= r.value[j].timestamp
    // the page size defaults to 100 (:74)
    ensures r.Ok? && !Truthy(limitText) ==> |r.value| <= 100
    // the log is listed exactly when the admin's society casts, the limit
    // is a number and the date parses (:62-66, :74, :82-87, :92-94)
    ensures r.Ok? <==>
      && VerifyAdminToken(header, admins).Ok?
      && AsObjectId(VerifyAdminToken(header, admins).value.societyId).Some?
      && PageSize(limitText).Some?
      && (date.None? || date.value.At?)
    // and it is then the society's delivery log of that day, cut to the page size
    ensures r.Ok? ==>
      r.value == DeliveryLog(ledger, AsObjectId(VerifyAdminToken(header, admins).value.societyId).value,
                             if date.Some? then Some(DayOf(date.value.ms)) else None, PageSize(limitText).value)
  {
    match VerifyAdminToken(header, admins)
    case Err(code) => Err(code)
    case Ok(ctx) =>
      match AsObjectId(ctx.societyId)
      case None => Err(ServerError)
      case Some(sid) =>
        var limit := PageSize(limitText);
        if limit.None? then Err(ServerError)
        else match date
          case None => Ok(DeliveryLog(ledger, sid, None, limit.value))
          case Some(InvalidDate) => Err(ServerError)
          case Some(At(ms)) => Ok(DeliveryLog(ledger, sid, Some(DayOf(ms)), limit.value))
  }
}

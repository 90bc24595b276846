/** The admin's booking list (app/api/admin/bookings/route.js): a query
    over the society's bookings, by status and by day, in calendar order. */
module AdminBookings {
  import opened Common
  import opened Entities
  import opened Sorting
  import opened Store
  import Auth

  /** Calendar order: by booking date, then by start time as text. */
  predicate ByDateThenStart(a: Booking, b: Booking) {
    a.bookingDate < b.bookingDate || (a.bookingDate == b.bookingDate && LexLe(a.startTime, b.startTime))
  }

  function CalendarOrder(): ((ObjectId, Booking), (ObjectId, Booking)) -> bool {
    (p: (ObjectId, Booking), q: (ObjectId, Booking)) => ByDateThenStart(p.1, q.1)
  }

  lemma {:induction false} ByDateThenStartIsPreorder()
    ensures TotalPreorder((a: Booking, b: Booking) => ByDateThenStart(a, b))
    ensures TotalPreorder(CalendarOrder())
  {
    forall a: Booking, b: Booking ensures ByDateThenStart(a, b) || ByDateThenStart(b, a) {
      LexLeTotal(a.startTime, b.startTime);
    }
    forall a: Booking, b: Booking, c: Booking | ByDateThenStart(a, b) && ByDateThenStart(b, c)
      ensures ByDateThenStart(a, c)
    {
      if a.bookingDate == b.bookingDate == c.bookingDate {
        LexLeTransitive(a.startTime, b.startTime, c.startTime);
      }
    }
  }

  /** Which days the query keeps: one day (a `date` parameter), or every
      day from one on (none given: from today). */
  datatype DayRange = OnDay(day: int) | FromDay(first: int)

  /** The `query` dictionary of route.js:29-42. */
  datatype BookingQuery = BookingQuery(societyId: ObjectId, status: Option<string>, range: DayRange)

  /** Builds the query field by field (route.js:29-42). `date` is the
      `date` parameter (`None` when absent or empty); an Invalid Date makes
      the query uncastable (`None`), which the store rejects. */
  method BuildQuery(societyId: ObjectId, statusFilter: Option<string>, date: Option<DateText>, now: int)
    returns (q: Option<BookingQuery>)
    ensures q.None? <==> date == Some(InvalidDate)
    ensures q.Some? ==> q.value.societyId == societyId
    // a status is filtered on unless absent, empty or 'all' (:30-33)
    ensures q.Some? ==> (q.value.status.Some? <==> Truthy(statusFilter) && statusFilter.value != "all")
    ensures q.Some? && q.value.status.Some? ==> q.value.status == statusFilter
    // the day of the `date` parameter, else from today on (:34-42)
    ensures q.Some? && date.Some? ==> q.value.range == OnDay(DayOf(date.value.ms))
    ensures q.Some? && date.None? ==> q.value.range == FromDay(DayOf(now))
  {
    var status: Option<string> := None;
    if Truthy(statusFilter) && statusFilter.value != "all" {
      status := statusFilter;
    }
    var range: DayRange;
    if date.Some? {
      if date.value.InvalidDate? {
        return None;
      }
      range := OnDay(DayOf(date.value.ms));
    } else {
      range := FromDay(DayOf(now));
    }
    q := Some(BookingQuery(societyId, status, range));
  }

  /** A booking the query selects. The one-day window is the one the
      route writes (`$gte startOfDay`, `$lt endOfDay`, route.js:37), which
      is open at the day's last millisecond. */
  predicate Matches(q: BookingQuery, b: Booking) {
    && b.societyId == q.societyId
    && (q.status.None? || b.status == q.status.value)
    && match q.range
       case OnDay(d) => InDayAsWritten(b.bookingDate, d)
       case FromDay(d) => b.bookingDate >= StartOfDay(d)
  }

  /** What the query means in days: the booking's own day is the given
      day (all of it but the last millisecond), or any day from the first
      one on. */
  lemma {:induction false} MatchesByDay(q: BookingQuery, b: Booking)
    ensures Matches(q, b) <==>
      && b.societyId == q.societyId
      && (q.status.None? || b.status == q.status.value)
      && (q.range.OnDay? ==> DayOf(b.bookingDate) == q.range.day && b.bookingDate != EndOfDay(q.range.day))
      && (q.range.FromDay? ==> DayOf(b.bookingDate) >= q.range.first)
  {
    DayBounds(b.bookingDate);
    if q.range.OnDay? {
      InDayAsWrittenIsDayOf(b.bookingDate, q.range.day);
    }
  }

  /** A booking set at the last millisecond of the filtered day belongs to
      that day, yet the query as written does not select it. */
  lemma {:induction false} DayEndBookingUnlisted(q: BookingQuery, b: Booking)
    requires q.range.OnDay? && b.bookingDate == EndOfDay(q.range.day)
    ensures DayOf(b.bookingDate) == q.range.day && !Matches(q, b)
  {
    LastMillisecondMissed(q.range.day);
  }

  /** GET /api/admin/bookings. `auth` is what the route's admin check
      returns: its helper (route.js:10) has an empty body, so it returns
      nothing (`None`), reading `isValid` throws, and the request ends in
      the 500 branch (:53-55). With a working helper, a refusal passes its
      code through and a context without a society is 500 (:19-21). */
  method List(db: Db, auth: Option<Reply<Auth.Ctx>>, statusFilter: Option<string>, date: Option<DateText>, now: int)
    returns (status: int, rows: seq<(ObjectId, Booking)>)
    ensures auth.None? ==> status == ServerError && rows == []
    ensures auth.Some? && auth.value.Err? ==> status == auth.value.status && rows == []
    ensures auth.Some? && auth.value.Ok? && auth.value.value.societyId == "" ==> status == ServerError
    // with a context, a society that does not cast or an Invalid Date is 500, and anything else 200
    ensures auth.Some? && auth.value.Ok? ==>
      (status == 200 <==> AsObjectId(auth.value.value.societyId).Some? && date != Some(InvalidDate))
    ensures auth.Some? && auth.value.Ok? && status != 200 ==> status == ServerError
    ensures status != 200 ==> rows == []
    ensures auth.Some? && auth.value.Ok? && status == 200 ==>
      && AsObjectId(auth.value.value.societyId).Some?
      && date != Some(InvalidDate)
      && exists q: BookingQuery | q.societyId == AsObjectId(auth.value.value.societyId).value ::
           && multiset(rows) == multiset(Selected(db.bookings, (k: ObjectId, b: Booking) => Matches(q, b)))
           && (q.status.Some? <==> Truthy(statusFilter) && statusFilter.value != "all")
           && (q.status.Some? ==> q.status == statusFilter)
           && q.range == (if date.Some? then OnDay(DayOf(date.value.ms)) else FromDay(DayOf(now)))
    // a day filter lists that day's bookings, except one at its last millisecond
    ensures status == 200 && date.Some? ==> forall i | 0 <= i < |rows| ::
      DayOf(rows[i].1.bookingDate) == DayOf(date.value.ms) && rows[i].1.bookingDate != EndOfDay(DayOf(date.value.ms))
    ensures Sorted(rows, CalendarOrder())
  {
    rows := [];
    if auth.None? {
      return ServerError, [];
    }
    if auth.value.Err? {
      return auth.value.status, [];
    }
    var ctx := auth.value.value;
    if ctx.societyId == "" {
      return ServerError, [];
    }
    var sid := AsObjectId(ctx.societyId);
    if sid.None? {
      return ServerError, [];    // the society filter does not cast
    }
    var q := BuildQuery(sid.value, statusFilter, date, now);
    if q.None? {
      return ServerError, [];    // an Invalid Date does not cast
    }
    ByDateThenStartIsPreorder();
    rows := Find(db.bookings, (k: ObjectId, b: Booking) => Matches(q.value, b), CalendarOrder());
    forall i | 0 <= i < |rows|
      ensures Matches(q.value, rows[i].1)
    {
      FoundAreSelected(rows, db.bookings, (k: ObjectId, b: Booking) => Matches(q.value, b), i);
    }
    forall i | 0 <= i < |rows| && date.Some?
      ensures DayOf(rows[i].1.bookingDate) == DayOf(date.value.ms)
      ensures rows[i].1.bookingDate != EndOfDay(DayOf(date.value.ms))
    {
      MatchesByDay(q.value, rows[i].1);
    }
    status := 200;
  }
}

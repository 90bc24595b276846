/** The admin bookings page (app/admin/dashboard/bookings/page.jsx): which
    fetched bookings a tab shows, in which order, and which status
    buttons a row offers. */
module BookingBoard {
  import opened Common
  import opened Entities
  import opened Sorting
  import AdminBookings
  import AmenityGate

  /** The statuses of the 'history' tab (page.jsx:63, 65). */
  predicate Finished(status: string) {
    status == "checked-out" || status == "completed" || status == "cancelled" || status == "no_show"
  }

  /** Whether a tab lists a booking (page.jsx:61-67): 'all' is the
      unfinished ones, 'history' the finished ones, any other tab an exact
      status. */
  predicate InTab(b: Booking, tab: string) {
    if tab == "all" then !Finished(b.status)
    else if tab == "history" then Finished(b.status)
    else b.status == tab
  }

  function DateThenStart(): (Booking, Booking) -> bool {
    (a: Booking, b: Booking) => AdminBookings.ByDateThenStart(a, b)
  }

  /** The rows of a tab: the fetched bookings the tab lists, by date then
      start time (page.jsx:58-71); the fetched list itself is not changed. */
  function Shown(all: seq<Booking>, tab: string): (r: seq<Booking>)
    ensures forall b | InTab(b, tab) :: multiset(r)[b] == multiset(all)[b]
    ensures forall b | !InTab(b, tab) :: multiset(r)[b] == 0
    ensures forall i, j | 0 <= i < j < |r| :: AdminBookings.ByDateThenStart(r[i], r[j])
  {
    AdminBookings.ByDateThenStartIsPreorder();
    var r := Sort(Filter(all, (b: Booking) => InTab(b, tab)), DateThenStart());
    r
  }

  /** The 'all' and 'history' tabs split the fetched list between them:
      every booking is shown on exactly one of the two. */
  lemma {:induction false} AllAndHistoryPartition(all: seq<Booking>)
    ensures multiset(Shown(all, "all")) + multiset(Shown(all, "history")) == multiset(all)
    ensures forall b :: InTab(b, "all") != InTab(b, "history")
  {
    var a := Shown(all, "all");
    var h := Shown(all, "history");
    forall b ensures (multiset(a) + multiset(h))[b] == multiset(all)[b] {
      if Finished(b.status) {
        assert InTab(b, "history") && !InTab(b, "all");
      } else {
        assert InTab(b, "all") && !InTab(b, "history");
      }
    }
  }

  /** The row buttons and the status each requests (page.jsx:124-144). */
  datatype Action = CheckIn | CheckOut

  function Requested(a: Action): string {
    match a
    case CheckIn => "checked-in"
    case CheckOut => "checked-out"
  }

  function Actions(status: string): (r: set<Action>)
    ensures CheckIn in r <==> status == "confirmed" || status == "approved"
    ensures CheckOut in r <==> status == "checked-in"
  {
    (if status == "confirmed" || status == "approved" then {CheckIn} else {})
    + (if status == "checked-in" then {CheckOut} else {})
  }

  /** A row offers at most one button, and each button is offered exactly
      when the door would allow that step: check-in from the statuses the
      QR check-in accepts, check-out from 'checked-in' as the check-out
      route demands. */
  lemma {:induction false} ActionsFollowDoor(status: string)
    ensures |Actions(status)| <= 1
    ensures CheckIn in Actions(status) <==> AmenityGate.CheckInAllowed(status)
    ensures CheckOut in Actions(status) <==> status == "checked-in"
    ensures forall a | a in Actions(status) :: !Finished(status) && Requested(a) != status
  {
    if CheckIn in Actions(status) {
      assert Actions(status) == {CheckIn};
    } else if CheckOut in Actions(status) {
      assert Actions(status) == {CheckOut};
    } else {
      assert Actions(status) == {};
    }
  }
}

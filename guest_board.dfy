/** The admin guests page (app/admin/dashboard/guests/page.jsx): which
    fetched guests a tab shows and which status buttons a row offers. */
module GuestBoard {
  import opened Common
  import opened Entities
  import opened Sorting
  import Guests

  /** 'all' lists every guest, any other tab an exact status (page.jsx:60-64). */
  predicate InTab(g: Guest, tab: string) {
    tab == "all" || g.status == tab
  }

  /** The rows of a tab, in the fetched order. */
  function Shown(all: seq<Guest>, tab: string): (r: seq<Guest>)
    ensures tab == "all" ==> r == all
    ensures forall g | InTab(g, tab) :: multiset(r)[g] == multiset(all)[g]
    ensures forall g | !InTab(g, tab) :: multiset(r)[g] == 0
  {
    if tab == "all" then all else Filter(all, (g: Guest) => InTab(g, tab))
  }

  /** The guest lifecycle the admin drives: a pending guest is approved or
      rejected, an approved guest checks in, a checked-in guest checks out. */
  predicate Step(from: string, to: string) {
    || (from == "pending" && (to == "approved" || to == "rejected"))
    || (from == "approved" && to == "checked-in")
    || (from == "checked-in" && to == "checked-out")
  }

  /** How far along the lifecycle a status is. */
  function Stage(status: string): nat {
    if status == "pending" then 0
    else if status == "approved" then 1
    else if status == "checked-in" then 2
    else 3
  }

  /** The statuses a row's buttons request, in button order (page.jsx:133-154). */
  function Actions(status: string): (r: seq<string>)
    ensures |r| <= 2
  {
    if status == "pending" then ["approved", "rejected"]
    else if status == "approved" then ["checked-in"]
    else if status == "checked-in" then ["checked-out"]
    else []
  }

  /** The buttons are exactly the lifecycle's steps from the row's status:
      each moves the guest strictly forward, a known status leads only to
      known statuses, and rejected and checked-out guests offer nothing. */
  lemma {:induction false} ActionsAreSteps(status: string, to: string)
    ensures to in Actions(status) <==> Step(status, to)
    ensures Step(status, to) ==> Stage(to) > Stage(status)
    ensures Step(status, to) ==> Guests.IsGuestStatus(status) && Guests.IsGuestStatus(to)
    ensures status == "rejected" || status == "checked-out" ==> Actions(status) == []
  {
    if status == "pending" {
      assert Actions(status) == ["approved", "rejected"];
    }
  }

  /** No sequence of steps returns to an earlier status: the lifecycle
      has no cycle. */
  lemma {:induction false} NoReturn(path: seq<string>)
    requires |path| >= 2 && forall i | 0 <= i < |path| - 1 :: Step(path[i], path[i + 1])
    ensures Stage(path[|path| - 1]) >= Stage(path[0]) + |path| - 1
    ensures path[|path| - 1] != path[0]
    decreases |path|
  {
    ActionsAreSteps(path[0], path[1]);
    if |path| > 2 {
      NoReturn(path[1..]);
    }
  }
}

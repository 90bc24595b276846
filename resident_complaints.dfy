/** The resident's complaints page (app/user/dashboard/complaints/page.jsx):
    which complaints a tab lists, which actions a complaint card offers,
    and the update each action sends. */
module ResidentComplaints {
  import opened Common
  import opened Sorting
  import JsonText

  /** A complaint as the page lists it: its id, status and the rating of
      its feedback, if it has one. */
  datatype Listed = Listed(id: string, status: string, rating: Option<int>)

  /** The card's local feedback form: a star rating (0 when none is
      chosen) and a comment. */
  datatype Feedback = Feedback(rating: int, comment: string)

  const NoFeedback := Feedback(0, "")

  /** What an action hands to the page's update handler: a PUT of the
      body for the complaint, or nothing (a warning toast). */
  datatype Request = Put(id: string, body: map<string, JsonText.Json>) | NoRequest

  /** The rating a sent feedback object carries, read back as a number. */
  function SentRating(v: JsonText.Json): Option<int> {
    match JsonText.Property(v, "rating")
    case Some(Number(text)) => NumberOfText(text)
    case _ => None
  }

  /** Submitting the feedback form (page.jsx:229-237): a rating outside
      1..5 sends nothing and keeps the form; otherwise `{ feedback }` is
      sent with the rating and comment, and the form is reset. */
  function FeedbackSubmit(id: string, f: Feedback): (r: (Request, Feedback))
    ensures r.0.Put? <==> 1 <= f.rating <= 5
    ensures r.0.NoRequest? ==> r.1 == f
    ensures r.0.Put? ==>
      && r.0.id == id && r.0.body.Keys == {"feedback"}
      && SentRating(r.0.body["feedback"]) == Some(f.rating)
      && JsonText.Property(r.0.body["feedback"], "comment") == Some(JsonText.Str(f.comment))
      && r.1 == NoFeedback
  {
    if f.rating < 1 || f.rating > 5 then (NoRequest, f)
    else
      var text := NatText(f.rating);
      NatTextValue(f.rating);
      var sent := JsonText.Obj([JsonText.Member("rating", JsonText.Number(text)),
                                JsonText.Member("comment", JsonText.Str(f.comment))]);
      assert JsonText.Lookup(sent.members, "rating") == Some(JsonText.Number(text));
      (Put(id, map["feedback" := sent]), NoFeedback)
  }

  /** Marking a complaint resolved (page.jsx:239-248): blank text sends
      nothing and leaves the dialog as it is; otherwise the status
      'resolved' and the text are sent, the dialog closes and its text is
      cleared. The result is the request, the new text and whether the
      dialog is open. */
  function MarkResolved(id: string, text: string, open: bool): (r: (Request, string, bool))
    ensures r.0.Put? <==> !Blank(text)
    ensures r.0.NoRequest? ==> r.1 == text && r.2 == open
    ensures r.0.Put? ==>
      && r.0.id == id && r.0.body.Keys == {"status", "resolution"}
      && r.0.body["status"] == JsonText.Str("resolved") && r.0.body["resolution"] == JsonText.Str(text)
      && r.1 == "" && !r.2
  {
    if Trim(text) == [] then (NoRequest, text, open)
    else (Put(id, map["status" := JsonText.Str("resolved"), "resolution" := JsonText.Str(text)]), "", false)
  }

  /** The feedback form shows on a resolved or closed complaint without a
      rating (page.jsx:296). */
  predicate FeedbackOffered(c: Listed) {
    (c.status == "resolved" || c.status == "closed") && !(c.rating.Some? && c.rating.value != 0)
  }

  /** "Mark as Resolved" shows on an assigned or in-progress complaint
      (page.jsx:311). */
  predicate ResolveOffered(c: Listed) {
    c.status == "assigned" || c.status == "in-progress"
  }

  /** A card never offers both actions; a rated complaint offers no
      feedback form; and once a complaint is resolved as the resident asked,
      the card offers the feedback form in place of the button. */
  lemma {:induction false} ActionsExclusive(c: Listed)
    ensures !(FeedbackOffered(c) && ResolveOffered(c))
    ensures c.rating.Some? && c.rating.value != 0 ==> !FeedbackOffered(c)
    ensures ResolveOffered(c) && c.rating.None? ==>
      FeedbackOffered(c.(status := "resolved")) && !ResolveOffered(c.(status := "resolved"))
  {
  }

  predicate InTab(c: Listed, tab: string) {
    tab == "all" || c.status == tab
  }

  /** A tab's list (page.jsx:114-116, 192-196): every complaint on 'all',
      else those whose status is the tab's. */
  function Tab(all: seq<Listed>, tab: string): (r: seq<Listed>)
    ensures tab == "all" ==> r == all
    ensures forall c | InTab(c, tab) :: multiset(r)[c] == multiset(all)[c]
    ensures forall c | !InTab(c, tab) :: multiset(r)[c] == 0
  {
    if tab == "all" then all else Filter(all, (c: Listed) => c.status == tab)
  }

  /** A newly filed complaint is put in front of the list (page.jsx:101),
      so it heads the 'all' tab and its own status's tab, and every other
      tab is as it was. */
  lemma {:induction false} FiledComplaintFirst(all: seq<Listed>, filed: Listed, tab: string)
    ensures Tab([filed] + all, tab) == (if InTab(filed, tab) then [filed] else []) + Tab(all, tab)
  {
    if tab != "all" {
      FilterCons(filed, all, (c: Listed) => c.status == tab);
    }
  }
}

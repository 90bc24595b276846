/** The admin's assign-worker dialog (components/admin/AssignWorkerDialog.jsx):
    the selections it starts from when opened and the update it submits
    for a complaint. */
module AssignWorker {
  import opened Common
  import opened JsonText

  /** The complaint as the dialog receives it: `worker` is the assigned
      worker's id (`assignedWorker._id || assignedWorker || ''`, so "" when
      none) and `status` its status, absent for a record without one. */
  datatype Card = Card(id: string, worker: string, status: Option<string>)

  /** What the submit button does: send the update for the complaint, or
      only close the dialog. */
  datatype Outcome = Submit(id: string, update: map<string, Json>) | Close

  /** A newly chosen worker for a pending complaint whose status was left
      at 'pending' (AssignWorkerDialog.jsx:53-55). */
  predicate AutoAssign(c: Card, worker: string, status: string) {
    worker != c.worker && worker != "" && c.status == Some("pending") && status == "pending"
  }

  /** The worker removed from an assigned complaint whose status was left
      at 'assigned' (AssignWorkerDialog.jsx:56-57). */
  predicate AutoUnassign(c: Card, worker: string, status: string) {
    worker != c.worker && worker == "" && c.status == Some("assigned") && status == "assigned"
  }

  class Dialog {
    var selectedWorker: string
    var selectedStatus: string

    constructor()
      ensures selectedWorker == "" && selectedStatus == ""
    {
      selectedWorker := "";
      selectedStatus := "";
    }

    /** The effect run when the dialog opens or closes
        (AssignWorkerDialog.jsx:28-37): opened on a complaint, the
        selections start from its worker and its status ('pending' when it
        has none); closed, both are cleared; opened without a complaint,
        nothing changes. */
    method OpenChange(isOpen: bool, complaint: Option<Card>)
      modifies this
      ensures isOpen && complaint.Some? ==>
        selectedWorker == complaint.value.worker && selectedStatus == OrElse(complaint.value.status, "pending")
      ensures !isOpen ==> selectedWorker == "" && selectedStatus == ""
      ensures isOpen && complaint.None? ==>
        selectedWorker == old(selectedWorker) && selectedStatus == old(selectedStatus)
    {
      if isOpen && complaint.Some? {
        selectedWorker := complaint.value.worker;
        selectedStatus := OrElse(complaint.value.status, "pending");
      } else if !isOpen {
        selectedWorker := "";
        selectedStatus := "";
      }
    }

    /** The submit handler (AssignWorkerDialog.jsx:39-65): the update holds
        the worker when the selection changed (null when cleared) and the
        status when it changed, a worker newly given to a pending complaint
        makes it 'assigned' and a worker taken from an assigned one makes it
        'pending'; an empty update sends nothing. */
    method HandleSubmit(complaint: Card) returns (o: Outcome)
      ensures o.Submit? <==> selectedWorker != complaint.worker || Some(selectedStatus) != complaint.status
      ensures o.Submit? ==> o.id == complaint.id && o.update.Keys <= {"assignedWorker", "status"}
      ensures o.Submit? ==>
        && ("assignedWorker" in o.update <==> selectedWorker != complaint.worker)
        && ("assignedWorker" in o.update ==>
              o.update["assignedWorker"] == if selectedWorker == "" then Null else Str(selectedWorker))
      ensures AutoAssign(complaint, selectedWorker, selectedStatus) ==>
        o.Submit? && "status" in o.update && o.update["status"] == Str("assigned")
      ensures AutoUnassign(complaint, selectedWorker, selectedStatus) ==>
        o.Submit? && "status" in o.update && o.update["status"] == Str("pending")
      ensures (o.Submit? && !AutoAssign(complaint, selectedWorker, selectedStatus)
               && !AutoUnassign(complaint, selectedWorker, selectedStatus)) ==>
        && ("status" in o.update <==> Some(selectedStatus) != complaint.status)
        && ("status" in o.update ==> o.update["status"] == Str(selectedStatus))
      // whatever it sends differs from what the complaint already has
      ensures o.Submit? && "status" in o.update ==>
        o.update["status"].Str? && Some(o.update["status"].s) != complaint.status
      // submitting the selections the dialog opened with sends nothing,
      // unless the complaint had no status: then 'pending' is sent
      ensures selectedWorker == complaint.worker && selectedStatus == OrElse(complaint.status, "pending") ==>
        (o.Close? <==> Common.Truthy(complaint.status))
    {
      var update: map<string, Json> := map[];
      if selectedWorker != complaint.worker {
        update := update["assignedWorker" := if selectedWorker == "" then Null else Str(selectedWorker)];
      }
      if Some(selectedStatus) != complaint.status {
        update := update["status" := Str(selectedStatus)];
      }
      if "assignedWorker" in update && update["assignedWorker"] != Null
         && complaint.status == Some("pending") && selectedStatus == "pending" {
        update := update["status" := Str("assigned")];
      } else if "assignedWorker" in update && update["assignedWorker"] == Null
         && complaint.status == Some("assigned") && selectedStatus == "assigned" {
        update := update["status" := Str("pending")];
      }
      if |update| > 0 {
        o := Submit(complaint.id, update);
      } else {
        o := Close;
      }
    }
  }
}

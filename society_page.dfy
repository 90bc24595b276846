/** The admin's society page (app/admin/dashboard/society/page.jsx): the
    fields a save sends, and how the page's copies of the society change
    on save, on failure and on cancel. */
module SocietyPage {
  import opened Common
  import opened FormValue

  /** A society's properties as the page holds them. */
  type Fields = map<string, Value>

  /** `obj.key`, `None` for undefined. */
  function Field(m: Fields, key: string): Option<Value> {
    if key in m then Some(m[key]) else None
  }

  /** `a !== b` on two properties: equal primitives (or both undefined)
      are the same; two objects are compared by identity, which the
      model never establishes, so they count as different. */
  predicate Differs(a: Option<Value>, b: Option<Value>) {
    !(a == b && (a.None? || !(a.value.List? || a.value.Record?)))
  }

  /** The properties compared one by one (page.jsx:46-49). */
  const Compared: set<string> := {"name", "address", "pincode", "photo"}

  /** What the save request answered: the stored society, or an error
      message. */
  datatype Answer = Saved(data: Value) | Failed(message: string)

  /** `changedData` (page.jsx:46-54): each compared property whose form
      value differs from the original, and the location when its JSON
      text differs; each carries the form's value. */
  method ChangedData(form: Fields, original: Fields) returns (changed: map<string, Option<Value>>)
    ensures changed.Keys <= Compared + {"location"}
    ensures forall k | k in Compared ::
      (k in changed <==> Differs(Field(form, k), Field(original, k)))
    ensures "location" in changed <==> Field(form, "location") != Field(original, "location")
    ensures forall k | k in changed :: changed[k] == Field(form, k)
    // an unedited form whose compared properties are plain values changes nothing
    ensures (form == original && forall k | k in Compared && k in form :: !(form[k].List? || form[k].Record?))
      ==> changed == map[]
  {
    changed := map[];
    if Differs(Field(form, "name"), Field(original, "name")) {
      changed := changed["name" := Field(form, "name")];
    }
    if Differs(Field(form, "address"), Field(original, "address")) {
      changed := changed["address" := Field(form, "address")];
    }
    if Differs(Field(form, "pincode"), Field(original, "pincode")) {
      changed := changed["pincode" := Field(form, "pincode")];
    }
    if Differs(Field(form, "photo"), Field(original, "photo")) {
      changed := changed["photo" := Field(form, "photo")];
    }
    if Field(form, "location") != Field(original, "location") {
      changed := changed["location" := Field(form, "location")];
    }
  }

  /** `response.data.society || response.data`. */
  function Stored(data: Value): Value {
    Or(Prop(Some(data), "society"), data)
  }

  class Page {
    var society: Value
    var original: Value
    var isEditing: bool
    var isSubmitting: bool
    var error: Option<string>

    /** `handleSaveChanges(form)` (page.jsx:44-80) with `answer` the
        outcome of the PUT. No change sends nothing and ends editing; a
        saved society becomes both copies; a failure keeps the original,
        reverts the edited copy and shows the message. The form is only
        shown once the society is loaded, so `original` is an object. */
    method SaveChanges(form: Fields, answer: Answer) returns (sent: Option<map<string, Option<Value>>>)
      requires original.Record?
      modifies this
      ensures sent.Some? ==> forall k | k in Compared ::
        (k in sent.value <==> Differs(Field(form, k), Field(old(original).fields, k)))
      ensures sent.Some? ==>
        ("location" in sent.value <==> Field(form, "location") != Field(old(original).fields, "location"))
      ensures sent.Some? ==> sent.value != map[] && forall k | k in sent.value :: sent.value[k] == Field(form, k)
      ensures sent.None? ==>
        && (forall k | k in Compared :: !Differs(Field(form, k), Field(old(original).fields, k)))
        && Field(form, "location") == Field(old(original).fields, "location")
        && society == old(society) && original == old(original) && !isEditing && error.None?
      ensures sent.Some? && answer.Saved? ==>
        original == Stored(answer.data) && society == original && !isEditing && error.None?
      ensures sent.Some? && answer.Failed? ==>
        original == old(original) && society == old(original) && isEditing == old(isEditing)
        && error == Some(answer.message)
      ensures !isSubmitting
    {
      isSubmitting := true;
      error := None;
      var changed := ChangedData(form, original.fields);
      if |changed| == 0 {
        isEditing := false;
        isSubmitting := false;
        return None;
      }
      sent := Some(changed);
      match answer {
        case Saved(data) =>
          var updated := Stored(data);
          original := updated;
          society := updated;
          isEditing := false;
        case Failed(message) =>
          error := Some(message);
          society := original;
      }
      isSubmitting := false;
    }

    /** `handleCancelEdit` (page.jsx:82-86): the edited copy goes back to
        the original, editing ends and the error is cleared. */
    method CancelEdit()
      modifies this
      ensures society == original == old(original) && !isEditing && error.None?
      ensures isSubmitting == old(isSubmitting)
    {
      society := original;
      isEditing := false;
      error := None;
    }
  }
}

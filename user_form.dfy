/** The admin's resident form (components/admin/UserForm.jsx): its initial
    state, the change handlers, the car-number list kept in step with the
    number of cars, and what the form submits. */
module UserForm {
  import opened Common
  import opened Sorting
  import opened FormValue

  /** The form's state object. */
  type State = map<string, Value>

  const Fields := {"name", "email", "password", "houseNo", "flatNo", "age", "noOfCars", "carNumbers", "photo"}

  /** `getInitialState(data)` (UserForm.jsx:14-26): each field from the
      resident being edited when truthy, else its default; the password
      always starts empty. `data` is `None` when adding a resident. */
  function InitialState(data: Option<Value>): (r: State)
    ensures r.Keys == Fields
    ensures r["password"] == Text("")
    ensures r["name"] == Or(Prop(data, "name"), Text("")) && r["email"] == Or(Prop(data, "email"), Text(""))
    ensures r["houseNo"] == Or(Prop(data, "houseNo"), Text("")) && r["flatNo"] == Or(Prop(data, "flatNo"), Text(""))
    ensures r["age"] == Or(Prop(data, "age"), Text(""))
    ensures r["noOfCars"] == Or(Prop(data, "noOfCars"), Num(0))
    ensures r["carNumbers"] == Or(Prop(data, "carNumbers"), List([]))
    ensures r["photo"] == InitialPhoto(Prop(data, "photo"))
  {
    map k | k in Fields :: InitialField(data, k)
  }

  /** The initial value of one field. */
  function InitialField(data: Option<Value>, k: string): Value {
    if k == "password" then Text("")
    else if k == "noOfCars" then Or(Prop(data, k), Num(0))
    else if k == "carNumbers" then Or(Prop(data, k), List([]))
    else if k == "photo" then InitialPhoto(Prop(data, k))
    else Or(Prop(data, k), Text(""))
  }

  /** The photo of the initial state (UserForm.jsx:22-25): its url, and
      whether it is verified, which defaults to false. */
  function InitialPhoto(photo: Option<Value>): (r: Value)
    ensures r.Record? && r.fields.Keys == {"url", "isVerified"}
    ensures r.fields["url"] == Or(Prop(photo, "url"), Text(""))
    ensures r.fields["isVerified"] == Or(Prop(photo, "isVerified"), Flag(false))
  {
    Record(map["url" := Or(Prop(photo, "url"), Text("")), "isVerified" := Or(Prop(photo, "isVerified"), Flag(false))])
  }

  /** Initialising from a state the form itself built gives that state
      back, with the password cleared. */
  lemma {:induction false} InitialStateStable(data: Option<Value>)
    ensures InitialState(Some(Record(InitialState(data)))) == InitialState(data)
  {
    var s := InitialState(data);
    var t := InitialState(Some(Record(s)));
    assert Prop(Some(Record(s)), "photo") == Some(s["photo"]);
    forall k | k in Fields ensures t[k] == s[k] {
    }
  }

  // ---------------------------------------------------------------------
  // Change handler

  /** `{ ...(pointer[key] || {}) }`: a copy of the object under `key`, or
      a new empty one. */
  function Spread(m: State, key: string): State {
    if key in m && m[key].Record? then m[key].fields else map[]
  }

  /** The state after setting the leaf at `keys` to `v`, copying each
      object on the way down and creating the missing ones. */
  function SetPath(m: State, keys: seq<string>, v: Value): (r: State)
    requires |keys| > 0
    ensures r.Keys == m.Keys + {keys[0]}
    ensures forall k | k in m && k != keys[0] :: r[k] == m[k]
    decreases |keys|
  {
    if |keys| == 1 then m[keys[0] := v]
    else m[keys[0] := Record(SetPath(Spread(m, keys[0]), keys[1..], v))]
  }

  /** Reading the path back gives the value just set. */
  lemma {:induction false} GetSetPath(m: State, keys: seq<string>, v: Value)
    requires |keys| > 0
    ensures Get(SetPath(m, keys, v), keys) == Some(v)
    decreases |keys|
  {
    if |keys| > 1 {
      GetSetPath(Spread(m, keys[0]), keys[1..], v);
    }
  }

  /** Every path that leaves `keys` somewhere reads what it read before:
      only the addressed leaf changes. */
  lemma {:induction false} SetPathLeavesOthers(m: State, keys: seq<string>, v: Value, p: seq<string>, j: nat)
    requires j < |keys| && j < |p| && p[..j] == keys[..j] && p[j] != keys[j]
    ensures Get(SetPath(m, keys, v), p) == Get(m, p)
    decreases j
  {
    if j > 0 {
      assert p[0] == keys[..j][0];
      assert p[1..][..j - 1] == keys[1..][..j - 1];
      SetPathLeavesOthers(Spread(m, keys[0]), keys[1..], v, p[1..], j - 1);
      if !(keys[0] in m && m[keys[0]].Record?) {
        GetEmpty(p[1..]);
      }
    }
  }

  /** `handleChange(e, path)` (UserForm.jsx:34-51): walks down the path
      copying each object, then sets the leaf to the input's value. */
  method HandleChange(prev: State, id: string, path: Option<string>, input: Input) returns (r: State)
    ensures r == SetPath(prev, PathKeys(id, path), InputValue(input))
  {
    var keys := PathKeys(id, path);
    var leaf := InputValue(input);
    // chain[i] is the (copied) object the pointer reaches after i steps
    var chain: seq<State> := [prev];
    for i := 0 to |keys| - 1
      invariant |chain| == i + 1 && chain[0] == prev
      invariant forall j | 0 <= j < i :: chain[j + 1] == Spread(chain[j], keys[j])
    {
      chain := chain + [Spread(chain[i], keys[i])];
    }
    var d := |keys| - 1;
    r := chain[d][keys[d] := leaf];
    while d > 0
      invariant 0 <= d < |keys|
      invariant r == SetPath(chain[d], keys[d..], leaf)
    {
      d := d - 1;
      assert keys[d..][1..] == keys[d + 1..];
      r := chain[d][keys[d] := Record(r)];
    }
    assert keys[0..] == keys;
  }

  // ---------------------------------------------------------------------
  // Car numbers

  /** `prev.carNumbers || []`. */
  function Cars(s: State): seq<Value> {
    if "carNumbers" in s && s["carNumbers"].List? then s["carNumbers"].items else []
  }

  /** `handleCarNumberChange(index, value)` (UserForm.jsx:54-61): the list
      is padded with '' until `index` is inside it, then that entry is
      set; every other entry is kept. */
  method CarNumberChange(prev: State, index: nat, value: string) returns (r: State)
    ensures r.Keys == prev.Keys + {"carNumbers"}
    ensures forall k | k in prev && k != "carNumbers" :: r[k] == prev[k]
    ensures r["carNumbers"].List?
    ensures |Cars(r)| == if index < |Cars(prev)| then |Cars(prev)| else index + 1
    ensures Cars(r)[index] == Text(value)
    ensures forall i | 0 <= i < |Cars(r)| && i != index ::
      Cars(r)[i] == if i < |Cars(prev)| then Cars(prev)[i] else Text("")
  {
    var cars := Cars(prev);
    while |cars| <= index
      invariant |Cars(prev)| <= |cars|
      invariant |cars| <= if index < |Cars(prev)| then |Cars(prev)| else index + 1
      invariant forall i | 0 <= i < |cars| :: cars[i] == if i < |Cars(prev)| then Cars(prev)[i] else Text("")
    {
      cars := cars + [Text("")];
    }
    cars := cars[index := Text(value)];
    r := prev["carNumbers" := List(cars)];
  }

  /** `Array(n).fill('')`. */
  function Blanks(n: nat): (r: seq<Value>)
    ensures |r| == n && forall i | 0 <= i < n :: r[i] == Text("")
  {
    if n == 0 then [] else Blanks(n - 1) + [Text("")]
  }

  /** The effect run when the number of cars changes (UserForm.jsx:64-82):
      a short list is padded with '', a long one cut with
      `slice(0, noOfCars)` (which, for a negative count, drops that many
      from the end), and a list of the right length is left alone. */
  function Resized(s: State): (r: State)
    ensures s.Keys <= r.Keys <= s.Keys + {"carNumbers"}
    ensures forall k | k in s && k != "carNumbers" :: r[k] == s[k]
    ensures var n := NumberOf(if "noOfCars" in s then s["noOfCars"] else Undefined);
      && (n >= 0 ==> |Cars(r)| == n)
      && (n < 0 ==> |Cars(r)| == if |Cars(s)| + n > 0 then |Cars(s)| + n else 0)
      && (forall i | 0 <= i < |Cars(r)| :: Cars(r)[i] == if i < |Cars(s)| then Cars(s)[i] else Text(""))
    ensures |Cars(s)| == NumberOf(if "noOfCars" in s then s["noOfCars"] else Undefined) ==> r == s
  {
    var n := NumberOf(if "noOfCars" in s then s["noOfCars"] else Undefined);
    var cars := Cars(s);
    if |cars| < n then s["carNumbers" := List(cars + Blanks(n - |cars|))]
    else if |cars| > n then
      var end := if n >= 0 then n else if |cars| + n > 0 then |cars| + n else 0;
      s["carNumbers" := List(cars[..end])]
    else s
  }

  /** With a non-negative count, running the effect again changes nothing. */
  lemma {:induction false} ResizedStable(s: State)
    requires NumberOf(if "noOfCars" in s then s["noOfCars"] else Undefined) >= 0
    ensures Resized(Resized(s)) == Resized(s)
  {
    var r := Resized(s);
    assert "noOfCars" in r <==> "noOfCars" in s;
    assert "noOfCars" in s ==> r["noOfCars"] == s["noOfCars"];
  }

  // ---------------------------------------------------------------------
  // Submit

  /** `cn && cn.trim() !== ''`. */
  predicate KeepCar(v: Value) {
    v.Text? && !Blank(v.s)
  }

  /** `.trim()` is only called on truthy entries; a truthy entry that is
      not a text makes it throw. */
  predicate CarsReadable(cars: seq<Value>) {
    forall i | 0 <= i < |cars| :: IsTruthy(cars[i]) ==> cars[i].Text?
  }

  /** `handleFormSubmit` (UserForm.jsx:85-98): the password is left out
      when editing or when it is empty, and the car numbers are the
      non-blank ones in their order; `None` is the throw of a non-text
      car number. */
  function Submitted(s: State, isEditing: bool): (r: Option<State>)
    ensures r.Some? <==> CarsReadable(Cars(s))
    ensures r.Some? ==>
      && ("password" in r.value <==> !isEditing && "password" in s && IsTruthy(s["password"]))
      && ("password" in r.value ==> r.value["password"] == s["password"])
      && r.value.Keys == s.Keys - {"password"} + {"carNumbers"} + (if "password" in r.value then {"password"} else {})
      && (forall k | k in s && k != "password" && k != "carNumbers" :: r.value[k] == s[k])
      && r.value["carNumbers"] == List(Filter(Cars(s), KeepCar))
  {
    if !CarsReadable(Cars(s)) then None
    else
      var kept := if isEditing || !("password" in s && IsTruthy(s["password"])) then s - {"password"} else s;
      Some(kept["carNumbers" := List(Filter(Cars(s), KeepCar))])
  }

  /** The submitted car numbers are exactly the non-blank entries, in the
      order the form had them: dropping blanks commutes with joining two
      parts of the list. */
  lemma {:induction false} SubmittedCarsInOrder(s: State, isEditing: bool, i: nat)
    requires Submitted(s, isEditing).Some? && i <= |Cars(s)|
    ensures Submitted(s, isEditing).value["carNumbers"].items
      == Filter(Cars(s)[..i], KeepCar) + Filter(Cars(s)[i..], KeepCar)
  {
    assert Cars(s) == Cars(s)[..i] + Cars(s)[i..];
    FilterAppend(Cars(s)[..i], Cars(s)[i..], KeepCar);
  }
}

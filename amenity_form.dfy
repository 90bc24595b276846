/** The admin's amenity form (components/admin/AmenityForm.jsx): its initial
    state, the path setters, the rule, timing and photo list operations and
    what the form submits. */
module AmenityForm {
  import opened Common
  import opened Sorting
  import opened FormValue

  /** The form's state object. */
  type State = map<string, Value>

  /** `defaultTiming` and `defaultPhoto` (AmenityForm.jsx:15-16). */
  const DefaultTiming := Record(map["day" := Text("monday"), "openTime" := Text("09:00"),
                                    "closeTime" := Text("21:00"), "maintenanceTime" := Text("")])
  const DefaultPhoto := Record(map["url" := Text(""), "caption" := Text("")])

  /** `Array.isArray(v) && v.length > 0 ? v : [fallback]`. */
  function NonEmptyList(v: Option<Value>, fallback: Value): (r: Value)
    ensures r.List? && |r.items| > 0
    ensures v.Some? && v.value.List? && |v.value.items| > 0 ==> r == v.value
    ensures !(v.Some? && v.value.List? && |v.value.items| > 0) ==> r == List([fallback])
  {
    if v.Some? && v.value.List? && |v.value.items| > 0 then v.value else List([fallback])
  }

  /** The pricing of the initial state (AmenityForm.jsx:29-34): each
      setting as stored when truthy, else not chargeable at rate 0. */
  function InitialPricing(pricing: Option<Value>): (r: Value)
    ensures r.Record?
    ensures r.fields.Keys == {"isChargeable", "hourlyRate", "monthlyRate", "yearlyRate"}
    ensures r.fields["isChargeable"] == Or(Prop(pricing, "isChargeable"), Flag(false))
    ensures forall k | k in {"hourlyRate", "monthlyRate", "yearlyRate"} :: r.fields[k] == Or(Prop(pricing, k), Num(0))
  {
    Record(map[
      "isChargeable" := Or(Prop(pricing, "isChargeable"), Flag(false)),
      "hourlyRate" := Or(Prop(pricing, "hourlyRate"), Num(0)),
      "monthlyRate" := Or(Prop(pricing, "monthlyRate"), Num(0)),
      "yearlyRate" := Or(Prop(pricing, "yearlyRate"), Num(0))])
  }

  /** The keys of the form's state (AmenityForm.jsx:41-45). */
  const Fields := {"name", "type", "description", "capacity", "location", "photos", "timings", "rules",
                   "status", "pricing", "amenityManager"}

  /** The initial value of one field (AmenityForm.jsx:35-45). */
  function InitialField(data: Option<Value>, k: string): Value {
    if k == "capacity" then Or(Prop(data, k), Num(0))
    else if k == "status" then Or(Prop(data, k), Text("operational"))
    else if k == "pricing" then InitialPricing(Prop(data, k))
    else if k == "amenityManager" then Or(Prop(Prop(data, k), "_id"), Or(Prop(data, k), Text("")))
    else if k == "photos" then NonEmptyList(Prop(data, k), DefaultPhoto)
    else if k == "timings" then NonEmptyList(Prop(data, k), DefaultTiming)
    else if k == "rules" then NonEmptyList(Prop(data, k), Text(""))
    else Or(Prop(data, k), Text(""))
  }

  /** `getInitialState(data)` (AmenityForm.jsx:28-47): every list starts
      with at least one entry (a default one when none is stored), and the
      other fields take their stored value when truthy, else their
      default. `data` is `None` when adding an amenity. */
  function InitialState(data: Option<Value>): (r: State)
    ensures r.Keys == Fields
    ensures forall k | k in {"photos", "timings", "rules"} :: r[k].List? && |r[k].items| > 0
    ensures Prop(data, "photos").None? ==> r["photos"] == List([DefaultPhoto])
    ensures Prop(data, "timings").None? ==> r["timings"] == List([DefaultTiming])
    ensures Prop(data, "rules").None? ==> r["rules"] == List([Text("")])
    ensures r["status"] == Or(Prop(data, "status"), Text("operational"))
    ensures r["capacity"] == Or(Prop(data, "capacity"), Num(0))
    ensures r["pricing"] == InitialPricing(Prop(data, "pricing"))
    ensures Prop(data, "amenityManager").None? ==> r["amenityManager"] == Text("")
    ensures forall k | k in {"name", "type", "description", "location"} :: r[k] == Or(Prop(data, k), Text(""))
  {
    map k | k in Fields :: InitialField(data, k)
  }

  // ---------------------------------------------------------------------
  // Path setters

  /** A value with no unwritten array slot and no `undefined` in it. */
  predicate NoHoles(v: Value) {
    match v
    case Hole => false
    case Undefined => false
    case List(items) => forall i | 0 <= i < |items| :: NoHoles(items[i])
    case Record(f) => forall k | k in f :: NoHoles(f[k])
    case _ => true
  }

  /** No property of a value without holes is `undefined`. */
  lemma NoHolesDefined(v: Value)
    requires v.Record?
    ensures NoHoles(v) ==> forall k | k in v.fields :: !v.fields[k].Undefined?
  {
    forall k | k in v.fields && NoHoles(v)
      ensures !v.fields[k].Undefined?
    {
      assert NoHoles(v.fields[k]);
    }
  }

  /** `JSON.parse(JSON.stringify(v))`: the deep copy the setters start
      from, which turns an unwritten array slot or an `undefined` entry
      into null and drops a property that is `undefined`. */
  function Copy(v: Value): (r: Value)
    ensures NoHoles(r)
    ensures NoHoles(v) ==> r == v
    ensures v.Record? ==> r.Record? && forall k :: k in r.fields <==> k in v.fields && !v.fields[k].Undefined?
  {
    match v
    case Hole => Null
    case Undefined => Null
    case List(items) =>
      var c := seq(|items|, i requires 0 <= i < |items| => Copy(items[i]));
      assert NoHoles(v) ==> c == items;
      List(c)
    case Record(f) =>
      var c := map k | k in f && !f[k].Undefined? :: Copy(f[k]);
      NoHolesDefined(v);
      assert NoHoles(v) ==> c.Keys == f.Keys;
      assert NoHoles(v) ==> c == f;
      Record(c)
    case _ => v
  }

  function CopyState(m: State): (r: State)
    ensures forall k :: k in r <==> k in m && !m[k].Undefined?
    ensures forall k | k in r :: NoHoles(r[k]) && (NoHoles(m[k]) ==> r[k] == m[k])
  {
    map k | k in m && !m[k].Undefined? :: Copy(m[k])
  }

  /** One step of the walk (AmenityForm.jsx:56-59): a missing or falsy
      entry is replaced by a new object; `None` is a truthy entry that is
      not an object, where setting a property does not build a state. */
  function Step(m: State, key: string): Option<State> {
    if key !in m || !IsTruthy(m[key]) then Some(map[])
    else if m[key].Record? then Some(m[key].fields)
    else None
  }

  /** The state after setting the leaf at `keys` to `v`. */
  function SetIn(m: State, keys: seq<string>, v: Value): (r: Option<State>)
    requires |keys| > 0
    ensures |keys| == 1 ==> r == Some(m[keys[0] := v])
    ensures r.Some? ==> r.value.Keys == m.Keys + {keys[0]}
    ensures r.Some? ==> forall k | k in m && k != keys[0] :: r.value[k] == m[k]
    decreases |keys|
  {
    if |keys| == 1 then Some(m[keys[0] := v])
    else
      match Step(m, keys[0])
      case None => None
      case Some(child) =>
        match SetIn(child, keys[1..], v)
        case None => None
        case Some(c) => Some(m[keys[0] := Record(c)])
  }

  /** Reading the path back gives the value just set. */
  lemma {:induction false} GetSetIn(m: State, keys: seq<string>, v: Value)
    requires |keys| > 0 && SetIn(m, keys, v).Some?
    ensures Get(SetIn(m, keys, v).value, keys) == Some(v)
    decreases |keys|
  {
    if |keys| > 1 {
      GetSetIn(Step(m, keys[0]).value, keys[1..], v);
    }
  }

  /** Every path that leaves `keys` somewhere reads what it read before,
      except that a falsy entry on the way has become an object. */
  lemma {:induction false} SetInLeavesOthers(m: State, keys: seq<string>, v: Value, p: seq<string>, j: nat)
    requires j < |keys| && j < |p| && p[..j] == keys[..j] && p[j] != keys[j]
    requires SetIn(m, keys, v).Some?
    ensures Get(SetIn(m, keys, v).value, p) == Get(m, p)
    decreases j
  {
    if j > 0 {
      assert p[0] == keys[..j][0];
      assert p[1..][..j - 1] == keys[1..][..j - 1];
      var child := Step(m, keys[0]).value;
      SetInLeavesOthers(child, keys[1..], v, p[1..], j - 1);
      if !(keys[0] in m && m[keys[0]].Record?) {
        GetEmpty(p[1..]);
      }
    }
  }

  /** Setting below a step that reaches `child` sets that entry to the
      child with the value set in it. */
  lemma {:induction false} SetInStep(m: State, keys: seq<string>, v: Value, child: State, c: State)
    requires |keys| > 1 && Step(m, keys[0]) == Some(child) && SetIn(child, keys[1..], v) == Some(c)
    ensures SetIn(m, keys, v) == Some(m[keys[0] := Record(c)])
  {
  }

  /** A walk that meets a non-object at step `i` sets nothing. */
  lemma {:induction false} SetInFails(chain: seq<State>, keys: seq<string>, v: Value, i: nat)
    requires i < |keys| - 1 && i < |chain|
    requires forall j | 0 <= j < i :: Step(chain[j], keys[j]) == Some(chain[j + 1])
    requires Step(chain[i], keys[i]).None?
    ensures SetIn(chain[0], keys, v).None?
    decreases i
  {
    if i > 0 {
      SetInFails(chain[1..], keys[1..], v, i - 1);
    }
  }

  /** The walk every setter makes (AmenityForm.jsx:52-65, 66-78, 79-91):
      deep-copy the state, walk down the keys creating missing objects,
      set the leaf. */
  method SetLeaf(prev: State, keys: seq<string>, leaf: Value) returns (r: Option<State>)
    requires |keys| > 0
    ensures r == SetIn(CopyState(prev), keys, leaf)
  {
    var current := CopyState(prev);
    // chain[i] is the object the pointer reaches after i steps
    var chain: seq<State> := [current];
    for i := 0 to |keys| - 1
      invariant |chain| == i + 1 && chain[0] == current
      invariant forall j | 0 <= j < i :: Step(chain[j], keys[j]) == Some(chain[j + 1])
    {
      var next := Step(chain[i], keys[i]);
      if next.None? {
        SetInFails(chain, keys, leaf, i);
        return None;
      }
      chain := chain + [next.value];
    }
    var d := |keys| - 1;
    var acc := chain[d][keys[d] := leaf];
    while d > 0
      invariant 0 <= d < |keys|
      invariant SetIn(chain[d], keys[d..], leaf) == Some(acc)
    {
      d := d - 1;
      assert keys[d..][1..] == keys[d + 1..];
      SetInStep(chain[d], keys[d..], leaf, chain[d + 1], acc);
      acc := chain[d][keys[d] := Record(acc)];
    }
    assert keys[0..] == keys;
    return Some(acc);
  }

  /** `handleInputChange(e, path)`: the leaf is the input's value. */
  method InputChange(prev: State, id: string, path: Option<string>, input: Input) returns (r: Option<State>)
    ensures r == SetIn(CopyState(prev), PathKeys(id, path), InputValue(input))
  {
    r := SetLeaf(prev, PathKeys(id, path), InputValue(input));
  }

  /** `handleSelectChange(id, value, path)`: the leaf is the chosen text. */
  method SelectChange(prev: State, id: string, value: string, path: Option<string>) returns (r: Option<State>)
    ensures r == SetIn(CopyState(prev), PathKeys(id, path), Text(value))
  {
    r := SetLeaf(prev, PathKeys(id, path), Text(value));
  }

  /** `handleSwitchChange(id, checked, path)`: the leaf is the switch. */
  method SwitchChange(prev: State, id: string, checked: bool, path: Option<string>) returns (r: Option<State>)
    ensures r == SetIn(CopyState(prev), PathKeys(id, path), Flag(checked))
  {
    r := SetLeaf(prev, PathKeys(id, path), Flag(checked));
  }

  // ---------------------------------------------------------------------
  // List operations

  /** `prev[key] || []` for a list field. */
  function Items(s: State, key: string): seq<Value> {
    if key in s && s[key].List? then s[key].items else []
  }

  /** A list with no unwritten slot. */
  predicate Dense(items: seq<Value>) {
    forall i | 0 <= i < |items| :: !items[i].Hole?
  }

  /** `[...items]`: spreading reads every slot, so an unwritten one
      becomes `undefined`. */
  function Spread(items: seq<Value>): (r: seq<Value>)
    ensures |r| == |items| && Dense(r)
    ensures forall i | 0 <= i < |items| :: r[i] == if items[i].Hole? then Undefined else items[i]
    ensures Dense(items) ==> r == items
  {
    seq(|items|, i requires 0 <= i < |items| => if items[i].Hole? then Undefined else items[i])
  }

  /** `[...(prev[key] || []), x]`: `addRule`, `addTiming`, `addPhoto`
      (AmenityForm.jsx:96, 103, 112). */
  function Append(s: State, key: string, x: Value): (r: State)
    ensures Items(r, key) == Spread(Items(s, key)) + [x]
    ensures Dense(Items(s, key)) ==> Items(r, key) == Items(s, key) + [x]
    ensures r.Keys == s.Keys + {key}
    ensures forall k | k in s && k != key :: r[k] == s[k]
  {
    s[key := List(Spread(Items(s, key)) + [x])]
  }

  /** The list with the entry at `index` taken out, when there is one. */
  function Drop(items: seq<Value>, index: int): seq<Value> {
    if 0 <= index < |items| then items[..index] + items[index + 1..] else items
  }

  /** The entries that are really there, in order: `filter` never visits
      an unwritten slot. */
  function Slots(items: seq<Value>): seq<Value> {
    if items == [] then []
    else if items[0].Hole? then Slots(items[1..])
    else [items[0]] + Slots(items[1..])
  }

  lemma {:induction false} SlotsSnoc(items: seq<Value>, last: Value)
    ensures Slots(items + [last]) == Slots(items) + (if last.Hole? then [] else [last])
    decreases |items|
  {
    if items == [] {
      assert ([] + [last])[1..] == [];
    } else {
      assert (items + [last])[1..] == items[1..] + [last];
      SlotsSnoc(items[1..], last);
    }
  }

  /** The slots of a list leave no unwritten slot. */
  lemma {:induction false} SlotsAreDense(items: seq<Value>)
    ensures Dense(Slots(items))
    decreases |items|
  {
    if items != [] {
      SlotsAreDense(items[1..]);
    }
  }

  /** A list without unwritten slots is all slots. */
  lemma {:induction false} SlotsDense(items: seq<Value>)
    requires Dense(items)
    ensures Slots(items) == items
    decreases |items|
  {
    if items != [] {
      SlotsDense(items[1..]);
    }
  }

  /** The slots of a list with one more entry at its end. */
  lemma {:induction false} SlotsDropSnoc(init: seq<Value>, last: Value, index: int)
    ensures Slots(Drop(init + [last], index))
         == if index == |init| then Slots(Drop(init, index))
            else Slots(Drop(init, index)) + (if last.Hole? then [] else [last])
  {
    var items := init + [last];
    if index == |init| {
      assert Drop(items, index) == init == Drop(init, index);
    } else {
      if 0 <= index < |init| {
        assert items[index + 1..] == init[index + 1..] + [last];
      }
      assert Drop(items, index) == Drop(init, index) + [last];
      SlotsSnoc(Drop(init, index), last);
    }
  }

  /** On a list without unwritten slots, the filter takes out exactly the
      entry at the index. */
  lemma {:induction false} WithoutDense(items: seq<Value>, index: int)
    requires Dense(items)
    ensures Without(items, index) == Drop(items, index)
  {
    var d := Drop(items, index);
    forall i | 0 <= i < |d|
      ensures !d[i].Hole?
    {
      if 0 <= index < |items| {
        assert d[i] == if i < index then items[i] else items[i + 1];
      }
    }
    SlotsDense(d);
  }

  /** Taking out an entry inside the list moves the later ones up by one. */
  lemma {:induction false} DropShifts(items: seq<Value>, index: int)
    requires 0 <= index < |items|
    ensures |Drop(items, index)| == |items| - 1
    ensures forall i | 0 <= i < |items| - 1 :: Drop(items, index)[i] == if index <= i then items[i + 1] else items[i]
  {
  }

  /** `items.filter((_, i) => i !== index)`, slot by slot: the entry at
      `index` and every unwritten slot are left out. */
  function Without(items: seq<Value>, index: int): (r: seq<Value>)
    ensures r == Slots(Drop(items, index))
  {
    if items == [] then []
    else
      var init := items[..|items| - 1];
      var last := items[|items| - 1];
      var rest := Without(init, index);
      assert items == init + [last];
      SlotsDropSnoc(init, last, index);
      if |items| - 1 != index && !last.Hole? then rest + [last] else rest
  }

  /** `removeRule`, `removeTiming`, `removePhoto` (AmenityForm.jsx:100,
      109, 118): exactly the entry at `index` goes, the others keep their
      order; the filter also drops any unwritten slot. */
  function Remove(s: State, key: string, index: int): (r: State)
    ensures Items(r, key) == Slots(Drop(Items(s, key), index))
    ensures Dense(Items(s, key)) && !(0 <= index < |Items(s, key)|) ==> Items(r, key) == Items(s, key)
    ensures Dense(Items(s, key)) && 0 <= index < |Items(s, key)| ==>
      && |Items(r, key)| == |Items(s, key)| - 1
      && Items(r, key) == Items(s, key)[..index] + Items(s, key)[index + 1..]
    ensures r.Keys == s.Keys + {key}
    ensures forall k | k in s && k != key :: r[k] == s[k]
  {
    var r := s[key := List(Without(Items(s, key), index))];
    if Dense(Items(s, key)) then WithoutDense(Items(s, key), index); r else r
  }

  /** The list a remove leaves has no unwritten slot. */
  lemma {:induction false} RemoveLeavesDense(s: State, key: string, index: int)
    ensures Dense(Items(Remove(s, key, index), key))
  {
    SlotsAreDense(Drop(Items(s, key), index));
  }

  /** Adding an entry and removing it again gives the list back, with
      any unwritten slot read as `undefined` by the spread. */
  lemma {:induction false} RemoveUndoesAppend(s: State, key: string, x: Value)
    ensures Items(Remove(Append(s, key, x), key, |Items(s, key)|), key) == Spread(Items(s, key))
    ensures Dense(Items(s, key)) ==> Items(Remove(Append(s, key, x), key, |Items(s, key)|), key) == Items(s, key)
  {
    var items := Spread(Items(s, key));
    assert Drop(items + [x], |items|) == items;
    SlotsDense(items);
  }

  /** `newRules[index] = value` on the spread copy (AmenityForm.jsx:97-99):
      inside the list the entry is replaced; past its end the list grows,
      leaving unwritten slots before the new entry; a negative index names
      no entry. The copy has read every earlier unwritten slot as
      `undefined`. */
  function UpdateRule(s: State, index: int, value: string): (r: State)
    ensures index < 0 ==> Items(r, "rules") == Spread(Items(s, "rules"))
    ensures 0 <= index ==>
      && |Items(r, "rules")| == (if index < |Items(s, "rules")| then |Items(s, "rules")| else index + 1)
      && Items(r, "rules")[index] == Text(value)
      && forall i | 0 <= i < |Items(r, "rules")| && i != index ::
           Items(r, "rules")[i] == if i < |Items(s, "rules")| then Spread(Items(s, "rules"))[i] else Hole
    ensures Dense(Items(s, "rules")) && 0 <= index <= |Items(s, "rules")| ==> Dense(Items(r, "rules"))
    ensures r.Keys == s.Keys + {"rules"}
    ensures forall k | k in s && k != "rules" :: r[k] == s[k]
  {
    var items := Spread(Items(s, "rules"));
    if index < 0 then s["rules" := List(items)]
    else if index < |items| then s["rules" := List(items[index := Text(value)])]
    else s["rules" := List(items + seq(index - |items|, _ => Hole) + [Text(value)])]
  }

  /** `{ ...entry, [field]: value }` on one entry of a list of objects. */
  function WithField(entry: Value, field: string, value: string): Value {
    Record((if entry.Record? then entry.fields else map[])[field := Text(value)])
  }

  /** `updateTiming`, `updatePhoto` (AmenityForm.jsx:104-108, 113-117),
      on the spread copy: an entry that exists gets the one field set and
      keeps the others; an index with no entry changes nothing but the
      spread's reading of unwritten slots as `undefined`. */
  function UpdateEntry(s: State, key: string, index: int, field: string, value: string): (r: State)
    ensures |Items(r, key)| == |Items(s, key)|
    ensures !(0 <= index < |Items(s, key)| && IsTruthy(Items(s, key)[index])) ==> Items(r, key) == Spread(Items(s, key))
    ensures forall i | 0 <= i < |Items(s, key)| && i != index :: Items(r, key)[i] == Spread(Items(s, key))[i]
    ensures Dense(Items(s, key)) ==> forall i | 0 <= i < |Items(s, key)| && i != index :: Items(r, key)[i] == Items(s, key)[i]
    ensures (0 <= index < |Items(s, key)| && IsTruthy(Items(s, key)[index])) ==>
      && Items(r, key)[index].Record?
      && Get(Items(r, key)[index].fields, [field]) == Some(Text(value))
      && Items(r, key)[index].fields.Keys
           == (if Items(s, key)[index].Record? then Items(s, key)[index].fields.Keys else {}) + {field}
      && (Items(s, key)[index].Record? ==>
            forall f | f in Items(s, key)[index].fields && f != field ::
              Items(r, key)[index].fields[f] == Items(s, key)[index].fields[f])
    ensures r.Keys == s.Keys + {key}
    ensures forall k | k in s && k != key :: r[k] == s[k]
  {
    var items := Spread(Items(s, key));
    if 0 <= index < |items| && IsTruthy(items[index]) then
      s[key := List(items[index := WithField(items[index], field, value)])]
    else s[key := List(items)]
  }

  // ---------------------------------------------------------------------
  // Submit

  /** `r.trim() !== ''` on a rule; the filter skips unwritten slots. */
  predicate KeepRule(v: Value) {
    v.Text? && !Blank(v.s)
  }

  /** `p.url.trim() !== ''` on a photo. */
  predicate KeepPhoto(v: Value) {
    v.Record? && "url" in v.fields && v.fields["url"].Text? && !Blank(v.fields["url"].s)
  }

  /** The entries the submit filters can read: a rule that is not a text
      (`undefined` included), or a photo without a text `url`, makes `trim`
      throw; the filters never visit an unwritten slot. */
  predicate RulesReadable(rules: seq<Value>) {
    forall i | 0 <= i < |rules| :: rules[i].Hole? || rules[i].Text?
  }

  predicate PhotosReadable(photos: seq<Value>) {
    forall i | 0 <= i < |photos| ::
      photos[i].Hole? || (photos[i].Record? && "url" in photos[i].fields && photos[i].fields["url"].Text?)
  }

  /** `handleInternalSubmit` (AmenityForm.jsx:121-130): an empty manager
      becomes null, blank rules and photos without a url are dropped in
      order, and the timings go as they are; `None` is a throw. */
  function Submitted(s: State): (r: Option<State>)
    ensures r.Some? <==> RulesReadable(Items(s, "rules")) && PhotosReadable(Items(s, "photos"))
    ensures r.Some? ==>
      && r.value.Keys == s.Keys + {"rules", "photos"}
      && r.value["rules"] == List(Filter(Items(s, "rules"), KeepRule))
      && r.value["photos"] == List(Filter(Items(s, "photos"), KeepPhoto))
      && ("amenityManager" in s ==>
            r.value["amenityManager"] == if s["amenityManager"] == Text("") then Null else s["amenityManager"])
      && (forall k | k in s && k !in {"rules", "photos", "amenityManager"} :: r.value[k] == s[k])
  {
    if !RulesReadable(Items(s, "rules")) || !PhotosReadable(Items(s, "photos")) then None
    else
      var m := if "amenityManager" in s && s["amenityManager"] == Text("") then s["amenityManager" := Null] else s;
      Some(m["rules" := List(Filter(Items(s, "rules"), KeepRule))]["photos" := List(Filter(Items(s, "photos"), KeepPhoto))])
  }

  /** A rule slot left unwritten by an update past the end is read as
      `undefined` by the next add, and the submit then throws on it. */
  lemma {:induction false} HoleThenAddRuleThrows(s: State, i: int)
    requires 0 <= i < |Items(s, "rules")| && Items(s, "rules")[i].Hole?
    ensures Submitted(Append(s, "rules", Text(""))).None?
  {
    assert Items(Append(s, "rules", Text("")), "rules")[i] == Undefined;
  }

  /** What is submitted for rules and photos is what a second submit
      would keep: the filtered lists are already clean. */
  lemma {:induction false} SubmittedListsClean(s: State)
    requires Submitted(s).Some?
    ensures forall i | 0 <= i < |Submitted(s).value["rules"].items| :: KeepRule(Submitted(s).value["rules"].items[i])
    ensures forall i | 0 <= i < |Submitted(s).value["photos"].items| :: KeepPhoto(Submitted(s).value["photos"].items[i])
  {
  }
}

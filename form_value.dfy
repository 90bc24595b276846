/** The values a client form keeps in its state object, read the way the
    forms' handlers read them (components/admin/UserForm.jsx,
    components/admin/AmenityForm.jsx). */
module FormValue {
  import opened Common

  /** A value of a form's state: `Hole` is an array slot that was never
      written (what assigning past the end of an array leaves behind), and
      `Undefined` is the value `undefined` (what spreading such an array
      reads from a hole). */
  datatype Value =
    | Null
    | Hole
    | Undefined
    | Flag(b: bool)
    | Num(n: int)
    | Text(s: string)
    | List(items: seq<Value>)
    | Record(fields: map<string, Value>)

  /** JavaScript truthiness. */
  predicate IsTruthy(v: Value) {
    match v
    case Null => false
    case Hole => false
    case Undefined => false
    case Flag(b) => b
    case Num(n) => n != 0
    case Text(s) => s != ""
    case List(_) => true
    case Record(_) => true
  }

  /** `a || b`, where `None` is `undefined`. */
  function Or(a: Option<Value>, b: Value): (r: Value)
    ensures a.Some? && IsTruthy(a.value) ==> r == a.value
    ensures !(a.Some? && IsTruthy(a.value)) ==> r == b
  {
    if a.Some? && IsTruthy(a.value) then a.value else b
  }

  /** `v?.key`. */
  function Prop(v: Option<Value>, key: string): (r: Option<Value>)
    ensures r.Some? <==> v.Some? && v.value.Record? && key in v.value.fields
    ensures r.Some? ==> r.value == v.value.fields[key]
  {
    if v.Some? && v.value.Record? && key in v.value.fields then Some(v.value.fields[key]) else None
  }

  /** `Number(v) || 0` on a stored value: a number is itself, a numeric
      text its value, `true` is 1, and everything else (NaN included) 0. */
  function NumberOf(v: Value): (r: int)
    ensures v.Num? ==> r == v.n
    ensures !IsTruthy(v) ==> r == 0
  {
    match v
    case Num(n) => n
    case Flag(b) => if b then 1 else 0
    case Text(s) => (match NumberOfText(s) case Some(n) => n case None => 0)
    case _ => 0
  }

  /** A change event as the handlers read it (`type`, `value`, `checked`). */
  datatype Input = TextInput(value: string) | NumberInput(value: string) | Checkbox(checked: bool)

  /** `type === 'checkbox' ? checked : type === 'number' ? Number(value) || 0 : value`. */
  function InputValue(i: Input): (r: Value)
    ensures i.Checkbox? ==> r == Flag(i.checked)
    ensures i.TextInput? ==> r == Text(i.value)
    ensures i.NumberInput? ==> r.Num?
    ensures i.NumberInput? && AllDigits(i.value) && i.value != [] ==> r == Num(DigitsValue(i.value))
    ensures i.NumberInput? && Blank(i.value) ==> r == Num(0)
  {
    match i
    case Checkbox(c) => Flag(c)
    case TextInput(s) => Text(s)
    case NumberInput(s) => Num(NumberOf(Text(s)))
  }

  /** The value a dotted path leads to in a state object, if any. */
  function Get(m: map<string, Value>, path: seq<string>): Option<Value>
    requires |path| > 0
    decreases |path|
  {
    if path[0] !in m then None
    else if |path| == 1 then Some(m[path[0]])
    else if m[path[0]].Record? then Get(m[path[0]].fields, path[1..])
    else None
  }

  lemma GetEmpty(path: seq<string>)
    requires |path| > 0
    ensures Get(map[], path) == None
  {
  }

  /** `s.split('.')`. */
  function Split(s: string): (r: seq<string>)
    ensures |r| > 0
    ensures forall i, j | 0 <= i < |r| && 0 <= j < |r[i]| :: r[i][j] != '.'
  {
    if s == [] then [""]
    else
      var rest := Split(s[1..]);
      if s[0] == '.' then [""] + rest else [[s[0]] + rest[0]] + rest[1..]
  }

  /** `parts.join('.')`. */
  function Join(parts: seq<string>): string
    requires |parts| > 0
  {
    if |parts| == 1 then parts[0] else parts[0] + "." + Join(parts[1..])
  }

  /** Splitting loses nothing: joining the parts back gives the text. */
  lemma {:induction false} JoinSplit(s: string)
    ensures Join(Split(s)) == s
  {
    if s != [] {
      JoinSplit(s[1..]);
      var rest := Split(s[1..]);
      if s[0] != '.' && |rest| > 1 {
        assert rest == [rest[0]] + rest[1..];
        assert ([[s[0]] + rest[0]] + rest[1..])[1..] == rest[1..];
      }
    }
  }

  /** The keys a change handler walks: `path ? path.split('.') : [id]`. */
  function PathKeys(id: string, path: Option<string>): (r: seq<string>)
    ensures |r| > 0
    ensures Common.Truthy(path) ==> Join(r) == path.value
    ensures !Common.Truthy(path) ==> r == [id]
  {
    if Common.Truthy(path) then JoinSplit(path.value); Split(path.value) else [id]
  }
}

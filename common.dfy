/** Shared vocabulary of the gate and lifecycle model: optional values,
    handler outcomes, MongoDB object ids and the clock arithmetic that
    replaces `Date` and date-fns. */
module Common {

  datatype Option<T> = None | Some(value: T)

  /** What a route handler answers: a value with a 2xx code, or an error
      status (400, 401, 403, 404, 500). */
  datatype Reply<T> = Ok(value: T) | Err(status: int)

  const BadRequest := 400
  const Unauthorized := 401
  const Forbidden := 403
  const NotFound := 404
  const ServerError := 500

  predicate IsHexDigit(c: char) {
    ('0' <= c <= '9') || ('a' <= c <= 'f') || ('A' <= c <= 'F')
  }

  /** The value of a hexadecimal digit, -1 for any other character. */
  function HexValue(c: char): (r: int)
    ensures -1 <= r < 16
    ensures r >= 0 <==> IsHexDigit(c)
  {
    if '0' <= c <= '9' then c as int - '0' as int
    else if 'a' <= c <= 'f' then c as int - 'a' as int + 10
    else if 'A' <= c <= 'F' then c as int - 'A' as int + 10
    else -1
  }

  /** `mongoose.Types.ObjectId.isValid` on a string: 24 hexadecimal digits. */
  predicate IsObjectId(s: string) {
    |s| == 24 && forall i | 0 <= i < |s| :: IsHexDigit(s[i])
  }

  predicate IsLowerHexDigit(c: char) {
    ('0' <= c <= '9') || ('a' <= c <= 'f')
  }

  /** The `_id` of a stored document and every reference to one, written
      as `ObjectId.toString()` writes it: 24 lower-case hexadecimal digits. */
  type ObjectId = s: string | |s| == 24 && forall i | 0 <= i < |s| :: IsLowerHexDigit(s[i])
    witness "000000000000000000000000"

  function LowerHexDigit(c: char): (r: char)
    requires IsHexDigit(c)
    ensures IsLowerHexDigit(r) && HexValue(r) == HexValue(c)
  {
    if 'A' <= c <= 'F' then (c as int - 'A' as int + 'a' as int) as char else c
  }

  /** JavaScript truthiness of an optional string field: present and not "". */
  predicate Truthy(o: Option<string>) {
    o.Some? && o.value != ""
  }

  /** `o || fallback` on an optional string. */
  function OrElse(o: Option<string>, fallback: string): (r: string)
    ensures Truthy(o) ==> r == o.value
    ensures !Truthy(o) ==> r == fallback
  {
    if Truthy(o) then o.value else fallback
  }

  /** The id a string casts to (mongoose's ObjectId cast): defined exactly
      on the strings `isValid` accepts, digit for digit the same number. */
  function AsObjectId(s: string): (r: Option<ObjectId>)
    ensures r.Some? <==> IsObjectId(s)
    ensures r.Some? ==> forall i | 0 <= i < 24 :: HexValue(r.value[i]) == HexValue(s[i])
  {
    if IsObjectId(s) then
      var id: ObjectId := seq(24, i requires 0 <= i < 24 => LowerHexDigit(s[i]));
      Some(id)
    else None
  }

  /** Two lower-case digits of the same value are the same character. */
  lemma LowerHexInjective(a: char, b: char)
    requires IsLowerHexDigit(a) && IsLowerHexDigit(b) && HexValue(a) == HexValue(b)
    ensures a == b
  {
  }

  /** Casting an id's own text gives the id back. */
  lemma {:induction false} CastOwnText(id: ObjectId)
    ensures AsObjectId(id) == Some(id)
  {
    assert IsObjectId(id);
    var r := AsObjectId(id).value;
    forall i | 0 <= i < 24
      ensures r[i] == id[i]
    {
      LowerHexInjective(r[i], id[i]);
    }
    assert r == id;
  }

  // ---------------------------------------------------------------------
  // JavaScript string helpers

  /** ECMAScript WhiteSpace and LineTerminator: what `trim()` removes. */
  predicate IsJsSpace(c: char) {
    c == ' ' || c == '\t' || c == '\n' || c == '\r' || c as int == 0x0B || c as int == 0x0C
    || c as int == 0xA0 || c as int == 0x1680 || (0x2000 <= c as int <= 0x200A)
    || c as int == 0x2028 || c as int == 0x2029 || c as int == 0x202F || c as int == 0x205F
    || c as int == 0x3000 || c as int == 0xFEFF
  }

  /** `s.trim() === ''`: nothing but white space. */
  predicate Blank(s: string) {
    forall i | 0 <= i < |s| :: IsJsSpace(s[i])
  }

  /** How many white-space characters `s` starts with. */
  function LeadingSpace(s: string): (n: nat)
    ensures n <= |s| && Blank(s[..n]) && (n < |s| ==> !IsJsSpace(s[n]))
  {
    if s == [] || !IsJsSpace(s[0]) then 0
    else
      var n := LeadingSpace(s[1..]);
      assert s[..n + 1] == [s[0]] + s[1..][..n];
      n + 1
  }

  /** How many white-space characters `s` ends with. */
  function TrailingSpace(s: string): (n: nat)
    ensures n <= |s| && Blank(s[|s| - n..]) && (n < |s| ==> !IsJsSpace(s[|s| - n - 1]))
  {
    if s == [] || !IsJsSpace(s[|s| - 1]) then 0
    else
      var t := s[..|s| - 1];
      var n := TrailingSpace(t);
      assert s[|s| - (n + 1)..] == t[|t| - n..] + [s[|s| - 1]];
      n + 1
  }

  lemma BlankConcat(x: string, y: string)
    requires Blank(x) && Blank(y)
    ensures Blank(x + y)
  {
    assert forall i | |x| <= i < |x + y| :: (x + y)[i] == y[i - |x|];
  }

  /** `s.trim()`: white space removed from both ends. */
  function Trim(s: string): (r: string)
    ensures Blank(s) <==> r == []
    ensures r != [] ==> !IsJsSpace(r[0]) && !IsJsSpace(r[|r| - 1])
  {
    var a := LeadingSpace(s);
    var t := s[a..];
    var b := TrailingSpace(t);
    var r := t[..|t| - b];
    TrimParts(s, a, t, b, r);
    r
  }

  lemma {:induction false} TrimParts(s: string, a: nat, t: string, b: nat, r: string)
    requires a <= |s| && Blank(s[..a]) && (a < |s| ==> !IsJsSpace(s[a])) && t == s[a..]
    requires b <= |t| && Blank(t[|t| - b..]) && (b < |t| ==> !IsJsSpace(t[|t| - b - 1])) && r == t[..|t| - b]
    ensures Blank(s) <==> r == []
    ensures r != [] ==> !IsJsSpace(r[0]) && !IsJsSpace(r[|r| - 1])
  {
    assert a < |s| ==> IsJsSpace(s[a]) || !Blank(s);
    if r == [] {
      assert t == t[|t| - b..];
      assert s == s[..a] + t;
      BlankConcat(s[..a], t);
    }
    if r != [] {
      assert r[0] == s[a];
      assert r[|r| - 1] == t[|t| - b - 1];
    }
  }

  function DigitChar(d: int): (c: char)
    requires 0 <= d < 10
    ensures '0' <= c <= '9'
  {
    ('0' as int + d) as char
  }

  /** `n.toString()` for a non-negative integer. */
  function NatText(n: nat): (r: string)
    ensures r != [] && forall i | 0 <= i < |r| :: '0' <= r[i] <= '9'
  {
    if n < 10 then [DigitChar(n)] else NatText(n / 10) + [DigitChar(n % 10)]
  }

  /** The value of a run of decimal digits. */
  function DigitsValue(s: string): (n: nat)
    requires forall i | 0 <= i < |s| :: '0' <= s[i] <= '9'
  {
    if s == [] then 0 else DigitsValue(s[..|s| - 1]) * 10 + (s[|s| - 1] as int - '0' as int)
  }

  /** Reading back what `NatText` writes. */
  lemma {:induction false} NatTextValue(n: nat)
    ensures DigitsValue(NatText(n)) == n
  {
    if n >= 10 {
      NatTextValue(n / 10);
      var r := NatText(n);
      assert r[..|r| - 1] == NatText(n / 10);
    }
  }

  predicate AllDigits(s: string) {
    forall i | 0 <= i < |s| :: '0' <= s[i] <= '9'
  }

  lemma TrimDigits(s: string)
    ensures AllDigits(s) && s != [] ==> Trim(s) == s
  {
    if AllDigits(s) && s != [] {
      assert LeadingSpace(s) == 0 && s[0..] == s;
      assert TrailingSpace(s) == 0 && s[..|s|] == s;
    }
  }

  /** `Number(s)` on a string holding a whole decimal number, with
      optional white space around it and an optional sign; a blank
      string is 0. `None` stands for NaN. */
  function NumberOfText(s: string): (r: Option<int>)
    ensures Blank(s) ==> r == Some(0)
    ensures AllDigits(s) && s != [] ==> r == Some(DigitsValue(s))
  {
    TrimDigits(s);
    var t := Trim(s);
    if t == [] then Some(0)
    else
      var sign := if t[0] == '-' then -1 else 1;
      var digits := if t[0] == '-' || t[0] == '+' then t[1..] else t;
      if digits != [] && AllDigits(digits) then Some(sign * DigitsValue(digits)) else None
  }

  // Timestamps are milliseconds; days are whole days since the epoch.
  const HourMs := 3600000
  const DayMs := 24 * HourMs

  /** A non-empty date string of a request as `new Date(text)` or
      `parseISO(text)` reads it: an instant, or the Invalid Date. */
  datatype DateText = At(ms: int) | InvalidDate

  /** The calendar day of a timestamp (what `format(t, 'yyyy-MM-dd')` names). */
  function DayOf(t: int): int {
    t / DayMs
  }

  /** date-fns `startOfDay` for the day `d`. */
  function StartOfDay(d: int): int {
    d * DayMs
  }

  /** date-fns `endOfDay`: the last millisecond of day `d`. */
  function EndOfDay(d: int): int {
    d * DayMs + DayMs - 1
  }

  lemma DayBounds(t: int)
    ensures StartOfDay(DayOf(t)) <= t <= EndOfDay(DayOf(t))
  {
  }

  /** A day filter AS WRITTEN in the admin delivery-log and booking
      routes: `$gte startOfDay(day)` and `$lt endOfDay(day)`. `endOfDay` is already
      the last millisecond of the day, so `$lt` leaves that millisecond out. */
  predicate InDayAsWritten(t: int, d: int) {
    StartOfDay(d) <= t < EndOfDay(d)
  }

  /** A record stamped in the last millisecond of a day belongs to that
      day, yet the window as written does not list it. */
  lemma LastMillisecondMissed(d: int)
    ensures DayOf(EndOfDay(d)) == d && !InDayAsWritten(EndOfDay(d), d)
  {
    DayBounds(EndOfDay(d));
  }

  /** The window as written holds exactly the timestamps of that day but
      its last millisecond. */
  lemma {:induction false} InDayAsWrittenIsDayOf(t: int, d: int)
    ensures InDayAsWritten(t, d) <==> DayOf(t) == d && t != EndOfDay(d)
  {
    DayBounds(t);
  }

  /** The intended day window: from the start of the day through its end. */
  predicate InDay(t: int, d: int) {
    StartOfDay(d) <= t <= EndOfDay(d)
  }

  /** The corrected window holds exactly the timestamps of that day. */
  lemma {:induction false} InDayIsDayOf(t: int, d: int)
    ensures InDay(t, d) <==> DayOf(t) == d
  {
    DayBounds(t);
  }
}

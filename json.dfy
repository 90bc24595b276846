/** JSON text as ECMAScript's `JSON.parse` reads it and `JSON.stringify`
    writes it (the grammar of RFC 8259). The QR credential of an amenity
    booking travels in this form. Numbers are kept as their source text. */
module JsonText {
  import opened Common
  import Sorting

  datatype Json =
    | Null
    | Bool(b: bool)
    | Number(text: string)
    | Str(s: string)
    | Arr(items: seq<Json>)
    | Obj(members: seq<Member>)

  /** One `"key": value` pair, in the order it appears in the text. */
  datatype Member = Member(key: string, value: Json)

  // ---------------------------------------------------------------------
  // Reading

  predicate IsWs(c: char) {
    c == ' ' || c == '\t' || c == '\n' || c == '\r'
  }

  predicate IsDigit(c: char) {
    '0' <= c <= '9'
  }

  /** Drops leading JSON whitespace. */
  function SkipWs(s: string): (r: string)
    ensures |r| <= |s| && r == s[|s| - |r|..]
    ensures r == [] || !IsWs(r[0])
  {
    if s != [] && IsWs(s[0]) then SkipWs(s[1..]) else s
  }

  /** The value of four hexadecimal digits at the head of `s`. */
  function HexQuad(s: string): (r: Option<int>)
    ensures r.Some? ==> 0 <= r.value < 0x10000
  {
    if |s| < 4 || !IsHexDigit(s[0]) || !IsHexDigit(s[1]) || !IsHexDigit(s[2]) || !IsHexDigit(s[3]) then None
    else Some(((HexValue(s[0]) * 16 + HexValue(s[1])) * 16 + HexValue(s[2])) * 16 + HexValue(s[3]))
  }

  /** The character named by the code unit(s) after a `\u`. A high
      surrogate escaped right before a low one names one character; a lone surrogate, which a
      Dafny character cannot hold, reads as U+FFFD. */
  function ParseUnicode(t: string): (r: Option<(char, string)>)
    ensures r.Some? ==> |r.value.1| <= |t| - 4
  {
    match HexQuad(t)
    case None => None
    case Some(n) =>
      if 0xD800 <= n < 0xDC00 && |t| >= 10 && t[4] == '\\' && t[5] == 'u'
         && HexQuad(t[6..]).Some? && 0xDC00 <= HexQuad(t[6..]).value < 0xE000
      then
        var cp := 0x10000 + (n - 0xD800) * 0x400 + (HexQuad(t[6..]).value - 0xDC00);
        Some((cp as char, t[10..]))
      else if 0xD800 <= n < 0xE000 then Some((0xFFFD as char, t[4..]))
      else Some((n as char, t[4..]))
  }

  /** One character of a string literal: a plain character (not a control
      character) or an escape sequence. */
  function ParseChar(s: string): (r: Option<(char, string)>)
    requires s != [] && s[0] != '"'
    ensures r.Some? ==> |r.value.1| < |s|
  {
    if s[0] == '\\' then
      if |s| < 2 then None
      else if s[1] == '"' then Some(('"', s[2..]))
      else if s[1] == '\\' then Some(('\\', s[2..]))
      else if s[1] == '/' then Some(('/', s[2..]))
      else if s[1] == 'b' then Some((8 as char, s[2..]))
      else if s[1] == 'f' then Some((12 as char, s[2..]))
      else if s[1] == 'n' then Some(('\n', s[2..]))
      else if s[1] == 'r' then Some(('\r', s[2..]))
      else if s[1] == 't' then Some(('\t', s[2..]))
      else if s[1] == 'u' then ParseUnicode(s[2..])
      else None
    else if s[0] < ' ' then None
    else Some((s[0], s[1..]))
  }

  /** The body of a string literal up to its closing quote: the characters
      it denotes and the text after the quote. */
  function ParseChars(s: string): (r: Option<(string, string)>)
    ensures r.Some? ==> |r.value.1| < |s|
  {
    if s == [] then None
    else if s[0] == '"' then Some(([], s[1..]))
    else match ParseChar(s)
      case None => None
      case Some((c, t)) =>
        match ParseChars(t)
        case None => None
        case Some((cs, u)) => Some(([c] + cs, u))
  }

  /** How many decimal digits `s` starts with. */
  function LeadingDigits(s: string): (n: nat)
    ensures n <= |s|
    ensures forall i | 0 <= i < n :: IsDigit(s[i])
    ensures n < |s| ==> !IsDigit(s[n])
  {
    if s != [] && IsDigit(s[0]) then 1 + LeadingDigits(s[1..]) else 0
  }

  /** The length of the number token `-? (0 | [1-9][0-9]*) (. [0-9]+)? ([eE] [+-]? [0-9]+)?`
      at the head of `s`, if there is one. */
  function NumberLength(s: string): (r: Option<nat>)
    ensures r.Some? ==> 0 < r.value <= |s|
  {
    var i := if s != [] && s[0] == '-' then 1 else 0;
    if i >= |s| || !IsDigit(s[i]) then None
    else
      var j := if s[i] == '0' then i + 1 else i + LeadingDigits(s[i..]);
      var fraction := if j < |s| && s[j] == '.' then LeadingDigits(s[j + 1..]) else 0;
      if j < |s| && s[j] == '.' && fraction == 0 then None
      else
        var k := if j < |s| && s[j] == '.' then j + 1 + fraction else j;
        if k < |s| && (s[k] == 'e' || s[k] == 'E') then
          var m := if k + 1 < |s| && (s[k + 1] == '+' || s[k + 1] == '-') then k + 2 else k + 1;
          var exponent := LeadingDigits(s[m..]);
          if exponent == 0 then None else Some(m + exponent)
        else Some(k)
  }

  /** One JSON value after optional whitespace, and the text after it. */
  function ParseValue(s: string): (r: Option<(Json, string)>)
    ensures r.Some? ==> |r.value.1| < |s|
    decreases |s|, 2
  {
    var t := SkipWs(s);
    if t == [] then None else ParseToken(t)
  }

  /** The value whose first character heads `t`. */
  function ParseToken(t: string): (r: Option<(Json, string)>)
    requires t != []
    ensures r.Some? ==> |r.value.1| < |t|
    decreases |t|, 1
  {
    if t[0] == '{' then ParseObject(t[1..])
    else if t[0] == '[' then ParseArray(t[1..])
    else if t[0] == '"' then
      match ParseChars(t[1..])
      case None => None
      case Some((cs, rest)) => Some((Str(cs), rest))
    else if |t| >= 4 && t[..4] == "null" then Some((Null, t[4..]))
    else if |t| >= 4 && t[..4] == "true" then Some((Bool(true), t[4..]))
    else if |t| >= 5 && t[..5] == "false" then Some((Bool(false), t[5..]))
    else match NumberLength(t)
      case None => None
      case Some(n) => Some((Number(t[..n]), t[n..]))
  }

  /** An array after its `[`. */
  function ParseArray(s: string): (r: Option<(Json, string)>)
    ensures r.Some? ==> |r.value.1| < |s|
    decreases |s|, 4
  {
    var u := SkipWs(s);
    if u != [] && u[0] == ']' then Some((Arr([]), u[1..]))
    else match ParseItems(s)
      case None => None
      case Some((vs, rest)) => Some((Arr(vs), rest))
  }

  /** An object after its `{`. */
  function ParseObject(s: string): (r: Option<(Json, string)>)
    ensures r.Some? ==> |r.value.1| < |s|
    decreases |s|, 4
  {
    var u := SkipWs(s);
    if u != [] && u[0] == '}' then Some((Obj([]), u[1..]))
    else match ParseMembers(s)
      case None => None
      case Some((ms, rest)) => Some((Obj(ms), rest))
  }

  function ConsItem(v: Json, r: Option<(seq<Json>, string)>): Option<(seq<Json>, string)> {
    match r
    case None => None
    case Some((vs, u)) => Some(([v] + vs, u))
  }

  function ConsMember(m: Member, r: Option<(seq<Member>, string)>): Option<(seq<Member>, string)> {
    match r
    case None => None
    case Some((ms, u)) => Some(([m] + ms, u))
  }

  /** `value (, value)* ]`: the elements of a non-empty array. */
  function ParseItems(s: string): (r: Option<(seq<Json>, string)>)
    ensures r.Some? ==> |r.value.1| < |s|
    decreases |s|, 3
  {
    match ParseValue(s)
    case None => None
    case Some((v, rest)) => AfterItem(v, rest)
  }

  /** What follows an element: `]`, or `,` and more elements. */
  function AfterItem(v: Json, rest: string): (r: Option<(seq<Json>, string)>)
    ensures r.Some? ==> |r.value.1| < |rest|
    decreases |rest|, 3
  {
    var t := SkipWs(rest);
    if t == [] then None
    else if t[0] == ']' then Some(([v], t[1..]))
    else if t[0] == ',' then ConsItem(v, ParseItems(t[1..]))
    else None
  }

  /** `"key": value (, "key": value)* }`: the members of a non-empty object. */
  function ParseMembers(s: string): (r: Option<(seq<Member>, string)>)
    ensures r.Some? ==> |r.value.1| < |s|
    decreases |s|, 3
  {
    var t := SkipWs(s);
    if t == [] || t[0] != '"' then None
    else match ParseChars(t[1..])
      case None => None
      case Some((key, rest)) => AfterKey(key, rest)
  }

  /** What follows a member's key: `:` and its value. */
  function AfterKey(key: string, rest: string): (r: Option<(seq<Member>, string)>)
    ensures r.Some? ==> |r.value.1| < |rest|
    decreases |rest|, 3
  {
    var u := SkipWs(rest);
    if u == [] || u[0] != ':' then None
    else match ParseValue(u[1..])
      case None => None
      case Some((v, rest2)) => AfterMember(Member(key, v), rest2)
  }

  /** What follows a member: `}`, or `,` and more members. */
  function AfterMember(m: Member, rest: string): (r: Option<(seq<Member>, string)>)
    ensures r.Some? ==> |r.value.1| < |rest|
    decreases |rest|, 3
  {
    var w := SkipWs(rest);
    if w == [] then None
    else if w[0] == '}' then Some(([m], w[1..]))
    else if w[0] == ',' then ConsMember(m, ParseMembers(w[1..]))
    else None
  }

  /** `JSON.parse(s)`: one value, surrounded by nothing but whitespace; `None` where it throws. */
  function Parse(s: string): (r: Option<Json>)
    // an empty or blank text throws
    ensures SkipWs(s) == [] ==> r.None?
    // a value parsed from a text is all of it, up to trailing white space
    ensures r.Some? ==> exists rest :: ParseValue(s) == Some((r.value, rest)) && SkipWs(rest) == []
  {
    match ParseValue(s)
    case None => None
    case Some((v, rest)) => if SkipWs(rest) == [] then Some(v) else None
  }

  /** `obj[key]` on a parsed object: the last member with that key wins,
      as it does when `JSON.parse` builds the object. */
  function Lookup(ms: seq<Member>, key: string): (r: Option<Json>)
    ensures r.None? <==> forall i | 0 <= i < |ms| :: ms[i].key != key
    ensures r.Some? ==> Member(key, r.value) in ms
  {
    if ms == [] then None
    else if ms[|ms| - 1].key == key then Some(ms[|ms| - 1].value)
    else
      var r := Lookup(ms[..|ms| - 1], key);
      assert forall i | 0 <= i < |ms| - 1 :: ms[..|ms| - 1][i] == ms[i];
      r
  }

  /** A member added at the end decides its key, and hides every earlier
      member with that key. */
  lemma LookupSnoc(ms: seq<Member>, m: Member, key: string)
    ensures Lookup(ms + [m], key) == if m.key == key then Some(m.value) else Lookup(ms, key)
  {
    assert (ms + [m])[..|ms|] == ms;
  }

  /** The property `key` of a parsed value; `None` is `undefined`. */
  function Property(v: Json, key: string): Option<Json> {
    if v.Obj? then Lookup(v.members, key) else None
  }

  /** Number text whose value is zero (`0`, `-0`, `0.00e7`): the falsy numbers. */
  predicate NumberIsZero(text: string) {
    forall i | 0 <= i < |text| :: (text[i] == 'e' || text[i] == 'E') || (IsDigit(text[i]) ==> text[i] == '0')
      || (exists k | 0 <= k < i :: text[k] == 'e' || text[k] == 'E')
  }

  /** JavaScript truthiness of a parsed value. */
  predicate Truthy(v: Json) {
    match v
    case Null => false
    case Bool(b) => b
    case Number(text) => !NumberIsZero(text)
    case Str(s) => s != ""
    case Arr(_) => true
    case Obj(_) => true
  }

  // ---------------------------------------------------------------------
  // Writing

  function HexDigitChar(n: int): (c: char)
    requires 0 <= n < 16
    ensures HexValue(c) == n
  {
    if n < 10 then ('0' as int + n) as char else ('a' as int + n - 10) as char
  }

  /** How `JSON.stringify` writes one character inside a string literal. */
  function EscapeChar(c: char): string {
    if c == '"' then "\\\""
    else if c == '\\' then "\\\\"
    else if c as int == 8 then "\\b"
    else if c as int == 12 then "\\f"
    else if c == '\n' then "\\n"
    else if c == '\r' then "\\r"
    else if c == '\t' then "\\t"
    else if c < ' ' then "\\u00" + [HexDigitChar(c as int / 16), HexDigitChar(c as int % 16)]
    else [c]
  }

  function Escape(s: string): string {
    if s == [] then [] else EscapeChar(s[0]) + Escape(s[1..])
  }

  function Quote(s: string): string {
    "\"" + Escape(s) + "\""
  }

  /** `JSON.stringify(v)` without indentation. */
  function Stringify(v: Json): (r: string)
    // without indentation nothing but a number's own text can start with white space
    ensures !v.Number? ==> r != [] && !IsWs(r[0])
    decreases v
  {
    match v
    case Null => "null"
    case Bool(b) => if b then "true" else "false"
    case Number(text) => text
    case Str(s) => Quote(s)
    case Arr(items) => "[" + StringifyItems(items) + "]"
    case Obj(ms) => "{" + StringifyMembers(ms) + "}"
  }

  function StringifyItems(items: seq<Json>): string
    decreases items
  {
    if items == [] then []
    else if |items| == 1 then Stringify(items[0])
    else Stringify(items[0]) + "," + StringifyItems(items[1..])
  }

  function StringifyMembers(ms: seq<Member>): string
    decreases ms
  {
    if ms == [] then []
    else
      var m := Quote(ms[0].key) + ":" + Stringify(ms[0].value);
      if |ms| == 1 then m else m + "," + StringifyMembers(ms[1..])
  }

  /** Values with no number in them: their text cannot run into what follows. */
  predicate NoNumbers(v: Json)
    decreases v
  {
    match v
    case Number(_) => false
    case Arr(items) => forall i | 0 <= i < |items| :: NoNumbers(items[i])
    case Obj(ms) => forall i | 0 <= i < |ms| :: NoNumbers(ms[i].value)
    case _ => true
  }

  // ---------------------------------------------------------------------
  // Round trip: JSON.parse(JSON.stringify(v)) gives v back

  lemma {:induction false} EscapeCharReads(c: char, rest: string)
    ensures EscapeChar(c) != [] && EscapeChar(c)[0] != '"'
    ensures ParseChar(EscapeChar(c) + rest) == Some((c, rest))
  {
    var e := EscapeChar(c);
    if c < ' ' && c != '\n' && c != '\r' && c != '\t' && c as int != 8 && c as int != 12 {
      var hi, lo := c as int / 16, c as int % 16;
      var t := [HexDigitChar(0), HexDigitChar(0), HexDigitChar(hi), HexDigitChar(lo)] + rest;
      assert e + rest == ['\\', 'u'] + t;
      assert (e + rest)[2..] == t;
      assert t[4..] == rest;
      assert HexQuad(t) == Some(c as int);
    } else if c >= ' ' && c != '"' && c != '\\' {
      assert e == [c];
      assert (e + rest)[1..] == rest;
    } else {
      assert |e| == 2 && (e + rest)[2..] == rest;
    }
  }

  lemma {:induction false} EscapeReads(s: string, rest: string)
    ensures ParseChars(Escape(s) + "\"" + rest) == Some((s, rest))
    decreases |s|
  {
    if s == [] {
      assert Escape(s) + "\"" + rest == "\"" + rest;
    } else {
      var tail := Escape(s[1..]) + "\"" + rest;
      assert Escape(s) + "\"" + rest == EscapeChar(s[0]) + tail;
      EscapeCharReads(s[0], tail);
      EscapeReads(s[1..], rest);
      Sorting.HeadTail(s);
    }
  }

  lemma {:induction false} StringifyStart(v: Json)
    requires NoNumbers(v)
    ensures Stringify(v) != []
    ensures var c := Stringify(v)[0]; c == 'n' || c == 't' || c == 'f' || c == '"' || c == '[' || c == '{'
  {
  }

  lemma {:induction false} SkipNoWs(s: string)
    requires s != [] && !IsWs(s[0])
    ensures SkipWs(s) == s
  {
  }

  /** A value that starts with a string literal. */
  lemma {:induction false} TokenString(t: string)
    requires t != [] && t[0] == '"'
    ensures ParseValue(t) ==
      match ParseChars(t[1..])
      case None => None
      case Some((cs, rest)) => Some((Str(cs), rest))
  {
    SkipNoWs(t);
  }

  lemma {:induction false} ReadsString(x: string, rest: string)
    ensures ParseValue(Quote(x) + rest) == Some((Str(x), rest))
  {
    var body := Escape(x) + "\"" + rest;
    var s := ['"'] + body;
    assert Quote(x) + rest == s;
    assert s[1..] == body;
    EscapeReads(x, rest);
    TokenString(s);
  }

  lemma {:induction false} ReadsLiteral(v: Json, rest: string)
    requires v.Null? || v.Bool?
    ensures ParseValue(Stringify(v) + rest) == Some((v, rest))
  {
    var s := Stringify(v) + rest;
    SkipNoWs(s);
    if v.Null? {
      assert s[..4] == "null" && s[4..] == rest;
    } else if v.b {
      assert s[..4] == "true" && s[4..] == rest;
    } else {
      assert s[..4] == "fals" && s[..5] == "false" && s[5..] == rest;
    }
  }

  /** A value that starts with `[` or `{`. */
  lemma {:induction false} TokenBracket(t: string)
    requires t != [] && (t[0] == '[' || t[0] == '{')
    ensures t[0] == '[' ==> ParseValue(t) == ParseArray(t[1..])
    ensures t[0] == '{' ==> ParseValue(t) == ParseObject(t[1..])
  {
    SkipNoWs(t);
  }

  lemma {:induction false} ArrayEmpty(rest: string)
    ensures ParseArray([']'] + rest) == Some((Arr([]), rest))
  {
    SkipNoWs([']'] + rest);
    assert ([']'] + rest)[1..] == rest;
  }

  lemma {:induction false} ArrayItems(inner: string)
    requires inner != [] && inner[0] != ']' && !IsWs(inner[0])
    ensures ParseArray(inner) ==
      match ParseItems(inner)
      case None => None
      case Some((vs, rest)) => Some((Arr(vs), rest))
  {
    SkipNoWs(inner);
  }

  lemma {:induction false} ObjectEmpty(rest: string)
    ensures ParseObject(['}'] + rest) == Some((Obj([]), rest))
  {
    SkipNoWs(['}'] + rest);
    assert (['}'] + rest)[1..] == rest;
  }

  lemma {:induction false} ObjectMembers(inner: string)
    requires inner != [] && inner[0] == '"'
    ensures ParseObject(inner) ==
      match ParseMembers(inner)
      case None => None
      case Some((ms, rest)) => Some((Obj(ms), rest))
  {
    SkipNoWs(inner);
  }

  /** `[` then the text of the elements (if any) then `]`. */
  lemma {:induction false} ReadsArray(body: string, items: seq<Json>, rest: string)
    requires body == [] <==> items == []
    requires body != [] ==> body[0] != ']' && !IsWs(body[0])
    requires body != [] ==> ParseItems(body + "]" + rest) == Some((items, rest))
    ensures ParseValue("[" + body + "]" + rest) == Some((Arr(items), rest))
  {
    var inner := body + "]" + rest;
    var s := ['['] + inner;
    assert "[" + body + "]" + rest == s;
    ReadsBracketed(inner, items, rest);
  }

  lemma {:induction false} ReadsBracketed(inner: string, items: seq<Json>, rest: string)
    requires items == [] ==> inner == [']'] + rest
    requires items != [] ==> inner != [] && inner[0] != ']' && !IsWs(inner[0]) && ParseItems(inner) == Some((items, rest))
    ensures ParseValue(['['] + inner) == Some((Arr(items), rest))
  {
    var s := ['['] + inner;
    assert s[1..] == inner;
    TokenBracket(s);
    if items == [] {
      ArrayEmpty(rest);
    } else {
      ArrayItems(inner);
    }
  }

  /** `{` then the text of the members (if any) then `}`. */
  lemma {:induction false} ReadsObject(body: string, ms: seq<Member>, rest: string)
    requires body == [] <==> ms == []
    requires body != [] ==> body[0] == '"'
    requires body != [] ==> ParseMembers(body + "}" + rest) == Some((ms, rest))
    ensures ParseValue("{" + body + "}" + rest) == Some((Obj(ms), rest))
  {
    var inner := body + "}" + rest;
    var s := ['{'] + inner;
    assert "{" + body + "}" + rest == s;
    ReadsBraced(inner, ms, rest);
  }

  lemma {:induction false} ReadsBraced(inner: string, ms: seq<Member>, rest: string)
    requires ms == [] ==> inner == ['}'] + rest
    requires ms != [] ==> inner != [] && inner[0] == '"' && ParseMembers(inner) == Some((ms, rest))
    ensures ParseValue(['{'] + inner) == Some((Obj(ms), rest))
  {
    var s := ['{'] + inner;
    assert s[1..] == inner;
    TokenBracket(s);
    if ms == [] {
      ObjectEmpty(rest);
    } else {
      ObjectMembers(inner);
    }
  }

  lemma {:induction false} StringifyReads(v: Json, rest: string)
    requires NoNumbers(v)
    ensures ParseValue(Stringify(v) + rest) == Some((v, rest))
    decreases v, 0
  {
    match v
    case Null => ReadsLiteral(v, rest);
    case Bool(_) => ReadsLiteral(v, rest);
    case Str(x) => ReadsString(x, rest);
    case Arr(items) => ArrayReads(items, rest);
    case Obj(ms) => ObjectReads(ms, rest);
  }

  lemma {:induction false} ArrayReads(items: seq<Json>, rest: string)
    requires forall i | 0 <= i < |items| :: NoNumbers(items[i])
    ensures ParseValue(Stringify(Arr(items)) + rest) == Some((Arr(items), rest))
    decreases items, 5
  {
    var body := StringifyItems(items);
    assert Stringify(Arr(items)) == "[" + body + "]";
    if items != [] {
      var first := Stringify(items[0]);
      StringifyStart(items[0]);
      assert body[0] == first[0];
      StringifyItemsReads(items, rest);
      ItemsTextIs(items, rest);
    }
    ReadsArray(body, items, rest);
  }

  lemma {:induction false} ObjectReads(ms: seq<Member>, rest: string)
    requires forall i | 0 <= i < |ms| :: NoNumbers(ms[i].value)
    ensures ParseValue(Stringify(Obj(ms)) + rest) == Some((Obj(ms), rest))
    decreases ms, 5
  {
    if ms != [] {
      assert StringifyMembers(ms)[0] == '"';
      StringifyMembersReads(ms, rest);
      MembersTextIs(ms, rest);
    }
    ReadsObject(StringifyMembers(ms), ms, rest);
  }

  lemma {:induction false} ItemClose(v: Json, rest: string)
    ensures AfterItem(v, [']'] + rest) == Some(([v], rest))
  {
    SkipNoWs([']'] + rest);
    assert ([']'] + rest)[1..] == rest;
  }

  lemma {:induction false} ItemComma(v: Json, tail: string)
    ensures AfterItem(v, [','] + tail) == ConsItem(v, ParseItems(tail))
  {
    var s := [','] + tail;
    assert s[1..] == tail;
    CommaAfterItem(v, s);
  }

  lemma {:induction false} CommaAfterItem(v: Json, s: string)
    requires s != [] && s[0] == ','
    ensures AfterItem(v, s) == ConsItem(v, ParseItems(s[1..]))
  {
    SkipNoWs(s);
  }

  /** The last element of an array, then `]`. */
  lemma {:induction false} ItemsLast(text: string, v: Json, rest: string)
    requires ParseValue(text + ([']'] + rest)) == Some((v, [']'] + rest))
    ensures ParseItems(text + ([']'] + rest)) == Some(([v], rest))
  {
    ItemClose(v, rest);
  }

  /** An element, `,`, then further elements. */
  lemma {:induction false} ItemsCons(text: string, v: Json, tail: string, vs: seq<Json>, rest: string)
    requires ParseValue(text + ([','] + tail)) == Some((v, [','] + tail))
    requires ParseItems(tail) == Some((vs, rest))
    ensures ParseItems(text + ([','] + tail)) == Some(([v] + vs, rest))
  {
    ItemComma(v, tail);
  }

  /** The text of the elements of a non-empty array, then `]` and `rest`. */
  function ItemsText(items: seq<Json>, rest: string): string
    requires items != []
  {
    if |items| == 1 then Stringify(items[0]) + ([']'] + rest)
    else Stringify(items[0]) + ([','] + ItemsText(items[1..], rest))
  }

  lemma {:induction false} ItemsTextIs(items: seq<Json>, rest: string)
    requires items != []
    ensures ItemsText(items, rest) == StringifyItems(items) + "]" + rest
    decreases items
  {
    if |items| > 1 {
      ItemsTextIs(items[1..], rest);
    }
  }

  lemma {:induction false} StringifyItemsReads(items: seq<Json>, rest: string)
    requires items != [] && forall i | 0 <= i < |items| :: NoNumbers(items[i])
    ensures ParseItems(ItemsText(items, rest)) == Some((items, rest))
    decreases items, 4
  {
    var text := Stringify(items[0]);
    if |items| == 1 {
      StringifyReads(items[0], [']'] + rest);
      ItemsLast(text, items[0], rest);
      Sorting.HeadTail(items);
    } else {
      var tail := ItemsText(items[1..], rest);
      StringifyItemsReads(items[1..], rest);
      StringifyReads(items[0], [','] + tail);
      ItemsCons(text, items[0], tail, items[1..], rest);
      Sorting.HeadTail(items);
    }
  }

  /** Members that start with a quoted key. */
  lemma {:induction false} MembersAtKey(t: string)
    requires t != [] && t[0] == '"'
    ensures ParseMembers(t) ==
      match ParseChars(t[1..])
      case None => None
      case Some((key, rest)) => AfterKey(key, rest)
  {
    SkipNoWs(t);
  }

  /** The `:` after a key, then the member's value. */
  lemma {:induction false} AfterColon(key: string, after: string)
    ensures AfterKey(key, [':'] + after) ==
      match ParseValue(after)
      case None => None
      case Some((v, rest2)) => AfterMember(Member(key, v), rest2)
  {
    SkipNoWs([':'] + after);
    assert ([':'] + after)[1..] == after;
  }

  /** A key in quotes and the `:` after it. */
  lemma {:induction false} KeyReads(key: string, after: string)
    ensures ParseMembers(Quote(key) + ":" + after) ==
      match ParseValue(after)
      case None => None
      case Some((v, rest2)) => AfterMember(Member(key, v), rest2)
  {
    var afterKey := [':'] + after;
    var body := Escape(key) + "\"" + afterKey;
    var s := ['"'] + body;
    assert Quote(key) + ":" + after == s;
    assert s[1..] == body;
    EscapeReads(key, afterKey);
    MembersAtKey(s);
    AfterColon(key, after);
  }

  lemma {:induction false} MemberClose(m: Member, rest: string)
    ensures AfterMember(m, ['}'] + rest) == Some(([m], rest))
  {
    SkipNoWs(['}'] + rest);
    assert (['}'] + rest)[1..] == rest;
  }

  lemma {:induction false} MemberComma(m: Member, tail: string)
    ensures AfterMember(m, [','] + tail) == ConsMember(m, ParseMembers(tail))
  {
    var s := [','] + tail;
    assert s[1..] == tail;
    CommaAfterMember(m, s);
  }

  lemma {:induction false} CommaAfterMember(m: Member, s: string)
    requires s != [] && s[0] == ','
    ensures AfterMember(m, s) == ConsMember(m, ParseMembers(s[1..]))
  {
    SkipNoWs(s);
  }

  /** The last member of an object, then `}`. */
  lemma {:induction false} MembersLast(key: string, text: string, v: Json, rest: string)
    requires ParseValue(text + (['}'] + rest)) == Some((v, ['}'] + rest))
    ensures ParseMembers(Quote(key) + ":" + (text + (['}'] + rest))) == Some(([Member(key, v)], rest))
  {
    KeyReads(key, text + (['}'] + rest));
    MemberClose(Member(key, v), rest);
  }

  /** A member, `,`, then further members. */
  lemma {:induction false} MembersCons(m: Member, text: string, tail: string, ms: seq<Member>, rest: string)
    requires ParseValue(text + ([','] + tail)) == Some((m.value, [','] + tail))
    requires ParseMembers(tail) == Some((ms, rest))
    ensures ParseMembers(Quote(m.key) + ":" + (text + ([','] + tail))) == Some(([m] + ms, rest))
  {
    KeyReads(m.key, text + ([','] + tail));
    MemberComma(Member(m.key, m.value), tail);
  }

  /** The text of the members of a non-empty object, then `}` and `rest`. */
  function MembersText(ms: seq<Member>, rest: string): string
    requires ms != []
  {
    var head := Quote(ms[0].key) + ":";
    if |ms| == 1 then head + (Stringify(ms[0].value) + (['}'] + rest))
    else head + (Stringify(ms[0].value) + ([','] + MembersText(ms[1..], rest)))
  }

  lemma {:induction false} MembersTextIs(ms: seq<Member>, rest: string)
    requires ms != []
    ensures MembersText(ms, rest) == StringifyMembers(ms) + "}" + rest
    decreases ms
  {
    if |ms| > 1 {
      MembersTextIs(ms[1..], rest);
    }
  }

  lemma {:induction false} MembersConsText(ms: seq<Member>, rest: string)
    requires |ms| > 1
    requires ParseValue(Stringify(ms[0].value) + ([','] + MembersText(ms[1..], rest)))
      == Some((ms[0].value, [','] + MembersText(ms[1..], rest)))
    requires ParseMembers(MembersText(ms[1..], rest)) == Some((ms[1..], rest))
    ensures ParseMembers(MembersText(ms, rest)) == Some((ms, rest))
  {
    var m := ms[0];
    var text := Stringify(m.value);
    var tail := MembersText(ms[1..], rest);
    assert MembersText(ms, rest) == Quote(m.key) + ":" + (text + ([','] + tail));
    MembersCons(m, text, tail, ms[1..], rest);
    Sorting.HeadTail(ms);
  }

  lemma {:induction false} StringifyMembersReads(ms: seq<Member>, rest: string)
    requires ms != [] && forall i | 0 <= i < |ms| :: NoNumbers(ms[i].value)
    ensures ParseMembers(MembersText(ms, rest)) == Some((ms, rest))
    decreases ms, 4
  {
    var m := ms[0];
    assert m in ms && m.value < m;
    if |ms| == 1 {
      StringifyReads(m.value, ['}'] + rest);
      MembersLast(m.key, Stringify(m.value), m.value, rest);
      Sorting.HeadTail(ms);
    } else {
      StringifyMembersReads(ms[1..], rest);
      StringifyReads(m.value, [','] + MembersText(ms[1..], rest));
      MembersConsText(ms, rest);
    }
  }

  /** `JSON.parse(JSON.stringify(v))` is `v` for every value without numbers. */
  lemma {:induction false} ParseStringify(v: Json)
    requires NoNumbers(v)
    ensures Parse(Stringify(v)) == Some(v)
  {
    StringifyReads(v, []);
    assert Stringify(v) + [] == Stringify(v);
  }
}

/**
 JSON text: a reader, and the documents the program writes.

 A `Doc` is concrete syntax. Its strings are kept as the escaped text between the quotes, so
 that the same documents describe what the JSON encoder writes (section 7 of RFC 8259 and the
 encoder's own extra escapes) and what a program writes that quotes strings in some other way.
 `ReadsBack` says what the reader makes of the text of a document, including when some string
 in it is not valid JSON.
 */
module Json {
  import opened Mesh
  import opened Text

  datatype Json =
    | Null
    | Bool(b: bool)
    | Num(text: string)
    | Str(s: string)
    | Arr(items: seq<Json>)
    | Obj(members: seq<Field>)

  datatype Field = Field(name: string, value: Json)

  // A parsed value and the text after it.
  type Parsed<T> = Option<(T, string)>

  /// Strings

  predicate IsHex(c: char) {
    '0' <= c <= '9' || 'a' <= c <= 'f' || 'A' <= c <= 'F'
  }

  function HexValue(c: char): (n: nat)
    requires IsHex(c)
    ensures n < 16
  {
    if c <= '9' then c as int - '0' as int
    else if c <= 'F' then c as int - 'A' as int + 10
    else c as int - 'a' as int + 10
  }

  function HexDigit(n: nat): (c: char)
    requires n < 16
    ensures IsHex(c) && HexValue(c) == n
  {
    if n < 10 then '0' + n as char else 'a' + (n - 10) as char
  }

  predicate HasCodeUnit(s: string) {
    |s| >= 4 && IsHex(s[0]) && IsHex(s[1]) && IsHex(s[2]) && IsHex(s[3])
  }

  function CodeUnit(s: string): (n: nat)
    requires HasCodeUnit(s)
    ensures n < 0x10000
  {
    HexValue(s[0]) * 4096 + HexValue(s[1]) * 256 + HexValue(s[2]) * 16 + HexValue(s[3])
  }

  function Hex4(n: nat): string
    requires n < 0x10000
  {
    var a := n / 16;
    var b := a / 16;
    [HexDigit(b / 16), HexDigit(b % 16), HexDigit(a % 16), HexDigit(n % 16)]
  }

  lemma {:induction false} Hex4Reads(n: nat, rest: string)
    requires n < 0x10000
    ensures HasCodeUnit(Hex4(n) + rest) && CodeUnit(Hex4(n) + rest) == n
  {
    var a, t := n / 16, Hex4(n) + rest;
    var b := a / 16;
    assert t[0] == HexDigit(b / 16) && t[1] == HexDigit(b % 16);
    assert t[2] == HexDigit(a % 16) && t[3] == HexDigit(n % 16);
    assert n == 16 * a + n % 16 && a == 16 * b + a % 16 && b == 16 * (b / 16) + b % 16;
  }

  // The one-letter escapes.
  function Unescape(c: char): Option<char> {
    match c
    case '\"' => Some('\"')
    case '\\' => Some('\\')
    case '/' => Some('/')
    case 'b' => Some('\U{08}')
    case 'f' => Some('\U{0C}')
    case 'n' => Some('\n')
    case 'r' => Some('\r')
    case 't' => Some('\t')
    case _ => None
  }

  // The escapes of section 7 of RFC 8259, and no others.
  lemma {:induction false} LetterEscapes(c: char)
    ensures Unescape(c) ==
            if c == '"' then Some('"') else if c == '\\' then Some('\\') else if c == '/' then Some('/')
            else if c == 'b' then Some(8 as char) else if c == 'f' then Some(12 as char) else if c == 'n' then Some(10 as char)
            else if c == 'r' then Some(13 as char) else if c == 't' then Some(9 as char) else None
  {
  }

  lemma {:induction false} HexDigits(n: nat)
    requires n < 16
    ensures HexDigit(n) == "0123456789abcdef"[n]
    ensures HexValue("0123456789abcdef"[n]) == HexValue("0123456789ABCDEF"[n]) == n
  {
  }

  predicate IsSurrogate(n: nat) {
    0xD800 <= n < 0xE000
  }

  // The character of a pair of surrogates.
  function Paired(high: nat, low: nat): char
    requires 0xD800 <= high < 0xDC00 && 0xDC00 <= low < 0xE000
  {
    (0x10000 + (high - 0xD800) * 0x400 + (low - 0xDC00)) as char
  }

  function Prepend(c: char, r: Parsed<string>): Parsed<string> {
    if r.Some? then Some(([c] + r.value.0, r.value.1)) else None
  }

  // Reads the rest of a string, up to and including the closing quote. An unpaired surrogate
  // escape reads as the replacement character.
  function ReadString(s: string): (r: Parsed<string>)
    ensures r.Some? ==> |r.value.1| < |s|
  {
    if s == [] || s[0] < ' ' then None
    else if s[0] == '\"' then Some(([], s[1..]))
    else if s[0] != '\\' then Prepend(s[0], ReadString(s[1..]))
    else if |s| == 1 then None
    else if s[1] == 'u' then
      if !HasCodeUnit(s[2..]) then None
      else
        var unit := CodeUnit(s[2..]);
        if !IsSurrogate(unit) then Prepend(unit as char, ReadString(s[6..]))
        else if unit < 0xDC00 && |s| > 8 && s[6] == '\\' && s[7] == 'u' && HasCodeUnit(s[8..])
                && 0xDC00 <= CodeUnit(s[8..]) < 0xE000
        then Prepend(Paired(unit, CodeUnit(s[8..])), ReadString(s[12..]))
        else Prepend('\U{FFFD}', ReadString(s[6..]))
    else if Unescape(s[1]).None? then None
    else Prepend(Unescape(s[1]).value, ReadString(s[2..]))
  }

  /// Numbers

  function Digits(s: string): (d: nat)
    ensures d <= |s|
    ensures forall i :: 0 <= i < d ==> IsDigit(s[i])
    ensures d < |s| ==> !IsDigit(s[d])
  {
    if s != [] && IsDigit(s[0]) then 1 + Digits(s[1..]) else 0
  }

  function IntegerEnd(s: string): (n: nat)
    ensures n <= |s|
  {
    var sign := if s != [] && s[0] == '-' then 1 else 0;
    var d := Digits(s[sign..]);
    if d == 0 || (d > 1 && s[sign] == '0') then 0 else sign + d
  }

  function FractionEnd(s: string, n: nat): (m: nat)
    requires n <= |s|
    ensures m <= |s|
  {
    if n < |s| && s[n] == '.' then
      var d := Digits(s[n + 1..]);
      if d == 0 then 0 else n + 1 + d
    else n
  }

  function ExponentEnd(s: string, n: nat): (m: nat)
    requires n <= |s|
    ensures m <= |s|
  {
    if n < |s| && (s[n] == 'e' || s[n] == 'E') then
      var k := if n + 1 < |s| && (s[n + 1] == '+' || s[n + 1] == '-') then n + 2 else n + 1;
      var d := Digits(s[k..]);
      if d == 0 then 0 else k + d
    else n
  }

  // The length of the number that `s` begins with; 0 when it begins with none.
  function NumberEnd(s: string): (n: nat)
    ensures n <= |s|
  {
    var i := IntegerEnd(s);
    if i == 0 then 0
    else
      var f := FractionEnd(s, i);
      if f == 0 then 0 else ExponentEnd(s, f)
  }

  /// Values

  predicate IsWhite(c: char) {
    c == ' ' || c == '\t' || c == '\n' || c == '\r'
  }

  function SkipWhite(s: string): (r: string)
    ensures |r| <= |s|
  {
    if s != [] && IsWhite(s[0]) then SkipWhite(s[1..]) else s
  }

  predicate Begins(s: string, c: char) {
    s != [] && s[0] == c
  }

  function ReadValue(text: string): (r: Parsed<Json>)
    ensures r.Some? ==> |r.value.1| < |text|
    decreases |text|, 2
  {
    var s := SkipWhite(text);
    if s == [] then None
    else if s[0] == '\"' then
      var r := ReadString(s[1..]);
      if r.None? then None else Some((Str(r.value.0), r.value.1))
    else if s[0] == '{' then
      var t := SkipWhite(s[1..]);
      if Begins(t, '}') then Some((Obj([]), t[1..]))
      else
        var r := ReadMembers(t);
        if r.None? then None else Some((Obj(r.value.0), r.value.1))
    else if s[0] == '[' then
      var t := SkipWhite(s[1..]);
      if Begins(t, ']') then Some((Arr([]), t[1..]))
      else
        var r := ReadItems(t);
        if r.None? then None else Some((Arr(r.value.0), r.value.1))
    else if "null" <= s then Some((Null, s[4..]))
    else if "true" <= s then Some((Bool(true), s[4..]))
    else if "false" <= s then Some((Bool(false), s[5..]))
    else if NumberEnd(s) == 0 then None
    else Some((Num(s[..NumberEnd(s)]), s[NumberEnd(s)..]))
  }

  // One or more values up to the closing bracket.
  function ReadItems(text: string): (r: Parsed<seq<Json>>)
    ensures r.Some? ==> |r.value.1| < |text|
    decreases |text|, 3
  {
    var v := ReadValue(text);
    if v.None? then None
    else
      var s := SkipWhite(v.value.1);
      if Begins(s, ']') then Some(([v.value.0], s[1..]))
      else if !Begins(s, ',') then None
      else
        var r := ReadItems(s[1..]);
        if r.None? then None else Some(([v.value.0] + r.value.0, r.value.1))
  }

  // One or more members up to the closing brace.
  function ReadMembers(text: string): (r: Parsed<seq<Field>>)
    ensures r.Some? ==> |r.value.1| < |text|
    decreases |text|, 3
  {
    var m := ReadMember(SkipWhite(text));
    if m.None? then None
    else
      var s := SkipWhite(m.value.1);
      if Begins(s, '}') then Some(([m.value.0], s[1..]))
      else if !Begins(s, ',') then None
      else
        var r := ReadMembers(s[1..]);
        if r.None? then None else Some(([m.value.0] + r.value.0, r.value.1))
  }

  function ReadMember(s: string): (r: Parsed<Field>)
    ensures r.Some? ==> |r.value.1| < |s|
    decreases |s|, 2
  {
    if !Begins(s, '\"') then None
    else
      var k := ReadString(s[1..]);
      if k.None? then None
      else
        var t := SkipWhite(k.value.1);
        if !Begins(t, ':') then None
        else
          var v := ReadValue(t[1..]);
          if v.None? then None else Some((Field(k.value.0, v.value.0), v.value.1))
  }

  // A whole text is one value with nothing but white space around it.
  function Parse(text: string): Option<Json> {
    var r := ReadValue(text);
    if r.Some? && SkipWhite(r.value.1) == [] then Some(r.value.0) else None
  }

  /// Documents

  datatype Doc =
    | DNull
    | DBool(b: bool)
    | DInt(n: int)
    | DStr(body: string)
    | DArr(items: seq<Doc>)
    | DObj(members: seq<Member>)

  datatype Member = Member(name: string, value: Doc)

  function Quoted(body: string): string {
    "\"" + body + "\""
  }

  function Render(d: Doc): string
    decreases d
  {
    match d
    case DNull => "null"
    case DBool(b) => if b then "true" else "false"
    case DInt(n) => Numeral(n)
    case DStr(body) => Quoted(body)
    case DArr(items) => if items == [] then "[]" else "[" + RenderItems(items)
    case DObj(members) => if members == [] then "{}" else "{" + RenderMembers(members)
  }

  function RenderItems(items: seq<Doc>): string
    requires items != []
    decreases items
  {
    Render(items[0]) + (if |items| == 1 then "]" else "," + RenderItems(items[1..]))
  }

  function RenderMember(m: Member): string
    decreases m
  {
    Quoted(m.name) + ":" + Render(m.value)
  }

  function RenderMembers(members: seq<Member>): string
    requires members != []
    decreases members
  {
    RenderMember(members[0]) + (if |members| == 1 then "}" else "," + RenderMembers(members[1..]))
  }

  // What the escaped text of a string stands for, if it is valid.
  function BodyValue(body: string): Option<string> {
    var r := ReadString(body + "\"");
    if r.Some? && r.value.1 == [] then Some(r.value.0) else None
  }

  // The reader gives the string its value, or fails, whatever follows the closing quote.
  ghost predicate Closed(body: string) {
    forall rest {:trigger ReadString(body + "\"" + rest)} :: ReadString(body + "\"" + rest) ==
                    if BodyValue(body).Some? then Some((BodyValue(body).value, rest)) else None
  }

  ghost predicate AllClosed(d: Doc)
    decreases d
  {
    match d
    case DStr(body) => Closed(body)
    case DArr(items) => ItemsClosed(items)
    case DObj(members) => MembersClosed(members)
    case _ => true
  }

  ghost predicate ItemsClosed(items: seq<Doc>)
    decreases items
  {
    items != [] ==> AllClosed(items[0]) && ItemsClosed(items[1..])
  }

  ghost predicate MembersClosed(members: seq<Member>)
    decreases members
  {
    members != [] ==> Closed(members[0].name) && AllClosed(members[0].value) && MembersClosed(members[1..])
  }

  // The value of a document; none when some string in it is not valid.
  function Meaning(d: Doc): Option<Json>
    decreases d
  {
    match d
    case DNull => Some(Null)
    case DBool(b) => Some(Bool(b))
    case DInt(n) => Some(Num(Numeral(n)))
    case DStr(body) => if BodyValue(body).Some? then Some(Str(BodyValue(body).value)) else None
    case DArr(items) =>
      var vs := ItemsMeaning(items);
      if vs.Some? then Some(Arr(vs.value)) else None
    case DObj(members) =>
      var fs := MembersMeaning(members);
      if fs.Some? then Some(Obj(fs.value)) else None
  }

  function ItemsMeaning(items: seq<Doc>): Option<seq<Json>>
    decreases items
  {
    if items == [] then Some([])
    else
      var v, vs := Meaning(items[0]), ItemsMeaning(items[1..]);
      if v.Some? && vs.Some? then Some([v.value] + vs.value) else None
  }

  function MembersMeaning(members: seq<Member>): Option<seq<Field>>
    decreases members
  {
    if members == [] then Some([])
    else
      var f, fs := MemberMeaning(members[0]), MembersMeaning(members[1..]);
      if f.Some? && fs.Some? then Some([f.value] + fs.value) else None
  }

  function MemberMeaning(m: Member): Option<Field>
    decreases m
  {
    var k, v := BodyValue(m.name), Meaning(m.value);
    if k.Some? && v.Some? then Some(Field(k.value, v.value)) else None
  }

  lemma {:induction false} MembersEnd(members: seq<Member>)
    requires members != []
    ensures RenderMembers(members) != [] && RenderMembers(members)[|RenderMembers(members)| - 1] == '}'
  {
    if |members| > 1 {
      MembersEnd(members[1..]);
    }
  }

  lemma {:induction false} ObjectBraces(members: seq<Member>)
    ensures var s := Render(DObj(members)); |s| >= 2 && s[0] == '{' && s[|s| - 1] == '}'
  {
    var s := Render(DObj(members));
    if members == [] {
      assert s == "{}";
    } else {
      MembersEnd(members);
      assert s == "{" + RenderMembers(members);
      assert s[|s| - 1] == RenderMembers(members)[|s| - 2];
    }
  }

  /// Reading a document back

  // What follows cannot be mistaken for more of a number.
  predicate Delimited(rest: string) {
    rest == [] || rest[0] in ",]} \t\r\n"
  }

  function Attach<T>(v: Option<T>, rest: string): Parsed<T> {
    if v.Some? then Some((v.value, rest)) else None
  }

  lemma {:induction false} DigitsStop(s: string, rest: string)
    requires forall i :: 0 <= i < |s| ==> IsDigit(s[i])
    requires rest == [] || !IsDigit(rest[0])
    ensures Digits(s + rest) == |s|
  {
    if s == [] {
      assert s + rest == rest;
    } else {
      assert (s + rest)[1..] == s[1..] + rest;
      DigitsStop(s[1..], rest);
    }
  }

  lemma {:induction false} SignedEnds(sign: string, digits: string, rest: string)
    requires sign == "" || sign == "-"
    requires digits != [] && forall i :: 0 <= i < |digits| ==> IsDigit(digits[i])
    requires |digits| > 1 ==> digits[0] != '0'
    requires rest == [] || !IsDigit(rest[0])
    ensures IntegerEnd(sign + digits + rest) == |sign + digits|
  {
    var s := sign + digits + rest;
    DigitsStop(digits, rest);
    assert s[|sign|..] == digits + rest;
    assert s[|sign|] == digits[0];
    if sign == "-" {
      assert s[0] == '-';
    } else {
      assert s[0] == digits[0] && IsDigit(digits[0]);
    }
  }

  lemma {:induction false} IntegerEnds(n: int, rest: string)
    requires rest == [] || !IsDigit(rest[0])
    ensures IntegerEnd(Numeral(n) + rest) == |Numeral(n)|
  {
    if n < 0 {
      SignedEnds("-", Decimal(-n), rest);
    } else {
      SignedEnds("", Decimal(n), rest);
      assert "" + Decimal(n) == Decimal(n);
    }
  }

  lemma {:induction false} NumeralEnds(n: int, rest: string)
    requires Delimited(rest)
    ensures NumberEnd(Numeral(n) + rest) == |Numeral(n)|
  {
    IntegerEnds(n, rest);
    var s := Numeral(n) + rest;
    if rest != [] {
      assert s[|Numeral(n)|] == rest[0];
    }
  }

  lemma {:induction false} NumberIsNoLiteral(s: string)
    requires s != [] && (s[0] == '-' || IsDigit(s[0]))
    ensures !("null" <= s) && !("true" <= s) && !("false" <= s)
  {
    assert "null"[0] == 'n' && "true"[0] == 't' && "false"[0] == 'f';
  }

  lemma {:induction false} ReadsNumeral(n: int, rest: string)
    requires Delimited(rest)
    ensures ReadValue(Numeral(n) + rest) == Some((Num(Numeral(n)), rest))
  {
    NumeralEnds(n, rest);
    var s := Numeral(n) + rest;
    assert s[0] == Numeral(n)[0];
    assert s[0] == '-' || IsDigit(s[0]);
    NumberIsNoLiteral(s);
    assert SkipWhite(s) == s;
    assert s[..|Numeral(n)|] == Numeral(n) && s[|Numeral(n)|..] == rest;
  }

  // The first character of a document's text is neither white space nor a closing bracket.
  lemma {:induction false} RenderHead(d: Doc)
    ensures Render(d) != [] && !IsWhite(Render(d)[0]) && Render(d)[0] != ']'
  {
    if d.DInt? {
      assert Numeral(d.n)[0] == '-' || IsDigit(Numeral(d.n)[0]);
    }
  }

  lemma {:induction false} ReadsLiteral(d: Doc, rest: string)
    requires d.DNull? || d.DBool?
    ensures ReadValue(Render(d) + rest) == Attach(Meaning(d), rest)
  {
    var s := Render(d) + rest;
    assert s[|Render(d)|..] == rest;
    assert s[0] == Render(d)[0];
    assert Render(d) <= s;
    assert "null"[0] == 'n' && "true"[0] == 't' && "false"[0] == 'f';
  }

  lemma {:induction false} ReadsQuoted(body: string, rest: string)
    requires Closed(body)
    ensures ReadValue(Quoted(body) + rest) == Attach(Meaning(DStr(body)), rest)
  {
    assert (Quoted(body) + rest)[1..] == body + "\"" + rest;
  }

  lemma {:induction false} ReadsEmpty(d: Doc, rest: string)
    requires (d.DArr? && d.items == []) || (d.DObj? && d.members == [])
    ensures ReadValue(Render(d) + rest) == Attach(Meaning(d), rest)
  {
    var s := Render(d) + rest;
    assert s[1..][1..] == rest;
    assert s[1..][0] == Render(d)[1];
  }

  lemma {:induction false} OpensArray(t: string)
    requires t != [] && !IsWhite(t[0]) && t[0] != ']'
    ensures ReadValue("[" + t) == if ReadItems(t).None? then None else Some((Arr(ReadItems(t).value.0), ReadItems(t).value.1))
  {
    var s := "[" + t;
    assert s[0] == '[' && s[1..] == t;
    assert SkipWhite(s) == s && SkipWhite(t) == t;
  }

  lemma {:induction false} OpensObject(t: string)
    requires t != [] && t[0] == '\"'
    ensures ReadValue("{" + t) ==
            if ReadMembers(t).None? then None else Some((Obj(ReadMembers(t).value.0), ReadMembers(t).value.1))
  {
    var s := "{" + t;
    assert s[0] == '{' && s[1..] == t;
    assert SkipWhite(s) == s && SkipWhite(t) == t;
  }

  lemma {:induction false} ReadsItems(items: seq<Doc>, rest: string)
    requires items != []
    requires ReadItems(RenderItems(items) + rest) == Attach(ItemsMeaning(items), rest)
    ensures ReadValue(Render(DArr(items)) + rest) == Attach(Meaning(DArr(items)), rest)
  {
    var t := RenderItems(items) + rest;
    RenderHead(items[0]);
    assert t[0] == Render(items[0])[0];
    assert Render(DArr(items)) + rest == "[" + t;
    OpensArray(t);
  }

  lemma {:induction false} ReadsMembers(members: seq<Member>, rest: string)
    requires members != []
    requires ReadMembers(RenderMembers(members) + rest) == Attach(MembersMeaning(members), rest)
    ensures ReadValue(Render(DObj(members)) + rest) == Attach(Meaning(DObj(members)), rest)
  {
    var t := RenderMembers(members) + rest;
    assert t[0] == RenderMember(members[0])[0] == '\"';
    assert Render(DObj(members)) + rest == "{" + t;
    OpensObject(t);
  }

  // The reader makes of a document's text exactly what the document means, and leaves what follows.
  lemma {:induction false} ReadsBack(d: Doc, rest: string)
    requires AllClosed(d) && Delimited(rest)
    ensures ReadValue(Render(d) + rest) == Attach(Meaning(d), rest)
    decreases d
  {
    match d
    case DNull => ReadsLiteral(d, rest);
    case DBool(b) => ReadsLiteral(d, rest);
    case DInt(n) => ReadsNumeral(n, rest);
    case DStr(body) => ReadsQuoted(body, rest);
    case DArr(items) =>
      if items == [] {
        ReadsEmpty(d, rest);
      } else {
        ItemsReadBack(items, rest);
        ReadsItems(items, rest);
      }
    case DObj(members) =>
      if members == [] {
        ReadsEmpty(d, rest);
      } else {
        MembersReadBack(members, rest);
        ReadsMembers(members, rest);
      }
  }

  // An item before the closing bracket, and an item before others.
  lemma {:induction false} ReadsLastItem(s: string, v: Option<Json>, rest: string)
    requires ReadValue(s) == Attach(v, "]" + rest)
    ensures ReadItems(s) == if v.Some? then Some(([v.value], rest)) else None
  {
    assert ("]" + rest)[1..] == rest;
  }

  lemma {:induction false} ReadsFirstItem(s: string, v: Option<Json>, u: string, r: Parsed<seq<Json>>)
    requires ReadValue(s) == Attach(v, "," + u) && ReadItems(u) == r
    ensures ReadItems(s) == if v.Some? && r.Some? then Some(([v.value] + r.value.0, r.value.1)) else None
  {
    assert ("," + u)[1..] == u;
  }

  lemma {:induction false} ItemsReadBack(items: seq<Doc>, rest: string)
    requires items != [] && ItemsClosed(items)
    ensures ReadItems(RenderItems(items) + rest) == Attach(ItemsMeaning(items), rest)
    decreases items
  {
    var head, v, s := Render(items[0]), Meaning(items[0]), RenderItems(items) + rest;
    if |items| == 1 {
      assert s == head + ("]" + rest);
      ReadsBack(items[0], "]" + rest);
      ReadsLastItem(s, v, rest);
      assert ItemsMeaning(items[1..]) == Some([]);
      assert v.Some? ==> [v.value] + [] == [v.value];
    } else {
      var u := RenderItems(items[1..]) + rest;
      assert s == head + ("," + u);
      ReadsBack(items[0], "," + u);
      ItemsReadBack(items[1..], rest);
      ReadsFirstItem(s, v, u, Attach(ItemsMeaning(items[1..]), rest));
    }
  }

  lemma {:induction false} MembersReadBack(members: seq<Member>, rest: string)
    requires members != [] && MembersClosed(members)
    ensures ReadMembers(RenderMembers(members) + rest) == Attach(MembersMeaning(members), rest)
    decreases members
  {
    var m, more := members[0], members[1..];
    if more == [] {
      MemberReadsBack(m, "}" + rest);
      LastMember(m, rest);
      assert members == [m];
    } else {
      MemberReadsBack(m, "," + (RenderMembers(more) + rest));
      MembersReadBack(more, rest);
      FirstMember(m, more, rest);
      assert members == [m] + more;
    }
  }

  lemma {:induction false} MemberHead(m: Member, tail: string)
    ensures SkipWhite(RenderMember(m) + tail) == RenderMember(m) + tail
  {
    assert (RenderMember(m) + tail)[0] == RenderMember(m)[0] == '\"';
  }

  // A member before the closing brace, and a member before others.
  lemma {:induction false} ReadsOne(s: string, f: Option<Field>, rest: string)
    requires SkipWhite(s) == s && ReadMember(s) == Attach(f, "}" + rest)
    ensures ReadMembers(s) == if f.Some? then Some(([f.value], rest)) else None
  {
    assert ("}" + rest)[1..] == rest;
  }

  lemma {:induction false} ReadsMore(s: string, f: Option<Field>, u: string, r: Parsed<seq<Field>>)
    requires SkipWhite(s) == s && ReadMember(s) == Attach(f, "," + u) && ReadMembers(u) == r
    ensures ReadMembers(s) == if f.Some? && r.Some? then Some(([f.value] + r.value.0, r.value.1)) else None
  {
    assert ("," + u)[1..] == u;
  }

  lemma {:induction false} LastMember(m: Member, rest: string)
    requires ReadMember(RenderMember(m) + ("}" + rest)) == Attach(MemberMeaning(m), "}" + rest)
    ensures ReadMembers(RenderMembers([m]) + rest) == Attach(MembersMeaning([m]), rest)
  {
    MemberHead(m, "}" + rest);
    assert RenderMembers([m]) + rest == RenderMember(m) + ("}" + rest);
    ReadsOne(RenderMember(m) + ("}" + rest), MemberMeaning(m), rest);
    assert MembersMeaning([m][1..]) == Some([]);
    assert MemberMeaning(m).Some? ==> [MemberMeaning(m).value] + [] == [MemberMeaning(m).value];
  }

  lemma {:induction false} FirstMember(m: Member, more: seq<Member>, rest: string)
    requires more != []
    requires ReadMember(RenderMember(m) + ("," + (RenderMembers(more) + rest)))
          == Attach(MemberMeaning(m), "," + (RenderMembers(more) + rest))
    requires ReadMembers(RenderMembers(more) + rest) == Attach(MembersMeaning(more), rest)
    ensures ReadMembers(RenderMembers([m] + more) + rest) == Attach(MembersMeaning([m] + more), rest)
  {
    var u := RenderMembers(more) + rest;
    MemberHead(m, "," + u);
    assert ([m] + more)[1..] == more;
    assert RenderMembers([m] + more) + rest == RenderMember(m) + ("," + u);
    ReadsMore(RenderMember(m) + ("," + u), MemberMeaning(m), u, Attach(MembersMeaning(more), rest));
  }

  // A name, a colon and a value.
  lemma {:induction false} ReadsPair(s: string, k: Option<string>, u: string, v: Option<Json>, rest: string)
    requires Begins(s, '\"') && ReadString(s[1..]) == Attach(k, ":" + u) && ReadValue(u) == Attach(v, rest)
    ensures ReadMember(s) == if k.Some? && v.Some? then Some((Field(k.value, v.value), rest)) else None
  {
    assert (":" + u)[1..] == u;
  }

  lemma {:induction false} MemberReadsBack(m: Member, rest: string)
    requires Closed(m.name) && AllClosed(m.value) && Delimited(rest)
    ensures ReadMember(RenderMember(m) + rest) == Attach(MemberMeaning(m), rest)
    decreases m
  {
    var s, u := RenderMember(m) + rest, Render(m.value) + rest;
    assert s[1..] == m.name + "\"" + (":" + u);
    ReadsBack(m.value, rest);
    ReadsPair(s, BodyValue(m.name), u, Meaning(m.value), rest);
  }

  lemma {:induction false} ParsesBack(d: Doc)
    requires AllClosed(d)
    ensures Parse(Render(d)) == Meaning(d)
  {
    ReadsBack(d, "");
    assert Render(d) + "" == Render(d);
  }

  /// One line

  // No string of the document holds a newline.
  predicate OneLine(d: Doc)
    decreases d
  {
    match d
    case DStr(body) => '\n' !in body
    case DArr(items) => ItemsOneLine(items)
    case DObj(members) => MembersOneLine(members)
    case _ => true
  }

  predicate ItemsOneLine(items: seq<Doc>)
    decreases items
  {
    items != [] ==> OneLine(items[0]) && ItemsOneLine(items[1..])
  }

  predicate MembersOneLine(members: seq<Member>)
    decreases members
  {
    members != [] ==> '\n' !in members[0].name && OneLine(members[0].value) && MembersOneLine(members[1..])
  }

  lemma {:induction false} NumeralIsOneLine(n: int)
    ensures '\n' !in Numeral(n)
  {
    var digits := if n < 0 then Decimal(-n) else Decimal(n);
    assert forall i :: 0 <= i < |digits| ==> IsDigit(digits[i]);
  }

  // The text of a document whose strings hold no newline is one line.
  lemma {:induction false} RenderIsOneLine(d: Doc)
    requires OneLine(d)
    ensures '\n' !in Render(d)
    decreases d
  {
    match d
    case DNull => assert Render(d) == "null";
    case DBool(_) => assert Render(d) == "true" || Render(d) == "false";
    case DInt(n) => NumeralIsOneLine(n);
    case DStr(_) =>
    case DArr(items) =>
      if items == [] {
        assert Render(d) == "[]";
      } else {
        ItemsAreOneLine(items);
      }
    case DObj(members) =>
      if members == [] {
        assert Render(d) == "{}";
      } else {
        MembersAreOneLine(members);
      }
  }

  lemma {:induction false} ItemsAreOneLine(items: seq<Doc>)
    requires items != [] && ItemsOneLine(items)
    ensures '\n' !in RenderItems(items)
    decreases items
  {
    RenderIsOneLine(items[0]);
    if |items| > 1 {
      ItemsAreOneLine(items[1..]);
    }
  }

  lemma {:induction false} MembersAreOneLine(members: seq<Member>)
    requires members != [] && MembersOneLine(members)
    ensures '\n' !in RenderMembers(members)
    decreases members
  {
    RenderIsOneLine(members[0].value);
    assert '\n' !in RenderMember(members[0]);
    if |members| > 1 {
      MembersAreOneLine(members[1..]);
    }
  }
}

/**
 What the JSON encoder writes: no white space, strings escaped as in section 7 of RFC 8259,
 and also `<`, `>`, `&` and the two Unicode line separators as `\u` escapes.
 */
module JsonWriter {
  import opened Mesh
  import opened Json
  import opened Text

  function Escape(c: char): string {
    match c
    case '\"' => "\\\""
    case '\\' => "\\\\"
    case '\U{08}' => "\\b"
    case '\U{0C}' => "\\f"
    case '\n' => "\\n"
    case '\r' => "\\r"
    case '\t' => "\\t"
    case _ =>
      if c < ' ' || c in "<>&\U{2028}\U{2029}" then "\\u" + Hex4(CodePoint(c)) else [c]
  }

  // The code point of a character of the Basic Multilingual Plane.
  function CodePoint(c: char): (n: nat)
    requires c < '\U{10000}'
    ensures n < 0x10000 && !IsSurrogate(n) && n as char == c
  {
    c as int
  }

  function EscapeAll(s: string): string {
    if s == [] then [] else Escape(s[0]) + EscapeAll(s[1..])
  }

  // A letter escape, a code unit escape, and a character that stands for itself.
  lemma {:induction false} LetterReads(letter: char, t: string)
    requires letter != 'u' && Unescape(letter).Some?
    ensures ReadString(['\\', letter] + t) == Prepend(Unescape(letter).value, ReadString(t))
  {
    var s := ['\\', letter] + t;
    assert s[0] == '\\' && s[1] == letter && s[2..] == t;
  }

  lemma {:induction false} CodeUnitReads(n: nat, t: string)
    requires n < 0x10000 && !IsSurrogate(n)
    ensures ReadString("\\u" + Hex4(n) + t) == Prepend(n as char, ReadString(t))
  {
    var s := "\\u" + Hex4(n) + t;
    Hex4Reads(n, t);
    assert s[0] == '\\' && s[1] == 'u';
    assert s[2..] == Hex4(n) + t && s[6..] == t;
  }

  // The three shapes of an escape.
  lemma {:induction false} EscapeShape(c: char)
    ensures var e := Escape(c);
            || (e == [c] && c >= ' ' && c != '\"' && c != '\\')
            || (|e| == 2 && e[0] == '\\' && e[1] != 'u' && Unescape(e[1]) == Some(c))
            || (c < '\U{10000}' && e == "\\u" + Hex4(CodePoint(c)))
    ensures '\n' !in Escape(c)
  {
    if c < '\U{10000}' {
      assert forall i :: 0 <= i < 4 ==> IsHex(Hex4(CodePoint(c))[i]);
    }
  }

  lemma {:induction false} EscapeReads(c: char, t: string)
    ensures ReadString(Escape(c) + t) == Prepend(c, ReadString(t))
  {
    var e := Escape(c);
    EscapeShape(c);
    if e == [c] {
      assert (e + t)[0] == c && (e + t)[1..] == t;
    } else if |e| == 2 {
      assert e == ['\\', e[1]];
      LetterReads(e[1], t);
    } else {
      CodeUnitReads(CodePoint(c), t);
    }
  }

  lemma {:induction false} EscapeAllReads(s: string, rest: string)
    ensures ReadString(EscapeAll(s) + "\"" + rest) == Some((s, rest))
    ensures '\n' !in EscapeAll(s)
  {
    if s == [] {
      assert EscapeAll(s) + "\"" + rest == "\"" + rest;
      assert ("\"" + rest)[1..] == rest;
    } else {
      var t := EscapeAll(s[1..]) + "\"" + rest;
      assert EscapeAll(s) + "\"" + rest == Escape(s[0]) + t;
      EscapeShape(s[0]);
      EscapeReads(s[0], t);
      EscapeAllReads(s[1..], rest);
      assert [s[0]] + s[1..] == s;
    }
  }

  // An escaped string stands for the string it was made from.
  lemma {:induction false} EscapedIsClosed(s: string)
    ensures Closed(EscapeAll(s)) && BodyValue(EscapeAll(s)) == Some(s)
    ensures '\n' !in EscapeAll(s)
  {
    EscapeAllReads(s, "");
    assert EscapeAll(s) + "\"" + "" == EscapeAll(s) + "\"";
    forall rest
      ensures ReadString(EscapeAll(s) + "\"" + rest) == Some((s, rest))
    {
      EscapeAllReads(s, rest);
    }
  }

  /// Values

  // Every number is the canonical numeral of an integer.
  predicate Encodable(j: Json)
    decreases j
  {
    match j
    case Num(text) => ParseInt(text).Some? && Numeral(ParseInt(text).value) == text
    case Arr(items) => forall i :: 0 <= i < |items| ==> Encodable(items[i])
    case Obj(members) => forall i :: 0 <= i < |members| ==> Encodable(members[i].value)
    case _ => true
  }

  function ToDoc(j: Json): Doc
    requires Encodable(j)
    decreases j
  {
    match j
    case Null => DNull
    case Bool(b) => DBool(b)
    case Num(text) => DInt(ParseInt(text).value)
    case Str(s) => DStr(EscapeAll(s))
    case Arr(items) => DArr(ItemDocs(items))
    case Obj(members) => DObj(MemberDocs(members))
  }

  function ItemDocs(items: seq<Json>): seq<Doc>
    requires forall i :: 0 <= i < |items| ==> Encodable(items[i])
    decreases items
  {
    if items == [] then [] else [ToDoc(items[0])] + ItemDocs(items[1..])
  }

  function MemberDocs(members: seq<Field>): seq<Member>
    requires forall i :: 0 <= i < |members| ==> Encodable(members[i].value)
    decreases members
  {
    if members == [] then []
    else [Member(EscapeAll(members[0].name), ToDoc(members[0].value))] + MemberDocs(members[1..])
  }

  function Write(j: Json): string
    requires Encodable(j)
  {
    Render(ToDoc(j))
  }

  lemma {:induction false} DocMeans(j: Json)
    requires Encodable(j)
    ensures AllClosed(ToDoc(j)) && Meaning(ToDoc(j)) == Some(j)
    decreases j
  {
    match j
    case Str(s) => EscapedIsClosed(s);
    case Arr(items) => ItemDocsMean(items);
    case Obj(members) => MemberDocsMean(members);
    case _ =>
  }

  lemma {:induction false} ItemDocsMean(items: seq<Json>)
    requires forall i :: 0 <= i < |items| ==> Encodable(items[i])
    ensures ItemsClosed(ItemDocs(items)) && ItemsMeaning(ItemDocs(items)) == Some(items)
    decreases items
  {
    if items == [] {
    } else {
      DocMeans(items[0]);
      ItemDocsMean(items[1..]);
      assert ItemDocs(items)[1..] == ItemDocs(items[1..]);
      assert [items[0]] + items[1..] == items;
    }
  }

  lemma {:induction false} MemberDocsMean(members: seq<Field>)
    requires forall i :: 0 <= i < |members| ==> Encodable(members[i].value)
    ensures MembersClosed(MemberDocs(members)) && MembersMeaning(MemberDocs(members)) == Some(members)
    decreases members
  {
    if members == [] {
    } else {
      EscapedIsClosed(members[0].name);
      DocMeans(members[0].value);
      MemberDocsMean(members[1..]);
      var docs := MemberDocs(members);
      assert docs[0] == Member(EscapeAll(members[0].name), ToDoc(members[0].value));
      assert docs[1..] == MemberDocs(members[1..]);
      assert MemberMeaning(docs[0]) == Some(members[0]);
      assert [members[0]] + members[1..] == members;
    }
  }

  // Writing any value and parsing the text gives the value back.
  lemma {:induction false} WriteParses(j: Json)
    requires Encodable(j)
    ensures Parse(Write(j)) == Some(j)
  {
    DocMeans(j);
    ParsesBack(ToDoc(j));
  }

  lemma {:induction false} DocIsOneLine(j: Json)
    requires Encodable(j)
    ensures OneLine(ToDoc(j))
    decreases j
  {
    match j
    case Str(s) => EscapedIsClosed(s);
    case Arr(items) => ItemDocsOneLine(items);
    case Obj(members) => MemberDocsOneLine(members);
    case _ =>
  }

  lemma {:induction false} ItemDocsOneLine(items: seq<Json>)
    requires forall i :: 0 <= i < |items| ==> Encodable(items[i])
    ensures ItemsOneLine(ItemDocs(items))
    decreases items
  {
    if items == [] {
    } else {
      DocIsOneLine(items[0]);
      ItemDocsOneLine(items[1..]);
      assert ItemDocs(items)[1..] == ItemDocs(items[1..]);
    }
  }

  lemma {:induction false} MemberDocsOneLine(members: seq<Field>)
    requires forall i :: 0 <= i < |members| ==> Encodable(members[i].value)
    ensures MembersOneLine(MemberDocs(members))
    decreases members
  {
    if members == [] {
    } else {
      EscapedIsClosed(members[0].name);
      DocIsOneLine(members[0].value);
      MemberDocsOneLine(members[1..]);
      assert MemberDocs(members)[1..] == MemberDocs(members[1..]);
    }
  }

  // The text of a value is one line.
  lemma {:induction false} WriteIsOneLine(j: Json)
    requires Encodable(j)
    ensures '\n' !in Write(j)
  {
    DocIsOneLine(j);
    RenderIsOneLine(ToDoc(j));
  }
}

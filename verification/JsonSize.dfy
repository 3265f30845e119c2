/** How many bytes of strings a parsed value holds, and how many bytes a document takes. */
module JsonSize {
  import opened Mesh
  import opened Json
  import opened Text
  import opened Wire

  // The bytes of all strings in a value, names of members left out.
  function Total(j: Json): nat
    decreases j
  {
    match j
    case Str(s) => Bytes(s)
    case Arr(items) => ItemsTotal(items)
    case Obj(members) => MembersTotal(members)
    case _ => 0
  }

  function ItemsTotal(items: seq<Json>): nat
    decreases items
  {
    if items == [] then 0 else Total(items[0]) + ItemsTotal(items[1..])
  }

  function MembersTotal(members: seq<Field>): nat
    decreases members
  {
    if members == [] then 0 else Total(members[0].value) + MembersTotal(members[1..])
  }

  lemma {:induction false} BytesAtLeast(s: string)
    ensures |s| <= Bytes(s) <= 4 * |s|
  {
    if s == [] {
    } else {
      BytesAtLeast(s[1..]);
    }
  }

  lemma {:induction false} BytesDrop(s: string, k: nat)
    requires k <= |s|
    ensures Bytes(s[k..]) + k <= Bytes(s)
  {
    assert s == s[..k] + s[k..];
    BytesAppend(s[..k], s[k..]);
    BytesAtLeast(s[..k]);
  }

  lemma {:induction false} SkipWhiteBytes(s: string)
    ensures Bytes(SkipWhite(s)) <= Bytes(s)
  {
    if s != [] && IsWhite(s[0]) {
      SkipWhiteBytes(s[1..]);
    }
  }

  // Unescaping never makes a string longer.
  lemma {:induction false} ReadStringBytes(s: string)
    requires ReadString(s).Some?
    ensures Bytes(ReadString(s).value.0) + Bytes(ReadString(s).value.1) <= Bytes(s)
    decreases |s|
  {
    if s[0] == '\"' {
    } else if s[0] != '\\' {
      ReadStringBytes(s[1..]);
      PrependBytes(s[0], ReadString(s[1..]));
    } else {
      EscapedBytes(s);
    }
  }

  lemma {:induction false} PrependBytes(c: char, r: Parsed<string>)
    requires r.Some?
    ensures Bytes(Prepend(c, r).value.0) == CharBytes(c) + Bytes(r.value.0)
  {
    assert ([c] + r.value.0)[1..] == r.value.0;
  }

  lemma {:induction false} EscapedBytes(s: string)
    requires ReadString(s).Some? && s[0] == '\\'
    ensures Bytes(ReadString(s).value.0) + Bytes(ReadString(s).value.1) <= Bytes(s)
    decreases |s|, 1
  {
    if s[1] != 'u' {
      ReadStringBytes(s[2..]);
      PrependBytes(Unescape(s[1]).value, ReadString(s[2..]));
      BytesDrop(s, 2);
    } else {
      CodeUnitBytes(s);
    }
  }

  lemma {:induction false} CodeUnitBytes(s: string)
    requires |s| > 1 && s[0] == '\\' && s[1] == 'u' && ReadString(s).Some?
    ensures Bytes(ReadString(s).value.0) + Bytes(ReadString(s).value.1) <= Bytes(s)
    decreases |s|, 0
  {
    var unit := CodeUnit(s[2..]);
    BytesDrop(s, 6);
    if !IsSurrogate(unit) {
      ReadStringBytes(s[6..]);
      PrependBytes(unit as char, ReadString(s[6..]));
    } else if unit < 0xDC00 && |s| > 8 && s[6] == '\\' && s[7] == 'u' && HasCodeUnit(s[8..])
              && 0xDC00 <= CodeUnit(s[8..]) < 0xE000 {
      ReadStringBytes(s[12..]);
      PrependBytes(Paired(unit, CodeUnit(s[8..])), ReadString(s[12..]));
      BytesDrop(s, 12);
    } else {
      ReadStringBytes(s[6..]);
      PrependBytes('\U{FFFD}', ReadString(s[6..]));
    }
  }

  // The strings of a parsed value take no more bytes than the text it was read from.
  lemma {:induction false} ReadValueBytes(text: string)
    requires ReadValue(text).Some?
    ensures Total(ReadValue(text).value.0) + Bytes(ReadValue(text).value.1) <= Bytes(text)
    decreases |text|, 2
  {
    var s := SkipWhite(text);
    SkipWhiteBytes(text);
    if s[0] == '{' || s[0] == '[' {
      OpenedBytes(s);
    } else {
      PlainBytes(s);
    }
    assert ReadValue(s) == ReadValue(text);
  }

  lemma {:induction false} PlainBytes(s: string)
    requires s != [] && SkipWhite(s) == s && s[0] != '{' && s[0] != '['
    requires ReadValue(s).Some?
    ensures Total(ReadValue(s).value.0) + Bytes(ReadValue(s).value.1) <= Bytes(s)
  {
    if s[0] == '\"' {
      ReadStringBytes(s[1..]);
    } else {
      var rest := ReadValue(s).value.1;
      assert rest == s[|s| - |rest|..];
      BytesDrop(s, |s| - |rest|);
    }
  }

  lemma {:induction false} OpenedBytes(s: string)
    requires s != [] && SkipWhite(s) == s && (s[0] == '{' || s[0] == '[')
    requires ReadValue(s).Some?
    ensures Total(ReadValue(s).value.0) + Bytes(ReadValue(s).value.1) <= Bytes(s)
    decreases |s|, 1
  {
    var t := SkipWhite(s[1..]);
    SkipWhiteBytes(s[1..]);
    if s[0] == '{' {
      if Begins(t, '}') {
        BytesDrop(t, 1);
      } else {
        ReadMembersBytes(t);
      }
    } else {
      if Begins(t, ']') {
        BytesDrop(t, 1);
      } else {
        ReadItemsBytes(t);
      }
    }
  }

  lemma {:induction false} ReadItemsBytes(text: string)
    requires ReadItems(text).Some?
    ensures ItemsTotal(ReadItems(text).value.0) + Bytes(ReadItems(text).value.1) <= Bytes(text)
    decreases |text|, 3
  {
    ReadValueBytes(text);
    var v := ReadValue(text).value;
    var s := SkipWhite(v.1);
    SkipWhiteBytes(v.1);
    BytesDrop(s, 1);
    if Begins(s, ']') {
      assert [v.0][1..] == [];
    } else {
      ReadItemsBytes(s[1..]);
      assert ([v.0] + ReadItems(s[1..]).value.0)[1..] == ReadItems(s[1..]).value.0;
    }
  }

  lemma {:induction false} ReadMembersBytes(text: string)
    requires ReadMembers(text).Some?
    ensures MembersTotal(ReadMembers(text).value.0) + Bytes(ReadMembers(text).value.1) <= Bytes(text)
    decreases |text|, 3
  {
    SkipWhiteBytes(text);
    ReadMemberBytes(SkipWhite(text));
    var m := ReadMember(SkipWhite(text)).value;
    var s := SkipWhite(m.1);
    SkipWhiteBytes(m.1);
    BytesDrop(s, 1);
    if Begins(s, '}') {
      assert [m.0][1..] == [];
    } else {
      ReadMembersBytes(s[1..]);
      assert ([m.0] + ReadMembers(s[1..]).value.0)[1..] == ReadMembers(s[1..]).value.0;
    }
  }

  lemma {:induction false} ReadMemberBytes(s: string)
    requires ReadMember(s).Some?
    ensures Total(ReadMember(s).value.0.value) + Bytes(ReadMember(s).value.1) <= Bytes(s)
    decreases |s|, 2
  {
    var k := ReadString(s[1..]).value;
    ReadStringBytes(s[1..]);
    var t := SkipWhite(k.1);
    SkipWhiteBytes(k.1);
    ReadValueBytes(t[1..]);
  }

  lemma {:induction false} MembersTotalSnoc(fs: seq<Field>, f: Field)
    ensures MembersTotal(fs + [f]) == MembersTotal(fs) + Total(f.value)
  {
    if fs == [] {
      assert fs + [f] == [f] && [f][1..] == [];
    } else {
      assert (fs + [f])[1..] == fs[1..] + [f];
      MembersTotalSnoc(fs[1..], f);
    }
  }

  // No member of an object has more bytes than the object.
  lemma {:induction false} MemberBytes(fs: seq<Field>, name: string)
    ensures Total(Get(Fields(fs), name)) <= MembersTotal(fs)
  {
    if fs == [] {
    } else {
      var n := |fs| - 1;
      MemberBytes(fs[..n], name);
      MembersTotalSnoc(fs[..n], fs[n]);
      assert fs[..n] + [fs[n]] == fs;
    }
  }

  /// Documents

  function Weight(d: Doc): nat
    decreases d
  {
    match d
    case DNull => 4
    case DBool(_) => 5
    case DInt(n) => Bytes(Numeral(n))
    case DStr(body) => 2 + Bytes(body)
    case DArr(items) => 2 + ItemsWeight(items)
    case DObj(members) => 2 + MembersWeight(members)
  }

  function ItemsWeight(items: seq<Doc>): nat
    decreases items
  {
    if items == [] then 0 else Weight(items[0]) + 1 + ItemsWeight(items[1..])
  }

  function MembersWeight(members: seq<Member>): nat
    decreases members
  {
    if members == [] then 0
    else 3 + Bytes(members[0].name) + Weight(members[0].value) + 1 + MembersWeight(members[1..])
  }

  lemma {:induction false} OneByte(c: char, s: string)
    requires c < '\U{80}'
    ensures Bytes([c] + s) == 1 + Bytes(s) && Bytes(s + [c]) == Bytes(s) + 1
  {
    assert ([c] + s)[1..] == s && [c][1..] == [];
    BytesAppend(s, [c]);
  }

  lemma {:induction false} QuotedBytes(s: string)
    ensures Bytes(Quoted(s)) == 2 + Bytes(s)
  {
    OneByte('\"', s);
    OneByte('\"', "\"" + s);
  }

  lemma {:induction false} RenderBytes(d: Doc)
    ensures Bytes(Render(d)) <= Weight(d)
    decreases d
  {
    match d
    case DNull => assert Bytes("null") <= 4 by { LiteralBytes("null"); }
    case DBool(b) => LiteralBytes(Render(d));
    case DInt(n) =>
    case DStr(body) => QuotedBytes(body);
    case DArr(items) =>
      if items == [] {
        LiteralBytes("[]");
      } else {
        RenderItemsBytes(items);
        OneByte('[', RenderItems(items));
      }
    case DObj(members) =>
      if members == [] {
        LiteralBytes("{}");
      } else {
        RenderMembersBytes(members);
        OneByte('{', RenderMembers(members));
      }
  }

  lemma {:induction false} LiteralBytes(s: string)
    requires forall i :: 0 <= i < |s| ==> s[i] < '\U{80}'
    ensures Bytes(s) == |s|
  {
    if s == [] {
    } else {
      LiteralBytes(s[1..]);
    }
  }

  lemma {:induction false} RenderItemsBytes(items: seq<Doc>)
    requires items != []
    ensures Bytes(RenderItems(items)) <= ItemsWeight(items)
    decreases items
  {
    RenderBytes(items[0]);
    var head := Render(items[0]);
    if |items| == 1 {
      OneByte(']', head);
    } else {
      var tail := RenderItems(items[1..]);
      RenderItemsBytes(items[1..]);
      OneByte(',', tail);
      BytesAppend(head, "," + tail);
    }
  }

  lemma {:induction false} RenderMemberBytes(m: Member)
    ensures Bytes(RenderMember(m)) <= 3 + Bytes(m.name) + Weight(m.value)
    decreases m
  {
    QuotedBytes(m.name);
    OneByte(':', Quoted(m.name));
    RenderBytes(m.value);
    BytesAppend(Quoted(m.name) + ":", Render(m.value));
  }

  lemma {:induction false} RenderMembersBytes(members: seq<Member>)
    requires members != []
    ensures Bytes(RenderMembers(members)) <= MembersWeight(members)
    decreases members
  {
    RenderMemberBytes(members[0]);
    var head := RenderMember(members[0]);
    if |members| == 1 {
      OneByte('}', head);
    } else {
      var tail := RenderMembers(members[1..]);
      RenderMembersBytes(members[1..]);
      OneByte(',', tail);
      BytesAppend(head, "," + tail);
    }
  }
}

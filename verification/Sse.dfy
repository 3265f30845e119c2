/**
 The streaming path from an Ollama backend to the chat client.

 `Adapt` is the adapter's loop: it reads the backend's lines and prints one server-sent event
 per content, quoting the content the way Go quotes strings. `Show` is the chat client's loop:
 it reads events line by line, parses each as JSON and writes the contents out. `Adapted` and
 `Shown` are what they compute. Go quoting is not always JSON, so an event whose content has a
 character outside `Survives` is dropped by the client; everything else arrives.
 */
module Sse {
  import opened Mesh
  import opened Json
  import opened JsonWriter
  import opened Text
  import opened Wire
  import opened JsonCodec
  import opened JsonSize

  /// Go quoting

  // Which characters from U+0080 on Go considers printable.
  type Printable = char -> bool

  predicate Prints(printable: Printable, c: char) {
    if c < '\U{80}' then ' ' <= c <= '~' else printable(c)
  }

  function GoEscape(printable: Printable, c: char): string {
    if c == '\"' then "\\\""
    else if c == '\\' then "\\\\"
    else if Prints(printable, c) then [c]
    else
      match c
      case '\U{07}' => "\\a"
      case '\U{08}' => "\\b"
      case '\U{0C}' => "\\f"
      case '\n' => "\\n"
      case '\r' => "\\r"
      case '\t' => "\\t"
      case '\U{0B}' => "\\v"
      case _ =>
        if c < ' ' || c == '\U{7F}' then ['\\', 'x', HexDigit(c as int / 16), HexDigit(c as int % 16)]
        else if c < '\U{10000}' then "\\u" + Hex4(CodePoint(c))
        else "\\U00" + [HexDigit(c as int / 0x10_0000), HexDigit(c as int / 0x1_0000 % 16)] + Hex4(c as int % 0x1_0000)
  }

  function GoBody(printable: Printable, s: string): string {
    if s == [] then [] else GoEscape(printable, s[0]) + GoBody(printable, s[1..])
  }

  // The characters whose Go quoting is JSON for the same character.
  predicate Survives(printable: Printable, c: char) {
    || Prints(printable, c)
    || c in "\U{08}\U{0C}\n\r\t"
    || '\U{80}' <= c < '\U{10000}'
  }

  predicate AllSurvive(printable: Printable, s: string) {
    forall i :: 0 <= i < |s| ==> Survives(printable, s[i])
  }

  lemma {:induction false} PrintsShape(printable: Printable, c: char)
    requires Prints(printable, c)
    ensures var e := GoEscape(printable, c);
            || (e == [c] && c >= ' ' && c != '\"' && c != '\\')
            || (|e| == 2 && e[0] == '\\' && e[1] != 'u' && Unescape(e[1]) == Some(c))
  {
  }

  lemma {:induction false} EscapedShape(printable: Printable, c: char)
    requires !Prints(printable, c) && Survives(printable, c)
    ensures var e := GoEscape(printable, c);
            || (|e| == 2 && e[0] == '\\' && e[1] != 'u' && Unescape(e[1]) == Some(c))
            || (c < '\U{10000}' && e == "\\u" + Hex4(CodePoint(c)))
  {
  }

  lemma {:induction false} BrokenShape(printable: Printable, c: char)
    requires !Survives(printable, c)
    ensures var e := GoEscape(printable, c);
            |e| >= 2 && e[0] == '\\' && e[1] != 'u' && Unescape(e[1]) == None
  {
  }

  // Reading a Go-quoted character as JSON gives the character, or stops there for good.
  lemma {:induction false} GoEscapeReads(printable: Printable, c: char, t: string)
    ensures ReadString(GoEscape(printable, c) + t) ==
            if Survives(printable, c) then Prepend(c, ReadString(t)) else None
  {
    var e := GoEscape(printable, c);
    if !Survives(printable, c) {
      BrokenShape(printable, c);
      assert (e + t)[0] == e[0] && (e + t)[1] == e[1];
    } else {
      if Prints(printable, c) {
        PrintsShape(printable, c);
      } else {
        EscapedShape(printable, c);
      }
      ShapeReads(e, c, t);
    }
  }

  lemma {:induction false} ShapeReads(e: string, c: char, t: string)
    requires
      || (e == [c] && c >= ' ' && c != '\"' && c != '\\')
      || (|e| == 2 && e[0] == '\\' && e[1] != 'u' && Unescape(e[1]) == Some(c))
      || (c < '\U{10000}' && e == "\\u" + Hex4(CodePoint(c)))
    ensures ReadString(e + t) == Prepend(c, ReadString(t))
  {
    if e == [c] {
      assert (e + t)[0] == c && (e + t)[1..] == t;
    } else if |e| == 2 {
      assert e == ['\\', e[1]];
      LetterReads(e[1], t);
    } else {
      CodeUnitReads(CodePoint(c), t);
    }
  }

  lemma {:induction false} AllSurviveSplit(printable: Printable, s: string)
    requires s != []
    ensures AllSurvive(printable, s) <==> Survives(printable, s[0]) && AllSurvive(printable, s[1..])
  {
    assert forall i :: 0 < i < |s| ==> s[i] == s[1..][i - 1];
    if Survives(printable, s[0]) && AllSurvive(printable, s[1..]) {
      forall i | 0 <= i < |s|
        ensures Survives(printable, s[i])
      {
        assert i > 0 ==> s[i] == s[1..][i - 1];
      }
    }
    if AllSurvive(printable, s) {
      forall i | 0 <= i < |s[1..]|
        ensures Survives(printable, s[1..][i])
      {
        assert s[1..][i] == s[i + 1];
      }
    }
  }

  lemma {:induction false} GoBodyReads(printable: Printable, s: string, rest: string)
    ensures ReadString(GoBody(printable, s) + "\"" + rest) == if AllSurvive(printable, s) then Some((s, rest)) else None
    decreases s
  {
    if s == [] {
      assert GoBody(printable, s) + "\"" + rest == "\"" + rest;
      assert ("\"" + rest)[1..] == rest;
    } else {
      var t := GoBody(printable, s[1..]) + "\"" + rest;
      assert GoBody(printable, s) + "\"" + rest == GoEscape(printable, s[0]) + t;
      GoEscapeReads(printable, s[0], t);
      GoBodyReads(printable, s[1..], rest);
      AllSurviveSplit(printable, s);
      assert [s[0]] + s[1..] == s;
    }
  }

  lemma {:induction false} GoBodyIsClosed(printable: Printable, s: string)
    ensures Closed(GoBody(printable, s))
    ensures BodyValue(GoBody(printable, s)) == if AllSurvive(printable, s) then Some(s) else None
  {
    var body := GoBody(printable, s);
    GoBodyReads(printable, s, "");
    assert body + "\"" + "" == body + "\"";
    forall rest
      ensures ReadString(body + "\"" + rest) == if AllSurvive(printable, s) then Some((s, rest)) else None
    {
      GoBodyReads(printable, s, rest);
    }
  }

  lemma {:induction false} GoBodyIsOneLine(printable: Printable, s: string)
    ensures '\n' !in GoBody(printable, s)
    decreases s
  {
    if s == [] {
    } else {
      GoEscapeIsOneLine(printable, s[0]);
      GoBodyIsOneLine(printable, s[1..]);
    }
  }

  lemma {:induction false} HexIsOneLine(n: nat)
    requires n < 0x10000
    ensures '\n' !in Hex4(n)
  {
    assert forall i :: 0 <= i < 4 ==> IsHex(Hex4(n)[i]);
  }

  lemma {:induction false} GoEscapeIsOneLine(printable: Printable, c: char)
    ensures '\n' !in GoEscape(printable, c)
  {
    if c < '\U{80}' && !Prints(printable, c) {
      assert IsHex(HexDigit(c as int / 16)) && IsHex(HexDigit(c as int % 16));
    } else if c < '\U{10000}' {
      HexIsOneLine(CodePoint(c));
    } else {
      assert IsHex(HexDigit(c as int / 0x10_0000)) && IsHex(HexDigit(c as int / 0x1_0000 % 16));
      HexIsOneLine(c as int % 0x1_0000);
    }
  }

  /// Events

  // The names and constant strings of an event hold only characters that stand for themselves.
  predicate Plain(s: string) {
    forall i :: 0 <= i < |s| ==> s[i] >= ' ' && s[i] != '\"' && s[i] != '\\'
  }

  lemma {:induction false} PlainReads(s: string, rest: string)
    requires Plain(s)
    ensures ReadString(s + "\"" + rest) == Some((s, rest))
    decreases s
  {
    var t := s + "\"" + rest;
    if s == [] {
      assert t[1..] == rest;
    } else {
      assert t[1..] == s[1..] + "\"" + rest;
      PlainReads(s[1..], rest);
      assert [s[0]] + s[1..] == s;
    }
  }

  lemma {:induction false} PlainIsClosed(s: string)
    requires Plain(s)
    ensures Closed(s) && BodyValue(s) == Some(s)
  {
    PlainReads(s, "");
    assert s + "\"" + "" == s + "\"";
    forall rest
      ensures ReadString(s + "\"" + rest) == Some((s, rest))
    {
      PlainReads(s, rest);
    }
  }

  function DeltaDoc(body: string): Doc {
    DObj([Member("content", DStr(body))])
  }

  function ChoiceDoc(body: string): Doc {
    DObj([Member("index", DInt(0)), Member("delta", DeltaDoc(body)), Member("finish_reason", DNull)])
  }

  // The JSON of one event, member for member as in the adapter's format string, with the
  // quoted content as `body`.
  function EventDoc(body: string): Doc {
    DObj([Member("id", DStr("chatcmpl-ollama")),
          Member("object", DStr("chat.completion.chunk")),
          Member("choices", DArr([ChoiceDoc(body)]))])
  }

  /// Scanning

  // The next line of a text without its newline, and what follows. The last line needs no newline.
  function NextLine(s: string): (r: (string, string))
    requires s != []
    ensures |r.1| < |s|
  {
    var p := SplitLine(s);
    if p.None? then (s, "")
    else
      SplitShrinks(s);
      (p.value.0[..|p.value.0| - 1], p.value.1)
  }

  lemma {:induction false} SplitShrinks(s: string)
    requires SplitLine(s).Some?
    ensures SplitLine(s).value.0 != [] && |SplitLine(s).value.1| < |s|
  {
    if s[0] != '\n' {
      SplitShrinks(s[1..]);
    }
  }

  lemma {:induction false} NextFramed(line: string, rest: string)
    requires '\n' !in line
    ensures NextLine(line + "\n" + rest) == (line, rest)
  {
    SplitFramed(line, rest);
    assert (line + "\n")[..|line|] == line;
  }

  lemma {:induction false} NextLast(line: string)
    requires '\n' !in line && line != []
    ensures NextLine(line) == (line, "")
  {
    SplitNeedsNewline(line);
  }

  // A scanner gives up on a line that does not fit its buffer.
  const ADAPTER_BUFFER: nat := 64 * 1024
  const CHAT_BUFFER: nat := 1024 * 1024

  predicate Fits(line: string, buffer: nat) {
    Bytes(line) < buffer
  }

  /// The adapter

  // The content and the done mark of a line of the backend.
  function BackendLine(line: string): Option<(string, bool)> {
    var j := Parse(line);
    if j.None? then None
    else
      var m := AsFields(j.value);
      if m.None? then None
      else
        var done := AsBool(Get(m.value, "done"));
        var message := AsFields(Get(m.value, "message"));
        if done.None? || message.None? then None
        else
          var role, content := AsString(Get(message.value, "role")), AsString(Get(message.value, "content"));
          if role.None? || content.None? then None else Some((content.value, done.value))
  }

  function EventLine(body: string): string {
    "data: " + Render(EventDoc(body))
  }

  function Event(printable: Printable, content: string): string {
    EventLine(GoBody(printable, content)) + "\n\n"
  }

  // The done mark ends with backslashes and letters, not with newlines.
  const DONE_PAYLOAD: string := "[DONE]\\n\\n"

  const DONE: string := "data: " + DONE_PAYLOAD

  function DropCR(line: string): string {
    if line != [] && line[|line| - 1] == '\r' then line[..|line| - 1] else line
  }

  // How the adapter reads a line of the backend and prints the event for a content.
  datatype Adapter = Adapter(read: string -> Option<(string, bool)>, event: string -> string)

  // What one line makes the adapter print, and whether it stops there.
  function AdaptedLine(a: Adapter, raw: string): (string, bool) {
    if !Fits(raw, ADAPTER_BUFFER) then ("", true)
    else
      match a.read(DropCR(raw))
      case None => ("", false)
      case Some((content, done)) =>
        ((if content == "" then "" else a.event(content)) + (if done then DONE else ""), done)
  }

  function Adapted(a: Adapter, backend: string): string
    decreases |backend|
  {
    if backend == [] then ""
    else
      var (raw, rest) := NextLine(backend);
      var (text, stop) := AdaptedLine(a, raw);
      text + (if stop then "" else Adapted(a, rest))
  }

  method AdaptLine(a: Adapter, raw: string) returns (text: string, stop: bool)
    ensures (text, stop) == AdaptedLine(a, raw)
  {
    text := "";
    if !Fits(raw, ADAPTER_BUFFER) {
      return text, true;
    }
    var line := a.read(DropCR(raw));
    if line.None? {
      return text, false;
    }
    if line.value.0 != "" {
      text := a.event(line.value.0);
    }
    if line.value.1 {
      text := text + DONE;
    }
    assert text + "" == text;
    return text, line.value.1;
  }

  method Adapt(a: Adapter, backend: string) returns (out: string)
    ensures out == Adapted(a, backend)
  {
    out := "";
    var rest := backend;
    while rest != []
      invariant out + Adapted(a, rest) == Adapted(a, backend)
      decreases |rest|
    {
      ghost var todo := Adapted(a, rest);
      var (raw, next) := NextLine(rest);
      rest := next;
      var text, stop := AdaptLine(a, raw);
      assert todo == text + (if stop then "" else Adapted(a, next));
      out := out + text;
      if stop {
        return;
      }
    }
  }

  /// The chat client

  // The contents of the choices of an event.
  function ContentsIn(j: Json): Option<seq<string>> {
    var m := AsFields(j);
    if m.None? then None
    else
      match Get(m.value, "choices")
      case Null => Some([])
      case Arr(items) => ChoiceContents(items)
      case _ => None
  }

  function ChoiceContents(items: seq<Json>): Option<seq<string>> {
    if items == [] then Some([])
    else
      var m := AsFields(items[0]);
      if m.None? then None
      else
        var delta := AsFields(Get(m.value, "delta"));
        if delta.None? then None
        else
          var content, rest := AsString(Get(delta.value, "content")), ChoiceContents(items[1..]);
          if content.None? || rest.None? then None else Some([content.value] + rest.value)
  }

  function Concat(ss: seq<string>): string {
    if ss == [] then "" else ss[0] + Concat(ss[1..])
  }

  // What the client makes of one line.
  datatype LineEffect = Skip | Finish | Text(s: string)

  function EffectOf(raw: string): LineEffect {
    var line := TrimSpace(raw);
    if !("data:" <= line) then Skip
    else
      var payload := TrimSpace(line[5..]);
      if payload == "" then Skip
      else if payload == "[DONE]" then Finish
      else
        var j := Parse(payload);
        if j.None? then Skip
        else
          var cs := ContentsIn(j.value);
          if cs.None? then Skip else Text(Concat(cs.value))
  }

  // What was written out, how many bytes of content that is, and whether the scan failed; a failed
  // scan reports no bytes.
  datatype Transcript = Transcript(out: string, chars: nat, failed: bool)

  // A transcript after something was written out already.
  function Resumed(out: string, chars: nat, r: Transcript): Transcript {
    Transcript(out + r.out, if r.failed then 0 else chars + r.chars, r.failed)
  }

  function Shown(effect: string -> LineEffect, stream: string): (t: Transcript)
    ensures t.failed ==> t.chars == 0
    decreases |stream|
  {
    if stream == [] then Transcript("\n", 0, false)
    else
      var (raw, rest) := NextLine(stream);
      if !Fits(raw, CHAT_BUFFER) then Transcript("", 0, true)
      else
        match effect(DropCR(raw))
        case Skip => Shown(effect, rest)
        case Finish => Transcript("\n", 0, false)
        case Text(s) => Resumed(s, Bytes(s), Shown(effect, rest))
  }

  lemma {:induction false} ResumedTwice(out: string, chars: nat, s: string, n: nat, r: Transcript)
    ensures Resumed(out, chars, Resumed(s, n, r)) == Resumed(out + s, chars + n, r)
  {
    assert out + (s + r.out) == out + s + r.out;
  }

  method Show(effect: string -> LineEffect, stream: string) returns (t: Transcript)
    ensures t == Shown(effect, stream)
  {
    var out, rest := "", stream;
    var chars: nat := 0;
    while rest != []
      invariant Shown(effect, stream) == Resumed(out, chars, Shown(effect, rest))
      decreases |rest|
    {
      var (raw, next) := NextLine(rest);
      if !Fits(raw, CHAT_BUFFER) {
        return Transcript(out + "", 0, true);
      }
      rest := next;
      match effect(DropCR(raw)) {
        case Skip =>
        case Finish =>
          return Transcript(out + "\n", chars, false);
        case Text(s) =>
          ResumedTwice(out, chars, s, Bytes(s), Shown(effect, rest));
          chars := chars + Bytes(s);
          out := out + s;
      }
    }
    return Transcript(out + "\n", chars, false);
  }

  /// One event at the client

  lemma {:induction false} OneClosed(m: Member)
    requires Closed(m.name) && AllClosed(m.value)
    ensures AllClosed(DObj([m]))
  {
    assert MembersClosed([m][1..]);
  }

  lemma {:induction false} ThreeClosed(a: Member, b: Member, c: Member)
    requires Closed(a.name) && AllClosed(a.value)
    requires Closed(b.name) && AllClosed(b.value)
    requires Closed(c.name) && AllClosed(c.value)
    ensures AllClosed(DObj([a, b, c]))
  {
    assert [a, b, c][1..] == [b, c] && [b, c][1..] == [c] && [c][1..] == [];
    assert MembersClosed([c]);
    assert MembersClosed([b, c]);
  }

  lemma {:induction false} ChoiceIsClosed(body: string)
    requires Closed(body)
    ensures AllClosed(ChoiceDoc(body))
  {
    PlainIsClosed("content");
    OneClosed(Member("content", DStr(body)));
    PlainIsClosed("index");
    PlainIsClosed("delta");
    PlainIsClosed("finish_reason");
    ThreeClosed(Member("index", DInt(0)), Member("delta", DeltaDoc(body)), Member("finish_reason", DNull));
  }

  lemma {:induction false} EventIsClosed(body: string)
    requires Closed(body)
    ensures AllClosed(EventDoc(body))
  {
    ChoiceIsClosed(body);
    PlainIsClosed("id");
    PlainIsClosed("chatcmpl-ollama");
    PlainIsClosed("object");
    PlainIsClosed("chat.completion.chunk");
    PlainIsClosed("choices");
    assert ItemsClosed([ChoiceDoc(body)][1..]);
    ThreeClosed(Member("id", DStr("chatcmpl-ollama")),
                Member("object", DStr("chat.completion.chunk")),
                Member("choices", DArr([ChoiceDoc(body)])));
  }

  // The parsed event of a content.
  function EventJson(content: string): Json {
    Obj([Field("id", Str("chatcmpl-ollama")),
         Field("object", Str("chat.completion.chunk")),
         Field("choices", Arr([ChoiceJson(content)]))])
  }

  function ChoiceJson(content: string): Json {
    Obj([Field("index", Num(Numeral(0))),
         Field("delta", Obj([Field("content", Str(content))])),
         Field("finish_reason", Null)])
  }

  lemma {:induction false} MeansMore(m: Member, more: seq<Member>)
    ensures MembersMeaning([m] + more) ==
            var f, fs := MemberMeaning(m), MembersMeaning(more);
            if f.Some? && fs.Some? then Some([f.value] + fs.value) else None
  {
    assert ([m] + more)[1..] == more;
  }

  lemma {:induction false} OneMeans(m: Member)
    ensures MembersMeaning([m]) == if MemberMeaning(m).Some? then Some([MemberMeaning(m).value]) else None
  {
    assert [m] + [] == [m];
    MeansMore(m, []);
    assert MemberMeaning(m).Some? ==> [MemberMeaning(m).value] + [] == [MemberMeaning(m).value];
  }

  lemma {:induction false} ThreeMean(a: Member, b: Member, c: Member)
    ensures MembersMeaning([a, b, c]) ==
            var x, y, z := MemberMeaning(a), MemberMeaning(b), MemberMeaning(c);
            if x.Some? && y.Some? && z.Some? then Some([x.value, y.value, z.value]) else None
  {
    assert [a] + [b, c] == [a, b, c] && [b] + [c] == [b, c];
    MeansMore(a, [b, c]);
    MeansMore(b, [c]);
    OneMeans(c);
    var x, y, z := MemberMeaning(a), MemberMeaning(b), MemberMeaning(c);
    assert y.Some? && z.Some? ==> [y.value] + [z.value] == [y.value, z.value];
    assert x.Some? && y.Some? && z.Some? ==> [x.value] + [y.value, z.value] == [x.value, y.value, z.value];
  }

  lemma {:induction false} NamedMeans(name: string, d: Doc)
    requires Plain(name)
    ensures MemberMeaning(Member(name, d)) == if Meaning(d).Some? then Some(Field(name, Meaning(d).value)) else None
  {
    PlainIsClosed(name);
  }

  lemma {:induction false} ConstantMeans(name: string, s: string)
    requires Plain(name) && Plain(s)
    ensures MemberMeaning(Member(name, DStr(s))) == Some(Field(name, Str(s)))
  {
    PlainIsClosed(s);
    NamedMeans(name, DStr(s));
  }

  lemma {:induction false} DeltaMeans(body: string)
    ensures Meaning(DeltaDoc(body)) ==
            if BodyValue(body).Some? then Some(Obj([Field("content", Str(BodyValue(body).value))])) else None
  {
    NamedMeans("content", DStr(body));
    OneMeans(Member("content", DStr(body)));
  }

  lemma {:induction false} ChoiceMeans(body: string)
    ensures Meaning(ChoiceDoc(body)) == if BodyValue(body).Some? then Some(ChoiceJson(BodyValue(body).value)) else None
  {
    DeltaMeans(body);
    NamedMeans("index", DInt(0));
    NamedMeans("delta", DeltaDoc(body));
    NamedMeans("finish_reason", DNull);
    ThreeMean(Member("index", DInt(0)), Member("delta", DeltaDoc(body)), Member("finish_reason", DNull));
  }

  lemma {:induction false} SingletonMeans(d: Doc)
    ensures Meaning(DArr([d])) == if Meaning(d).Some? then Some(Arr([Meaning(d).value])) else None
  {
    assert ItemsMeaning([d][1..]) == Some([]);
    assert Meaning(d).Some? ==> [Meaning(d).value] + [] == [Meaning(d).value];
  }

  lemma {:induction false} EventMeans(body: string)
    ensures Meaning(EventDoc(body)) == if BodyValue(body).Some? then Some(EventJson(BodyValue(body).value)) else None
  {
    var d := DArr([ChoiceDoc(body)]);
    ChoiceMeans(body);
    SingletonMeans(ChoiceDoc(body));
    ConstantMeans("id", "chatcmpl-ollama");
    ConstantMeans("object", "chat.completion.chunk");
    NamedMeans("choices", d);
    ThreeMean(Member("id", DStr("chatcmpl-ollama")), Member("object", DStr("chat.completion.chunk")), Member("choices", d));
  }

  lemma {:induction false} FieldsSnoc(fs: seq<Field>, f: Field)
    ensures Fields(fs + [f]) == Fields(fs)[f.name := f.value]
  {
    assert (fs + [f])[..|fs|] == fs;
  }

  lemma {:induction false} FieldsOne(a: Field)
    ensures Fields([a]) == map[a.name := a.value]
  {
    FieldsSnoc([], a);
    assert [] + [a] == [a];
  }

  lemma {:induction false} FieldsThree(a: Field, b: Field, c: Field)
    ensures Fields([a, b, c]) == map[a.name := a.value][b.name := b.value][c.name := c.value]
  {
    FieldsOne(a);
    FieldsSnoc([a], b);
    FieldsSnoc([a, b], c);
    assert [a] + [b] == [a, b] && [a, b] + [c] == [a, b, c];
  }

  lemma {:induction false} ChoiceContent(content: string)
    ensures ChoiceContents([ChoiceJson(content)]) == Some([content])
  {
    var choice, delta := ChoiceJson(content), Field("content", Str(content));
    FieldsOne(delta);
    FieldsThree(Field("index", Num(Numeral(0))), Field("delta", Obj([delta])), Field("finish_reason", Null));
    assert "delta" != "finish_reason";
    var m := AsFields(choice).value;
    assert Get(m, "delta") == Obj([delta]);
    assert Get(AsFields(Obj([delta])).value, "content") == Str(content);
    assert [choice][1..] == [] && ChoiceContents([]) == Some([]);
    assert [content] + [] == [content];
  }

  lemma {:induction false} EventContents(content: string)
    ensures ContentsIn(EventJson(content)) == Some([content])
  {
    ChoiceContent(content);
    FieldsThree(Field("id", Str("chatcmpl-ollama")),
                Field("object", Str("chat.completion.chunk")),
                Field("choices", Arr([ChoiceJson(content)])));
    assert Get(AsFields(EventJson(content)).value, "choices") == Arr([ChoiceJson(content)]);
  }

  lemma {:induction false} EventParses(printable: Printable, content: string)
    ensures Parse(Render(EventDoc(GoBody(printable, content)))) ==
            if AllSurvive(printable, content) then Some(EventJson(content)) else None
  {
    GoBodyIsClosed(printable, content);
    EventIsClosed(GoBody(printable, content));
    ParsesBack(EventDoc(GoBody(printable, content)));
    EventMeans(GoBody(printable, content));
  }

  lemma {:induction false} ConcatOne(s: string)
    ensures Concat([s]) == s
  {
    assert [s][1..] == [] && s + "" == s;
  }

  // The client writes out the content of an event whose characters survive, and skips any other.
  lemma {:induction false} EventEffect(printable: Printable, content: string)
    ensures EffectOf(EventLine(GoBody(printable, content))) ==
            if AllSurvive(printable, content) then Text(content) else Skip
  {
    EventTrims(GoBody(printable, content));
    EventParses(printable, content);
    EventContents(content);
    ConcatOne(content);
  }

  lemma {:induction false} EventTrims(body: string)
    ensures var line, text := EventLine(body), Render(EventDoc(body));
            TrimSpace(line) == line && "data:" <= line && TrimSpace(line[5..]) == text
            && text != "" && text != "[DONE]" && line[|line| - 1] == '}'
  {
    var text := Render(EventDoc(body));
    ObjectBraces(EventDoc(body).members);
    assert !IsSpace('{') && !IsSpace('}');
    DataTrims(text);
  }

  lemma {:induction false} DataTrims(text: string)
    requires text != [] && !IsSpace(text[0]) && !IsSpace(text[|text| - 1])
    ensures var line := "data: " + text;
            TrimSpace(line) == line && "data:" <= line && TrimSpace(line[5..]) == text && line[|line| - 1] == text[|text| - 1]
  {
    var line := "data: " + text;
    DataLine(text);
    assert !IsSpace('d');
    TrimKeeps(line);
    TrimDropsBlank(text);
  }

  lemma {:induction false} DataLine(text: string)
    requires text != []
    ensures var line := "data: " + text;
            line[0] == 'd' && line[|line| - 1] == text[|text| - 1] && "data:" <= line && line[5..] == " " + text
  {
    assert "data: " + text == "data:" + (" " + text);
  }

  /// Events fit the client's buffer

  lemma {:induction false} GoEscapeBytes(printable: Printable, c: char)
    ensures Bytes(GoEscape(printable, c)) <= 4 * CharBytes(c)
    ensures Prints(printable, c) || c < '\U{80}' || forall i :: 0 <= i < |GoEscape(printable, c)| ==> GoEscape(printable, c)[i] < '\U{80}'
  {
    var e := GoEscape(printable, c);
    if e == [c] {
      assert [c][1..] == [];
    } else if c < '\U{80}' {
      assert |e| <= 4;
      EscapeIsAscii(printable, c);
      LiteralBytes(e);
    } else {
      EscapeIsAscii(printable, c);
      LiteralBytes(e);
    }
  }

  lemma {:induction false} HexIsAscii(n: nat)
    requires n < 0x10000
    ensures forall i :: 0 <= i < 4 ==> Hex4(n)[i] < '\U{80}'
  {
    assert forall i :: 0 <= i < 4 ==> IsHex(Hex4(n)[i]);
  }

  lemma {:induction false} EscapeIsAscii(printable: Printable, c: char)
    ensures var e := GoEscape(printable, c);
            e == [c] || forall i :: 0 <= i < |e| ==> e[i] < '\U{80}'
  {
    if c < '\U{80}' {
      if c < ' ' || c == '\U{7F}' {
        assert IsHex(HexDigit(c as int / 16)) && IsHex(HexDigit(c as int % 16));
      }
    } else if c < '\U{10000}' {
      HexIsAscii(CodePoint(c));
    } else {
      assert IsHex(HexDigit(c as int / 0x10_0000)) && IsHex(HexDigit(c as int / 0x1_0000 % 16));
      HexIsAscii(c as int % 0x1_0000);
    }
  }

  lemma {:induction false} GoBodyBytes(printable: Printable, s: string)
    ensures Bytes(GoBody(printable, s)) <= 4 * Bytes(s)
  {
    if s == [] {
    } else {
      GoEscapeBytes(printable, s[0]);
      GoBodyBytes(printable, s[1..]);
      BytesAppend(GoEscape(printable, s[0]), GoBody(printable, s[1..]));
    }
  }

  // The content of a line of the backend is no longer than the line.
  lemma {:induction false} BackendBytes(line: string)
    requires BackendLine(line).Some?
    ensures Bytes(BackendLine(line).value.0) <= Bytes(line)
  {
    var j := Parse(line).value;
    ReadValueBytes(line);
    var fs := if j.Obj? then j.members else [];
    MemberBytes(fs, "message");
    var message := Get(Fields(fs), "message");
    var inner := if message.Obj? then message.members else [];
    MemberBytes(inner, "content");
  }

  lemma {:induction false} EventFits(printable: Printable, content: string)
    requires Bytes(content) < ADAPTER_BUFFER
    ensures Fits(EventLine(GoBody(printable, content)), CHAT_BUFFER)
  {
    var body := GoBody(printable, content);
    GoBodyBytes(printable, content);
    RenderBytes(EventDoc(body));
    EventWeight(body);
    BytesAppend("data: ", Render(EventDoc(body)));
    BytesAtLeast("data: ");
  }

  lemma {:induction false} MembersBound(m: Member, more: seq<Member>)
    ensures MembersWeight([m] + more) <= 4 + 4 * |m.name| + Weight(m.value) + MembersWeight(more)
  {
    BytesAtLeast(m.name);
    assert ([m] + more)[1..] == more;
  }

  lemma {:induction false} ThreeBound(a: Member, b: Member, c: Member)
    ensures MembersWeight([c]) <= 4 + 4 * |c.name| + Weight(c.value)
    ensures MembersWeight([a, b, c])
         <= 12 + 4 * (|a.name| + |b.name| + |c.name|) + Weight(a.value) + Weight(b.value) + Weight(c.value)
  {
    assert [a] + [b, c] == [a, b, c] && [b] + [c] == [b, c] && [c] + [] == [c];
    MembersBound(a, [b, c]);
    MembersBound(b, [c]);
    MembersBound(c, []);
  }

  lemma {:induction false} StringBound(s: string)
    ensures Weight(DStr(s)) <= 2 + 4 * |s|
  {
    BytesAtLeast(s);
  }

  lemma {:induction false} ChoiceWeight(body: string)
    ensures Weight(ChoiceDoc(body)) <= Bytes(body) + 300
  {
    var delta := Member("content", DStr(body));
    ThreeBound(delta, delta, delta);
    assert Weight(DeltaDoc(body)) <= Bytes(body) + 36;
    BytesAtLeast(Numeral(0));
    ThreeBound(Member("index", DInt(0)), Member("delta", DeltaDoc(body)), Member("finish_reason", DNull));
  }

  lemma {:induction false} ItemBound(d: Doc)
    ensures Weight(DArr([d])) == 3 + Weight(d)
  {
    assert ItemsWeight([d][1..]) == 0;
  }

  lemma {:induction false} EventWeight(body: string)
    ensures Weight(EventDoc(body)) <= Bytes(body) + 1000
  {
    var d := ChoiceDoc(body);
    ChoiceWeight(body);
    ItemBound(d);
    StringBound("chatcmpl-ollama");
    StringBound("chat.completion.chunk");
    ThreeBound(Member("id", DStr("chatcmpl-ollama")),
               Member("object", DStr("chat.completion.chunk")),
               Member("choices", DArr([d])));
  }

  /// End to end

  function OllamaAdapter(printable: Printable): Adapter {
    Adapter(BackendLine, content => Event(printable, content))
  }

  // The contents of the backend's lines, up to and including the first line marked done; the
  // list also ends at a line that does not fit the adapter's buffer.
  function Contents(read: string -> Option<(string, bool)>, backend: string): seq<string>
    decreases |backend|
  {
    if backend == [] then []
    else
      var (raw, rest) := NextLine(backend);
      if !Fits(raw, ADAPTER_BUFFER) then []
      else
        match read(DropCR(raw))
        case None => Contents(read, rest)
        case Some((content, done)) => [content] + (if done then [] else Contents(read, rest))
  }

  // The contents that survive, joined.
  function Delivered(survives: string -> bool, contents: seq<string>): string {
    if contents == [] then ""
    else (if survives(contents[0]) then contents[0] else "") + Delivered(survives, contents[1..])
  }

  lemma {:induction false} ShownLine(effect: string -> LineEffect, line: string, rest: string)
    requires '\n' !in line && Fits(line, CHAT_BUFFER) && DropCR(line) == line
    ensures Shown(effect, line + "\n" + rest) ==
            match effect(line)
            case Skip => Shown(effect, rest)
            case Finish => Transcript("\n", 0, false)
            case Text(s) => Resumed(s, Bytes(s), Shown(effect, rest))
  {
    NextFramed(line, rest);
  }

  lemma {:induction false} NamesAreOneLine()
    ensures '\n' !in "id" && '\n' !in "chatcmpl-ollama" && '\n' !in "object" && '\n' !in "chat.completion.chunk"
    ensures '\n' !in "choices" && '\n' !in "index" && '\n' !in "delta" && '\n' !in "content"
    ensures '\n' !in "finish_reason" && '\n' !in "data: "
  {
  }

  lemma {:induction false} ThreeOneLine(a: Member, b: Member, c: Member)
    requires '\n' !in a.name && OneLine(a.value)
    requires '\n' !in b.name && OneLine(b.value)
    requires '\n' !in c.name && OneLine(c.value)
    ensures OneLine(DObj([a, b, c]))
  {
    assert [a, b, c][1..] == [b, c] && [b, c][1..] == [c] && [c][1..] == [];
    assert MembersOneLine([c]);
    assert MembersOneLine([b, c]);
  }

  lemma {:induction false} EventIsOneLine(printable: Printable, content: string)
    ensures '\n' !in EventLine(GoBody(printable, content))
    ensures DropCR(EventLine(GoBody(printable, content))) == EventLine(GoBody(printable, content))
  {
    var body := GoBody(printable, content);
    var choice := ChoiceDoc(body);
    GoBodyIsOneLine(printable, content);
    NamesAreOneLine();
    assert MembersOneLine([Member("content", DStr(body))][1..]);
    ThreeOneLine(Member("index", DInt(0)), Member("delta", DeltaDoc(body)), Member("finish_reason", DNull));
    assert ItemsOneLine([choice][1..]);
    ThreeOneLine(Member("id", DStr("chatcmpl-ollama")),
                 Member("object", DStr("chat.completion.chunk")),
                 Member("choices", DArr([choice])));
    RenderIsOneLine(EventDoc(body));
    EventTrims(body);
  }

  // A line with the blank line after it.
  lemma {:induction false} ShownFramed(effect: string -> LineEffect, line: string, rest: string)
    requires '\n' !in line && Fits(line, CHAT_BUFFER) && DropCR(line) == line && effect("") == Skip
    ensures Shown(effect, line + "\n\n" + rest) ==
            match effect(line)
            case Skip => Shown(effect, rest)
            case Finish => Transcript("\n", 0, false)
            case Text(s) => Resumed(s, Bytes(s), Shown(effect, rest))
  {
    assert line + "\n\n" + rest == line + "\n" + ("\n" + rest);
    ShownLine(effect, line, "\n" + rest);
    assert "" + "\n" + rest == "\n" + rest;
    ShownLine(effect, "", rest);
  }

  lemma {:induction false} BlankIsSkipped()
    ensures EffectOf("") == Skip
  {
  }

  // At the client one event adds its content, if that survives, and nothing otherwise.
  lemma {:induction false} ShownEvent(printable: Printable, content: string, rest: string)
    requires Bytes(content) < ADAPTER_BUFFER
    ensures Shown(EffectOf, Event(printable, content) + rest) ==
            if AllSurvive(printable, content) then Resumed(content, Bytes(content), Shown(EffectOf, rest))
            else Shown(EffectOf, rest)
  {
    EventIsOneLine(printable, content);
    EventFits(printable, content);
    EventEffect(printable, content);
    BlankIsSkipped();
    ShownFramed(EffectOf, EventLine(GoBody(printable, content)), rest);
  }

  lemma {:induction false} ShownDone()
    ensures Shown(EffectOf, DONE) == Transcript("\n", 0, false)
  {
    DoneIsSkipped();
    DoneIsOneLine();
    NextLast(DONE);
    BytesAtLeast(DONE);
  }

  // What follows `data:` in the done mark is neither the mark the client looks for nor JSON.
  lemma {:induction false} DoneIsSkipped()
    ensures EffectOf(DONE) == Skip
  {
    var p := DONE_PAYLOAD;
    assert |p| == 10 && p[0] == '[' && p[1] == 'D' && p[9] == 'n';
    assert !IsSpace('[') && !IsSpace('n');
    DataTrims(p);
    assert p == "[" + p[1..];
    DoneIsNoJson(p[1..]);
  }

  lemma {:induction false} DoneIsOneLine()
    ensures '\n' !in DONE && DropCR(DONE) == DONE
  {
    assert '\n' !in "data: " && '\n' !in DONE_PAYLOAD;
    assert DONE[|DONE| - 1] == 'n';
  }

  // The mark that would end a stream early, had the adapter sent it.
  lemma {:induction false} TrueMarkFinishes()
    ensures EffectOf("data: [DONE]") == Finish
  {
    var p := "[DONE]";
    assert !IsSpace('[') && !IsSpace(']');
    DataTrims(p);
    assert "data: [DONE]" == "data: " + p;
  }

  // Only data lines matter to the client.
  lemma {:induction false} OtherLinesAreSkipped(raw: string)
    requires !("data:" <= TrimSpace(raw))
    ensures EffectOf(raw) == Skip
  {
  }

  lemma {:induction false} DoneIsNoJson(t: string)
    requires t != [] && t[0] == 'D'
    ensures Parse("[" + t) == None
  {
    OpensArray(t);
    assert SkipWhite(t) == t;
    assert "null"[0] == 'n' && "true"[0] == 't' && "false"[0] == 'f';
    assert t[0..] == t && Digits(t) == 0;
    assert ReadValue(t) == None;
  }

  // What the end-to-end argument needs of an adapter and a client: a content is no longer than
  // its line, an event adds its content or nothing, and the done mark adds nothing.
  ghost predicate Fitting(a: Adapter, effect: string -> LineEffect, survives: string -> bool) {
    && (forall line :: a.read(line).Some? ==> Bytes(a.read(line).value.0) <= Bytes(line))
    && (forall content, rest :: Bytes(content) < ADAPTER_BUFFER ==>
          Shown(effect, a.event(content) + rest) == Added(survives, content, Shown(effect, rest)))
    && Shown(effect, DONE) == Transcript("\n", 0, false)
  }

  function Added(survives: string -> bool, content: string, r: Transcript): Transcript {
    if survives(content) then Resumed(content, Bytes(content), r) else r
  }

  lemma {:induction false} AdaptedArrives(a: Adapter, effect: string -> LineEffect, survives: string -> bool, backend: string)
    requires Fitting(a, effect, survives)
    ensures var text := Delivered(survives, Contents(a.read, backend));
            Shown(effect, Adapted(a, backend)) == Transcript(text + "\n", Bytes(text), false)
    decreases |backend|
  {
    if backend == [] {
    } else {
      var (raw, rest) := NextLine(backend);
      var (printed, stop) := AdaptedLine(a, raw);
      assert Adapted(a, backend) == printed + (if stop then "" else Adapted(a, rest));
      if !Fits(raw, ADAPTER_BUFFER) {
        assert "" + "" == "";
      } else if a.read(DropCR(raw)).None? {
        AdaptedArrives(a, effect, survives, rest);
        assert "" + Adapted(a, rest) == Adapted(a, rest);
      } else {
        var (content, done) := a.read(DropCR(raw)).value;
        if !done {
          AdaptedArrives(a, effect, survives, rest);
        }
        DropCRBytes(raw);
        LineArrives(a, effect, survives, backend, content, done);
      }
    }
  }

  lemma {:induction false} LineArrives(
    a: Adapter, effect: string -> LineEffect, survives: string -> bool, backend: string, content: string, done: bool)
    requires Fitting(a, effect, survives) && backend != [] && Bytes(content) < ADAPTER_BUFFER
    requires Fits(NextLine(backend).0, ADAPTER_BUFFER)
    requires a.read(DropCR(NextLine(backend).0)) == Some((content, done))
    requires var rest := NextLine(backend).1;
             var text := Delivered(survives, Contents(a.read, rest));
             done || Shown(effect, Adapted(a, rest)) == Transcript(text + "\n", Bytes(text), false)
    ensures var text := Delivered(survives, Contents(a.read, backend));
            Shown(effect, Adapted(a, backend)) == Transcript(text + "\n", Bytes(text), false)
  {
    var rest := NextLine(backend).1;
    var printed := if content == "" then "" else a.event(content);
    var tail := if done then DONE else Adapted(a, rest);
    ContentArrives(a, effect, survives, content, tail, if done then [] else Contents(a.read, rest));
    LinePrinted(a, backend, content, done, printed);
  }

  lemma {:induction false} LinePrinted(a: Adapter, backend: string, content: string, done: bool, printed: string)
    requires backend != [] && Fits(NextLine(backend).0, ADAPTER_BUFFER)
    requires a.read(DropCR(NextLine(backend).0)) == Some((content, done))
    requires printed == if content == "" then "" else a.event(content)
    ensures Adapted(a, backend) == printed + (if done then DONE else Adapted(a, NextLine(backend).1))
  {
    var more := Adapted(a, NextLine(backend).1);
    assert printed + "" + more == printed + more && printed + DONE + "" == printed + DONE;
  }

  lemma {:induction false} ContentArrives(
    a: Adapter, effect: string -> LineEffect, survives: string -> bool, content: string, tail: string, more: seq<string>)
    requires Fitting(a, effect, survives) && Bytes(content) < ADAPTER_BUFFER
    requires var text := Delivered(survives, more); Shown(effect, tail) == Transcript(text + "\n", Bytes(text), false)
    ensures var text := Delivered(survives, [content] + more);
            Shown(effect, (if content == "" then "" else a.event(content)) + tail) == Transcript(text + "\n", Bytes(text), false)
  {
    var text := Delivered(survives, more);
    assert ([content] + more)[1..] == more;
    BytesAppend(content, text);
    assert "" + text == text && "" + tail == tail;
    assert content + (text + "\n") == (content + text) + "\n";
  }

  lemma {:induction false} OllamaFitting(printable: Printable)
    ensures Fitting(OllamaAdapter(printable), EffectOf, content => AllSurvive(printable, content))
  {
    var a := OllamaAdapter(printable);
    forall line | a.read(line).Some?
      ensures Bytes(a.read(line).value.0) <= Bytes(line)
    {
      BackendBytes(line);
    }
    forall content, rest | Bytes(content) < ADAPTER_BUFFER
      ensures Shown(EffectOf, a.event(content) + rest)
           == Added(content => AllSurvive(printable, content), content, Shown(EffectOf, rest))
    {
      ShownEvent(printable, content, rest);
    }
    ShownDone();
  }

  // Whatever the backend sends, the client writes out exactly the surviving contents of its lines
  // up to and including the first done line, then one newline, and counts their bytes.
  lemma {:induction false} StreamArrives(printable: Printable, backend: string)
    ensures var text := Delivered(content => AllSurvive(printable, content), Contents(BackendLine, backend));
            Shown(EffectOf, Adapted(OllamaAdapter(printable), backend)) == Transcript(text + "\n", Bytes(text), false)
  {
    OllamaFitting(printable);
    AdaptedArrives(OllamaAdapter(printable), EffectOf, content => AllSurvive(printable, content), backend);
  }

  lemma {:induction false} DropCRBytes(raw: string)
    ensures Bytes(DropCR(raw)) <= Bytes(raw)
  {
    if DropCR(raw) != raw {
      BytesAppend(DropCR(raw), "\r");
      assert raw == DropCR(raw) + "\r";
    }
  }

  // When every content survives, nothing is lost.
  lemma {:induction false} NothingLost(survives: string -> bool, contents: seq<string>)
    requires forall i :: 0 <= i < |contents| ==> survives(contents[i])
    ensures Delivered(survives, contents) == Concat(contents)
    decreases contents
  {
    if contents == [] {
    } else {
      NothingLost(survives, contents[1..]);
    }
  }

  /// A backend, line by line

  // A line of the backend, in the terms of its JSON: a message, or text that is no JSON at all.
  datatype Line = Message(text: string, content: string, done: bool) | Junk(text: string)

  function MessageJson(content: string, done: bool): Json {
    Obj([Field("message", Obj([Field("content", Str(content))])), Field("done", Bool(done))])
  }

  // The text stands for the line, and fits the adapter's buffer of 64 KiB.
  ghost predicate Says(l: Line) {
    && '\n' !in l.text && l.text != "" && l.text[|l.text| - 1] != '\r' && Bytes(l.text) < 65536
    && Parse(l.text) == if l.Junk? then None else Some(MessageJson(l.content, l.done))
  }

  function Joined(lines: seq<Line>): string {
    if lines == [] then "" else lines[0].text + "\n" + Joined(lines[1..])
  }

  // What is to be shown: the contents that survive, up to and including the first line that is done.
  function Expected(printable: Printable, lines: seq<Line>): string {
    if lines == [] then ""
    else
      var l := lines[0];
      if l.Junk? then Expected(printable, lines[1..])
      else
        (if AllSurvive(printable, l.content) then l.content else "")
        + (if l.done then "" else Expected(printable, lines[1..]))
  }

  lemma {:induction false} MessageReads(content: string, done: bool, line: string)
    requires Parse(line) == Some(MessageJson(content, done))
    ensures BackendLine(line) == Some((content, done))
  {
    var message, mark := Field("message", Obj([Field("content", Str(content))])), Field("done", Bool(done));
    FieldsOne(Field("content", Str(content)));
    FieldsOne(message);
    FieldsSnoc([message], mark);
    assert [message] + [mark] == [message, mark];
    assert "message" != "done" && "role" != "content";
  }

  lemma {:induction false} SaidIsDelivered(survives: string -> bool, printable: Printable, lines: seq<Line>)
    requires forall l :: l in lines ==> Says(l)
    requires forall c :: survives(c) == AllSurvive(printable, c)
    ensures Delivered(survives, Contents(BackendLine, Joined(lines))) == Expected(printable, lines)
  {
    if lines == [] {
    } else {
      var l, more := lines[0], Joined(lines[1..]);
      assert l in lines && Says(l);
      SaidIsDelivered(survives, printable, lines[1..]);
      NextFramed(l.text, more);
      if l.Message? {
        MessageReads(l.content, l.done, l.text);
      } else {
        assert BackendLine(l.text).None?;
      }
      OneLineDelivered(survives, BackendLine, l.text, more);
    }
  }

  lemma {:induction false} OneLineDelivered(survives: string -> bool, read: string -> Option<(string, bool)>, line: string, more: string)
    requires NextLine(line + "\n" + more) == (line, more) && DropCR(line) == line && Fits(line, ADAPTER_BUFFER)
    ensures Delivered(survives, Contents(read, line + "\n" + more)) ==
            match read(line)
            case None => Delivered(survives, Contents(read, more))
            case Some((content, done)) =>
              (if survives(content) then content else "") + (if done then "" else Delivered(survives, Contents(read, more)))
  {
    if read(line).Some? {
      var (content, done) := read(line).value;
      var rest := if done then [] else Contents(read, more);
      assert Contents(read, line + "\n" + more) == [content] + rest;
      assert ([content] + rest)[1..] == rest;
    }
  }

  // A line of the backend of 64 KiB or more ends the stream without a mark.
  lemma {:induction false} LongLineEnds(a: Adapter, line: string, more: string)
    requires '\n' !in line && Bytes(line) >= 65536
    ensures Adapted(a, line + "\n" + more) == ""
  {
    NextFramed(line, more);
    assert "" + "" == "";
  }

  // A line of 1 MiB or more fails the client's scan, and no bytes are reported.
  lemma {:induction false} LongLineFails(effect: string -> LineEffect, line: string, more: string)
    requires '\n' !in line && Bytes(line) >= 1048576
    ensures Shown(effect, line + "\n" + more) == Transcript("", 0, true)
  {
    NextFramed(line, more);
  }

  // For any lines of the backend the client shows their contents up to and including the first that is
  // done, then one newline, and counts their bytes.
  lemma {:induction false} LinesArrive(printable: Printable, lines: seq<Line>)
    requires forall l :: l in lines ==> Says(l)
    ensures var text := Expected(printable, lines);
            Shown(EffectOf, Adapted(OllamaAdapter(printable), Joined(lines))) == Transcript(text + "\n", Bytes(text), false)
  {
    StreamArrives(printable, Joined(lines));
    SaidIsDelivered(c => AllSurvive(printable, c), printable, lines);
  }

  // For instance: of two messages, the first one done, only the first is shown; otherwise both are.
  lemma {:induction false} DoneIsTheLast(printable: Printable, first: Line, second: Line)
    requires Says(first) && Says(second) && first.Message? && second.Message?
    requires AllSurvive(printable, first.content) && AllSurvive(printable, second.content)
    ensures var text := if first.done then first.content else first.content + second.content;
            Shown(EffectOf, Adapted(OllamaAdapter(printable), first.text + "\n" + (second.text + "\n")))
            == Transcript(text + "\n", Bytes(text), false)
  {
    var lines := [first, second];
    assert lines[1..] == [second] && [second][1..] == [];
    assert Joined([second]) == second.text + "\n" + "";
    assert second.text + "\n" + "" == second.text + "\n";
    assert Joined(lines) == first.text + "\n" + (second.text + "\n");
    ExpectedOfTwo(printable, first, second);
    LinesArrive(printable, lines);
  }

  lemma {:induction false} ExpectedOfTwo(printable: Printable, first: Line, second: Line)
    requires first.Message? && second.Message?
    requires AllSurvive(printable, first.content) && AllSurvive(printable, second.content)
    ensures Expected(printable, [first, second]) == if first.done then first.content else first.content + second.content
  {
    assert [first, second][1..] == [second] && [second][1..] == [];
    assert Expected(printable, [second]) == second.content + "";
    assert second.content + "" == second.content && first.content + "" == first.content;
  }

  /// One content on a line of its own

  // A line of the backend that carries one content, written as the body of a JSON string.
  function LineDoc(body: string): Doc {
    DObj([Member("message", DeltaDoc(body))])
  }

  lemma {:induction false} LineDocReads(body: string, content: string)
    requires Closed(body) && BodyValue(body) == Some(content)
    ensures Parse(Render(LineDoc(body))) == Some(Obj([Field("message", Obj([Field("content", Str(content))]))]))
  {
    var m := Member("message", DeltaDoc(body));
    PlainIsClosed("content");
    PlainIsClosed("message");
    OneClosed(Member("content", DStr(body)));
    OneClosed(m);
    ParsesBack(LineDoc(body));
    DeltaMeans(body);
    NamedMeans("message", DeltaDoc(body));
    OneMeans(m);
  }

  lemma {:induction false} ContentReads(line: string, content: string)
    requires Parse(line) == Some(Obj([Field("message", Obj([Field("content", Str(content))]))]))
    ensures BackendLine(line) == Some((content, false))
  {
    FieldsOne(Field("content", Str(content)));
    FieldsOne(Field("message", Obj([Field("content", Str(content))])));
  }

  lemma {:induction false} LineDocFits(body: string)
    requires Bytes(body) < 60_000
    ensures Fits(Render(LineDoc(body)), ADAPTER_BUFFER)
  {
    var delta, message := Member("content", DStr(body)), Member("message", DeltaDoc(body));
    RenderBytes(LineDoc(body));
    MembersBound(delta, []);
    MembersBound(message, []);
    assert [delta] + [] == [delta] && [message] + [] == [message];
  }

  lemma {:induction false} LineDocIsOneLine(body: string)
    requires '\n' !in body
    ensures '\n' !in Render(LineDoc(body))
  {
    var delta, message := Member("content", DStr(body)), Member("message", DeltaDoc(body));
    PlainNames();
    OneMemberOneLine(delta);
    OneMemberOneLine(message);
    RenderIsOneLine(LineDoc(body));
  }

  lemma {:induction false} PlainNames()
    ensures '\n' !in "content" && '\n' !in "message"
  {
  }

  lemma {:induction false} OneMemberOneLine(m: Member)
    requires '\n' !in m.name && OneLine(m.value)
    ensures OneLine(DObj([m]))
  {
    assert MembersOneLine([m][1..]);
  }

  // A backend that sends one content has it shown if it survives, and nothing shown otherwise.
  lemma {:induction false} LoneContent(printable: Printable, body: string, content: string)
    requires Closed(body) && BodyValue(body) == Some(content) && '\n' !in body && Bytes(body) < 60_000
    ensures Shown(EffectOf, Adapted(OllamaAdapter(printable), Render(LineDoc(body)))) ==
            if AllSurvive(printable, content) then Transcript(content + "\n", Bytes(content), false)
            else Transcript("\n", 0, false)
  {
    var line := Render(LineDoc(body));
    LineDocReads(body, content);
    ContentReads(line, content);
    LineDocFits(body);
    LineDocIsOneLine(body);
    ObjectBraces([Member("message", DeltaDoc(body))]);
    NextLast(line);
    OllamaFitting(printable);
    LoneShown(OllamaAdapter(printable), EffectOf, c => AllSurvive(printable, c), line, content);
  }

  lemma {:induction false} LoneShown(a: Adapter, effect: string -> LineEffect, survives: string -> bool, line: string, content: string)
    requires Fitting(a, effect, survives)
    requires line != [] && NextLine(line) == (line, "") && DropCR(line) == line && Fits(line, ADAPTER_BUFFER)
    requires a.read(line) == Some((content, false))
    ensures Shown(effect, Adapted(a, line)) ==
            if survives(content) then Transcript(content + "\n", Bytes(content), false) else Transcript("\n", 0, false)
  {
    AdaptedArrives(a, effect, survives, line);
    assert Contents(a.read, line) == [content] + [];
    assert ([content] + [])[1..] == [] && content + "" == content && "" + "" == "";
  }

  // For instance: a backend line whose content is the bell character, escaped as JSON requires. Go
  // quotes it in a way that is no JSON, and the client shows nothing.
  lemma {:induction false} BellIsDropped(printable: Printable)
    ensures Shown(EffectOf, Adapted(OllamaAdapter(printable), Render(LineDoc("\\u0007")))) == Transcript("\n", 0, false)
  {
    EscapedIsClosed("\U{07}");
    BellEscapes();
    LiteralBytes("\\u0007");
    LoneContent(printable, "\\u0007", "\U{07}");
    assert !Survives(printable, "\U{07}"[0]);
  }

  lemma {:induction false} BellEscapes()
    ensures EscapeAll("\U{07}") == "\\u0007"
  {
    assert "\U{07}"[1..] == "";
    assert EscapeAll("\U{07}") == Escape('\U{07}') + "";
  }
}

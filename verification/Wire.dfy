/**
 The messages of the inference protocols as JSON values: response headers, requests and
 proxied requests, and what decoding them into the program's structures gives.
 */
module Wire {
  import opened Mesh
  import opened Json
  import opened JsonWriter
  import opened Text

  datatype Header = Header(status: Int64, contentType: string, error: string)

  datatype ProxyRequest = ProxyRequest(target: string, request: Request)

  /// Decoding into structures

  // The members of an object; a repeated name keeps its last value.
  function Fields(fs: seq<Field>): map<string, Json> {
    if fs == [] then map[]
    else
      var n := |fs| - 1;
      Fields(fs[..n])[fs[n].name := fs[n].value]
  }

  // A missing member and a null leave the field at its zero value.
  function Get(m: map<string, Json>, name: string): Json {
    if name in m then m[name] else Null
  }

  function AsString(j: Json): Option<string> {
    match j
    case Null => Some("")
    case Str(s) => Some(s)
    case _ => None
  }

  function AsInt(j: Json): Option<Int64> {
    match j
    case Null => Some(0)
    case Num(text) =>
      var n := ParseInt(text);
      if n.Some? && -0x8000_0000_0000_0000 <= n.value < 0x8000_0000_0000_0000 then Some(n.value) else None
    case _ => None
  }

  function AsBool(j: Json): Option<bool> {
    match j
    case Null => Some(false)
    case Bool(b) => Some(b)
    case _ => None
  }

  function AsFields(j: Json): Option<map<string, Json>> {
    match j
    case Null => Some(map[])
    case Obj(fs) => Some(Fields(fs))
    case _ => None
  }

  /// Encoding structures

  function IntJson(n: int): Json {
    Num(Numeral(n))
  }

  lemma {:induction false} IntRoundTrip(n: Int64)
    ensures Encodable(IntJson(n)) && AsInt(IntJson(n)) == Some(n)
  {
    NumeralReadsBack(n);
  }

  // A field of a structure; one that is optional is left out at its zero value.
  datatype Entry = Entry(name: string, value: Json, omit: bool)

  function Layout(es: seq<Entry>): seq<Field> {
    if es == [] then []
    else
      var n := |es| - 1;
      Layout(es[..n]) + (if es[n].omit then [] else [Field(es[n].name, es[n].value)])
  }

  predicate Distinct(es: seq<Entry>) {
    forall i, j :: 0 <= i < j < |es| ==> es[i].name != es[j].name
  }

  predicate Writable(es: seq<Entry>) {
    forall i :: 0 <= i < |es| && !es[i].omit ==> Encodable(es[i].value)
  }

  lemma {:induction false} LayoutFields(es: seq<Entry>)
    ensures Fields(Layout(es)) ==
            if es == [] then map[]
            else
              var n := |es| - 1;
              var m := Fields(Layout(es[..n]));
              if es[n].omit then m else m[es[n].name := es[n].value]
  {
    if es != [] {
      var n := |es| - 1;
      var front := Layout(es[..n]);
      if es[n].omit {
        assert front + [] == front;
      } else {
        var f := Field(es[n].name, es[n].value);
        assert (front + [f])[..|front|] == front;
      }
    }
  }

  lemma {:induction false} LayoutNames(es: seq<Entry>, name: string)
    requires forall i :: 0 <= i < |es| ==> es[i].name != name
    ensures name !in Fields(Layout(es))
  {
    LayoutFields(es);
    if es == [] {
    } else {
      LayoutNames(es[..|es| - 1], name);
    }
  }

  // Reading a field of an encoded structure gives what was written, or null if it was left out.
  lemma {:induction false} LayoutGet(es: seq<Entry>, i: nat)
    requires i < |es| && Distinct(es)
    ensures Get(Fields(Layout(es)), es[i].name) == if es[i].omit then Null else es[i].value
  {
    LayoutFields(es);
    var n := |es| - 1;
    if i < n {
      LayoutGet(es[..n], i);
      assert es[i].name != es[n].name;
    } else {
      LayoutNames(es[..n], es[n].name);
    }
  }

  lemma {:induction false} LayoutEncodable(es: seq<Entry>)
    requires Writable(es)
    ensures Encodable(Obj(Layout(es)))
  {
    if es == [] {
    } else {
      LayoutEncodable(es[..|es| - 1]);
    }
  }

  /// Headers

  function HeaderEntries(h: Header): seq<Entry> {
    [Entry("status_code", IntJson(h.status), false),
     Entry("content_type", Str(h.contentType), false),
     Entry("error", Str(h.error), h.error == "")]
  }

  function HeaderJson(h: Header): Json {
    Obj(Layout(HeaderEntries(h)))
  }

  function ToHeader(j: Json): Option<Header> {
    var m := AsFields(j);
    if m.None? then None
    else
      var status := AsInt(Get(m.value, "status_code"));
      var contentType := AsString(Get(m.value, "content_type"));
      var error := AsString(Get(m.value, "error"));
      if status.None? || contentType.None? || error.None? then None
      else Some(Header(status.value, contentType.value, error.value))
  }

  lemma {:induction false} HeaderRoundTrip(h: Header)
    ensures Encodable(HeaderJson(h)) && ToHeader(HeaderJson(h)) == Some(h)
  {
    var es := HeaderEntries(h);
    IntRoundTrip(h.status);
    LayoutEncodable(es);
    assert Distinct(es);
    LayoutGet(es, 0);
    LayoutGet(es, 1);
    LayoutGet(es, 2);
  }

  /// Requirements and messages

  function RequirementsEntries(r: Requirements): seq<Entry> {
    [Entry("sha256", Str(r.sha256), r.sha256 == ""),
     Entry("tokenizer", Str(r.tokenizer), r.tokenizer == ""),
     Entry("quant", Str(r.quant), r.quant == ""),
     Entry("backend", Str(r.backend), r.backend == "")]
  }

  function RequirementsJson(r: Requirements): Json {
    Obj(Layout(RequirementsEntries(r)))
  }

  function ToRequirements(j: Json): Option<Requirements> {
    var m := AsFields(j);
    if m.None? then None
    else
      var sha256 := AsString(Get(m.value, "sha256"));
      var tokenizer := AsString(Get(m.value, "tokenizer"));
      var quant := AsString(Get(m.value, "quant"));
      var backend := AsString(Get(m.value, "backend"));
      if sha256.None? || tokenizer.None? || quant.None? || backend.None? then None
      else Some(Requirements(sha256.value, tokenizer.value, quant.value, backend.value))
  }

  lemma {:induction false} RequirementsFields(r: Requirements)
    ensures var m := Fields(Layout(RequirementsEntries(r)));
            && AsString(Get(m, "sha256")) == Some(r.sha256)
            && AsString(Get(m, "tokenizer")) == Some(r.tokenizer)
            && AsString(Get(m, "quant")) == Some(r.quant)
            && AsString(Get(m, "backend")) == Some(r.backend)
  {
    var es := RequirementsEntries(r);
    assert Distinct(es);
    LayoutGet(es, 0);
    LayoutGet(es, 1);
    LayoutGet(es, 2);
    LayoutGet(es, 3);
  }

  lemma {:induction false} RequirementsRoundTrip(r: Requirements)
    ensures Encodable(RequirementsJson(r)) && ToRequirements(RequirementsJson(r)) == Some(r)
  {
    LayoutEncodable(RequirementsEntries(r));
    RequirementsFields(r);
    assert AsFields(RequirementsJson(r)) == Some(Fields(Layout(RequirementsEntries(r))));
  }

  function MessageEntries(m: Message): seq<Entry> {
    [Entry("role", Str(m.role), false), Entry("content", Str(m.content), false)]
  }

  function MessageJson(m: Message): Json {
    Obj(Layout(MessageEntries(m)))
  }

  function ToMessage(j: Json): Option<Message> {
    var m := AsFields(j);
    if m.None? then None
    else
      var role, content := AsString(Get(m.value, "role")), AsString(Get(m.value, "content"));
      if role.None? || content.None? then None else Some(Message(role.value, content.value))
  }

  lemma {:induction false} MessageRoundTrip(m: Message)
    ensures Encodable(MessageJson(m)) && ToMessage(MessageJson(m)) == Some(m)
  {
    var es := MessageEntries(m);
    LayoutEncodable(es);
    assert Distinct(es);
    LayoutGet(es, 0);
    LayoutGet(es, 1);
  }

  function MessageItems(ms: seq<Message>): (js: seq<Json>)
    ensures |js| == |ms|
  {
    if ms == [] then [] else [MessageJson(ms[0])] + MessageItems(ms[1..])
  }

  function ToMessageItems(js: seq<Json>): Option<seq<Message>> {
    if js == [] then Some([])
    else
      var m, ms := ToMessage(js[0]), ToMessageItems(js[1..]);
      if m.None? || ms.None? then None else Some([m.value] + ms.value)
  }

  // A nil list is written as null.
  function MessagesJson(ms: Option<seq<Message>>): Json {
    if ms.None? then Null else Arr(MessageItems(ms.value))
  }

  function ToMessages(j: Json): Option<Option<seq<Message>>> {
    match j
    case Null => Some(None)
    case Arr(items) =>
      var ms := ToMessageItems(items);
      if ms.None? then None else Some(ms)
    case _ => None
  }

  lemma {:induction false} MessageItemsRoundTrip(ms: seq<Message>)
    ensures forall i :: 0 <= i < |ms| ==> Encodable(MessageItems(ms)[i])
    ensures ToMessageItems(MessageItems(ms)) == Some(ms)
  {
    if ms == [] {
    } else {
      MessageRoundTrip(ms[0]);
      MessageItemsRoundTrip(ms[1..]);
      assert MessageItems(ms)[1..] == MessageItems(ms[1..]);
      assert [ms[0]] + ms[1..] == ms;
    }
  }

  lemma {:induction false} MessagesRoundTrip(ms: Option<seq<Message>>)
    ensures Encodable(MessagesJson(ms)) && ToMessages(MessagesJson(ms)) == Some(ms)
  {
    if ms.Some? {
      MessageItemsRoundTrip(ms.value);
    }
  }

  /// Metadata

  function MetadataEntries(md: map<string, string>, keys: seq<string>): (es: seq<Entry>)
    requires forall k :: k in keys ==> k in md
    ensures |es| == |keys|
    ensures forall i :: 0 <= i < |keys| ==> es[i] == Entry(keys[i], Str(md[keys[i]]), false)
  {
    if keys == [] then [] else [Entry(keys[0], Str(md[keys[0]]), false)] + MetadataEntries(md, keys[1..])
  }

  // Maps are written with their keys in order.
  function MetadataJson(md: map<string, string>): Json {
    Obj(Layout(MetadataEntries(md, SortedKeys(md.Keys))))
  }

  function ToMetadata(j: Json): Option<map<string, string>> {
    var m := AsFields(j);
    if m.None? then None
    else if exists k :: k in m.value && AsString(m.value[k]).None? then None
    else Some(map k | k in m.value :: AsString(m.value[k]).value)
  }

  lemma {:induction false} MetadataEntry(md: map<string, string>, keys: seq<string>, i: nat)
    requires forall k :: k in keys ==> k in md
    requires i < |keys| && forall i, j :: 0 <= i < j < |keys| ==> keys[i] != keys[j]
    ensures Get(Fields(Layout(MetadataEntries(md, keys))), keys[i]) == Str(md[keys[i]])
  {
    var es := MetadataEntries(md, keys);
    assert es[i].name == keys[i];
    assert forall i :: 0 <= i < |es| ==> es[i].name == keys[i];
    LayoutGet(es, i);
  }

  lemma {:induction false} MetadataFields(md: map<string, string>, k: string)
    ensures var m := Fields(Layout(MetadataEntries(md, SortedKeys(md.Keys))));
            if k in md then k in m && m[k] == Str(md[k]) else k !in m
  {
    var keys := SortedKeys(md.Keys);
    if k in md {
      assert k in keys;
      var i :| 0 <= i < |keys| && keys[i] == k;
      MetadataEntry(md, keys, i);
    } else {
      assert k !in keys;
      LayoutNames(MetadataEntries(md, keys), k);
    }
  }

  lemma {:induction false} MetadataReads(m: map<string, Json>, fs: seq<Field>, md: map<string, string>)
    requires Fields(fs) == m && m.Keys == md.Keys
    requires forall k :: k in md ==> m[k] == Str(md[k])
    ensures ToMetadata(Obj(fs)) == Some(md)
  {
    assert forall k :: k in m ==> AsString(m[k]) == Some(md[k]);
    assert (map k | k in m :: AsString(m[k]).value) == md;
  }

  lemma {:induction false} MetadataRoundTrip(md: map<string, string>)
    ensures Encodable(MetadataJson(md)) && ToMetadata(MetadataJson(md)) == Some(md)
  {
    var es := MetadataEntries(md, SortedKeys(md.Keys));
    LayoutEncodable(es);
    forall k
      ensures if k in md then k in Fields(Layout(es)) && Fields(Layout(es))[k] == Str(md[k]) else k !in Fields(Layout(es))
    {
      MetadataFields(md, k);
    }
    MetadataReads(Fields(Layout(es)), Layout(es), md);
  }

  /// Requests

  function RequestEntries(model: string, messages: Json, stream: bool, maxTokens: Int64, requirements: Json, metadata: Json,
                          plain: bool): seq<Entry>
  {
    [Entry("model", Str(model), false),
     Entry("messages", messages, false),
     Entry("stream", Bool(stream), false),
     Entry("max_tokens", IntJson(maxTokens), maxTokens == 0),
     Entry("requirements", requirements, false),
     Entry("metadata", metadata, plain)]
  }

  function RequestJson(r: Request): Json {
    Obj(Layout(RequestEntries(r.model, MessagesJson(r.messages), r.stream, r.maxTokens,
                              RequirementsJson(r.requirements), MetadataJson(r.metadata), r.metadata == map[])))
  }

  function ToRequest(j: Json): Option<Request> {
    var m := AsFields(j);
    if m.None? then None else RequestOf(m.value)
  }

  function RequestOf(m: map<string, Json>): Option<Request> {
    var model := AsString(Get(m, "model"));
    var messages := ToMessages(Get(m, "messages"));
    var stream := AsBool(Get(m, "stream"));
    var maxTokens := AsInt(Get(m, "max_tokens"));
    var requirements := ToRequirements(Get(m, "requirements"));
    var metadata := ToMetadata(Get(m, "metadata"));
    if model.None? || messages.None? || stream.None? || maxTokens.None? || requirements.None? || metadata.None?
    then None
    else Some(Request(model.value, messages.value, stream.value, maxTokens.value, requirements.value, metadata.value))
  }

  lemma {:induction false} RequestFields(
    model: string, ms: Json, stream: bool, maxTokens: Int64, reqs: Json, md: Json, plain: bool)
    ensures var m := Fields(Layout(RequestEntries(model, ms, stream, maxTokens, reqs, md, plain)));
            && Get(m, "model") == Str(model)
            && Get(m, "messages") == ms
            && Get(m, "stream") == Bool(stream)
            && Get(m, "max_tokens") == (if maxTokens == 0 then Null else IntJson(maxTokens))
            && Get(m, "requirements") == reqs
            && Get(m, "metadata") == (if plain then Null else md)
  {
    var es := RequestEntries(model, ms, stream, maxTokens, reqs, md, plain);
    assert Distinct(es) by {
      assert "messages"[2] != "metadata"[2];
    }
    LayoutGet(es, 0);
    LayoutGet(es, 1);
    LayoutGet(es, 2);
    LayoutGet(es, 3);
    LayoutGet(es, 4);
    LayoutGet(es, 5);
  }

  lemma {:induction false} RequestReads(r: Request, m: map<string, Json>)
    requires Get(m, "model") == Str(r.model)
    requires ToMessages(Get(m, "messages")) == Some(r.messages)
    requires Get(m, "stream") == Bool(r.stream)
    requires Get(m, "max_tokens") == (if r.maxTokens == 0 then Null else IntJson(r.maxTokens))
    requires ToRequirements(Get(m, "requirements")) == Some(r.requirements)
    requires ToMetadata(Get(m, "metadata")) == Some(r.metadata)
    ensures RequestOf(m) == Some(r)
  {
    IntRoundTrip(r.maxTokens);
  }

  lemma {:induction false} RequestEncodable(
    model: string, ms: Json, stream: bool, maxTokens: Int64, reqs: Json, md: Json, plain: bool)
    requires Encodable(ms) && Encodable(reqs) && Encodable(md)
    ensures Encodable(Obj(Layout(RequestEntries(model, ms, stream, maxTokens, reqs, md, plain))))
  {
    IntRoundTrip(maxTokens);
    LayoutEncodable(RequestEntries(model, ms, stream, maxTokens, reqs, md, plain));
  }

  lemma {:induction false} PartsRoundTrip(r: Request, ms: Json, reqs: Json, md: Json)
    requires Encodable(ms) && ToMessages(ms) == Some(r.messages)
    requires Encodable(reqs) && ToRequirements(reqs) == Some(r.requirements)
    requires Encodable(md) && ToMetadata(md) == Some(r.metadata)
    ensures var j := Obj(Layout(RequestEntries(r.model, ms, r.stream, r.maxTokens, reqs, md, r.metadata == map[])));
            Encodable(j) && ToRequest(j) == Some(r)
  {
    RequestEncodable(r.model, ms, r.stream, r.maxTokens, reqs, md, r.metadata == map[]);
    RequestFields(r.model, ms, r.stream, r.maxTokens, reqs, md, r.metadata == map[]);
    RequestReads(r, Fields(Layout(RequestEntries(r.model, ms, r.stream, r.maxTokens, reqs, md, r.metadata == map[]))));
  }

  lemma {:induction false} RequestRoundTrip(r: Request)
    ensures Encodable(RequestJson(r)) && ToRequest(RequestJson(r)) == Some(r)
  {
    MessagesRoundTrip(r.messages);
    RequirementsRoundTrip(r.requirements);
    MetadataRoundTrip(r.metadata);
    PartsRoundTrip(r, MessagesJson(r.messages), RequirementsJson(r.requirements), MetadataJson(r.metadata));
  }

  /// Proxied requests

  function EnvelopeEntries(target: string, request: Json): seq<Entry> {
    [Entry("target_peer_id", Str(target), false), Entry("request", request, false)]
  }

  function Envelope(target: string, request: Json): Json {
    Obj(Layout(EnvelopeEntries(target, request)))
  }

  function ProxyJson(p: ProxyRequest): Json {
    Envelope(p.target, RequestJson(p.request))
  }

  function ToProxy(j: Json): Option<ProxyRequest> {
    var m := AsFields(j);
    if m.None? then None
    else
      var target, request := AsString(Get(m.value, "target_peer_id")), ToRequest(Get(m.value, "request"));
      if target.None? || request.None? then None else Some(ProxyRequest(target.value, request.value))
  }

  lemma {:induction false} EnvelopeRoundTrip(target: string, j: Json, request: Request)
    requires Encodable(j) && ToRequest(j) == Some(request)
    ensures Encodable(Envelope(target, j)) && ToProxy(Envelope(target, j)) == Some(ProxyRequest(target, request))
  {
    var es := EnvelopeEntries(target, j);
    LayoutEncodable(es);
    assert Distinct(es);
    LayoutGet(es, 0);
    LayoutGet(es, 1);
  }

  lemma {:induction false} ProxyRoundTrip(p: ProxyRequest)
    ensures Encodable(ProxyJson(p)) && ToProxy(ProxyJson(p)) == Some(p)
  {
    RequestRoundTrip(p.request);
    EnvelopeRoundTrip(p.target, RequestJson(p.request), p.request);
  }

  /// On the wire

  lemma {:induction false} LayoutOne(es: seq<Entry>, e: Entry)
    ensures Layout(es + [e]) == Layout(es) + (if e.omit then [] else [Field(e.name, e.value)])
  {
    assert (es + [e])[..|es|] == es;
  }

  lemma {:induction false} LayoutTwo(a: Entry, b: Entry)
    requires !a.omit && !b.omit
    ensures Layout([a, b]) == [Field(a.name, a.value), Field(b.name, b.value)]
  {
    LayoutOne([], a);
    LayoutOne([a], b);
    assert [] + [a] == [a] && [a] + [b] == [a, b];
  }

  lemma {:induction false} LayoutThree(a: Entry, b: Entry, c: Entry)
    requires !a.omit && !b.omit
    ensures Layout([a, b, c]) ==
            [Field(a.name, a.value), Field(b.name, b.value)] + (if c.omit then [] else [Field(c.name, c.value)])
  {
    LayoutTwo(a, b);
    LayoutOne([a, b], c);
    assert [a, b] + [c] == [a, b, c];
  }

  // The members of a header, in order.
  lemma {:induction false} HeaderOnTheWire(h: Header)
    ensures HeaderJson(h) ==
            Obj([Field("status_code", Num(Numeral(h.status))), Field("content_type", Str(h.contentType))]
                + (if h.error == "" then [] else [Field("error", Str(h.error))]))
  {
    LayoutThree(Entry("status_code", IntJson(h.status), false),
                Entry("content_type", Str(h.contentType), false),
                Entry("error", Str(h.error), h.error == ""));
  }

  // The members of a proxied request, in order.
  lemma {:induction false} ProxyOnTheWire(p: ProxyRequest)
    ensures ProxyJson(p) == Obj([Field("target_peer_id", Str(p.target)), Field("request", RequestJson(p.request))])
  {
    LayoutTwo(Entry("target_peer_id", Str(p.target), false), Entry("request", RequestJson(p.request), false));
  }

  // The members of a request; an empty limit and empty metadata are left out.
  lemma {:induction false} RequestOnTheWire(r: Request)
    ensures RequestJson(r).Obj?
    ensures var m := Fields(RequestJson(r).members);
            && Get(m, "model") == Str(r.model)
            && Get(m, "messages") == MessagesJson(r.messages)
            && Get(m, "stream") == Bool(r.stream)
            && Get(m, "max_tokens") == (if r.maxTokens == 0 then Null else Num(Numeral(r.maxTokens)))
            && Get(m, "requirements") == RequirementsJson(r.requirements)
            && Get(m, "metadata") == (if r.metadata == map[] then Null else MetadataJson(r.metadata))
  {
    RequestFields(r.model, MessagesJson(r.messages), r.stream, r.maxTokens, RequirementsJson(r.requirements),
                  MetadataJson(r.metadata), r.metadata == map[]);
  }
}

/** The JSON codec of the inference protocols, and its faithfulness. */
module JsonCodec {
  import opened Mesh
  import opened Json
  import opened JsonWriter
  import opened Text
  import opened Wire
  import opened Protocol

  // Surrounding white space, and so the newline of a line, is trimmed before parsing.
  function Unmarshal(line: string): Option<Json> {
    Parse(TrimSpace(line))
  }

  function HeaderText(h: Header): string {
    HeaderRoundTrip(h);
    Write(HeaderJson(h))
  }

  function HeaderOf(line: string): Option<Header> {
    var j := Unmarshal(line);
    if j.None? then None else ToHeader(j.value)
  }

  function RequestText(r: Request): string {
    RequestRoundTrip(r);
    Write(RequestJson(r))
  }

  function RequestIn(line: string): Option<Request> {
    var j := Unmarshal(line);
    if j.None? then None else ToRequest(j.value)
  }

  function ProxyText(p: ProxyRequest): string {
    ProxyRoundTrip(p);
    Write(ProxyJson(p))
  }

  function ProxyIn(line: string): Option<ProxyRequest> {
    var j := Unmarshal(line);
    if j.None? then None else ToProxy(j.value)
  }

  const JSON := Codec(HeaderText, HeaderOf, RequestText, RequestIn, ProxyText, ProxyIn)

  // A written object has no newline, and on a line of its own it parses back.
  lemma {:induction false} ObjectLine(j: Json)
    requires j.Obj? && Encodable(j)
    ensures '\n' !in Write(j)
    ensures Unmarshal(Write(j) + "\n") == Some(j)
  {
    WriteIsOneLine(j);
    ObjectBraces(MemberDocs(j.members));
    assert !IsSpace('{') && !IsSpace('}');
    TrimKeeps(Write(j));
    WriteParses(j);
  }

  lemma {:induction false} HeaderLineReads(h: Header)
    ensures '\n' !in HeaderText(h) && HeaderOf(HeaderText(h) + "\n") == Some(h)
  {
    HeaderRoundTrip(h);
    ObjectLine(HeaderJson(h));
  }

  lemma {:induction false} RequestLineReads(r: Request)
    ensures '\n' !in RequestText(r) && RequestIn(RequestText(r) + "\n") == Some(r)
  {
    RequestRoundTrip(r);
    ObjectLine(RequestJson(r));
  }

  lemma {:induction false} ProxyLineReads(p: ProxyRequest)
    ensures '\n' !in ProxyText(p) && ProxyIn(ProxyText(p) + "\n") == Some(p)
  {
    ProxyRoundTrip(p);
    ObjectLine(ProxyJson(p));
  }

  lemma {:induction false} JsonKeepsHeaders()
    ensures JSON.KeepsHeaders()
  {
    forall h
      ensures '\n' !in JSON.writeHeader(h) && JSON.readHeader(JSON.writeHeader(h) + "\n") == Some(h)
    {
      HeaderLineReads(h);
    }
  }

  lemma {:induction false} JsonKeepsRequests()
    ensures JSON.KeepsRequests()
  {
    forall r
      ensures '\n' !in JSON.writeRequest(r) && JSON.readRequest(JSON.writeRequest(r) + "\n") == Some(r)
    {
      RequestLineReads(r);
    }
  }

  lemma {:induction false} JsonKeepsProxies()
    ensures JSON.KeepsProxies()
  {
    forall p
      ensures '\n' !in JSON.writeProxy(p) && JSON.readProxy(JSON.writeProxy(p) + "\n") == Some(p)
    {
      ProxyLineReads(p);
    }
  }

  // Every header, request and proxied request survives the codec, on one line.
  lemma {:induction false} JsonIsFaithful()
    ensures JSON.Faithful()
  {
    JsonKeepsHeaders();
    JsonKeepsRequests();
    JsonKeepsProxies();
  }

  // Through the bootstrap proxy a client gets exactly what it gets directly, and that is what the
  // provider answered to an equal request with an equal context.
  lemma {:induction false} ProxyTransparency(dial: Network, far: FarEnd, provider: Provider, target: string, req: Request)
    requires target != "" && TrimSpace(target) == target && dial(target) == Connected(far)
    requires far(JSON.RequestLine(req)) == InferReply(JSON, provider, JSON.RequestLine(req))
    ensures ReadReply(JSON, ProxyReply(JSON, dial, JSON.ProxyLine(ProxyRequest(target, req))))
         == ReadReply(JSON, far(JSON.RequestLine(req)))
         == ResultOf(provider(req, ContextOf(req)))
  {
    JsonIsFaithful();
    ProxiedEqualsDirect(JSON, dial, far, provider, target, req);
  }
}

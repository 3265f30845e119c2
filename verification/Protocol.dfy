/**
 The line-framed inference protocols.

 A request is one line of JSON. A reply is one header line followed by the body up to the end of
 the stream. A bootstrap peer can stand between the two ends: it reads a wrapped request,
 forwards the request inside it, and passes the reply on. `Stream` is one end of a stream behind a
 buffered reader: what is still to come arrives in chunks of any size. The handlers are
 methods on streams; `InferReply`, `ProxyReply` and `ReadReply` say what they compute from the
 whole text, which is what makes the chunks irrelevant.
 */
module Protocol {
  import opened Mesh
  import opened Text
  import opened Wire

  const OK: Int64 := 200
  const BAD_REQUEST: Int64 := 400
  const BAD_GATEWAY: Int64 := 502

  function Flatten(chunks: seq<string>): string {
    if chunks == [] then "" else chunks[0] + Flatten(chunks[1..])
  }

  // What the far end of a stream answers to everything written to it.
  type FarEnd = string -> string

  // How the transport cuts a text into chunks.
  type Delivery = string -> seq<string>

  ghost predicate Delivers(cut: Delivery) {
    forall s :: Flatten(cut(s)) == s
  }

  class Stream {
    var incoming: seq<string>
    var buffered: string
    var written: string

    ghost function Remaining(): string
      reads this
    {
      buffered + Flatten(incoming)
    }

    constructor (incoming: seq<string>)
      ensures Remaining() == Flatten(incoming) && written == ""
    {
      this.incoming := incoming;
      buffered := "";
      written := "";
    }

    method WriteText(s: string)
      modifies this`written
      ensures written == old(written) + s
    {
      written := written + s;
    }

    // The far end has read what was written and answers.
    method Answered(far: FarEnd, cut: Delivery)
      requires Delivers(cut)
      modifies this`incoming, this`buffered
      ensures Remaining() == far(written)
    {
      incoming := cut(far(written));
      buffered := "";
    }

    // Reads up to and including the first newline, chunk by chunk; fails at the end of the stream.
    method ReadLine() returns (line: Option<string>)
      modifies this`incoming, this`buffered
      ensures line == match SplitLine(old(Remaining())) case None => None case Some(p) => Some(p.0)
      ensures line.Some? ==> Remaining() == SplitLine(old(Remaining())).value.1
    {
      var i := 0;
      var scanned := "";
      ghost var whole := Remaining();
      while true
        invariant 0 <= i <= |buffered| && scanned == buffered[..i] && '\n' !in scanned
        invariant buffered + Flatten(incoming) == whole
        decreases |incoming|, |buffered| - i
      {
        if i < |buffered| {
          if buffered[i] == '\n' {
            SplitFramed(buffered[..i], buffered[i + 1..] + Flatten(incoming));
            assert whole == buffered[..i] + "\n" + (buffered[i + 1..] + Flatten(incoming));
            line := Some(buffered[..i + 1]);
            assert buffered[..i + 1] == buffered[..i] + "\n";
            buffered := buffered[i + 1..];
            return;
          }
          i := i + 1;
          scanned := buffered[..i];
        } else if incoming == [] {
          assert whole == scanned;
          SplitNeedsNewline(whole);
          return None;
        } else {
          buffered, incoming := buffered + incoming[0], incoming[1..];
        }
      }
    }

    // Reads everything up to the end of the stream.
    method Drain() returns (s: string)
      modifies this`incoming, this`buffered
      ensures s == old(Remaining()) && Remaining() == ""
    {
      s := buffered;
      while incoming != []
        invariant s + Flatten(incoming) == old(Remaining())
        decreases |incoming|
      {
        s, incoming := s + incoming[0], incoming[1..];
      }
      buffered := "";
    }
  }

  /// Lines

  // The encoder and the decoder, as the protocols use them: texts go out without their
  // newline and come in with it.
  datatype Codec = Codec(
    writeHeader: Header -> string,
    readHeader: string -> Option<Header>,
    writeRequest: Request -> string,
    readRequest: string -> Option<Request>,
    writeProxy: ProxyRequest -> string,
    readProxy: string -> Option<ProxyRequest>)
  {
    function HeaderLine(h: Header): string {
      writeHeader(h) + "\n"
    }

    function RequestLine(r: Request): string {
      writeRequest(r) + "\n"
    }

    function ProxyLine(p: ProxyRequest): string {
      writeProxy(p) + "\n"
    }

    // What is written has no newline of its own, and a line reads back as what it was made from.
    ghost predicate Faithful() {
      KeepsHeaders() && KeepsRequests() && KeepsProxies()
    }

    ghost predicate KeepsHeaders() {
      forall h :: '\n' !in writeHeader(h) && readHeader(writeHeader(h) + "\n") == Some(h)
    }

    ghost predicate KeepsRequests() {
      forall r :: '\n' !in writeRequest(r) && readRequest(writeRequest(r) + "\n") == Some(r)
    }

    ghost predicate KeepsProxies() {
      forall p :: '\n' !in writeProxy(p) && readProxy(writeProxy(p) + "\n") == Some(p)
    }

    lemma {:induction false} HeaderFramed(h: Header, body: string)
      requires Faithful()
      ensures SplitLine(HeaderLine(h) + body) == Some((HeaderLine(h), body))
    {
      SplitFramed(writeHeader(h), body);
    }

    lemma {:induction false} LineFramed(text: string)
      requires '\n' !in text
      ensures SplitLine(text + "\n") == Some((text + "\n", ""))
    {
      SplitFramed(text, "");
      assert text + "\n" + "" == text + "\n";
    }
  }

  /// The provider's end

  datatype Answer = Failed(error: string) | Replied(status: Int64, contentType: string, body: string)

  type Provider = (Request, PeerContext) -> Answer

  const UINT64_LIMIT: nat := 0x1_0000_0000_0000_0000

  function MetadataAt(r: Request, key: string): string {
    if key in r.metadata then r.metadata[key] else ""
  }

  // What the provider learns about its client from the request's metadata.
  function ContextOf(r: Request): PeerContext {
    var nonce := ParseUnsigned(MetadataAt(r, POW_NONCE_HEADER), UINT64_LIMIT);
    PeerContext(MetadataAt(r, CLIENT_PEER_HEADER), MetadataAt(r, CLIENT_NAME_HEADER),
                if nonce.Some? then nonce.value else 0)
  }

  function AnswerText(c: Codec, a: Answer): string {
    match a
    case Failed(error) => c.HeaderLine(Header(BAD_GATEWAY, "", error))
    case Replied(status, contentType, body) =>
      c.HeaderLine(Header(if status == 0 then OK else status, contentType, "")) + body
  }

  function InferReply(c: Codec, provider: Provider, input: string): string {
    match SplitLine(input)
    case None => ""
    case Some(p) =>
      match c.readRequest(p.0)
      case None => c.HeaderLine(Header(BAD_REQUEST, "", "invalid json"))
      case Some(r) => AnswerText(c, provider(r, ContextOf(r)))
  }

  method WriteHeader(c: Codec, s: Stream, h: Header)
    modifies s`written
    ensures s.written == old(s.written) + c.HeaderLine(h)
  {
    s.WriteText(c.HeaderLine(h));
  }

  method ServeInfer(c: Codec, s: Stream, provider: Provider)
    modifies s
    ensures s.written == old(s.written) + InferReply(c, provider, old(s.Remaining()))
  {
    var line := s.ReadLine();
    if line.None? {
      return;
    }
    var r := c.readRequest(line.value);
    if r.None? {
      WriteHeader(c, s, Header(BAD_REQUEST, "", "invalid json"));
      return;
    }
    match provider(r.value, ContextOf(r.value)) {
      case Failed(error) =>
        WriteHeader(c, s, Header(BAD_GATEWAY, "", error));
      case Replied(status, contentType, body) =>
        WriteHeader(c, s, Header(if status == 0 then OK else status, contentType, ""));
        s.WriteText(body);
    }
  }

  /// The bootstrap peer between

  datatype Dial = BadId | Unreachable(error: string) | Connected(far: FarEnd)

  type Network = string -> Dial

  function Relayed(c: Codec, reply: string): string {
    match SplitLine(reply)
    case None => c.HeaderLine(Header(BAD_GATEWAY, "", "proxy read header failed: EOF"))
    case Some(p) =>
      match c.readHeader(p.0)
      case None => c.HeaderLine(Header(BAD_GATEWAY, "", "proxy invalid upstream header"))
      case Some(h) => c.HeaderLine(h) + (if h.status >= 400 then "" else p.1)
  }

  function ProxyReply(c: Codec, dial: Network, input: string): string {
    match SplitLine(input)
    case None => c.HeaderLine(Header(BAD_REQUEST, "", "invalid proxy request"))
    case Some(p) =>
      match c.readProxy(p.0)
      case None => c.HeaderLine(Header(BAD_REQUEST, "", "invalid proxy json"))
      case Some(preq) =>
        var target := TrimSpace(preq.target);
        if target == "" then c.HeaderLine(Header(BAD_REQUEST, "", "missing target peer id"))
        else
          match dial(target)
          case BadId => c.HeaderLine(Header(BAD_REQUEST, "", "invalid target peer id"))
          case Unreachable(error) => c.HeaderLine(Header(BAD_GATEWAY, "", "proxy dial failed: " + error))
          case Connected(far) => Relayed(c, far(c.RequestLine(preq.request)))
  }

  method ServeProxy(c: Codec, s: Stream, dial: Network, cut: Delivery)
    requires Delivers(cut)
    modifies s
    ensures s.written == old(s.written) + ProxyReply(c, dial, old(s.Remaining()))
  {
    var line := s.ReadLine();
    if line.None? {
      WriteHeader(c, s, Header(BAD_REQUEST, "", "invalid proxy request"));
      return;
    }
    var preq := c.readProxy(line.value);
    if preq.None? {
      WriteHeader(c, s, Header(BAD_REQUEST, "", "invalid proxy json"));
      return;
    }
    var target := TrimSpace(preq.value.target);
    if target == "" {
      WriteHeader(c, s, Header(BAD_REQUEST, "", "missing target peer id"));
      return;
    }
    match dial(target) {
      case BadId =>
        WriteHeader(c, s, Header(BAD_REQUEST, "", "invalid target peer id"));
      case Unreachable(error) =>
        WriteHeader(c, s, Header(BAD_GATEWAY, "", "proxy dial failed: " + error));
      case Connected(far) =>
        Forward(c, s, far, preq.value.request, cut);
    }
  }

  method Forward(c: Codec, s: Stream, far: FarEnd, request: Request, cut: Delivery)
    requires Delivers(cut)
    modifies s`written
    ensures s.written == old(s.written) + Relayed(c, far(c.RequestLine(request)))
  {
    var upstream := new Stream([]);
    upstream.WriteText(c.RequestLine(request));
    assert upstream.written == c.RequestLine(request);
    upstream.Answered(far, cut);
    Relay(c, s, upstream);
  }

  method Relay(c: Codec, s: Stream, upstream: Stream)
    requires s != upstream
    modifies s`written, upstream
    ensures s.written == old(s.written) + Relayed(c, old(upstream.Remaining()))
  {
    var line := upstream.ReadLine();
    if line.None? {
      WriteHeader(c, s, Header(BAD_GATEWAY, "", "proxy read header failed: EOF"));
      return;
    }
    var h := c.readHeader(line.value);
    if h.None? {
      WriteHeader(c, s, Header(BAD_GATEWAY, "", "proxy invalid upstream header"));
      return;
    }
    WriteHeader(c, s, h.value);
    if h.value.status >= 400 {
      return;
    }
    var body := upstream.Drain();
    s.WriteText(body);
  }

  /// The client's end

  datatype Result = Error(message: string) | Success(status: Int64, contentType: string, body: string)

  function ReadReply(c: Codec, reply: string): Result {
    match SplitLine(reply)
    case None => Error("EOF")
    case Some(p) =>
      match c.readHeader(p.0)
      case None => Error("invalid header")
      case Some(h) =>
        if h.status >= 400 then Error(if h.error == "" then "remote infer failed" else h.error)
        else Success(h.status, h.contentType, p.1)
  }

  method InferOverStream(c: Codec, s: Stream, payload: string, far: FarEnd, cut: Delivery) returns (r: Result)
    requires s.written == "" && Delivers(cut)
    modifies s
    ensures r == ReadReply(c, far(payload + "\n"))
  {
    s.WriteText(payload + "\n");
    assert s.written == payload + "\n";
    s.Answered(far, cut);
    var line := s.ReadLine();
    if line.None? {
      return Error("EOF");
    }
    var h := c.readHeader(line.value);
    if h.None? {
      return Error("invalid header");
    }
    if h.value.status >= 400 {
      return Error(if h.value.error == "" then "remote infer failed" else h.value.error);
    }
    var body := s.Drain();
    return Success(h.value.status, h.value.contentType, body);
  }

  method TryDirect(c: Codec, req: Request, provider: FarEnd, cut: Delivery) returns (r: Result)
    requires Delivers(cut)
    ensures r == ReadReply(c, provider(c.RequestLine(req)))
  {
    var s := new Stream([]);
    r := InferOverStream(c, s, c.writeRequest(req), provider, cut);
  }

  method TryProxy(c: Codec, target: string, req: Request, bootstrap: FarEnd, cut: Delivery) returns (r: Result)
    requires Delivers(cut)
    ensures r == ReadReply(c, bootstrap(c.ProxyLine(ProxyRequest(target, req))))
  {
    var s := new Stream([]);
    r := InferOverStream(c, s, c.writeProxy(ProxyRequest(target, req)), bootstrap, cut);
  }

  /// Transparency

  // What a client is to make of an answer.
  function ResultOf(a: Answer): Result {
    match a
    case Failed(error) => Error(if error == "" then "remote infer failed" else error)
    case Replied(status, contentType, body) =>
      if status >= 400 then Error("remote infer failed")
      else Success(if status == 0 then 200 else status, contentType, body)
  }

  // A header line followed by a body reads as that header and that body.
  lemma {:induction false} ReadsHeaded(c: Codec, h: Header, body: string)
    requires c.Faithful()
    ensures ReadReply(c, c.HeaderLine(h) + body) ==
            if h.status >= 400 then Error(if h.error == "" then "remote infer failed" else h.error)
            else Success(h.status, h.contentType, body)
    ensures Relayed(c, c.HeaderLine(h) + body) == c.HeaderLine(h) + (if h.status >= 400 then "" else body)
  {
    c.HeaderFramed(h, body);
  }

  lemma {:induction false} ReadsHeaderOnly(c: Codec, h: Header)
    requires c.Faithful() && h.status >= 400
    ensures ReadReply(c, c.HeaderLine(h)) == Error(if h.error == "" then "remote infer failed" else h.error)
    ensures Relayed(c, c.HeaderLine(h)) == c.HeaderLine(h)
  {
    ReadsHeaded(c, h, "");
    assert c.HeaderLine(h) + "" == c.HeaderLine(h);
  }

  // On the direct path the provider gets the client's request and the client gets the provider's answer.
  lemma {:induction false} DirectPath(c: Codec, provider: Provider, req: Request)
    requires c.Faithful()
    ensures InferReply(c, provider, c.RequestLine(req)) == AnswerText(c, provider(req, ContextOf(req)))
    ensures ReadReply(c, InferReply(c, provider, c.RequestLine(req))) == ResultOf(provider(req, ContextOf(req)))
  {
    c.LineFramed(c.writeRequest(req));
    match provider(req, ContextOf(req)) {
      case Failed(error) => ReadsHeaderOnly(c, Header(BAD_GATEWAY, "", error));
      case Replied(status, contentType, body) =>
        ReadsHeaded(c, Header(if status == 0 then OK else status, contentType, ""), body);
    }
  }

  // A client sees the same through a relay as without it: the same success, or also a failure.
  // The results are equal, error texts included, exactly when the reply has a readable header.
  lemma {:induction false} RelayIsTransparent(c: Codec, reply: string)
    requires c.Faithful()
    ensures ReadReply(c, reply).Success? ==> ReadReply(c, Relayed(c, reply)) == ReadReply(c, reply)
    ensures ReadReply(c, reply).Error? ==> ReadReply(c, Relayed(c, reply)).Error?
    ensures ReadReply(c, Relayed(c, reply)) == ReadReply(c, reply) <==>
            SplitLine(reply).Some? && c.readHeader(SplitLine(reply).value.0).Some?
  {
    var p := SplitLine(reply);
    if p.None? {
      ReadsHeaderOnly(c, Header(BAD_GATEWAY, "", "proxy read header failed: EOF"));
    } else if c.readHeader(p.value.0).None? {
      ReadsHeaderOnly(c, Header(BAD_GATEWAY, "", "proxy invalid upstream header"));
    } else {
      var h := c.readHeader(p.value.0).value;
      ReadsHeaded(c, h, if h.status >= 400 then "" else p.value.1);
    }
  }

  // What a bootstrap peer answers to a request it can read, by what it finds at the target.
  lemma {:induction false} ProxyReports(c: Codec, dial: Network, target: string, req: Request)
    requires c.Faithful()
    ensures var reply := ProxyReply(c, dial, c.ProxyLine(ProxyRequest(target, req)));
            if TrimSpace(target) == "" then reply == c.HeaderLine(Header(400, "", "missing target peer id"))
            else
              match dial(TrimSpace(target))
              case BadId => reply == c.HeaderLine(Header(400, "", "invalid target peer id"))
              case Unreachable(error) => reply == c.HeaderLine(Header(502, "", "proxy dial failed: " + error))
              case Connected(far) => reply == Relayed(c, far(c.RequestLine(req)))
  {
    c.LineFramed(c.writeProxy(ProxyRequest(target, req)));
  }

  // And so what the client is told: the bootstrap peer's own words.
  lemma {:induction false} ClientIsTold(c: Codec, dial: Network, target: string, req: Request)
    requires c.Faithful() && TrimSpace(target) == target
    ensures var told := ReadReply(c, ProxyReply(c, dial, c.ProxyLine(ProxyRequest(target, req))));
            if target == "" then told == Error("missing target peer id")
            else
              match dial(target)
              case BadId => told == Error("invalid target peer id")
              case Unreachable(error) => told == Error("proxy dial failed: " + error)
              case Connected(_) => true
  {
    ProxyReports(c, dial, target, req);
    if target == "" {
      ReadsHeaderOnly(c, Header(400, "", "missing target peer id"));
    } else {
      match dial(target) {
        case BadId => ReadsHeaderOnly(c, Header(400, "", "invalid target peer id"));
        case Unreachable(error) => ReadsHeaderOnly(c, Header(502, "", "proxy dial failed: " + error));
        case Connected(_) =>
      }
    }
  }

  // The header of a provider's reply: its own status, 200 if it gave none, or 502 with the error.
  lemma {:induction false} ProviderReports(c: Codec, provider: Provider, req: Request)
    requires c.Faithful()
    ensures InferReply(c, provider, c.RequestLine(req)) ==
            match provider(req, ContextOf(req))
            case Failed(error) => c.HeaderLine(Header(502, "", error))
            case Replied(status, contentType, body) =>
              c.HeaderLine(Header(if status == 0 then 200 else status, contentType, "")) + body
  {
    c.LineFramed(c.writeRequest(req));
  }

  // A stream that ends without a line, and a line that is no request.
  lemma {:induction false} UnreadableInput(c: Codec, provider: Provider, dial: Network, input: string, line: string, rest: string)
    requires '\n' !in input && '\n' !in line
    ensures InferReply(c, provider, input) == ""
    ensures ProxyReply(c, dial, input) == c.HeaderLine(Header(400, "", "invalid proxy request"))
    ensures c.readRequest(line + "\n").None? ==>
              InferReply(c, provider, line + "\n" + rest) == c.HeaderLine(Header(400, "", "invalid json"))
    ensures c.readProxy(line + "\n").None? ==>
              ProxyReply(c, dial, line + "\n" + rest) == c.HeaderLine(Header(400, "", "invalid proxy json"))
  {
    SplitNeedsNewline(input);
    SplitFramed(line, rest);
  }

  // Whatever the far end is, a bootstrap peer that reaches it hands it the very text that the
  // direct path would, and the client gets the same success or also a failure.
  lemma {:induction false} ProxyIsTransparent(c: Codec, dial: Network, far: FarEnd, target: string, req: Request)
    requires c.Faithful()
    requires target != "" && TrimSpace(target) == target && dial(target) == Connected(far)
    ensures ProxyReply(c, dial, c.ProxyLine(ProxyRequest(target, req))) == Relayed(c, far(c.RequestLine(req)))
    ensures var direct := ReadReply(c, far(c.RequestLine(req)));
            var proxied := ReadReply(c, ProxyReply(c, dial, c.ProxyLine(ProxyRequest(target, req))));
            (direct.Success? ==> proxied == direct) && (direct.Error? ==> proxied.Error?)
  {
    c.LineFramed(c.writeProxy(ProxyRequest(target, req)));
    RelayIsTransparent(c, far(c.RequestLine(req)));
  }

  // With the program's own provider at the far end the two paths give equal results, errors included.
  lemma {:induction false} ProxiedEqualsDirect(
    c: Codec, dial: Network, far: FarEnd, provider: Provider, target: string, req: Request)
    requires c.Faithful()
    requires target != "" && TrimSpace(target) == target && dial(target) == Connected(far)
    requires far(c.RequestLine(req)) == InferReply(c, provider, c.RequestLine(req))
    ensures ReadReply(c, ProxyReply(c, dial, c.ProxyLine(ProxyRequest(target, req)))) == ReadReply(c, far(c.RequestLine(req)))
    ensures ReadReply(c, far(c.RequestLine(req))) == ResultOf(provider(req, ContextOf(req)))
  {
    ProxyIsTransparent(c, dial, far, target, req);
    DirectPath(c, provider, req);
    match provider(req, ContextOf(req)) {
      case Failed(error) => ReadsHeaderOnly(c, Header(BAD_GATEWAY, "", error));
      case Replied(status, contentType, body) =>
        var h := Header(if status == 0 then OK else status, contentType, "");
        ReadsHeaded(c, h, body);
        ReadsHeaded(c, h, if h.status >= 400 then "" else body);
    }
  }

  /// The client's identity

  // What the gateway client adds to a request before sending it.
  function WithContext(r: Request, ctx: PeerContext): Request {
    var m0 := r.metadata;
    var m1 := if ctx.clientPeer != "" then m0[CLIENT_PEER_HEADER := ctx.clientPeer] else m0;
    var m2 := if ctx.clientName != "" then m1[CLIENT_NAME_HEADER := ctx.clientName] else m1;
    r.(metadata := m2[POW_NONCE_HEADER := Decimal(ctx.nonce)])
  }

  // The provider learns exactly the context the client sent; an empty name or id leaves whatever
  // the request's own metadata said.
  lemma {:induction false} ContextSurvives(r: Request, ctx: PeerContext)
    requires ctx.nonce < UINT64_LIMIT
    ensures var got := ContextOf(WithContext(r, ctx));
            && got.nonce == ctx.nonce
            && got.clientPeer == (if ctx.clientPeer != "" then ctx.clientPeer else MetadataAt(r, CLIENT_PEER_HEADER))
            && got.clientName == (if ctx.clientName != "" then ctx.clientName else MetadataAt(r, CLIENT_NAME_HEADER))
  {
    HeadersDiffer();
    DecimalValue(ctx.nonce);
  }

  // Where the context goes; everything else of the request stays.
  lemma {:induction false} ContextInMetadata(r: Request, ctx: PeerContext, k: string)
    ensures var sent := WithContext(r, ctx);
            && sent == r.(metadata := sent.metadata)
            && (if k == "X-Infermesh-Pow-Nonce" then k in sent.metadata && sent.metadata[k] == Decimal(ctx.nonce)
                else if k == "X-Infermesh-Client-Peer" && ctx.clientPeer != ""
                then k in sent.metadata && sent.metadata[k] == ctx.clientPeer
                else if k == "X-Infermesh-Client-Name" && ctx.clientName != ""
                then k in sent.metadata && sent.metadata[k] == ctx.clientName
                else (k in sent.metadata <==> k in r.metadata) && (k in r.metadata ==> sent.metadata[k] == r.metadata[k]))
  {
    HeadersDiffer();
  }

  // A nonce that is missing, not a numeral, or too large for its type counts as zero.
  lemma {:induction false} OtherNonceIsZero(r: Request, n: nat)
    requires var raw := MetadataAt(r, POW_NONCE_HEADER);
             || raw == "" || (exists i :: 0 <= i < |raw| && !('0' <= raw[i] <= '9'))
             || (raw == Decimal(n) && n >= 0x1_0000_0000_0000_0000)
    ensures ContextOf(r).nonce == 0
  {
    DecimalValue(n);
  }

  lemma {:induction false} HeadersDiffer()
    ensures CLIENT_PEER_HEADER != CLIENT_NAME_HEADER
    ensures CLIENT_PEER_HEADER != POW_NONCE_HEADER && CLIENT_NAME_HEADER != POW_NONCE_HEADER
  {
    assert |CLIENT_PEER_HEADER| == 23 && |CLIENT_NAME_HEADER| == 23 && |POW_NONCE_HEADER| == 21;
    assert CLIENT_PEER_HEADER[19] == 'P' && CLIENT_NAME_HEADER[19] == 'N';
  }
}

/** Requests, capability documents and the eligibility test shared by the other modules. */
module Mesh {

  datatype Option<+T> = None | Some(value: T)

  // The integers of a 64-bit machine word.
  type Int64 = x: int | -0x8000_0000_0000_0000 <= x < 0x8000_0000_0000_0000

  // A peer id is a string of raw bytes; it travels in an encoded form. Not every string is an id.
  type Id = string

  datatype Names = Names(wellFormed: Id -> bool, encode: Id -> string, decode: string -> Option<Id>) {
    ghost predicate RoundTrips() {
      && (forall id :: wellFormed(id) ==> decode(encode(id)) == Some(id))
      && forall s :: decode(s).Some? ==> wellFormed(decode(s).value)
    }
  }

  datatype Message = Message(role: string, content: string)

  // An empty field puts no requirement on the model.
  datatype Requirements = Requirements(sha256: string, tokenizer: string, quant: string, backend: string)

  // A nil message list is not the empty list: the two have different encodings.
  datatype Request = Request(
    model: string,
    messages: Option<seq<Message>>,
    stream: bool,
    maxTokens: Int64,
    requirements: Requirements,
    metadata: map<string, string>)

  datatype PeerContext = PeerContext(clientPeer: string, clientName: string, nonce: nat)

  const CLIENT_PEER_HEADER := "X-Infermesh-Client-Peer"
  const POW_NONCE_HEADER := "X-Infermesh-Pow-Nonce"
  const CLIENT_NAME_HEADER := "X-Infermesh-Client-Name"

  datatype ModelSpec = ModelSpec(name: string, sha256: string, tokenizer: string, quant: string, backend: string)

  // The zero instant marks a document that was never stamped.
  const UNSTAMPED: real := 0.0

  datatype Capability = Capability(
    peer: string,
    nodeName: string,
    models: seq<ModelSpec>,
    announceAddrs: seq<string>,
    vramFreeMB: int,
    queueDepth: int,
    avgLatencyMS: int,
    reliability: real,
    gatewayURL: string,
    updatedAt: real)
  {
    predicate Supports(model: string, r: Requirements) {
      exists m :: m in models && Meets(m, model, r)
    }
  }

  predicate Meets(m: ModelSpec, model: string, r: Requirements) {
    && m.name == model
    && (r.sha256 != "" ==> m.sha256 == r.sha256)
    && (r.tokenizer != "" ==> m.tokenizer == r.tokenizer)
    && (r.quant != "" ==> m.quant == r.quant)
    && (r.backend != "" ==> m.backend == r.backend)
  }
}

/**
 Discovery: documents from heartbeats and from the bootstrap registries are merged, and the
 peers they do not cover are probed one by one, with a back-off after a failed probe.

 The network is an oracle: which peers are connected, what each registry answers, and how each
 probe ends. The peers are probed in any order, as the source iterates over a map.
 */
module Discovery {
  import opened Mesh
  import opened Text

  const BACK_OFF: real := 30.0
  const SCHEME: string := "libp2p://"

  /// The back-off table

  type Retry = map<Id, real>

  predicate Admits(retry: Retry, pid: Id, now: real) {
    pid in retry ==> retry[pid] <= now
  }

  function Failed(retry: Retry, pid: Id, now: real): Retry {
    retry[pid := now + BACK_OFF]
  }

  function Succeeded(retry: Retry, pid: Id): Retry {
    retry - {pid}
  }

  // The atomic steps on the table. Calls of `ListCapabilities` may interleave them in any way.
  datatype Mark = Ask(pid: Id, at: real) | Failure(pid: Id, at: real) | Success(pid: Id, at: real)

  function AfterMark(retry: Retry, m: Mark): Retry {
    match m
    case Ask(_, _) => retry
    case Failure(pid, at) => Failed(retry, pid, at)
    case Success(pid, _) => Succeeded(retry, pid)
  }

  function AfterMarks(marks: seq<Mark>): Retry {
    if marks == [] then map[] else AfterMark(AfterMarks(marks[..|marks| - 1]), marks[|marks| - 1])
  }

  // When the last outcome recorded for a peer is a failure, its time.
  function LastFailure(marks: seq<Mark>, pid: Id): Option<real> {
    if marks == [] then None
    else
      var m := marks[|marks| - 1];
      if m.pid != pid || m.Ask? then LastFailure(marks[..|marks| - 1], pid)
      else if m.Failure? then Some(m.at)
      else None
  }

  lemma {:induction false} TableIsLastFailure(marks: seq<Mark>, pid: Id)
    ensures pid in AfterMarks(marks) <==> LastFailure(marks, pid).Some?
    ensures pid in AfterMarks(marks) ==> AfterMarks(marks)[pid] == LastFailure(marks, pid).value + BACK_OFF
  {
    if marks == [] {
    } else {
      TableIsLastFailure(marks[..|marks| - 1], pid);
    }
  }

  // Over every run: a probe is admitted exactly when the peer's last recorded outcome is not a
  // failure of the last 30 seconds.
  lemma {:induction false} BackOffIsExact(marks: seq<Mark>, pid: Id, now: real)
    ensures Admits(AfterMarks(marks), pid, now) <==>
            (LastFailure(marks, pid).Some? ==> LastFailure(marks, pid).value + 30.0 <= now)
  {
    TableIsLastFailure(marks, pid);
  }

  // In particular, with a clock that never goes back, no probe is admitted within 30 seconds of
  // any recorded failure unless a success was recorded in between.
  lemma {:induction false} NoProbeSoonAfterFailure(marks: seq<Mark>, n: nat, pid: Id, now: real)
    requires n < |marks| && marks[n] == Failure(pid, marks[n].at)
    requires forall i :: n < i < |marks| ==> !(marks[i].Success? && marks[i].pid == pid) && marks[n].at <= marks[i].at
    ensures Admits(AfterMarks(marks), pid, now) ==> marks[n].at + 30.0 <= now
    decreases |marks|
  {
    var last := |marks| - 1;
    if n < last {
      var rest := marks[..last];
      assert forall i :: n < i < |rest| ==> rest[i] == marks[i];
      NoProbeSoonAfterFailure(rest, n, pid, now);
    }
  }

  /// Documents

  type Docs = map<string, Capability>

  // Later documents replace earlier ones of the same peer.
  function Overlay(docs: Docs, more: seq<Capability>): Docs
    decreases more
  {
    if more == [] then docs else Overlay(docs[more[0].peer := more[0]], more[1..])
  }

  predicate Listable(self: string, doc: Capability) {
    doc.peer != "" && doc.peer != self
  }

  function OnlyListable(self: string, docs: seq<Capability>): (r: seq<Capability>)
    ensures forall d :: d in r <==> d in docs && Listable(self, d)
  {
    if docs == [] then []
    else (if Listable(self, docs[0]) then [docs[0]] else []) + OnlyListable(self, docs[1..])
  }

  // A bootstrap peer and what its registry answers, if it can be reached and answers.
  datatype Bootstrap = Bootstrap(peer: Id, answer: Option<seq<Capability>>)

  // What the registries contribute, in order.
  function Announced(names: Names, self: Id, bootstraps: seq<Bootstrap>): seq<Capability> {
    if bootstraps == [] then []
    else
      var b := bootstraps[0];
      (if b.peer == "" || b.peer == self || b.answer.None? then [] else OnlyListable(names.encode(self), b.answer.value))
      + Announced(names, self, bootstraps[1..])
  }

  function Base(names: Names, self: Id, heartbeats: seq<Capability>, bootstraps: seq<Bootstrap>): Docs {
    Overlay(Overlay(map[], heartbeats), Announced(names, self, bootstraps))
  }

  ghost predicate Keyed(docs: Docs) {
    forall p :: p in docs ==> docs[p].peer == p
  }

  // The last document of a list for a peer.
  function LastFor(docs: seq<Capability>, peer: string): Option<Capability> {
    if docs == [] then None
    else if docs[|docs| - 1].peer == peer then Some(docs[|docs| - 1])
    else LastFor(docs[..|docs| - 1], peer)
  }

  lemma {:induction false} OverlayAdd(docs: Docs, more: seq<Capability>, d: Capability)
    ensures Overlay(docs, more + [d]) == Overlay(docs, more)[d.peer := d]
    decreases more
  {
    if more == [] {
      assert more + [d] == [d] && [d][1..] == [];
    } else {
      assert (more + [d])[1..] == more[1..] + [d];
      OverlayAdd(docs[more[0].peer := more[0]], more[1..], d);
    }
  }

  lemma {:induction false} OverlayAppend(docs: Docs, a: seq<Capability>, b: seq<Capability>)
    ensures Overlay(docs, a + b) == Overlay(Overlay(docs, a), b)
    decreases a
  {
    if a == [] {
      assert a + b == b;
    } else {
      assert (a + b)[1..] == a[1..] + b;
      OverlayAppend(docs[a[0].peer := a[0]], a[1..], b);
    }
  }

  lemma {:induction false} OverlayIsLast(docs: Docs, more: seq<Capability>, peer: string)
    requires Keyed(docs)
    ensures Keyed(Overlay(docs, more))
    ensures match LastFor(more, peer)
            case Some(d) => peer in Overlay(docs, more) && Overlay(docs, more)[peer] == d
            case None =>
              && (peer in Overlay(docs, more) <==> peer in docs)
              && (peer in docs ==> Overlay(docs, more)[peer] == docs[peer])
    decreases more
  {
    if more == [] {
    } else {
      var n := |more| - 1;
      OverlayIsLast(docs, more[..n], peer);
      OverlayAdd(docs, more[..n], more[n]);
      assert more == more[..n] + [more[n]];
    }
  }

  // A registry's document wins over a heartbeat, and the last registry that names a peer wins.
  lemma {:induction false} RegistryWins(names: Names, self: Id, heartbeats: seq<Capability>, bootstraps: seq<Bootstrap>, peer: string)
    ensures var base := Base(names, self, heartbeats, bootstraps);
            var announced, heard := LastFor(Announced(names, self, bootstraps), peer), LastFor(heartbeats, peer);
            && Keyed(base)
            && (peer in base <==> announced.Some? || heard.Some?)
            && (peer in base ==> Some(base[peer]) == if announced.Some? then announced else heard)
  {
    OverlayIsLast(map[], heartbeats, peer);
    OverlayIsLast(Overlay(map[], heartbeats), Announced(names, self, bootstraps), peer);
  }

  // The j-th document of the i-th bootstrap peer is about the peer and is taken: that bootstrap peer
  // has an id, is not this node and answers, and the document has an id that is not this node's.
  ghost predicate Offered(names: Names, self: Id, bootstraps: seq<Bootstrap>, i: int, j: int, peer: string) {
    && 0 <= i < |bootstraps| && bootstraps[i].peer != "" && bootstraps[i].peer != self && bootstraps[i].answer.Some?
    && 0 <= j < |bootstraps[i].answer.value| && bootstraps[i].answer.value[j].peer == peer
    && peer != "" && peer != names.encode(self)
  }

  ghost predicate LastOffered(names: Names, self: Id, bootstraps: seq<Bootstrap>, i: int, j: int, peer: string) {
    && Offered(names, self, bootstraps, i, j, peer)
    && forall k, l :: Offered(names, self, bootstraps, k, l, peer) ==> k < i || (k == i && l <= j)
  }

  lemma {:induction false} LastForAppend(a: seq<Capability>, b: seq<Capability>, peer: string)
    ensures LastFor(a + b, peer) == if LastFor(b, peer).Some? then LastFor(b, peer) else LastFor(a, peer)
  {
    if b == [] {
      assert a + b == a;
    } else {
      assert (a + b)[..|a + b| - 1] == a + b[..|b| - 1];
      LastForAppend(a, b[..|b| - 1], peer);
    }
  }

  lemma {:induction false} LastListable(self: string, docs: seq<Capability>, peer: string)
    ensures var last := LastFor(OnlyListable(self, docs), peer);
            if peer == "" || peer == self then last.None?
            else match last
              case None => forall j :: 0 <= j < |docs| ==> docs[j].peer != peer
              case Some(d) => exists j :: 0 <= j < |docs| && docs[j] == d && d.peer == peer
                                          && forall l :: j < l < |docs| ==> docs[l].peer != peer
  {
    if docs == [] {
    } else {
      var rest := OnlyListable(self, docs[1..]);
      var head := if Listable(self, docs[0]) then [docs[0]] else [];
      LastListable(self, docs[1..], peer);
      LastForAppend(head, rest, peer);
      assert head != [] ==> head[..0] == [];
      if peer != "" && peer != self {
        if LastFor(rest, peer).Some? {
          var j :| 0 <= j < |docs[1..]| && docs[1..][j] == LastFor(rest, peer).value && docs[1..][j].peer == peer
                   && forall l :: j < l < |docs[1..]| ==> docs[1..][l].peer != peer;
          assert docs[j + 1] == docs[1..][j];
          assert forall l :: j + 1 < l < |docs| ==> docs[l] == docs[1..][l - 1];
        } else {
          assert forall l :: 0 < l < |docs| ==> docs[l] == docs[1..][l - 1];
          if docs[0].peer == peer {
            assert LastFor(head, peer) == Some(docs[0]);
          }
        }
      }
    }
  }

  // What one bootstrap peer more contributes.
  function Taken(names: Names, self: Id, b: Bootstrap): seq<Capability> {
    if b.peer == "" || b.peer == self || b.answer.None? then [] else OnlyListable(names.encode(self), b.answer.value)
  }

  lemma {:induction false} OfferedEarlier(names: Names, self: Id, before: seq<Bootstrap>, b: Bootstrap, i: int, j: int, peer: string)
    requires i < |before|
    ensures Offered(names, self, before + [b], i, j, peer) <==> Offered(names, self, before, i, j, peer)
  {
    if 0 <= i {
      assert (before + [b])[i] == before[i];
    }
  }

  lemma {:induction false} OfferedLast(names: Names, self: Id, before: seq<Bootstrap>, b: Bootstrap, peer: string)
    ensures match LastFor(Taken(names, self, b), peer)
            case None => forall j :: !Offered(names, self, before + [b], |before|, j, peer)
            case Some(d) => exists j :: Offered(names, self, before + [b], |before|, j, peer) && d == b.answer.value[j]
                                        && forall l :: Offered(names, self, before + [b], |before|, l, peer) ==> l <= j
  {
    var all := before + [b];
    assert all[|before|] == b;
    if b.peer != "" && b.peer != self && b.answer.Some? {
      LastListable(names.encode(self), b.answer.value, peer);
      if LastFor(Taken(names, self, b), peer).Some? {
        var d := LastFor(Taken(names, self, b), peer).value;
        var j :| 0 <= j < |b.answer.value| && b.answer.value[j] == d && d.peer == peer
                 && forall l :: j < l < |b.answer.value| ==> b.answer.value[l].peer != peer;
        assert Offered(names, self, all, |before|, j, peer);
      }
    }
  }

  // Of the documents taken from the registries, the last about a peer is the last in the order of the
  // bootstrap peers, and of each one's answer.
  ghost predicate AgreesWithOffers(names: Names, self: Id, bootstraps: seq<Bootstrap>, peer: string, last: Option<Capability>) {
    match last
    case None => forall i, j :: !Offered(names, self, bootstraps, i, j, peer)
    case Some(d) => exists i, j :: LastOffered(names, self, bootstraps, i, j, peer) && d == bootstraps[i].answer.value[j]
  }

  lemma {:induction false} OneMoreOffer(names: Names, self: Id, before: seq<Bootstrap>, b: Bootstrap, peer: string,
                                        last: Option<Capability>)
    requires AgreesWithOffers(names, self, before, peer, last)
    ensures var mine := LastFor(Taken(names, self, b), peer);
            AgreesWithOffers(names, self, before + [b], peer, if mine.Some? then mine else last)
  {
    var all, n := before + [b], |before|;
    var mine := LastFor(Taken(names, self, b), peer);
    OfferedLast(names, self, before, b, peer);
    forall i, j | i < n
      ensures Offered(names, self, all, i, j, peer) <==> Offered(names, self, before, i, j, peer)
    {
      OfferedEarlier(names, self, before, b, i, j, peer);
    }
    if mine.Some? {
      var j :| Offered(names, self, all, n, j, peer) && mine.value == b.answer.value[j]
               && forall l :: Offered(names, self, all, n, l, peer) ==> l <= j;
      assert LastOffered(names, self, all, n, j, peer);
      assert all[n] == b;
    } else if last.Some? {
      var i, j :| LastOffered(names, self, before, i, j, peer) && last.value == before[i].answer.value[j];
      assert Offered(names, self, all, i, j, peer);
      assert LastOffered(names, self, all, i, j, peer);
      assert all[i] == before[i];
    }
  }

  lemma {:induction false} AnnouncedIsLastOffered(names: Names, self: Id, bootstraps: seq<Bootstrap>, peer: string)
    ensures AgreesWithOffers(names, self, bootstraps, peer, LastFor(Announced(names, self, bootstraps), peer))
  {
    if bootstraps == [] {
    } else {
      var n := |bootstraps| - 1;
      var before, b := bootstraps[..n], bootstraps[n];
      AnnouncedIsLastOffered(names, self, before, peer);
      AnnouncedAdd(names, self, before, b);
      LastForAppend(Announced(names, self, before), Taken(names, self, b), peer);
      OneMoreOffer(names, self, before, b, peer, LastFor(Announced(names, self, before), peer));
      assert before + [b] == bootstraps;
    }
  }

  lemma {:induction false} LastForIsLast(docs: seq<Capability>, peer: string)
    ensures match LastFor(docs, peer)
            case None => forall k :: 0 <= k < |docs| ==> docs[k].peer != peer
            case Some(d) => exists k :: 0 <= k < |docs| && docs[k] == d && d.peer == peer
                                        && forall l :: k < l < |docs| ==> docs[l].peer != peer
  {
    if docs == [] {
    } else {
      var n := |docs| - 1;
      LastForIsLast(docs[..n], peer);
      if docs[n].peer != peer && LastFor(docs, peer).Some? {
        var k :| 0 <= k < n && docs[..n][k] == LastFor(docs, peer).value && docs[..n][k].peer == peer
                 && forall l :: k < l < n ==> docs[..n][l].peer != peer;
        assert docs[k] == docs[..n][k];
        assert forall l :: k < l < n ==> docs[l] == docs[..n][l];
      } else if LastFor(docs, peer).None? {
        assert forall l :: 0 <= l < n ==> docs[l] == docs[..n][l];
      }
    }
  }

  // A peer is covered if a heartbeat or a taken registry document is about it. The last such registry
  // document is the one that stands; without any, the last heartbeat.
  lemma {:induction false} CoveredByLast(names: Names, self: Id, heartbeats: seq<Capability>, bootstraps: seq<Bootstrap>, peer: string)
    ensures var base := Base(names, self, heartbeats, bootstraps);
            if exists i, j :: Offered(names, self, bootstraps, i, j, peer)
            then exists i, j :: LastOffered(names, self, bootstraps, i, j, peer)
                                && peer in base && base[peer] == bootstraps[i].answer.value[j]
            else if exists k :: 0 <= k < |heartbeats| && heartbeats[k].peer == peer
            then exists k :: 0 <= k < |heartbeats| && heartbeats[k].peer == peer && peer in base && base[peer] == heartbeats[k]
                             && forall l :: k < l < |heartbeats| ==> heartbeats[l].peer != peer
            else peer !in base
  {
    RegistryWins(names, self, heartbeats, bootstraps, peer);
    AnnouncedIsLastOffered(names, self, bootstraps, peer);
    LastForIsLast(heartbeats, peer);
  }

  /// Probing

  // How a probe of a peer goes: when it is asked for, what comes back if anything, and when the
  // outcome is recorded.
  datatype Probe = Probe(asked: real, answer: Option<Capability>, marked: real)

  datatype Survey = Survey(docs: Docs, retry: Retry, probed: seq<Id>)

  function WithGateway(names: Names, pid: Id, doc: Capability): Capability {
    if doc.gatewayURL == "" then doc.(gatewayURL := SCHEME + names.encode(pid)) else doc
  }

  function Visit(names: Names, probe: Id -> Probe, s: Survey, pid: Id): Survey {
    if names.encode(pid) in s.docs || !Admits(s.retry, pid, probe(pid).asked) then s
    else
      match probe(pid).answer
      case None => Survey(s.docs, Failed(s.retry, pid, probe(pid).marked), s.probed + [pid])
      case Some(doc) =>
        Survey(s.docs[doc.peer := WithGateway(names, pid, doc)], Succeeded(s.retry, pid), s.probed + [pid])
  }

  function VisitAll(names: Names, probe: Id -> Probe, s: Survey, order: seq<Id>): Survey {
    if order == [] then s
    else Visit(names, probe, VisitAll(names, probe, s, order[..|order| - 1]), order[|order| - 1])
  }

  ghost predicate IsOrderOf(order: seq<Id>, peers: set<Id>) {
    && (forall p :: p in order <==> p in peers)
    && forall i, j :: 0 <= i < j < |order| ==> order[i] != order[j]
  }

  // The documents in the order of their peers.
  function Listing(docs: Docs): seq<Capability> {
    var keys := SortedKeys(docs.Keys);
    seq(|keys|, i requires 0 <= i < |keys| => assert keys[i] in keys; docs[keys[i]])
  }

  datatype Sight = Sight(
    connected: set<Id>,
    found: seq<Id>,
    heartbeats: seq<Capability>,
    bootstraps: seq<Bootstrap>,
    addable: Capability -> bool,
    probe: Id -> Probe)

  function FoundIn(self: Id, found: seq<Id>): set<Id> {
    set p | p in found && p != "" && p != self
  }

  function NamedIn(names: Names, docs: seq<Capability>): set<Id> {
    set d | d in docs && names.decode(d.peer).Some? :: names.decode(d.peer).value
  }

  // The heartbeats that announce an address the node can add.
  function Dialable(addable: Capability -> bool, heartbeats: seq<Capability>): seq<Capability> {
    if heartbeats == [] then []
    else
      var hb := heartbeats[|heartbeats| - 1];
      Dialable(addable, heartbeats[..|heartbeats| - 1])
      + if hb.peer != "" && hb.announceAddrs != [] && addable(hb) then [hb] else []
  }

  // The peers a call may probe: connected, found, or named by a document.
  function PeersIn(names: Names, self: Id, sight: Sight): set<Id> {
    sight.connected + FoundIn(self, sight.found)
    + NamedIn(names, Dialable(sight.addable, sight.heartbeats))
    + NamedIn(names, Announced(names, self, sight.bootstraps))
  }

  lemma {:induction false} DialableAre(addable: Capability -> bool, heartbeats: seq<Capability>, d: Capability)
    ensures d in Dialable(addable, heartbeats) <==> d in heartbeats && d.peer != "" && d.announceAddrs != [] && addable(d)
  {
    if heartbeats == [] {
    } else {
      var n := |heartbeats| - 1;
      DialableAre(addable, heartbeats[..n], d);
      assert heartbeats == heartbeats[..n] + [heartbeats[n]];
    }
  }

  lemma {:induction false} NamedByOffer(names: Names, self: Id, bootstraps: seq<Bootstrap>, p: Id)
    ensures p in NamedIn(names, Announced(names, self, bootstraps)) <==>
            exists i, j, peer :: Offered(names, self, bootstraps, i, j, peer) && names.decode(peer) == Some(p)
  {
    var docs := Announced(names, self, bootstraps);
    if p in NamedIn(names, docs) {
      var d :| d in docs && names.decode(d.peer).Some? && names.decode(d.peer).value == p;
      var k :| 0 <= k < |docs| && docs[k] == d;
      LastForIsLast(docs, d.peer);
      AnnouncedIsLastOffered(names, self, bootstraps, d.peer);
      var i, j :| LastOffered(names, self, bootstraps, i, j, d.peer);
      assert Offered(names, self, bootstraps, i, j, d.peer);
    }
    if exists i, j, peer :: Offered(names, self, bootstraps, i, j, peer) && names.decode(peer) == Some(p) {
      var i, j, peer :| Offered(names, self, bootstraps, i, j, peer) && names.decode(peer) == Some(p);
      LastForIsLast(docs, peer);
      AnnouncedIsLastOffered(names, self, bootstraps, peer);
      var d := LastFor(docs, peer).value;
      assert d in docs;
    }
  }

  // A peer may be probed if it is connected, found, or named by a heartbeat that can be dialed or by a
  // registry document that is taken.
  lemma {:induction false} CandidatesAre(names: Names, self: Id, sight: Sight, p: Id)
    ensures p in PeersIn(names, self, sight) <==>
            || p in sight.connected
            || (p in sight.found && p != "" && p != self)
            || (exists d :: d in sight.heartbeats && d.peer != "" && d.announceAddrs != [] && sight.addable(d)
                            && names.decode(d.peer) == Some(p))
            || (exists i, j, peer :: Offered(names, self, sight.bootstraps, i, j, peer) && names.decode(peer) == Some(p))
  {
    NamedByOffer(names, self, sight.bootstraps, p);
    forall d: Capability {
      DialableAre(sight.addable, sight.heartbeats, d);
    }
  }

  lemma {:induction false} AnnouncedAdd(names: Names, self: Id, bootstraps: seq<Bootstrap>, b: Bootstrap)
    ensures Announced(names, self, bootstraps + [b]) ==
            Announced(names, self, bootstraps)
            + if b.peer == "" || b.peer == self || b.answer.None? then [] else OnlyListable(names.encode(self), b.answer.value)
  {
    if bootstraps == [] {
      assert bootstraps + [b] == [b] && [b][1..] == [];
    } else {
      assert (bootstraps + [b])[1..] == bootstraps[1..] + [b];
      AnnouncedAdd(names, self, bootstraps[1..], b);
    }
  }

  class Libp2pDiscovery {
    const names: Names
    const self: Id
    var retryAfter: Retry

    constructor (names: Names, self: Id)
      ensures this.names == names && this.self == self && retryAfter == map[]
    {
      this.names := names;
      this.self := self;
      retryAfter := map[];
    }

    method ShouldQuery(pid: Id, now: real) returns (ok: bool)
      ensures ok == Admits(retryAfter, pid, now)
      ensures ok <==> pid !in retryAfter || retryAfter[pid] <= now
    {
      if pid in retryAfter && now < retryAfter[pid] {
        return false;
      }
      return true;
    }

    method MarkQueryFailure(pid: Id, now: real)
      modifies this
      ensures retryAfter == AfterMark(old(retryAfter), Failure(pid, now))
      ensures retryAfter == old(retryAfter)[pid := now + 30.0]
    {
      retryAfter := retryAfter[pid := now + BACK_OFF];
    }

    method MarkQuerySuccess(pid: Id, ghost now: real)
      modifies this
      ensures retryAfter == AfterMark(old(retryAfter), Success(pid, now))
    {
      retryAfter := retryAfter - {pid};
    }

    // None stands for the error that no peers were discovered.
    method ListCapabilities(sight: Sight) returns (listing: Option<seq<Capability>>, ghost order: seq<Id>)
      modifies this
      ensures var base := Base(names, self, sight.heartbeats, sight.bootstraps);
              var end := VisitAll(names, sight.probe, Survey(base, old(retryAfter), []), order);
              && retryAfter == end.retry
              && listing == if end.docs == map[] then None else Some(Listing(end.docs))
      ensures IsOrderOf(order, PeersIn(names, self, sight))
    {
      var peerSet := CollectPeers(sight);
      var caps := CollectDocs(sight);
      caps, order := ProbeAll(sight.probe, peerSet, caps);
      if caps == map[] {
        return None, order;
      }
      return Some(Listing(caps)), order;
    }

    method ProbeAll(probe: Id -> Probe, peerSet: set<Id>, docs: Docs) returns (caps: Docs, ghost order: seq<Id>)
      modifies this
      ensures var end := VisitAll(names, probe, Survey(docs, old(retryAfter), []), order);
              caps == end.docs && retryAfter == end.retry
      ensures IsOrderOf(order, peerSet)
    {
      caps := docs;
      order := [];
      var todo := peerSet;
      ghost var probed: seq<Id> := [];
      ghost var start := Survey(docs, retryAfter, []);
      while todo != {}
        invariant todo <= peerSet && IsOrderOf(order, peerSet - todo)
        invariant Survey(caps, retryAfter, probed) == VisitAll(names, probe, start, order)
        decreases |todo|
      {
        var pid :| pid in todo;
        todo := todo - {pid};
        assert (order + [pid])[..|order|] == order;
        order := order + [pid];
        caps, probed := ProbePeer(probe, pid, caps, probed);
      }
    }

    // One turn of the probing loop.
    method ProbePeer(probe: Id -> Probe, pid: Id, docs: Docs, ghost before: seq<Id>) returns (caps: Docs, ghost probed: seq<Id>)
      modifies this
      ensures Survey(caps, retryAfter, probed) == Visit(names, probe, Survey(docs, old(retryAfter), before), pid)
    {
      caps, probed := docs, before;
      if names.encode(pid) in caps {
        return;
      }
      var p := probe(pid);
      var ok := ShouldQuery(pid, p.asked);
      if !ok {
        return;
      }
      probed := before + [pid];
      if p.answer.None? {
        MarkQueryFailure(pid, p.marked);
        return;
      }
      MarkQuerySuccess(pid, p.marked);
      var cap := p.answer.value;
      if cap.gatewayURL == "" {
        cap := cap.(gatewayURL := SCHEME + names.encode(pid));
      }
      caps := caps[cap.peer := cap];
    }

    method CollectPeers(sight: Sight) returns (peerSet: set<Id>)
      ensures peerSet == PeersIn(names, self, sight)
    {
      peerSet := sight.connected;
      var i := 0;
      while i < |sight.found|
        invariant 0 <= i <= |sight.found|
        invariant peerSet == sight.connected + FoundIn(self, sight.found[..i])
      {
        var id := sight.found[i];
        assert sight.found[..i + 1][..i] == sight.found[..i];
        if id != "" && id != self {
          peerSet := peerSet + {id};
        }
        i := i + 1;
      }
      assert sight.found[..i] == sight.found;
      peerSet := AddDialable(sight, peerSet);
      peerSet := AddNamed(Announced(names, self, sight.bootstraps), peerSet);
    }

    method AddDialable(sight: Sight, before: set<Id>) returns (peerSet: set<Id>)
      ensures peerSet == before + NamedIn(names, Dialable(sight.addable, sight.heartbeats))
    {
      var dialable: seq<Capability> := [];
      var i := 0;
      while i < |sight.heartbeats|
        invariant 0 <= i <= |sight.heartbeats|
        invariant dialable == Dialable(sight.addable, sight.heartbeats[..i])
      {
        var hb := sight.heartbeats[i];
        assert sight.heartbeats[..i + 1][..i] == sight.heartbeats[..i];
        if hb.peer != "" && |hb.announceAddrs| > 0 {
          if sight.addable(hb) {
            dialable := dialable + [hb];
          }
        }
        i := i + 1;
      }
      assert sight.heartbeats[..i] == sight.heartbeats;
      peerSet := AddNamed(dialable, before);
    }

    method AddNamed(docs: seq<Capability>, before: set<Id>) returns (peerSet: set<Id>)
      ensures peerSet == before + NamedIn(names, docs)
    {
      peerSet := before;
      var i := 0;
      while i < |docs|
        invariant 0 <= i <= |docs|
        invariant peerSet == before + NamedIn(names, docs[..i])
      {
        assert docs[..i + 1] == docs[..i] + [docs[i]];
        var id := names.decode(docs[i].peer);
        if id.Some? {
          peerSet := peerSet + {id.value};
        }
        i := i + 1;
      }
      assert docs[..i] == docs;
    }

    method CollectDocs(sight: Sight) returns (caps: Docs)
      ensures caps == Base(names, self, sight.heartbeats, sight.bootstraps)
    {
      caps := CollectHeartbeats(sight.heartbeats);
      caps := CollectRegistries(caps, sight.bootstraps);
    }

    method CollectHeartbeats(heartbeats: seq<Capability>) returns (caps: Docs)
      ensures caps == Overlay(map[], heartbeats)
    {
      caps := map[];
      var i := 0;
      while i < |heartbeats|
        invariant 0 <= i <= |heartbeats|
        invariant caps == Overlay(map[], heartbeats[..i])
      {
        OverlayAdd(map[], heartbeats[..i], heartbeats[i]);
        assert heartbeats[..i + 1] == heartbeats[..i] + [heartbeats[i]];
        caps := caps[heartbeats[i].peer := heartbeats[i]];
        i := i + 1;
      }
      assert heartbeats[..i] == heartbeats;
    }

    method CollectRegistries(base: Docs, bootstraps: seq<Bootstrap>) returns (caps: Docs)
      ensures caps == Overlay(base, Announced(names, self, bootstraps))
    {
      caps := base;
      var i := 0;
      while i < |bootstraps|
        invariant 0 <= i <= |bootstraps|
        invariant caps == Overlay(base, Announced(names, self, bootstraps[..i]))
      {
        var b := bootstraps[i];
        ghost var before := Announced(names, self, bootstraps[..i]);
        AnnouncedAdd(names, self, bootstraps[..i], b);
        assert bootstraps[..i + 1] == bootstraps[..i] + [b];
        assert before + [] == before;
        i := i + 1;
        if b.peer == "" || b.peer == self {
          continue;
        }
        if b.answer.None? {
          continue;
        }
        OverlayAppend(base, before, OnlyListable(names.encode(self), b.answer.value));
        caps := OverlayEntries(caps, b.answer.value);
      }
      assert bootstraps[..i] == bootstraps;
    }

    method OverlayEntries(docs: Docs, entries: seq<Capability>) returns (caps: Docs)
      ensures caps == Overlay(docs, OnlyListable(names.encode(self), entries))
    {
      caps := docs;
      var j := 0;
      assert entries[0..] == entries;
      while j < |entries|
        invariant 0 <= j <= |entries|
        invariant Overlay(caps, OnlyListable(names.encode(self), entries[j..])) == Overlay(docs, OnlyListable(names.encode(self), entries))
      {
        var c := entries[j];
        ghost var rest := OnlyListable(names.encode(self), entries[j + 1..]);
        assert entries[j..][1..] == entries[j + 1..];
        assert ([c] + rest)[1..] == rest && [] + rest == rest;
        j := j + 1;
        if c.peer == "" || c.peer == names.encode(self) {
          continue;
        }
        caps := caps[c.peer := c];
      }
    }
  }

  /// What a call returns

  // A strictly ascending list of the peers, each with the document merged for it.
  lemma {:induction false} ListingAscends(docs: Docs)
    requires Keyed(docs)
    ensures var out := Listing(docs);
            && (forall i, j :: 0 <= i < j < |out| ==> Leq(out[i].peer, out[j].peer) && out[i].peer != out[j].peer)
            && (forall d :: d in out <==> d.peer in docs && docs[d.peer] == d)
  {
    var keys := SortedKeys(docs.Keys);
    var out := Listing(docs);
    assert forall i :: 0 <= i < |out| ==> keys[i] in keys && out[i] == docs[keys[i]] && out[i].peer == keys[i];
    forall d: Capability | d.peer in docs && docs[d.peer] == d
      ensures d in out
    {
      assert d.peer in keys;
      var i :| 0 <= i < |keys| && keys[i] == d.peer;
      assert out[i] == d;
    }
  }

  // What the documents and the back-off table hold after the visits, peer by peer.
  ghost predicate Told(names: Names, probe: Id -> Probe, start: Survey, end: Survey) {
    && Keyed(end.docs)
    && (forall k :: k in start.docs ==> k in end.docs)
    && forall k :: k in end.docs ==>
                     || (k in start.docs && end.docs[k] == start.docs[k])
                     || exists p :: p in end.probed && AnsweredAs(names, probe, p, end.docs[k])
  }

  ghost predicate AnsweredAs(names: Names, probe: Id -> Probe, p: Id, doc: Capability) {
    probe(p).answer.Some? &&
    var answer := probe(p).answer.value;
    doc == answer.(gatewayURL := if answer.gatewayURL == "" then "libp2p://" + names.encode(p) else answer.gatewayURL)
  }

  ghost predicate Backed(probe: Id -> Probe, start: Survey, end: Survey) {
    forall p ::
      if p !in end.probed then SameAt(start.retry, end.retry, p)
      else if probe(p).answer.None? then p in end.retry && end.retry[p] == probe(p).marked + 30.0
      else p !in end.retry
  }

  ghost predicate SameAt(a: Retry, b: Retry, p: Id) {
    (p in a <==> p in b) && (p in a ==> a[p] == b[p])
  }

  // Exactly the peers that are neither covered nor backed off are probed, each once.
  ghost predicate Chosen(names: Names, probe: Id -> Probe, start: Survey, end: Survey, order: seq<Id>) {
    && (forall p :: p in end.probed ==>
          p in order && names.encode(p) !in start.docs && (p in start.retry ==> start.retry[p] <= probe(p).asked))
    && (forall p :: p in order && p !in end.probed ==>
          names.encode(p) in end.docs || (p in start.retry && probe(p).asked < start.retry[p]))
    && forall i, j :: 0 <= i < j < |end.probed| ==> end.probed[i] != end.probed[j]
  }

  ghost predicate Distinct(order: seq<Id>) {
    forall i, j :: 0 <= i < j < |order| ==> order[i] != order[j]
  }

  lemma {:induction false} ToldStep(names: Names, probe: Id -> Probe, start: Survey, s: Survey, pid: Id)
    requires Told(names, probe, start, s)
    ensures Told(names, probe, start, Visit(names, probe, s, pid))
  {
    var end := Visit(names, probe, s, pid);
    if end != s {
      assert forall p :: p in s.probed ==> p in end.probed;
      assert end.probed[|s.probed|] == pid;
      forall k | k in end.docs
        ensures || (k in start.docs && end.docs[k] == start.docs[k])
                || exists p :: p in end.probed && AnsweredAs(names, probe, p, end.docs[k])
      {
        if probe(pid).answer.Some? && k == probe(pid).answer.value.peer {
          assert AnsweredAs(names, probe, pid, end.docs[k]);
        } else if !(k in start.docs && s.docs[k] == start.docs[k]) {
          var p :| p in s.probed && AnsweredAs(names, probe, p, s.docs[k]);
          assert p in end.probed;
        }
      }
    }
  }

  lemma {:induction false} BackedStep(names: Names, probe: Id -> Probe, start: Survey, s: Survey, pid: Id)
    requires Backed(probe, start, s)
    ensures Backed(probe, start, Visit(names, probe, s, pid))
  {
    var end := Visit(names, probe, s, pid);
    if end != s {
      assert forall p :: p in end.probed <==> p in s.probed || p == pid;
      forall p: Id | p != pid
        ensures SameAt(s.retry, end.retry, p)
      {
      }
    }
  }

  lemma {:induction false} ChosenStep(names: Names, probe: Id -> Probe, start: Survey, s: Survey, order: seq<Id>, pid: Id)
    requires pid !in order && Chosen(names, probe, start, s, order)
    requires SameAt(start.retry, s.retry, pid)
    requires forall k :: k in start.docs ==> k in s.docs
    ensures Chosen(names, probe, start, Visit(names, probe, s, pid), order + [pid])
  {
    var end := Visit(names, probe, s, pid);
    assert Admits(start.retry, pid, probe(pid).asked) == Admits(s.retry, pid, probe(pid).asked);
    assert forall p :: p in order + [pid] <==> p in order || p == pid;
    if end != s {
      assert forall p :: p in end.probed <==> p in s.probed || p == pid;
      assert pid !in s.probed;
      assert forall k :: k in s.docs ==> k in end.docs;
    }
  }

  lemma {:induction false} VisitsKeep(names: Names, probe: Id -> Probe, start: Survey, order: seq<Id>)
    requires Keyed(start.docs) && start.probed == [] && Distinct(order)
    ensures var end := VisitAll(names, probe, start, order);
            Told(names, probe, start, end) && Backed(probe, start, end) && Chosen(names, probe, start, end, order)
  {
    if order == [] {
    } else {
      var n := |order| - 1;
      var s := VisitAll(names, probe, start, order[..n]);
      VisitsKeep(names, probe, start, order[..n]);
      ToldStep(names, probe, start, s, order[n]);
      BackedStep(names, probe, start, s, order[n]);
      assert order[n] !in order[..n];
      assert SameAt(start.retry, s.retry, order[n]);
      ChosenStep(names, probe, start, s, order[..n], order[n]);
      assert order[..n] + [order[n]] == order;
    }
  }

  // In whatever order a call visits the peers: the list has strictly ascending peers and holds every
  // covered peer; each document is a covered peer's or an answer to a probe of this call; and exactly
  // the peers neither covered nor backed off are probed, once each, and then have their back-off
  // renewed or lifted.
  lemma {:induction false} CallIsExact(names: Names, self: Id, sight: Sight, retry: Retry, order: seq<Id>)
    requires IsOrderOf(order, PeersIn(names, self, sight))
    ensures var start := Survey(Base(names, self, sight.heartbeats, sight.bootstraps), retry, []);
            var end := VisitAll(names, sight.probe, start, order);
            var out := Listing(end.docs);
            && (forall i, j :: 0 <= i < j < |out| ==> Leq(out[i].peer, out[j].peer) && out[i].peer != out[j].peer)
            && (forall d :: d in out <==> d.peer in end.docs && end.docs[d.peer] == d)
            && Told(names, sight.probe, start, end)
            && Backed(sight.probe, start, end)
            && Chosen(names, sight.probe, start, end, order)
  {
    var base := Base(names, self, sight.heartbeats, sight.bootstraps);
    RegistryWins(names, self, sight.heartbeats, sight.bootstraps, "");
    VisitsKeep(names, sight.probe, Survey(base, retry, []), order);
    ListingAscends(VisitAll(names, sight.probe, Survey(base, retry, []), order).docs);
  }
}

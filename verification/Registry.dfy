/**
 The node's two tables of capability documents: heartbeats heard on the mesh and documents
 announced to its registry. Entries older than the time to live are dropped only when a table
 is read.

 The reference is a log of every accepted document, from which nothing is ever dropped. The
 main result is that the lazily pruned tables answer as the log does.
 */
module Registry {
  import opened Mesh
  import opened Text

  datatype Seen = Seen(doc: Capability, at: real)

  type Table = map<string, Seen>

  // A document that carries the zero time is stamped on arrival.
  function Stamped(doc: Capability, stamp: real): Capability {
    if doc.updatedAt == UNSTAMPED then doc.(updatedAt := stamp) else doc
  }

  predicate Expired(ttl: real, e: Seen, now: real) {
    now - e.at > ttl
  }

  function Pruned(ttl: real, table: Table, now: real): Table {
    map k | k in table && !Expired(ttl, table[k], now) :: table[k]
  }

  // The registry entry wins only if it is strictly newer.
  function Merged(heard: Table, announced: Table): Table {
    map k | k in heard.Keys + announced.Keys ::
      if k in heard && (k in announced ==> announced[k].at <= heard[k].at) then heard[k] else announced[k]
  }

  // The documents of a table, once each, in any order: the i-th is the one under keys[i].
  ghost predicate ListsBy(docs: seq<Capability>, table: Table, keys: seq<string>) {
    && |keys| == |docs|
    && (forall i, j :: 0 <= i < j < |keys| ==> keys[i] != keys[j])
    && (forall k :: k in keys <==> k in table)
    && forall i :: 0 <= i < |keys| && keys[i] in table ==> docs[i] == table[keys[i]].doc
  }

  ghost predicate Lists(docs: seq<Capability>, table: Table) {
    exists keys :: ListsBy(docs, table, keys)
  }

  datatype Tables = Tables(heard: Table, announced: Table)

  // What a message or a read does to the tables. Each reads the clock under the node's lock.
  datatype Event =
    | Heard(from: Id, decoded: Option<Capability>, stamp: real, at: real)
    | Announced(doc: Capability, stamp: real, at: real)
    | ReadHeartbeats(at: real)
    | ReadRegistry(at: real)

  function Step(self: Id, ttl: real, t: Tables, e: Event): Tables {
    match e
    case Heard(from, decoded, stamp, at) =>
      if from == self || decoded.None? then t
      else t.(heard := t.heard[decoded.value.peer := Seen(Stamped(decoded.value, stamp), at)])
    case Announced(doc, stamp, at) =>
      if TrimSpace(doc.peer) == "" then t
      else t.(announced := t.announced[doc.peer := Seen(Stamped(doc, stamp), at)])
    case ReadHeartbeats(at) => t.(heard := Pruned(ttl, t.heard, at))
    case ReadRegistry(at) => Tables(Pruned(ttl, t.heard, at), Pruned(ttl, t.announced, at))
  }

  // What the merge holds for a key while the registry entries `todo` are still to come.
  predicate MergedAt(heard: Table, announced: Table, todo: set<string>, out: Table, k: string) {
    if k in announced && k !in todo then k in out && k in Merged(heard, announced) && out[k] == Merged(heard, announced)[k]
    else if k in heard then k in out && out[k] == heard[k]
    else k !in out
  }

  lemma {:induction false} MergeStep(heard: Table, announced: Table, todo: set<string>, before: Table, after: Table, k: string)
    requires k in todo && k in announced && forall j :: MergedAt(heard, announced, todo, before, j)
    requires after == if k !in before || announced[k].at > before[k].at then before[k := announced[k]] else before
    ensures forall j :: MergedAt(heard, announced, todo - {k}, after, j)
  {
    forall j: string
      ensures MergedAt(heard, announced, todo - {k}, after, j)
    {
      assert MergedAt(heard, announced, todo, before, j);
      assert MergedAt(heard, announced, todo, before, k);
    }
  }

  lemma {:induction false} MergeDone(heard: Table, announced: Table, out: Table)
    requires forall k :: MergedAt(heard, announced, {}, out, k)
    ensures out == Merged(heard, announced)
  {
    forall k: string
      ensures k in out <==> k in Merged(heard, announced)
      ensures k in out ==> out[k] == Merged(heard, announced)[k]
    {
      assert MergedAt(heard, announced, {}, out, k);
    }
  }

  class Node {
    const self: Id
    const ttl: real
    var heartbeats: Table
    var registry: Table

    constructor (self: Id, ttl: real)
      ensures this.self == self && this.ttl == ttl && heartbeats == map[] && registry == map[]
    {
      this.self := self;
      this.ttl := ttl;
      heartbeats := map[];
      registry := map[];
    }

    ghost function State(): Tables
      reads this
    {
      Tables(heartbeats, registry)
    }

    // One message of the heartbeat topic; `doc` is what it decodes to, if it decodes.
    method ConsumeHeartbeat(from: Id, doc: Option<Capability>, stamp: real, now: real)
      modifies this
      ensures State() == Step(self, ttl, old(State()), Heard(from, doc, stamp, now))
    {
      if from == self {
        return;
      }
      if doc.None? {
        return;
      }
      var cap := doc.value;
      if cap.updatedAt == UNSTAMPED {
        cap := cap.(updatedAt := stamp);
      }
      heartbeats := heartbeats[cap.peer := Seen(cap, now)];
    }

    method UpsertRegistryCapability(doc: Capability, stamp: real, now: real)
      modifies this
      ensures State() == Step(self, ttl, old(State()), Announced(doc, stamp, now))
    {
      if TrimSpace(doc.peer) == "" {
        return;
      }
      var cap := doc;
      if cap.updatedAt == UNSTAMPED {
        cap := cap.(updatedAt := stamp);
      }
      registry := registry[cap.peer := Seen(cap, now)];
    }

    method Heartbeats(now: real) returns (docs: seq<Capability>)
      modifies this
      ensures State() == Step(self, ttl, old(State()), ReadHeartbeats(now))
      ensures Lists(docs, heartbeats)
    {
      heartbeats := PruneLocked(now, heartbeats);
      docs := Documents(heartbeats);
    }

    method RegistryCapabilities(now: real) returns (docs: seq<Capability>)
      modifies this
      ensures State() == Step(self, ttl, old(State()), ReadRegistry(now))
      ensures Lists(docs, Merged(heartbeats, registry))
    {
      heartbeats := PruneLocked(now, heartbeats);
      registry := PruneLocked(now, registry);
      var out := MergeLocked(heartbeats, registry);
      docs := Documents(out);
    }

    method MergeLocked(heard: Table, announced: Table) returns (out: Table)
      ensures out == Merged(heard, announced)
    {
      out := heard;
      var todo := announced.Keys;
      while todo != {}
        invariant todo <= announced.Keys
        invariant forall k :: MergedAt(heard, announced, todo, out, k)
        decreases |todo|
      {
        var k :| k in todo;
        var v := announced[k];
        assert MergedAt(heard, announced, todo, out, k);
        ghost var before := out;
        if k !in out || v.at > out[k].at {
          out := out[k := v];
        }
        MergeStep(heard, announced, todo, before, out, k);
        todo := todo - {k};
      }
      MergeDone(heard, announced, out);
    }

    method PruneLocked(now: real, src: Table) returns (kept: Table)
      ensures kept == Pruned(ttl, src, now)
    {
      kept := src;
      var todo := src.Keys;
      while todo != {}
        invariant todo <= src.Keys
        invariant kept == map k | k in src && (k in todo || !Expired(ttl, src[k], now)) :: src[k]
        decreases |todo|
      {
        var k :| k in todo;
        if now - src[k].at > ttl {
          kept := kept - {k};
        }
        todo := todo - {k};
      }
    }
  }

  method Documents(table: Table) returns (docs: seq<Capability>)
    ensures Lists(docs, table)
  {
    docs := [];
    ghost var keys: seq<string> := [];
    var todo := table.Keys;
    while todo != {}
      invariant todo <= table.Keys
      invariant |keys| == |docs|
      invariant forall i, j :: 0 <= i < j < |keys| ==> keys[i] != keys[j]
      invariant forall k :: k in keys <==> k in table && k !in todo
      invariant forall i :: 0 <= i < |keys| && keys[i] in table ==> docs[i] == table[keys[i]].doc
      decreases |todo|
    {
      var k :| k in todo;
      docs := docs + [table[k].doc];
      keys := keys + [k];
      todo := todo - {k};
    }
    assert ListsBy(docs, table, keys);
  }

  /// The log

  datatype Source = Heartbeat | Announcement

  datatype Entry = Entry(source: Source, seen: Seen)

  // What an event adds to the log: a decoded heartbeat of another node, or an announcement whose peer
  // is not blank, with the time of arrival for an update time that is zero.
  function EntriesOf(self: Id, e: Event): seq<Entry> {
    match e
    case Heard(from, decoded, stamp, at) =>
      if from != self && decoded.Some?
      then
        var doc := decoded.value;
        [Entry(Heartbeat, Seen(if doc.updatedAt == 0.0 then doc.(updatedAt := stamp) else doc, at))]
      else []
    case Announced(doc, stamp, at) =>
      if exists i :: 0 <= i < |doc.peer| && !IsSpace(doc.peer[i])
      then [Entry(Announcement, Seen(if doc.updatedAt == 0.0 then doc.(updatedAt := stamp) else doc, at))]
      else []
    case _ => []
  }

  lemma {:induction false} BlankIsNotLogged(self: Id, e: Event)
    ensures e.Announced? ==> (EntriesOf(self, e) == [] <==> TrimSpace(e.doc.peer) == "")
  {
    if e.Announced? {
      BlankIffSpaces(e.doc.peer);
    }
  }

  function Log(self: Id, events: seq<Event>): seq<Entry> {
    if events == [] then []
    else Log(self, events[..|events| - 1]) + EntriesOf(self, events[|events| - 1])
  }

  function Run(self: Id, ttl: real, events: seq<Event>): Tables {
    if events == [] then Tables(map[], map[])
    else Step(self, ttl, Run(self, ttl, events[..|events| - 1]), events[|events| - 1])
  }

  // The clock never runs backwards, up to `now`.
  ghost predicate Clocked(events: seq<Event>, now: real) {
    && (forall i, j :: 0 <= i < j < |events| ==> events[i].at <= events[j].at)
    && forall i :: 0 <= i < |events| ==> events[i].at <= now
  }

  ghost predicate Sorted(log: seq<Entry>, now: real) {
    && (forall i, j :: 0 <= i < j < |log| ==> log[i].seen.at <= log[j].seen.at)
    && forall i :: 0 <= i < |log| ==> log[i].seen.at <= now
  }

  // Entry `i` of the log is about the peer and no older than the time to live.
  ghost predicate Live(log: seq<Entry>, ttl: real, now: real, peer: string, i: int) {
    0 <= i < |log| && log[i].seen.doc.peer == peer && now - log[i].seen.at <= ttl
  }

  // Newer, or as new and a heartbeat against an announcement, or the later of two alike.
  ghost predicate Outranks(log: seq<Entry>, i: int, j: int)
    requires 0 <= i < |log| && 0 <= j < |log|
  {
    || log[i].seen.at > log[j].seen.at
    || (&& log[i].seen.at == log[j].seen.at
        && ((log[i].source.Heartbeat? && log[j].source.Announcement?) || (log[i].source == log[j].source && i > j)))
  }

  ghost predicate Newest(log: seq<Entry>, ttl: real, now: real, peer: string, i: int) {
    && Live(log, ttl, now, peer, i)
    && forall j :: j != i && Live(log, ttl, now, peer, j) ==> Outranks(log, i, j)
  }

  /// The tables against the log

  // The last entry of a source for a peer.
  function Last(log: seq<Entry>, source: Source, peer: string): Option<nat> {
    if log == [] then None
    else
      var n := |log| - 1;
      if log[n].source == source && log[n].seen.doc.peer == peer then Some(n) else Last(log[..n], source, peer)
  }

  lemma {:induction false} LastIsLast(log: seq<Entry>, source: Source, peer: string)
    ensures match Last(log, source, peer)
            case None => forall i :: 0 <= i < |log| ==> log[i].source != source || log[i].seen.doc.peer != peer
            case Some(n) =>
              && n < |log| && log[n].source == source && log[n].seen.doc.peer == peer
              && forall i :: n < i < |log| ==> log[i].source != source || log[i].seen.doc.peer != peer
  {
    if log == [] {
    } else {
      LastIsLast(log[..|log| - 1], source, peer);
    }
  }

  // A table holds the last entry of each peer, or that entry has expired already.
  ghost predicate Agrees(ttl: real, now: real, log: seq<Entry>, source: Source, table: Table) {
    forall p :: AgreesAt(ttl, now, log, source, table, p)
  }

  ghost predicate AgreesAt(ttl: real, now: real, log: seq<Entry>, source: Source, table: Table, p: string) {
    LastIsLast(log, source, p);
    match Last(log, source, p)
    case None => p !in table
    case Some(n) => if p in table then table[p] == log[n].seen else now - log[n].seen.at > ttl
  }

  lemma {:induction false} AddEntry(ttl: real, now: real, log: seq<Entry>, source: Source, table: Table, e: Entry)
    requires Agrees(ttl, now, log, source, table)
    ensures Agrees(ttl, now, log + [e], source,
                   if e.source == source then table[e.seen.doc.peer := e.seen] else table)
  {
    var after := if e.source == source then table[e.seen.doc.peer := e.seen] else table;
    assert (log + [e])[..|log|] == log;
    forall p
      ensures AgreesAt(ttl, now, log + [e], source, after, p)
    {
      assert AgreesAt(ttl, now, log, source, table, p);
      LastIsLast(log, source, p);
    }
  }

  lemma {:induction false} PruneAgrees(ttl: real, before: real, now: real, log: seq<Entry>, source: Source, table: Table)
    requires before <= now && Agrees(ttl, before, log, source, table)
    ensures Agrees(ttl, now, log, source, table)
    ensures Agrees(ttl, now, log, source, Pruned(ttl, table, now))
  {
    forall p
      ensures AgreesAt(ttl, now, log, source, table, p)
      ensures AgreesAt(ttl, now, log, source, Pruned(ttl, table, now), p)
    {
      assert AgreesAt(ttl, before, log, source, table, p);
      LastIsLast(log, source, p);
    }
  }

  ghost predicate BothAgree(ttl: real, now: real, log: seq<Entry>, t: Tables) {
    && Agrees(ttl, now, log, Heartbeat, t.heard)
    && Agrees(ttl, now, log, Announcement, t.announced)
  }

  lemma {:induction false} StepAgrees(self: Id, ttl: real, before: real, log: seq<Entry>, t: Tables, e: Event)
    requires before <= e.at && BothAgree(ttl, before, log, t)
    ensures BothAgree(ttl, e.at, log + EntriesOf(self, e), Step(self, ttl, t, e))
  {
    PruneAgrees(ttl, before, e.at, log, Heartbeat, t.heard);
    PruneAgrees(ttl, before, e.at, log, Announcement, t.announced);
    BlankIsNotLogged(self, e);
    var added := EntriesOf(self, e);
    if added == [] {
      assert log + added == log;
    } else {
      AddEntry(ttl, e.at, log, Heartbeat, t.heard, added[0]);
      AddEntry(ttl, e.at, log, Announcement, t.announced, added[0]);
      assert added == [added[0]];
    }
  }

  lemma {:induction false} EntriesAreNow(self: Id, e: Event)
    ensures |EntriesOf(self, e)| <= 1
    ensures forall x :: x in EntriesOf(self, e) ==> x.seen.at == e.at
  {
  }

  lemma {:induction false} SortedAdd(log: seq<Entry>, added: seq<Entry>, at: real)
    requires Sorted(log, at) && |added| <= 1 && forall x :: x in added ==> x.seen.at == at
    ensures Sorted(log + added, at)
  {
  }

  lemma {:induction false} SortedLater(log: seq<Entry>, at: real, now: real)
    requires Sorted(log, at) && at <= now
    ensures Sorted(log, now)
  {
  }

  lemma {:induction false} RunAgrees(self: Id, ttl: real, events: seq<Event>, now: real)
    requires Clocked(events, now)
    ensures BothAgree(ttl, now, Log(self, events), Run(self, ttl, events))
    ensures Sorted(Log(self, events), now)
    decreases events
  {
    if events == [] {
    } else {
      var n := |events| - 1;
      var e := events[n];
      var log, t := Log(self, events[..n]), Run(self, ttl, events[..n]);
      RunAgrees(self, ttl, events[..n], e.at);
      StepAgrees(self, ttl, e.at, log, t, e);
      EntriesAreNow(self, e);
      SortedAdd(log, EntriesOf(self, e), e.at);
      SortedLater(log + EntriesOf(self, e), e.at, now);
      BothAgreeLater(ttl, e.at, now, log + EntriesOf(self, e), Step(self, ttl, t, e));
    }
  }

  lemma {:induction false} BothAgreeLater(ttl: real, before: real, now: real, log: seq<Entry>, t: Tables)
    requires before <= now && BothAgree(ttl, before, log, t)
    ensures BothAgree(ttl, now, log, t)
  {
    PruneAgrees(ttl, before, now, log, Heartbeat, t.heard);
    PruneAgrees(ttl, before, now, log, Announcement, t.announced);
  }

  // The pruned tables hold, for each peer, the last entry of their source if it is live.
  lemma {:induction false} PrunedIsLastLive(ttl: real, now: real, log: seq<Entry>, source: Source, table: Table, p: string)
    requires Agrees(ttl, now, log, source, table)
    ensures var last := Last(log, source, p);
            && (last.Some? ==> last.value < |log|)
            && (p in Pruned(ttl, table, now) <==> last.Some? && now - log[last.value].seen.at <= ttl)
            && (p in Pruned(ttl, table, now) ==> Pruned(ttl, table, now)[p] == log[last.value].seen)
  {
    assert AgreesAt(ttl, now, log, source, table, p);
    LastIsLast(log, source, p);
  }

  // No entry of the same source and peer is newer than the last one.
  lemma {:induction false} LastIsNewest(log: seq<Entry>, now: real, source: Source, p: string, j: nat)
    requires Sorted(log, now) && j < |log| && log[j].source == source && log[j].seen.doc.peer == p
    ensures var last := Last(log, source, p);
            last.Some? && j <= last.value < |log| && log[j].seen.at <= log[last.value].seen.at
            && log[last.value].source == source && log[last.value].seen.doc.peer == p
  {
    LastIsLast(log, source, p);
  }

  function PrunedMerge(ttl: real, t: Tables, now: real): Table {
    Merged(Pruned(ttl, t.heard, now), Pruned(ttl, t.announced, now))
  }

  // The merge of the pruned tables has a document for a peer exactly when the log has a live
  // entry, and then it is the newest live entry's.
  lemma {:induction false} MergeIsNewest(ttl: real, now: real, log: seq<Entry>, t: Tables, p: string)
    requires Sorted(log, now) && BothAgree(ttl, now, log, t)
    ensures var m := PrunedMerge(ttl, t, now);
            && (p in m <==> exists i :: Live(log, ttl, now, p, i))
            && (p in m ==> exists i :: Newest(log, ttl, now, p, i) && m[p] == log[i].seen)
  {
    var h, a := Last(log, Heartbeat, p), Last(log, Announcement, p);
    var m := PrunedMerge(ttl, t, now);
    PrunedIsLastLive(ttl, now, log, Heartbeat, t.heard, p);
    PrunedIsLastLive(ttl, now, log, Announcement, t.announced, p);
    LastIsLast(log, Heartbeat, p);
    LastIsLast(log, Announcement, p);
    forall j | Live(log, ttl, now, p, j)
      ensures p in m
      ensures log[j].source.Heartbeat? ==> h.Some? && j <= h.value && log[j].seen.at <= log[h.value].seen.at
      ensures log[j].source.Announcement? ==> a.Some? && j <= a.value && log[j].seen.at <= log[a.value].seen.at
    {
      LastIsNewest(log, now, log[j].source, p, j);
    }
    if p in m {
      if p in Pruned(ttl, t.heard, now) && (p in Pruned(ttl, t.announced, now) ==> log[a.value].seen.at <= log[h.value].seen.at) {
        assert Live(log, ttl, now, p, h.value);
        assert Newest(log, ttl, now, p, h.value);
      } else {
        assert Live(log, ttl, now, p, a.value);
        assert Newest(log, ttl, now, p, a.value);
      }
    }
  }

  /// Main results

  lemma {:induction false} NewestIsUnique(log: seq<Entry>, ttl: real, now: real, p: string, i: int, j: int)
    requires Newest(log, ttl, now, p, i) && Newest(log, ttl, now, p, j)
    ensures i == j
  {
  }

  ghost predicate HasLive(log: seq<Entry>, ttl: real, now: real, p: string) {
    exists i :: Live(log, ttl, now, p, i)
  }

  ghost predicate IsNewest(log: seq<Entry>, ttl: real, now: real, p: string, doc: Capability) {
    exists i :: Newest(log, ttl, now, p, i) && doc == log[i].seen.doc
  }

  // What a reader may get: one document for each peer with a live entry, the newest live one.
  ghost predicate Answers(docs: seq<Capability>, log: seq<Entry>, ttl: real, now: real) {
    && (forall i, j :: 0 <= i < j < |docs| ==> docs[i].peer != docs[j].peer)
    && (forall d :: d in docs <==> IsNewest(log, ttl, now, d.peer, d))
    && (forall p :: HasLive(log, ttl, now, p) <==> exists i :: 0 <= i < |docs| && docs[i].peer == p)
  }

  // A table that answers for every peer as the log does.
  ghost predicate Faithful(m: Table, log: seq<Entry>, ttl: real, now: real) {
    forall p :: (p in m <==> HasLive(log, ttl, now, p)) && (p in m ==> IsNewest(log, ttl, now, p, m[p].doc))
  }

  lemma {:induction false} ListedUnderPeer(docs: seq<Capability>, m: Table, keys: seq<string>, log: seq<Entry>, ttl: real,
                                           now: real, n: nat)
    requires ListsBy(docs, m, keys) && Faithful(m, log, ttl, now) && n < |docs|
    ensures docs[n].peer == keys[n] && keys[n] in m && IsNewest(log, ttl, now, keys[n], docs[n])
  {
    assert keys[n] in keys;
  }

  lemma {:induction false} NewestIsListed(docs: seq<Capability>, m: Table, keys: seq<string>, log: seq<Entry>, ttl: real,
                                          now: real, d: Capability)
    requires ListsBy(docs, m, keys) && Faithful(m, log, ttl, now) && IsNewest(log, ttl, now, d.peer, d)
    ensures d in docs
  {
    var i :| Newest(log, ttl, now, d.peer, i) && d == log[i].seen.doc;
    assert Live(log, ttl, now, d.peer, i) && HasLive(log, ttl, now, d.peer);
    assert d.peer in keys;
    var n :| 0 <= n < |keys| && keys[n] == d.peer;
    ListedUnderPeer(docs, m, keys, log, ttl, now, n);
    var j :| Newest(log, ttl, now, d.peer, j) && docs[n] == log[j].seen.doc;
    NewestIsUnique(log, ttl, now, d.peer, i, j);
  }

  lemma {:induction false} ListingAnswers(docs: seq<Capability>, m: Table, log: seq<Entry>, ttl: real, now: real)
    requires Lists(docs, m) && Faithful(m, log, ttl, now)
    ensures Answers(docs, log, ttl, now)
  {
    var keys :| ListsBy(docs, m, keys);
    forall n | 0 <= n < |docs|
      ensures docs[n].peer == keys[n] && keys[n] in m && IsNewest(log, ttl, now, docs[n].peer, docs[n])
    {
      ListedUnderPeer(docs, m, keys, log, ttl, now, n);
    }
    forall d: Capability | IsNewest(log, ttl, now, d.peer, d)
      ensures d in docs
    {
      NewestIsListed(docs, m, keys, log, ttl, now, d);
    }
    forall p | p in m
      ensures exists i :: 0 <= i < |docs| && docs[i].peer == p
    {
      assert p in keys;
      var n :| 0 <= n < |keys| && keys[n] == p;
      assert docs[n].peer == p;
    }
  }

  lemma {:induction false} MergeIsFaithful(ttl: real, now: real, log: seq<Entry>, t: Tables)
    requires Sorted(log, now) && BothAgree(ttl, now, log, t)
    ensures Faithful(PrunedMerge(ttl, t, now), log, ttl, now)
  {
    forall p: string
      ensures var m := PrunedMerge(ttl, t, now);
              (p in m <==> HasLive(log, ttl, now, p)) && (p in m ==> IsNewest(log, ttl, now, p, m[p].doc))
    {
      MergeIsNewest(ttl, now, log, t, p);
    }
  }

  // Over every run with a clock that never goes back, whichever reads pruned earlier, reading the
  // registry returns exactly what the full log would.
  lemma {:induction false} PruningIsInvisible(self: Id, ttl: real, events: seq<Event>, now: real, docs: seq<Capability>)
    requires Clocked(events, now)
    requires var t := Step(self, ttl, Run(self, ttl, events), ReadRegistry(now)); Lists(docs, Merged(t.heard, t.announced))
    ensures Answers(docs, Log(self, events), ttl, now)
  {
    RunAgrees(self, ttl, events, now);
    MergeIsFaithful(ttl, now, Log(self, events), Run(self, ttl, events));
    ListingAnswers(docs, PrunedMerge(ttl, Run(self, ttl, events), now), Log(self, events), ttl, now);
  }

  // Likewise a read of the heartbeats returns, once for each peer, its last heartbeat if that is live.
  ghost predicate IsLastLive(log: seq<Entry>, ttl: real, now: real, d: Capability) {
    LastIsLast(log, Heartbeat, d.peer);
    var last := Last(log, Heartbeat, d.peer);
    last.Some? && log[last.value].seen.doc == d && now - log[last.value].seen.at <= ttl
  }

  lemma {:induction false} HeartbeatsAnswer(self: Id, ttl: real, events: seq<Event>, now: real, docs: seq<Capability>)
    requires Clocked(events, now)
    requires Lists(docs, Step(self, ttl, Run(self, ttl, events), ReadHeartbeats(now)).heard)
    ensures forall i, j :: 0 <= i < j < |docs| ==> docs[i].peer != docs[j].peer
    ensures forall d :: d in docs <==> IsLastLive(Log(self, events), ttl, now, d)
  {
    var log := Log(self, events);
    var table := Run(self, ttl, events).heard;
    var m := Pruned(ttl, table, now);
    RunAgrees(self, ttl, events, now);
    var keys :| ListsBy(docs, m, keys);
    forall n | 0 <= n < |docs|
      ensures docs[n].peer == keys[n] && IsLastLive(log, ttl, now, docs[n])
    {
      assert keys[n] in keys;
      PrunedIsLastLive(ttl, now, log, Heartbeat, table, keys[n]);
      LastIsLast(log, Heartbeat, keys[n]);
    }
    forall d | IsLastLive(log, ttl, now, d)
      ensures d in docs
    {
      PrunedIsLastLive(ttl, now, log, Heartbeat, table, d.peer);
      assert d.peer in keys;
      var n :| 0 <= n < |keys| && keys[n] == d.peer;
      assert docs[n] == d;
    }
  }

  function WithoutReads(events: seq<Event>): (rest: seq<Event>)
    ensures forall e :: e in rest ==> e in events
  {
    if events == [] then []
    else
      var e := events[|events| - 1];
      WithoutReads(events[..|events| - 1]) + if e.Heard? || e.Announced? then [e] else []
  }

  lemma {:induction false} LogAdd(self: Id, events: seq<Event>, e: Event)
    ensures Log(self, events + [e]) == Log(self, events) + EntriesOf(self, e)
  {
    assert (events + [e])[..|events|] == events;
  }

  lemma {:induction false} ClockedAdd(events: seq<Event>, e: Event, now: real)
    requires Clocked(events, e.at) && e.at <= now
    ensures Clocked(events + [e], now)
  {
  }

  lemma {:induction false} ReadsNotLogged(self: Id, events: seq<Event>, now: real)
    requires Clocked(events, now)
    ensures Log(self, events) == Log(self, WithoutReads(events)) && Clocked(WithoutReads(events), now)
  {
    if events == [] {
    } else {
      var n := |events| - 1;
      var before, e := events[..n], events[n];
      var rest := WithoutReads(before);
      assert Clocked(before, e.at);
      ReadsNotLogged(self, before, e.at);
      if e.Heard? || e.Announced? {
        LogAdd(self, rest, e);
        ClockedAdd(rest, e, now);
      } else {
        assert rest + [] == rest;
        assert Log(self, before) + [] == Log(self, before);
      }
    }
  }

  // Dropping every read from a run changes no later answer.
  lemma {:induction false} ReadsLeaveNoTrace(self: Id, ttl: real, events: seq<Event>, now: real)
    requires Clocked(events, now)
    ensures var with, without := Run(self, ttl, events), Run(self, ttl, WithoutReads(events));
            && Pruned(ttl, with.heard, now) == Pruned(ttl, without.heard, now)
            && Pruned(ttl, with.announced, now) == Pruned(ttl, without.announced, now)
  {
    var log := Log(self, events);
    ReadsNotLogged(self, events, now);
    RunAgrees(self, ttl, events, now);
    RunAgrees(self, ttl, WithoutReads(events), now);
    var with, without := Run(self, ttl, events), Run(self, ttl, WithoutReads(events));
    SamePruned(ttl, now, log, Heartbeat, with.heard, without.heard);
    SamePruned(ttl, now, log, Announcement, with.announced, without.announced);
  }

  lemma {:induction false} SamePruned(ttl: real, now: real, log: seq<Entry>, source: Source, t: Table, u: Table)
    requires Agrees(ttl, now, log, source, t) && Agrees(ttl, now, log, source, u)
    ensures Pruned(ttl, t, now) == Pruned(ttl, u, now)
  {
    forall p: string
      ensures p in Pruned(ttl, t, now) <==> p in Pruned(ttl, u, now)
      ensures p in Pruned(ttl, t, now) ==> Pruned(ttl, t, now)[p] == Pruned(ttl, u, now)[p]
    {
      PrunedIsLastLive(ttl, now, log, source, t, p);
      PrunedIsLastLive(ttl, now, log, source, u, p);
    }
  }
}

/**
 A candidate in direct mode from the worker's native streams to the reader's bytes: prefixes travel inside
 the metadata, the rest follows as deferred chunks, and the reader joins the two.
 */
module CandidateTransfer {
  import opened Wrappers
  import opened Direct
  import PayloadStream
  import Metadata = MetadataBuffer

  type Chunks = seq<seq<byte>>

  /** A stream the worker sends: where it belongs, its declared size, and how much goes with the metadata. */
  datatype Stream = Stream(at: PathIdentity, declared: nat, most: nat)

  datatype TransferError = WorkerFailed(failure: PayloadStream.StreamError) | Refused(reason: Metadata.BufferError)

  // The worker: every prefix first, then every rest, in the same order.

  ghost predicate AllUnread(entries: seq<PayloadStream.Entry>, from: nat)
    reads entries
  {
    forall i :: from <= i < |entries| ==> entries[i].Valid() && entries[i].Unread()
  }

  ghost predicate AllDifferent<T>(s: seq<T>) {
    forall i, j :: 0 <= i < j < |s| ==> s[i] != s[j]
  }

  /** The stream's prefix was sent in these chunks, and the native stream is just after it. */
  ghost predicate PrefixSent(entry: PayloadStream.Entry, stream: Stream, chunks: Chunks)
    reads entry
  {
    && entry.Valid() && !entry.overlong
    && entry.position == Smaller(stream.declared, stream.most)
    && PayloadStream.Wire(chunks) && Joined(chunks) == entry.data[..entry.position]
  }

  ghost predicate PrefixesSent(entries: seq<PayloadStream.Entry>, streams: seq<Stream>, prefixes: seq<Chunks>, from: nat)
    requires |prefixes| <= |entries| == |streams|
    reads entries
  {
    forall i :: from <= i < |prefixes| ==> PrefixSent(entries[i], streams[i], prefixes[i])
  }

  /** The native stream is shorter than declared, or its reads may fail or return more than was asked for. */
  ghost predicate Deficient(entry: PayloadStream.Entry, stream: Stream) {
    |entry.data| < stream.declared || entry.mayFail || entry.mayOverrun
  }

  ghost predicate SomeDeficient(entries: seq<PayloadStream.Entry>, streams: seq<Stream>)
    requires |entries| == |streams|
  {
    exists i :: 0 <= i < |entries| && Deficient(entries[i], streams[i])
  }

  method StreamPrefix(entry: PayloadStream.Entry, stream: Stream)
    returns (r: Result<Chunks, PayloadStream.StreamError>)
    requires entry.Valid() && entry.Unread()
    modifies entry
    ensures r.Ok? ==> PrefixSent(entry, stream, r.value)
    ensures r.Err? ==> Deficient(entry, stream)
  {
    var sent, chunks;
    if stream.at.owner.AttachmentData? {
      sent, chunks := PayloadStream.StreamAttachment(entry, stream.declared, PayloadStream.DeferredPrefix(stream.most));
    } else {
      sent, chunks := PayloadStream.StreamProperty(entry, stream.declared, PayloadStream.DeferredPrefix(stream.most));
    }
    if sent.Err? {
      return Err(sent.error);
    }
    return Ok(chunks);
  }

  method StreamPrefixes(entries: seq<PayloadStream.Entry>, streams: seq<Stream>)
    returns (r: Result<seq<Chunks>, PayloadStream.StreamError>)
    requires |entries| == |streams| && AllDifferent(entries) && AllUnread(entries, 0)
    modifies entries
    ensures r.Ok? ==> |r.value| == |entries| && PrefixesSent(entries, streams, r.value, 0)
    ensures r.Err? ==> SomeDeficient(entries, streams)
  {
    var prefixes: seq<Chunks> := [];
    for i := 0 to |entries|
      invariant |prefixes| == i && PrefixesSent(entries, streams, prefixes, 0) && AllUnread(entries, i)
    {
      var chunks := StreamPrefix(entries[i], streams[i]);
      if chunks.Err? {
        return Err(chunks.error);
      }
      prefixes := prefixes + [chunks.value];
    }
    return Ok(prefixes);
  }

  /** Prefix and rest of a stream are exactly its declared bytes. */
  ghost predicate Carries(b: Blob, data: seq<byte>, stream: Stream, prefix: Chunks) {
    && b.at == stream.at && b.prefix == Joined(prefix) && PayloadStream.Wire(prefix + b.chunks)
    && |b.prefix| == Smaller(stream.declared, stream.most)
    && stream.declared <= |data| && Contents(b) == data[..stream.declared]
  }

  ghost predicate AllCarried(blobs: seq<Blob>, entries: seq<PayloadStream.Entry>, streams: seq<Stream>, prefixes: seq<Chunks>)
    requires |blobs| <= |entries| == |streams| == |prefixes|
  {
    forall i :: 0 <= i < |blobs| ==> Carries(blobs[i], entries[i].data, streams[i], prefixes[i])
  }

  method StreamRest(entry: PayloadStream.Entry, stream: Stream, prefix: Chunks)
    returns (r: Result<Blob, PayloadStream.StreamError>)
    requires PrefixSent(entry, stream, prefix)
    modifies entry
    ensures r.Ok? ==> Carries(r.value, entry.data, stream, prefix)
    ensures r.Err? ==> Deficient(entry, stream)
  {
    ghost var start := entry.position;
    var prefixBytes := Smaller(stream.declared, stream.most);
    var chunks: Chunks := [];
    if prefixBytes < stream.declared {
      var sent;
      sent, chunks := PayloadStream.StreamDeferred(entry, stream.declared, prefixBytes);
      if sent.Err? {
        assert sent.error.Native? || sent.error.SizeMismatch? || sent.error.Overlong?;
        return Err(sent.error);
      }
    }
    assert Joined(chunks) == entry.data[start..stream.declared];
    return Ok(Blob(stream.at, Joined(prefix), chunks));
  }

  method StreamDeferredPayloads(entries: seq<PayloadStream.Entry>, streams: seq<Stream>, prefixes: seq<Chunks>)
    returns (r: Result<seq<Blob>, PayloadStream.StreamError>)
    requires |entries| == |streams| == |prefixes| && AllDifferent(entries) && PrefixesSent(entries, streams, prefixes, 0)
    modifies entries
    ensures r.Ok? ==> |r.value| == |entries| && AllCarried(r.value, entries, streams, prefixes)
    ensures r.Err? ==> SomeDeficient(entries, streams)
  {
    var blobs: seq<Blob> := [];
    for i := 0 to |entries|
      invariant |blobs| == i && AllCarried(blobs, entries, streams, prefixes)
      invariant PrefixesSent(entries, streams, prefixes, i)
    {
      var blob := StreamRest(entries[i], streams[i], prefixes[i]);
      if blob.Err? {
        return Err(blob.error);
      }
      blobs := blobs + [blob.value];
    }
    return Ok(blobs);
  }

  // The metadata: its data frames are the prefix chunks.

  type Piece = (PathIdentity, seq<byte>)

  /** The stream data inside a message, in wire order. */
  function Pieces(m: Metadata.Message): seq<Piece>
    decreases m, 1
  {
    PiecesOfParts(m.path, m.parts)
  }

  function PiecesOfParts(path: Path, parts: seq<Metadata.Part>): seq<Piece>
    decreases parts, 0
  {
    if parts == [] then []
    else PiecesOfParts(path, parts[..|parts| - 1]) + PiecesOfPart(path, parts[|parts| - 1])
  }

  function PiecesOfPart(path: Path, part: Metadata.Part): seq<Piece>
    decreases part, 2
  {
    match part
    case Own(Data(Some(owner), bytes)) => [(PathIdentity(path, owner), bytes)]
    case Own(_) => []
    case Child(m) => Pieces(m)
  }

  /** The bytes of one stream among these pieces. */
  function Gather(pieces: seq<Piece>, p: PathIdentity): seq<byte> {
    if pieces == [] then []
    else
      var n := |pieces| - 1;
      Gather(pieces[..n], p) + (if pieces[n].0 == p then pieces[n].1 else [])
  }

  lemma {:induction false} GatherAppend(a: seq<Piece>, b: seq<Piece>, p: PathIdentity)
    ensures Gather(a + b, p) == Gather(a, p) + Gather(b, p)
    decreases |b|
  {
    if b == [] {
      assert a + b == a;
    } else {
      var n := |b| - 1;
      assert (a + b)[..|a + b| - 1] == a + b[..n];
      GatherAppend(a, b[..n], p);
      Metadata.Regroup(Gather(a, p), Gather(b[..n], p), if b[n].0 == p then b[n].1 else []);
    }
  }

  lemma GatherOne(piece: Piece, p: PathIdentity)
    ensures Gather([piece], p) == if piece.0 == p then piece.1 else []
  {
    assert [piece][..0] == [];
  }

  lemma {:induction false} BytesArePieces(m: Metadata.Message, p: PathIdentity)
    ensures Metadata.BytesFor(m, p) == Gather(Pieces(m), p)
    decreases m, 1
  {
    BytesOfPartsArePieces(m.path, m.parts, p);
  }

  lemma {:induction false} BytesOfPartsArePieces(path: Path, parts: seq<Metadata.Part>, p: PathIdentity)
    ensures Metadata.BytesOfParts(path, parts, p) == Gather(PiecesOfParts(path, parts), p)
    decreases parts, 0
  {
    if parts != [] {
      var before, part := parts[..|parts| - 1], parts[|parts| - 1];
      BytesOfPartsArePieces(path, before, p);
      BytesOfPartArePieces(path, part, p);
      GatherAppend(PiecesOfParts(path, before), PiecesOfPart(path, part), p);
    }
  }

  lemma {:induction false} BytesOfPartArePieces(path: Path, part: Metadata.Part, p: PathIdentity)
    ensures Metadata.BytesOfPart(path, part, p) == Gather(PiecesOfPart(path, part), p)
    decreases part, 2
  {
    match part
    case Own(Data(Some(owner), bytes)) => GatherOne((PathIdentity(path, owner), bytes), p);
    case Own(_) =>
    case Child(m) => BytesArePieces(m, p);
  }

  /** The pieces the worker emits for these prefixes. */
  function Announced(streams: seq<Stream>, prefixes: seq<Chunks>): seq<Piece>
    requires |streams| == |prefixes|
  {
    if streams == [] then []
    else
      var n := |streams| - 1;
      Announced(streams[..n], prefixes[..n]) + PiecesOf(streams[n].at, prefixes[n])
  }

  function PiecesOf(at: PathIdentity, chunks: Chunks): (r: seq<Piece>)
    ensures |r| == |chunks|
  {
    seq(|chunks|, i requires 0 <= i < |chunks| => (at, chunks[i]))
  }

  lemma {:induction false} GatherChunks(at: PathIdentity, chunks: Chunks, p: PathIdentity)
    ensures Gather(PiecesOf(at, chunks), p) == if at == p then Joined(chunks) else []
    decreases |chunks|
  {
    if chunks != [] {
      var n := |chunks| - 1;
      assert chunks == chunks[..n] + [chunks[n]];
      assert PiecesOf(at, chunks)[..n] == PiecesOf(at, chunks[..n]);
      GatherChunks(at, chunks[..n], p);
      PayloadStream.JoinedAppend(chunks[..n], chunks[n]);
    }
  }

  ghost predicate DifferentStreams(streams: seq<Stream>) {
    forall i, j :: 0 <= i < j < |streams| ==> streams[i].at != streams[j].at
  }

  lemma {:induction false} GatherAnnounced(streams: seq<Stream>, prefixes: seq<Chunks>, p: PathIdentity)
    requires |streams| == |prefixes| && DifferentStreams(streams)
    ensures forall k :: 0 <= k < |streams| && streams[k].at == p ==> Gather(Announced(streams, prefixes), p) == Joined(prefixes[k])
    ensures (forall k :: 0 <= k < |streams| ==> streams[k].at != p) ==> Gather(Announced(streams, prefixes), p) == []
    decreases |streams|
  {
    if streams != [] {
      var n := |streams| - 1;
      GatherAnnounced(streams[..n], prefixes[..n], p);
      GatherChunks(streams[n].at, prefixes[n], p);
      GatherAppend(Announced(streams[..n], prefixes[..n]), PiecesOf(streams[n].at, prefixes[n]), p);
    }
  }

  /** A message whose stream data is exactly these prefixes, in order. */
  ghost predicate Announces(m: Metadata.Message, streams: seq<Stream>, prefixes: seq<Chunks>)
    requires |streams| == |prefixes|
  {
    Metadata.WellFormed(m) && Pieces(m) == Announced(streams, prefixes)
  }

  /** Collecting the metadata gives each stream the prefix that was sent for it. */
  lemma AnnouncedReaches(m: Metadata.Message, streams: seq<Stream>, prefixes: seq<Chunks>, k: nat)
    requires |streams| == |prefixes| && DifferentStreams(streams) && Announces(m, streams, prefixes) && k < |streams|
    ensures Metadata.BytesFor(m, streams[k].at) == Joined(prefixes[k])
  {
    BytesArePieces(m, streams[k].at);
    GatherAnnounced(streams, prefixes, streams[k].at);
  }

  // Every path the metadata collects under was started.

  ghost predicate KnownPaths(known: set<Path>, st: Metadata.State) {
    && (forall i :: 0 <= i < |st.paths| ==> st.paths[i] in known)
    && (forall p :: p in st.unbound ==> p.path in known)
  }

  ghost predicate StartsWithin(known: set<Path>, events: seq<Metadata.Event>) {
    forall i :: 0 <= i < |events| && events[i].Start? ==> events[i].path in known
  }

  lemma StepKnown(l: Metadata.Limits, known: set<Path>, st: Metadata.State, e: Metadata.Event)
    requires KnownPaths(known, st) && (e.Start? ==> e.path in known)
    requires Metadata.Step(l, st, e).Ok?
    ensures KnownPaths(known, Metadata.Step(l, st, e).value)
  {}

  lemma {:induction false} RunKnown(l: Metadata.Limits, known: set<Path>, st: Metadata.State, events: seq<Metadata.Event>)
    requires KnownPaths(known, st) && StartsWithin(known, events)
    requires Metadata.Run(l, st, events).Ok?
    ensures KnownPaths(known, Metadata.Run(l, st, events).value)
    decreases |events|
  {
    if events != [] {
      StepKnown(l, known, st, events[0]);
      RunKnown(l, known, Metadata.Step(l, st, events[0]).value, events[1..]);
    }
  }

  // The supervisor: durable keys for paths, identifiers for streams.

  ghost predicate KeysCover(keys: Keys, streams: seq<Stream>) {
    Metadata.Injective(keys) && forall k :: 0 <= k < |streams| ==> streams[k].at.path in keys
  }

  function StreamIdentity(keys: Keys, stream: Stream): Identity
    requires stream.at.path in keys
  {
    Identity(keys[stream.at.path], stream.at.owner)
  }

  /** The identifiers of the first `n` streams. */
  ghost function IdsOf(keys: Keys, streams: seq<Stream>, ids: seq<nat>, n: nat): Ids
    requires n <= |streams| == |ids| && KeysCover(keys, streams)
  {
    if n == 0 then map[] else IdsOf(keys, streams, ids, n - 1)[StreamIdentity(keys, streams[n - 1]) := ids[n - 1]]
  }

  lemma DifferentIdentities(keys: Keys, streams: seq<Stream>, i: nat, j: nat)
    requires KeysCover(keys, streams) && DifferentStreams(streams) && i < j < |streams|
    ensures StreamIdentity(keys, streams[i]) != StreamIdentity(keys, streams[j])
  {
    assert streams[i].at != streams[j].at;
  }

  lemma {:induction false} IdsExact(keys: Keys, streams: seq<Stream>, ids: seq<nat>, n: nat)
    requires n <= |streams| == |ids| && KeysCover(keys, streams) && DifferentStreams(streams)
    ensures forall k :: 0 <= k < n ==> Wants(IdsOf(keys, streams, ids, n), StreamIdentity(keys, streams[k]), ids[k])
    ensures forall x :: x in IdsOf(keys, streams, ids, n) ==>
      exists k :: 0 <= k < n && x == StreamIdentity(keys, streams[k])
  {
    if n > 0 {
      IdsExact(keys, streams, ids, n - 1);
      forall k | 0 <= k < n ensures Wants(IdsOf(keys, streams, ids, n), StreamIdentity(keys, streams[k]), ids[k]) {
        if k < n - 1 {
          DifferentIdentities(keys, streams, k, n - 1);
        }
      }
    }
  }

  lemma IdsDistinct(keys: Keys, streams: seq<Stream>, ids: seq<nat>)
    requires |streams| == |ids| && KeysCover(keys, streams) && DifferentStreams(streams) && AllDifferent(ids)
    ensures var all := IdsOf(keys, streams, ids, |ids|);
      forall a, b :: a in all && b in all && all[a] == all[b] ==> a == b
  {
    var all := IdsOf(keys, streams, ids, |ids|);
    IdsExact(keys, streams, ids, |ids|);
    forall a, b | a in all && b in all && all[a] == all[b] ensures a == b {
      var i :| 0 <= i < |ids| && a == StreamIdentity(keys, streams[i]);
      var j :| 0 <= j < |ids| && b == StreamIdentity(keys, streams[j]);
      assert ids[i] == ids[j];
    }
  }

  /** Registers every stream; no two of them conflict. */
  method Register(source: Source, keys: Keys, streams: seq<Stream>, ids: seq<nat>)
    requires |streams| == |ids| && KeysCover(keys, streams) && DifferentStreams(streams) && source.directIds == map[]
    modifies source`directIds
    ensures source.directIds == IdsOf(keys, streams, ids, |ids|)
  {
    for n := 0 to |ids|
      invariant source.directIds == IdsOf(keys, streams, ids, n)
    {
      NotYet(keys, streams, ids, n);
      var registered := source.RegisterStream(StreamIdentity(keys, streams[n]), ids[n]);
      assert registered.Ok?;
    }
  }

  lemma NotYet(keys: Keys, streams: seq<Stream>, ids: seq<nat>, n: nat)
    requires n < |streams| == |ids| && KeysCover(keys, streams) && DifferentStreams(streams)
    ensures StreamIdentity(keys, streams[n]) !in IdsOf(keys, streams, ids, n)
  {
    IdsExact(keys, streams, ids, n);
    forall k | 0 <= k < n ensures StreamIdentity(keys, streams[n]) != StreamIdentity(keys, streams[k]) {
      DifferentIdentities(keys, streams, k, n);
    }
  }

  /** Each stream's bound prefix is the one that was sent. */
  ghost predicate PrefixesBound(keys: Keys, bound: map<Identity, seq<byte>>, streams: seq<Stream>, prefixes: seq<Chunks>)
    requires |streams| == |prefixes| && KeysCover(keys, streams)
  {
    forall k :: 0 <= k < |streams| ==> PrefixOf(bound, StreamIdentity(keys, streams[k])) == Joined(prefixes[k])
  }

  /** A candidate's metadata on the wire. */
  datatype Announcement = Announcement(before: seq<Metadata.Event>, message: Metadata.Message, after: seq<Metadata.Event>)

  function Events(a: Announcement): seq<Metadata.Event> {
    a.before + Metadata.Wire(a.message) + a.after
  }

  /** What the sink sees of the metadata: each message in one piece, parents first. */
  ghost function Emitted(a: Announcement): seq<Metadata.Event> {
    a.before + a.after + Metadata.AllFrames(Metadata.Listed(a.message))
  }

  /** The metadata carries these prefixes, and its messages have been given keys. */
  ghost predicate Proper(a: Announcement, keys: Keys, streams: seq<Stream>, prefixes: seq<Chunks>)
    requires |streams| == |prefixes|
  {
    && Metadata.Outside(a.before) && Metadata.Outside(a.after)
    && Announces(a.message, streams, prefixes) && StartsWithin(keys.Keys, Events(a))
  }

  lemma Receivable(l: Metadata.Limits, a: Announcement, keys: Keys, streams: seq<Stream>, prefixes: seq<Chunks>)
    requires |streams| == |prefixes| && Proper(a, keys, streams, prefixes) && DifferentStreams(streams)
    requires Metadata.Room(l, Metadata.EMPTY, Metadata.Wire(a.message))
    ensures var r := Metadata.Outcome(Metadata.Run(l, Metadata.EMPTY, Events(a)));
      && r.Ok? && r.value.Collected?
      && r.value.emitted == Emitted(a)
      && (forall p :: p in r.value.unbound ==> p.path in keys)
      && (forall k :: 0 <= k < |streams| ==> Metadata.Lookup(r.value.unbound, streams[k].at) == Joined(prefixes[k]))
  {
    Metadata.CandidateDelivered(l, a.before, a.message, a.after);
    RunKnown(l, keys.Keys, Metadata.EMPTY, Events(a));
    forall k | 0 <= k < |streams| ensures Metadata.BytesFor(a.message, streams[k].at) == Joined(prefixes[k]) {
      AnnouncedReaches(a.message, streams, prefixes, k);
    }
  }

  method ReceiveMetadata(l: Metadata.Limits, a: Announcement, keys: Keys, ghost streams: seq<Stream>, ghost prefixes: seq<Chunks>)
    returns (r: Result<(seq<Metadata.Event>, map<Identity, seq<byte>>), Metadata.BufferError>)
    requires |streams| == |prefixes| && KeysCover(keys, streams) && DifferentStreams(streams)
    requires Proper(a, keys, streams, prefixes)
    ensures r.Ok? <==> Metadata.Room(l, Metadata.EMPTY, Metadata.Wire(a.message))
    ensures r.Ok? ==> r.value.0 == Emitted(a)
    ensures r.Ok? ==> PrefixesBound(keys, r.value.1, streams, prefixes)
  {
    Metadata.AcceptedWithinBudget(l, a.before, a.message, a.after);
    if Metadata.Room(l, Metadata.EMPTY, Metadata.Wire(a.message)) {
      Receivable(l, a, keys, streams, prefixes);
    }
    var collected :- Metadata.CollectMetadata(l, Events(a));
    var bound := Metadata.BindPrefixes(keys, collected.unbound);
    return Ok((collected.emitted, bound.value));
  }

  // The whole way.

  /** The requests of a reader that picks some of the streams, in order. */
  function Requests(streams: seq<Stream>, ids: seq<nat>, picks: seq<nat>): (r: seq<(nat, nat)>)
    requires |streams| == |ids| && (forall i :: 0 <= i < |picks| ==> picks[i] < |streams|)
    ensures |r| == |picks|
    ensures forall i :: 0 <= i < |picks| ==> r[i] == (ids[picks[i]], streams[picks[i]].declared)
  {
    seq(|picks|, i requires 0 <= i < |picks| => (ids[picks[i]], streams[picks[i]].declared))
  }

  predicate Ascending(picks: seq<nat>, n: nat) {
    && (forall i :: 0 <= i < |picks| ==> picks[i] < n)
    && (forall i, j :: 0 <= i < j < |picks| ==> picks[i] < picks[j])
  }

  lemma ReadyToDeliver(keys: Keys, bound: map<Identity, seq<byte>>, entries: seq<PayloadStream.Entry>, streams: seq<Stream>,
                       prefixes: seq<Chunks>, blobs: seq<Blob>, ids: seq<nat>, picks: seq<nat>)
    requires |blobs| == |entries| == |streams| == |prefixes| == |ids|
    requires KeysCover(keys, streams) && DifferentStreams(streams) && Ascending(picks, |streams|)
    requires PrefixesBound(keys, bound, streams, prefixes) && AllCarried(blobs, entries, streams, prefixes)
    ensures Bound(keys, blobs) && Distinct(keys, blobs) && PrefixesHeld(keys, bound, blobs)
    ensures InOrder(keys, IdsOf(keys, streams, ids, |ids|), blobs, Requests(streams, ids, picks), picks)
  {
    IdsExact(keys, streams, ids, |ids|);
    forall i | 0 <= i < |blobs|
      ensures blobs[i].at.path in keys && IdentityOf(keys, blobs[i]) == StreamIdentity(keys, streams[i])
      ensures PrefixOf(bound, IdentityOf(keys, blobs[i])) == blobs[i].prefix
      ensures |Contents(blobs[i])| == streams[i].declared
    {
      assert Carries(blobs[i], entries[i].data, streams[i], prefixes[i]);
    }
    forall i, j | 0 <= i < j < |blobs| ensures IdentityOf(keys, blobs[i]) != IdentityOf(keys, blobs[j]) {
      DifferentIdentities(keys, streams, i, j);
    }
  }

  /** Each picked stream arrives as its declared bytes. */
  ghost predicate Arrived(contents: seq<seq<byte>>, entries: seq<PayloadStream.Entry>, streams: seq<Stream>, picks: seq<nat>)
    requires |entries| == |streams| && Ascending(picks, |streams|)
  {
    && |contents| == |picks|
    && forall i :: 0 <= i < |picks| ==>
         streams[picks[i]].declared <= |entries[picks[i]].data|
         && contents[i] == entries[picks[i]].data[..streams[picks[i]].declared]
  }

  lemma DeliveredArrived(contents: seq<seq<byte>>, entries: seq<PayloadStream.Entry>, streams: seq<Stream>,
                         prefixes: seq<Chunks>, blobs: seq<Blob>, picks: seq<nat>)
    requires |blobs| == |entries| == |streams| == |prefixes| && Ascending(picks, |streams|)
    requires AllCarried(blobs, entries, streams, prefixes) && Delivered(contents, blobs, picks)
    ensures Arrived(contents, entries, streams, picks)
  {
    forall i | 0 <= i < |picks|
      ensures streams[picks[i]].declared <= |entries[picks[i]].data|
      ensures contents[i] == entries[picks[i]].data[..streams[picks[i]].declared]
    {
      assert Carries(blobs[picks[i]], entries[picks[i]].data, streams[picks[i]], prefixes[picks[i]]);
    }
  }

  /** A source at the start of a candidate's payload, with its bindings in place. */
  ghost predicate Placed(source: Source, keys: Keys, bound: map<Identity, seq<byte>>, ids: Ids, tokens: seq<Token>)
    reads source
  {
    source.pathKeys == keys && source.prefixes == bound && source.directIds == ids && source.Stream() == tokens
  }

  method PlaceSource(keys: Keys, bound: map<Identity, seq<byte>>, tokens: seq<Token>, streams: seq<Stream>, ids: seq<nat>)
    returns (source: Source)
    requires |streams| == |ids| && KeysCover(keys, streams) && DifferentStreams(streams) && AllDifferent(ids)
    ensures fresh(source) && Placed(source, keys, bound, IdsOf(keys, streams, ids, |ids|), tokens) && source.DistinctIds()
  {
    source := new Source(tokens);
    source.pathKeys, source.prefixes := keys, bound;
    Register(source, keys, streams, ids);
    IdsDistinct(keys, streams, ids);
  }

  /** The reader's side of the payload phase, with the prefixes the metadata brought. */
  method ReceivePayload(keys: Keys, bound: map<Identity, seq<byte>>, tokens: seq<Token>, streams: seq<Stream>, ids: seq<nat>,
                        picks: seq<nat>, ghost entries: seq<PayloadStream.Entry>, ghost prefixes: seq<Chunks>,
                        ghost blobs: seq<Blob>, ghost rest: seq<Token>)
    returns (contents: seq<seq<byte>>, source: Source)
    requires |blobs| == |entries| == |streams| == |prefixes| == |ids|
    requires KeysCover(keys, streams) && DifferentStreams(streams) && AllDifferent(ids) && Ascending(picks, |streams|)
    requires PrefixesBound(keys, bound, streams, prefixes) && AllCarried(blobs, entries, streams, prefixes)
    requires tokens == Phase(blobs, rest)
    ensures Arrived(contents, entries, streams, picks)
    ensures fresh(source) && source.Stream() == rest
  {
    source := PlaceSource(keys, bound, tokens, streams, ids);
    ReadyToDeliver(keys, bound, entries, streams, prefixes, blobs, ids, picks);
    var finished;
    contents, finished := DeliverCandidate(source, Requests(streams, ids, picks), blobs, picks, rest);
    DeliveredArrived(contents, entries, streams, prefixes, blobs, picks);
  }

  /** The worker lays out its metadata around the prefixes: whatever they are, it carries them in order. */
  ghost predicate Laid(layout: seq<Chunks> -> Announcement, keys: Keys, streams: seq<Stream>) {
    forall prefixes :: |prefixes| == |streams| ==> Proper(layout(prefixes), keys, streams, prefixes)
  }

  /**
   Direct mode from end to end. Every stream of a message tree is sent, its prefix inside the metadata and the
   rest deferred. Any streams the reader picks, in order, arrive as their declared bytes, and the input is left
   just after the candidate. It fails only for a deficient stream or metadata over the budget.
   */
  method TransferCandidate(l: Metadata.Limits, entries: seq<PayloadStream.Entry>, streams: seq<Stream>,
                           layout: seq<Chunks> -> Announcement, keys: Keys, ids: seq<nat>, picks: seq<nat>, rest: seq<Token>)
    returns (r: Result<seq<seq<byte>>, TransferError>, emitted: seq<Metadata.Event>, ghost left: seq<Token>, ghost prefixes: seq<Chunks>)
    requires |entries| == |streams| == |ids| && AllDifferent(entries) && AllUnread(entries, 0)
    requires DifferentStreams(streams) && AllDifferent(ids) && Ascending(picks, |streams|)
    requires KeysCover(keys, streams) && Laid(layout, keys, streams)
    modifies entries
    ensures r.Ok? ==> Arrived(r.value, entries, streams, picks) && left == rest
    ensures r.Ok? ==> |prefixes| == |streams| && emitted == Emitted(layout(prefixes))
    ensures r.Err? && r.error.WorkerFailed? ==> SomeDeficient(entries, streams)
    ensures r.Err? && r.error.Refused? ==>
      |prefixes| == |streams| && !Metadata.Room(l, Metadata.EMPTY, Metadata.Wire(layout(prefixes).message))
  {
    emitted, left, prefixes := [], [], [];
    var first := StreamPrefixes(entries, streams);
    if first.Err? {
      return Err(WorkerFailed(first.error)), emitted, left, prefixes;
    }
    prefixes := first.value;
    var announcement := layout(first.value);
    var second := StreamDeferredPayloads(entries, streams, first.value);
    if second.Err? {
      return Err(WorkerFailed(second.error)), emitted, left, prefixes;
    }
    var received := ReceiveMetadata(l, announcement, keys, streams, prefixes);
    if received.Err? {
      return Err(Refused(received.error)), emitted, left, prefixes;
    }
    emitted := received.value.0;
    var contents, source := ReceivePayload(keys, received.value.1, Phase(second.value, rest), streams, ids, picks,
                                           entries, prefixes, second.value, rest);
    left := source.Stream();
    return Ok(contents), emitted, left, prefixes;
  }
}

/**
 The pull side of the direct protocol: a candidate's payloads arrive once, in order, as deferred chunks.
 Streams are opened by identifier, joined with the prefix that metadata already delivered, and read to their
 end with one control frame of pushback; streams nobody asks for are discarded.
 */
module Direct {
  import opened Wrappers

  type byte = x: int | 0 <= x < 256
  type Path = seq<nat>

  datatype PropertyOwner = MessageProperty | RecipientProperty(recipient: nat) | AttachmentProperty(attachment: nat)

  datatype Owner = AttachmentData(index: nat) | Property(of: PropertyOwner, recordSet: nat, entry: nat)

  datatype PathIdentity = PathIdentity(path: Path, owner: Owner)
  datatype Identity = Identity(key: string, owner: Owner)

  /** Control frames as the payload phase sees them. */
  datatype Frame =
    | Deferred(at: PathIdentity, length: nat)
    | TopLevelStart
    | MetadataEnd
    | PayloadEnd
    | Complete
    | ParserBoundary
    | ErrorFrame
    | Hello
    | Notice

  /** The worker's output: a control frame, or one byte of the payload an earlier frame announced. */
  datatype Token = Control(frame: Frame) | Octet(value: byte)

  datatype Error = Protocol | UnexpectedEof | Unregistered | Absent | PrefixTooLong | OwnershipChanged

  type Keys = map<Path, string>
  type Ids = map<Identity, nat>

  // What the frames of an arbitrary stream mean.

  function Head(s: seq<Token>): Result<Frame, Error> {
    if s == [] then Err(UnexpectedEof)
    else if s[0].Control? then Ok(s[0].frame)
    else Err(Protocol)
  }

  /** The stream a frame's payload belongs to, if it has a payload. */
  function DataIdentity(keys: Keys, f: Frame): Result<Option<Identity>, Error> {
    match f
    case Deferred(at, _) =>
      if at.path in keys then Ok(Some(Identity(keys[at.path], at.owner))) else Err(Protocol)
    case _ => Ok(None)
  }

  /** What is left after these many payload bytes. */
  function Skip(s: seq<Token>, n: nat): Result<seq<Token>, Error> {
    if n == 0 then Ok(s)
    else if s == [] then Err(UnexpectedEof)
    else if s[0].Octet? then Skip(s[1..], n - 1)
    else Err(Protocol)
  }

  lemma {:induction false} SkipShortens(s: seq<Token>, n: nat)
    ensures Skip(s, n).Ok? ==> |Skip(s, n).value| + n == |s|
  {
    if n > 0 && s != [] {
      SkipShortens(s[1..], n - 1);
    }
  }

  /** Consumes one frame nobody reads, with its payload. */
  function Consume(f: Frame, s: seq<Token>): Result<seq<Token>, Error> {
    match f
    case Deferred(_, length) => Skip(s, length)
    case Complete => Ok(s)
    case Notice => Ok(s)
    case _ => Err(Protocol)
  }

  lemma ConsumeShortens(f: Frame, s: seq<Token>)
    ensures Consume(f, s).Ok? ==> |Consume(f, s).value| <= |s|
  {
    if f.Deferred? {
      SkipShortens(s, f.length);
    }
  }

  predicate Boundary(f: Frame) {
    f.TopLevelStart? || f.PayloadEnd? || f.Complete? || f.ParserBoundary?
  }

  /** A stream found: its identity, the length of its first chunk, and the tokens from that chunk on. */
  datatype Found = Found(identity: Identity, length: nat, rest: seq<Token>)

  /** The first data frame of the stream with this identifier. */
  function Seek(keys: Keys, ids: Ids, id: nat, s: seq<Token>): Result<Found, Error>
    decreases |s|
  {
    match Head(s)
    case Err(e) => Err(e)
    case Ok(f) =>
      if Boundary(f) then Err(Absent)
      else
        match DataIdentity(keys, f)
        case Err(e) => Err(e)
        case Ok(identity) =>
          if identity.Some? && identity.value in ids && ids[identity.value] == id then
            Ok(Found(identity.value, f.length, s[1..]))
          else
            match Consume(f, s[1..])
            case Err(e) => Err(e)
            case Ok(rest) => ConsumeShortens(f, s[1..]); Seek(keys, ids, id, rest)
  }

  /** The bytes of a stream up to the first frame that is not its own, and the tokens from that frame on. */
  datatype Drained = Drained(bytes: seq<byte>, rest: seq<Token>) | Broken

  function Before(prefix: seq<byte>, d: Drained): Drained {
    if d.Drained? then Drained(prefix + d.bytes, d.rest) else Broken
  }

  function Drain(keys: Keys, identity: Identity, remaining: nat, s: seq<Token>): Drained
    decreases |s|
  {
    if remaining > 0 then
      if s != [] && s[0].Octet? then Before([s[0].value], Drain(keys, identity, remaining - 1, s[1..])) else Broken
    else
      match Head(s)
      case Err(_) => Broken
      case Ok(f) =>
        match DataIdentity(keys, f)
        case Err(_) => Broken
        case Ok(found) =>
          if found == Some(identity) then Drain(keys, identity, f.length, s[1..]) else Drained([], s)
  }

  lemma BeforeTwice(a: seq<byte>, b: seq<byte>, d: Drained)
    ensures Before(a, Before(b, d)) == Before(a + b, d)
  {
    if d.Drained? {
      assert a + (b + d.bytes) == (a + b) + d.bytes;
    }
  }

  lemma BeforeNothing(d: Drained)
    ensures Before([], d) == d
  {
    if d.Drained? {
      assert [] + d.bytes == d.bytes;
    }
  }

  function Octets(bytes: seq<byte>): (r: seq<Token>)
    ensures |r| == |bytes|
    ensures forall i :: 0 <= i < |bytes| ==> r[i] == Octet(bytes[i])
  {
    seq(|bytes|, i requires 0 <= i < |bytes| => Octet(bytes[i]))
  }

  /** Payload bytes taken off the front are the first bytes of what drains. */
  lemma {:induction false} DrainBytes(keys: Keys, identity: Identity, remaining: nat, bytes: seq<byte>, s: seq<Token>)
    requires |bytes| <= remaining
    ensures Drain(keys, identity, remaining, Octets(bytes) + s)
         == Before(bytes, Drain(keys, identity, remaining - |bytes|, s))
  {
    if bytes == [] {
      assert Octets(bytes) + s == s;
      BeforeNothing(Drain(keys, identity, remaining, s));
    } else {
      assert (Octets(bytes) + s)[1..] == Octets(bytes[1..]) + s;
      DrainBytes(keys, identity, remaining - 1, bytes[1..], s);
      BeforeTwice([bytes[0]], bytes[1..], Drain(keys, identity, remaining - |bytes|, s));
      assert [bytes[0]] + bytes[1..] == bytes;
    }
  }

  lemma {:induction false} SkipBytes(bytes: seq<byte>, s: seq<Token>)
    ensures Skip(Octets(bytes) + s, |bytes|) == Ok(s)
  {
    if bytes == [] {
      assert Octets(bytes) + s == s;
    } else {
      assert (Octets(bytes) + s)[1..] == Octets(bytes[1..]) + s;
      SkipBytes(bytes[1..], s);
    }
  }

  /** Drops everything up to and including the end of the candidate's payload. */
  function AfterPayload(s: seq<Token>): Result<seq<Token>, Error>
    decreases |s|
  {
    match Head(s)
    case Err(e) => Err(e)
    case Ok(f) =>
      if f.PayloadEnd? then Ok(s[1..])
      else
        match Consume(f, s[1..])
        case Err(e) => Err(e)
        case Ok(rest) => ConsumeShortens(f, s[1..]); AfterPayload(rest)
  }

  // The reader side: a source with one frame of pushback.

  class Source {
    var input: seq<Token>
    var pending: Option<Frame>
    var directIds: Ids
    var prefixes: map<Identity, seq<byte>>
    var pathKeys: Keys

    constructor (tokens: seq<Token>)
      ensures Stream() == tokens && directIds == map[] && prefixes == map[] && pathKeys == map[]
    {
      input, pending, directIds, prefixes, pathKeys := tokens, None, map[], map[], map[];
    }

    /** What is still to be read, the frame pushed back included. */
    ghost function Stream(): seq<Token>
      reads this
    {
      if pending.Some? then [Control(pending.value)] + input else input
    }

    method NextControl() returns (r: Result<Frame, Error>)
      modifies this`input, this`pending
      ensures r == Head(old(Stream()))
      ensures r.Ok? ==> pending.None? && input == old(Stream())[1..]
      ensures r.Err? ==> Stream() == old(Stream())
    {
      if pending.Some? {
        r := Ok(pending.value);
        pending := None;
      } else if input == [] {
        r := Err(UnexpectedEof);
      } else if input[0].Octet? {
        r := Err(Protocol);
      } else {
        r := Ok(input[0].frame);
        input := input[1..];
      }
    }

    method DiscardPayload(length: nat) returns (r: Result<(), Error>)
      requires pending.None?
      modifies this`input
      ensures r.Ok? <==> Skip(old(input), length).Ok?
      ensures r.Ok? ==> input == Skip(old(input), length).value
      ensures r.Err? ==> r.error == Skip(old(input), length).error
    {
      var remaining := length;
      while remaining != 0
        invariant Skip(input, remaining) == Skip(old(input), length)
      {
        if input == [] {
          return Err(UnexpectedEof);
        }
        if !input[0].Octet? {
          return Err(Protocol);
        }
        input := input[1..];
        remaining := remaining - 1;
      }
      return Ok(());
    }

    /** Reads some of the bytes available, at least one if there is any. */
    method ReadSome(requested: nat) returns (bytes: seq<byte>)
      requires pending.None?
      modifies this`input
      ensures old(input) == Octets(bytes) + input && |bytes| <= requested
      ensures bytes == [] && requested > 0 ==> input == [] || input[0].Control?
    {
      bytes := [];
      while |bytes| < requested && input != [] && input[0].Octet?
        invariant old(input) == Octets(bytes) + input && |bytes| <= requested
        decreases |input|
      {
        assert Octets(bytes + [input[0].value]) == Octets(bytes) + [input[0]];
        bytes := bytes + [input[0].value];
        input := input[1..];
        if * {
          return;
        }
      }
    }

    /** Consumes a frame nobody reads. */
    method ConsumeControl(frame: Frame) returns (r: Result<(), Error>)
      requires pending.None?
      modifies this`input
      ensures r.Ok? <==> Consume(frame, old(input)).Ok?
      ensures r.Ok? ==> input == Consume(frame, old(input)).value
      ensures r.Err? ==> r.error == Consume(frame, old(input)).error
    {
      match frame
      case Deferred(_, length) => r := DiscardPayload(length);
      case Complete => return Ok(());
      case Notice => return Ok(());
      case _ => return Err(Protocol);
    }

    /** Drops the rest of the candidate's payload and forgets its bindings. */
    method FinishTopLevel() returns (r: Result<(), Error>)
      modifies this
      ensures r.Ok? <==> AfterPayload(old(Stream())).Ok?
      ensures r.Ok? ==> Stream() == AfterPayload(old(Stream())).value
      ensures r.Ok? ==> directIds == map[] && prefixes == map[] && pathKeys == map[]
      ensures r.Err? ==> r.error == AfterPayload(old(Stream())).error
    {
      var frame :- NextControl();
      while !frame.PayloadEnd?
        invariant pending.None?
        invariant AfterPayload([Control(frame)] + input) == AfterPayload(old(Stream()))
        decreases |input|
      {
        assert ([Control(frame)] + input)[1..] == input;
        ConsumeShortens(frame, input);
        var _ :- ConsumeControl(frame);
        ghost var rest := input;
        frame :- NextControl();
        assert [Control(frame)] + input == rest;
      }
      assert ([Control(frame)] + input)[1..] == input;
      directIds, prefixes, pathKeys := map[], map[], map[];
      return Ok(());
    }

    /** Registers a stream; a second identifier for the same stream is refused, but replaces the first. */
    method RegisterStream(identity: Identity, id: nat) returns (r: Result<(), Error>)
      modifies this`directIds
      ensures directIds == old(directIds)[identity := id]
      ensures r.Err? <==> identity in old(directIds) && old(directIds)[identity] != id
    {
      r := if identity in directIds && directIds[identity] != id then Err(Protocol) else Ok(());
      directIds := directIds[identity := id];
    }

    ghost predicate DistinctIds()
      reads this
    {
      forall a, b :: a in directIds && b in directIds && directIds[a] == directIds[b] ==> a == b
    }

    /**
     Opens the stream with this identifier: its prefix alone when the prefix is all of it, otherwise a reader
     placed at its first data frame.
     */
    method OpenBlob(id: nat, byteLength: nat, ghost want: Identity) returns (r: Result<Opened, Error>)
      requires DistinctIds() && want in directIds && directIds[want] == id
      modifies this
      ensures pathKeys == old(pathKeys) && directIds == old(directIds)
      ensures prefixes == old(prefixes) - {want}
      ensures r.Ok? && r.value.Whole? ==> r.value.bytes == PrefixOf(old(prefixes), want) && Stream() == old(Stream())
      ensures r.Ok? && r.value.Part? ==> fresh(r.value.reader) && pending.None? && r.value.reader.source == this
      ensures r.Ok? && r.value.Part? ==> r.value.reader.prefix == PrefixOf(old(prefixes), want)
      ensures r.Ok? && r.value.Part? ==> r.value.reader.blobRemaining == byteLength && !r.value.reader.finished
      ensures (var prefix := PrefixOf(old(prefixes), want); var found := Seek(pathKeys, directIds, id, old(Stream()));
               match r
               case Ok(Whole(_)) => |prefix| == byteLength
               case Ok(Part(reader)) => |prefix| < byteLength && found == Ok(Found(reader.identity, reader.remaining, input))
               case Err(e) => if |prefix| > byteLength then e == PrefixTooLong
                              else |prefix| < byteLength && found == Err(e))
    {
      var requested :| requested in directIds && directIds[requested] == id;
      assert requested == want;
      var prefix := PrefixOf(prefixes, requested);
      prefixes := prefixes - {requested};
      if |prefix| > byteLength {
        return Err(PrefixTooLong);
      }
      if |prefix| == byteLength {
        return Ok(Whole(prefix));
      }
      var length, identity := Locate(id);
      if length.Err? {
        return Err(length.error);
      }
      var reader := new Reader(this, identity, prefix, byteLength, length.value);
      return Ok(Part(reader));
    }

    /** Discards frames up to the first one that belongs to this identifier. */
    method Locate(id: nat) returns (length: Result<nat, Error>, identity: Identity)
      modifies this`input, this`pending
      ensures length.Ok? ==>
        pending.None? && Seek(pathKeys, directIds, id, old(Stream())) == Ok(Found(identity, length.value, input))
      ensures length.Err? ==> Seek(pathKeys, directIds, id, old(Stream())) == Err(length.error)
    {
      identity := Identity("", AttachmentData(0));
      ghost var sought := Seek(pathKeys, directIds, id, Stream());
      while true
        invariant Seek(pathKeys, directIds, id, Stream()) == sought
        decreases |Stream()|
      {
        ghost var before := Stream();
        var next := NextControl();
        if next.Err? {
          return Err(next.error), identity;
        }
        var frame := next.value;
        if Boundary(frame) {
          return Err(Absent), identity;
        }
        var found := DataIdentity(pathKeys, frame);
        if found.Err? {
          return Err(found.error), identity;
        }
        if found.value.Some? && found.value.value in directIds && directIds[found.value.value] == id {
          return Ok(frame.length), found.value.value;
        }
        ConsumeShortens(frame, input);
        var consumed := ConsumeControl(frame);
        if consumed.Err? {
          return Err(consumed.error), identity;
        }
      }
    }
  }

  function PrefixOf(prefixes: map<Identity, seq<byte>>, identity: Identity): seq<byte> {
    if identity in prefixes then prefixes[identity] else []
  }

  datatype Opened = Whole(bytes: seq<byte>) | Part(reader: Reader)

  class Reader {
    const source: Source
    const identity: Identity
    var prefix: seq<byte>
    var blobRemaining: nat
    var remaining: nat
    var finished: bool

    constructor (from: Source, stream: Identity, head: seq<byte>, byteLength: nat, firstChunk: nat)
      ensures source == from && identity == stream && prefix == head && blobRemaining == byteLength
      ensures remaining == firstChunk && !finished
    {
      source, identity, prefix, blobRemaining, remaining, finished := from, stream, head, byteLength, firstChunk, false;
    }

    /** What the reader has still to deliver. */
    ghost function Left(): Drained
      reads this, source
    {
      Before(prefix, Drain(source.pathKeys, identity, remaining, source.input))
    }

    /**
     One read into a buffer of `size` bytes. A short read is allowed; an empty one means the stream's end.
     */
    method Read(size: nat) returns (r: Result<seq<byte>, Error>)
      requires source.pending.None? && !finished && size > 0
      modifies this, source`input, source`pending
      ensures r.Ok? ==> |r.value| <= size && blobRemaining == Saturating(old(blobRemaining), |r.value|)
      ensures r.Ok? && r.value != [] ==> source.pending.None? && !finished && Before(r.value, Left()) == old(Left())
      ensures r.Ok? && r.value == [] ==>
        finished && old(Left()) == Drained([], source.Stream()) && old(blobRemaining) == 0
      ensures r.Ok? && r.value != [] ==> |prefix| + |source.input| < old(|prefix| + |source.input|)
      ensures r.Err? ==>
        old(Left()).Broken? || (old(Left()).Drained? && old(Left()).bytes == [] && old(blobRemaining) > 0)
      decreases |source.input|
    {
      if prefix != [] {
        var n: nat :| 1 <= n <= |prefix| && n <= size;
        BeforeTwice(prefix[..n], prefix[n..], Drain(source.pathKeys, identity, remaining, source.input));
        assert prefix[..n] + prefix[n..] == prefix;
        r := Ok(prefix[..n]);
        prefix := prefix[n..];
        blobRemaining := Saturating(blobRemaining, n);
        return;
      }
      BeforeNothing(Drain(source.pathKeys, identity, remaining, source.input));
      if remaining != 0 {
        var bytes := source.ReadSome(Smaller(size, remaining));
        if bytes == [] {
          return Err(UnexpectedEof);
        }
        DrainBytes(source.pathKeys, identity, remaining, bytes, source.input);
        remaining := remaining - |bytes|;
        blobRemaining := Saturating(blobRemaining, |bytes|);
        BeforeNothing(Drain(source.pathKeys, identity, remaining, source.input));
        return Ok(bytes);
      }
      ghost var before := source.input;
      var frame :- source.NextControl();
      assert before == [Control(frame)] + source.input;
      var found :- DataIdentity(source.pathKeys, frame);
      if found == Some(identity) {
        remaining := frame.length;
        r := Read(size);
        return;
      }
      if blobRemaining != 0 {
        return Err(OwnershipChanged);
      }
      source.pending := Some(frame);
      finished := true;
      return Ok([]);
    }

    /** Reads to the end with buffers of any size. */
    method ReadToEnd() returns (r: Result<seq<byte>, Error>)
      requires source.pending.None? && !finished
      modifies this, source`input, source`pending
      ensures r.Ok? <==> old(Left()).Drained? && old(blobRemaining) <= |old(Left()).bytes|
      ensures r.Ok? ==> old(Left()) == Drained(r.value, source.Stream())
    {
      var bytes: seq<byte> := [];
      ghost var all := Left();
      BeforeNothing(all);
      while true
        invariant source.pending.None? && !finished
        invariant Before(bytes, Left()) == all
        invariant blobRemaining == Saturating(old(blobRemaining), |bytes|)
        decreases |prefix| + |source.input|
      {
        var size: nat :| size > 0;
        var more := Read(size);
        if more.Err? {
          return more;
        }
        if more.value == [] {
          return Ok(bytes);
        }
        BeforeTwice(bytes, more.value, Left());
        bytes := bytes + more.value;
      }
    }
  }

  function Saturating(a: nat, b: nat): nat {
    if b <= a then a - b else 0
  }

  function Smaller(a: nat, b: nat): nat {
    if a <= b then a else b
  }

  // A candidate's payload as the worker writes it.

  /** One stream of a candidate: what metadata already carried, and the deferred chunks. */
  datatype Blob = Blob(at: PathIdentity, prefix: seq<byte>, chunks: seq<seq<byte>>)

  function Joined(chunks: seq<seq<byte>>): seq<byte> {
    if chunks == [] then [] else chunks[0] + Joined(chunks[1..])
  }

  function Contents(b: Blob): seq<byte> {
    b.prefix + Joined(b.chunks)
  }

  function ChunkTokens(at: PathIdentity, chunks: seq<seq<byte>>): seq<Token> {
    if chunks == [] then []
    else [Control(Deferred(at, |chunks[0]|))] + Octets(chunks[0]) + ChunkTokens(at, chunks[1..])
  }

  function PayloadTokens(blobs: seq<Blob>): seq<Token> {
    if blobs == [] then [] else ChunkTokens(blobs[0].at, blobs[0].chunks) + PayloadTokens(blobs[1..])
  }

  /** The payload phase from some blob on, and what follows the candidate. */
  function Phase(blobs: seq<Blob>, rest: seq<Token>): seq<Token> {
    PayloadTokens(blobs) + [Control(PayloadEnd)] + rest
  }

  predicate Bound(keys: Keys, blobs: seq<Blob>) {
    forall i :: 0 <= i < |blobs| ==> blobs[i].at.path in keys
  }

  function IdentityOf(keys: Keys, b: Blob): Identity
    requires b.at.path in keys
  {
    Identity(keys[b.at.path], b.at.owner)
  }

  /** No stream occurs twice in a candidate. */
  ghost predicate Distinct(keys: Keys, blobs: seq<Blob>)
    requires Bound(keys, blobs)
  {
    forall i, j :: 0 <= i < j < |blobs| ==> IdentityOf(keys, blobs[i]) != IdentityOf(keys, blobs[j])
  }

  /** A stream that begins with a frame of some other identity. */
  predicate Elsewhere(keys: Keys, identity: Identity, s: seq<Token>) {
    Head(s).Ok? && DataIdentity(keys, Head(s).value).Ok? && DataIdentity(keys, Head(s).value).value != Some(identity)
  }

  lemma {:induction false} PhaseElsewhere(keys: Keys, identity: Identity, blobs: seq<Blob>, rest: seq<Token>)
    requires Bound(keys, blobs)
    requires forall i :: 0 <= i < |blobs| ==> IdentityOf(keys, blobs[i]) != identity
    ensures Elsewhere(keys, identity, Phase(blobs, rest))
  {
    if blobs == [] {
      assert Phase(blobs, rest)[0] == Control(PayloadEnd);
    } else if blobs[0].chunks == [] {
      assert PayloadTokens(blobs) == PayloadTokens(blobs[1..]);
      PhaseElsewhere(keys, identity, blobs[1..], rest);
    } else {
      assert Phase(blobs, rest)[0] == Control(Deferred(blobs[0].at, |blobs[0].chunks[0]|));
      assert IdentityOf(keys, blobs[0]) != identity;
    }
  }

  /** From inside a chunk, exactly the rest of the stream drains, up to the next stream. */
  lemma {:induction false} DrainChunks(keys: Keys, at: PathIdentity, part: seq<byte>, chunks: seq<seq<byte>>, s: seq<Token>)
    requires at.path in keys && Elsewhere(keys, Identity(keys[at.path], at.owner), s)
    ensures Drain(keys, Identity(keys[at.path], at.owner), |part|, Octets(part) + (ChunkTokens(at, chunks) + s))
         == Drained(part + Joined(chunks), s)
    decreases |chunks|
  {
    var identity := Identity(keys[at.path], at.owner);
    var after := ChunkTokens(at, chunks) + s;
    DrainBytes(keys, identity, |part|, part, after);
    if chunks == [] {
      assert after == s;
    } else {
      assert after[0] == Control(Deferred(at, |chunks[0]|));
      assert after[1..] == Octets(chunks[0]) + (ChunkTokens(at, chunks[1..]) + s);
      DrainChunks(keys, at, chunks[0], chunks[1..], s);
    }
  }

  /** Chunks of a stream that is not wanted are skipped by the search. */
  lemma {:induction false} SeekPastChunks(keys: Keys, ids: Ids, id: nat, at: PathIdentity, chunks: seq<seq<byte>>, s: seq<Token>)
    requires at.path in keys
    requires var i := Identity(keys[at.path], at.owner); i in ids ==> ids[i] != id
    ensures Seek(keys, ids, id, ChunkTokens(at, chunks) + s) == Seek(keys, ids, id, s)
  {
    if chunks == [] {
      assert ChunkTokens(at, chunks) + s == s;
    } else {
      var after := ChunkTokens(at, chunks) + s;
      assert after[1..] == Octets(chunks[0]) + (ChunkTokens(at, chunks[1..]) + s);
      SkipBytes(chunks[0], ChunkTokens(at, chunks[1..]) + s);
      SeekPastChunks(keys, ids, id, at, chunks[1..], s);
    }
  }

  lemma {:induction false} EndPastChunks(at: PathIdentity, chunks: seq<seq<byte>>, s: seq<Token>)
    ensures AfterPayload(ChunkTokens(at, chunks) + s) == AfterPayload(s)
  {
    if chunks == [] {
      assert ChunkTokens(at, chunks) + s == s;
    } else {
      var after := ChunkTokens(at, chunks) + s;
      assert after[1..] == Octets(chunks[0]) + (ChunkTokens(at, chunks[1..]) + s);
      SkipBytes(chunks[0], ChunkTokens(at, chunks[1..]) + s);
      EndPastChunks(at, chunks[1..], s);
    }
  }

  /** Finishing a candidate leaves the input just after its payload end, however much was left unread. */
  lemma {:induction false} FinishLeavesRest(blobs: seq<Blob>, rest: seq<Token>)
    ensures AfterPayload(Phase(blobs, rest)) == Ok(rest)
  {
    if blobs == [] {
      assert Phase(blobs, rest) == [Control(PayloadEnd)] + rest;
    } else {
      assert Phase(blobs, rest) == ChunkTokens(blobs[0].at, blobs[0].chunks) + Phase(blobs[1..], rest);
      EndPastChunks(blobs[0].at, blobs[0].chunks, Phase(blobs[1..], rest));
      FinishLeavesRest(blobs[1..], rest);
    }
  }

  predicate Wants(ids: Ids, identity: Identity, id: nat) {
    identity in ids && ids[identity] == id
  }

  /** The search for a deferred stream finds its first chunk; draining from there gives all its deferred bytes. */
  lemma {:induction false} SeekFindsBlob(keys: Keys, ids: Ids, id: nat, blobs: seq<Blob>, k: nat, rest: seq<Token>)
    requires Bound(keys, blobs) && Distinct(keys, blobs) && k < |blobs| && blobs[k].chunks != []
    requires forall i :: 0 <= i < |blobs| ==> (Wants(ids, IdentityOf(keys, blobs[i]), id) <==> i == k)
    ensures Seek(keys, ids, id, Phase(blobs, rest)).Ok?
    ensures var found := Seek(keys, ids, id, Phase(blobs, rest)).value;
      && found.identity == IdentityOf(keys, blobs[k])
      && Drain(keys, found.identity, found.length, found.rest)
         == Drained(Joined(blobs[k].chunks), Phase(blobs[k + 1..], rest))
  {
    var at, chunks, s := blobs[0].at, blobs[0].chunks, Phase(blobs[1..], rest);
    assert Phase(blobs, rest) == ChunkTokens(at, chunks) + s;
    assert Wants(ids, IdentityOf(keys, blobs[0]), id) <==> 0 == k;
    if k == 0 {
      assert Phase(blobs, rest)[1..] == Octets(chunks[0]) + (ChunkTokens(at, chunks[1..]) + s);
      PhaseElsewhere(keys, IdentityOf(keys, blobs[0]), blobs[1..], rest);
      DrainChunks(keys, at, chunks[0], chunks[1..], s);
    } else {
      SeekPastChunks(keys, ids, id, at, chunks, s);
      assert forall i :: 0 <= i < |blobs[1..]| ==> blobs[1..][i] == blobs[i + 1];
      SeekFindsBlob(keys, ids, id, blobs[1..], k - 1, rest);
      assert blobs[1..][k..] == blobs[k + 1..];
    }
  }

  /** The prefixes not yet handed out are those metadata carried. */
  ghost predicate PrefixesHeld(keys: Keys, prefixes: map<Identity, seq<byte>>, blobs: seq<Blob>)
    requires Bound(keys, blobs)
  {
    forall i :: 0 <= i < |blobs| ==> PrefixOf(prefixes, IdentityOf(keys, blobs[i])) == blobs[i].prefix
  }

  /** A request names a stream by its identifier and its full length. */
  predicate Asks(keys: Keys, ids: Ids, b: Blob, request: (nat, nat))
    requires b.at.path in keys
  {
    Wants(ids, IdentityOf(keys, b), request.0) && request.1 == |Contents(b)|
  }

  /** Opens one stream and reads it to its end. */
  method ReadBlob(source: Source, id: nat, byteLength: nat, ghost want: Identity) returns (r: Result<seq<byte>, Error>)
    requires source.DistinctIds() && Wants(source.directIds, want, id)
    modifies source
    ensures source.pathKeys == old(source.pathKeys) && source.directIds == old(source.directIds)
    ensures source.prefixes == old(source.prefixes) - {want}
    ensures Joins(PrefixOf(old(source.prefixes), want), byteLength,
                  Seek(old(source.pathKeys), old(source.directIds), id, old(source.Stream())), old(source.pathKeys),
                  old(source.Stream()), r, source.Stream())
  {
    var stream := source.OpenBlob(id, byteLength, want);
    match stream {
      case Err(e) => return Err(e);
      case Ok(Whole(bytes)) => return Ok(bytes);
      case Ok(Part(reader)) =>
        r := reader.ReadToEnd();
    }
  }

  /**
   What opening and reading a stream gives, whatever the input holds: the prefix alone when it is all of the
   stream; otherwise prefix and payload joined, provided the payload is well formed and long enough.
   */
  ghost predicate Joins(prefix: seq<byte>, byteLength: nat, found: Result<Found, Error>, keys: Keys,
                        before: seq<Token>, r: Result<seq<byte>, Error>, after: seq<Token>)
  {
    if |prefix| > byteLength then r == Err(PrefixTooLong)
    else if |prefix| == byteLength then r == Ok(prefix) && after == before
    else if found.Err? then r == Err(found.error)
    else
      var d := Drain(keys, found.value.identity, found.value.length, found.value.rest);
      && (r.Ok? <==> d.Drained? && byteLength <= |prefix| + |d.bytes|)
      && (r.Ok? ==> r.value == prefix + d.bytes && after == d.rest)
  }

  /** Opening any stream still ahead returns exactly its bytes and leaves the later streams to be read. */
  method FetchBlob(source: Source, id: nat, byteLength: nat, ghost blobs: seq<Blob>, ghost k: nat, ghost rest: seq<Token>)
    returns (r: Result<seq<byte>, Error>, ghost passed: nat)
    requires source.DistinctIds() && Bound(source.pathKeys, blobs) && Distinct(source.pathKeys, blobs)
    requires k < |blobs| && Asks(source.pathKeys, source.directIds, blobs[k], (id, byteLength))
    requires PrefixOf(source.prefixes, IdentityOf(source.pathKeys, blobs[k])) == blobs[k].prefix
    requires source.Stream() == Phase(blobs, rest)
    modifies source
    ensures source.pathKeys == old(source.pathKeys) && source.directIds == old(source.directIds)
    ensures source.prefixes == old(source.prefixes) - {IdentityOf(source.pathKeys, blobs[k])}
    ensures r == Ok(Contents(blobs[k]))
    ensures passed <= k + 1 && source.Stream() == Phase(blobs[passed..], rest)
  {
    ghost var want := IdentityOf(source.pathKeys, blobs[k]);
    passed := 0;
    assert blobs[0..] == blobs;
    if Joined(blobs[k].chunks) != [] {
      OnlyWanted(source.pathKeys, source.directIds, id, blobs, k);
      SeekFindsBlob(source.pathKeys, source.directIds, id, blobs, k, rest);
      passed := k + 1;
    } else {
      assert Contents(blobs[k]) == blobs[k].prefix;
    }
    r := ReadBlob(source, id, byteLength, want);
  }

  lemma OnlyWanted(keys: Keys, ids: Ids, id: nat, blobs: seq<Blob>, k: nat)
    requires Bound(keys, blobs) && Distinct(keys, blobs) && k < |blobs|
    requires Wants(ids, IdentityOf(keys, blobs[k]), id)
    requires forall a, b :: a in ids && b in ids && ids[a] == ids[b] ==> a == b
    ensures forall i :: 0 <= i < |blobs| ==> (Wants(ids, IdentityOf(keys, blobs[i]), id) <==> i == k)
  {
    forall i | 0 <= i < |blobs| && Wants(ids, IdentityOf(keys, blobs[i]), id) ensures i == k {
      assert IdentityOf(keys, blobs[i]) == IdentityOf(keys, blobs[k]);
    }
  }

  /** The requests name streams of the candidate in the order the worker sends them, each at most once. */
  ghost predicate InOrder(keys: Keys, ids: Ids, blobs: seq<Blob>, requests: seq<(nat, nat)>, picks: seq<nat>)
    requires Bound(keys, blobs)
  {
    && |picks| == |requests|
    && (forall i :: 0 <= i < |picks| ==> picks[i] < |blobs| && Asks(keys, ids, blobs[picks[i]], requests[i]))
    && (forall i, j :: 0 <= i < j < |picks| ==> picks[i] < picks[j])
  }

  /** After n requests the streams not yet passed have their prefixes, and no later pick has been passed. */
  ghost predicate Ahead(keys: Keys, prefixes: map<Identity, seq<byte>>, blobs: seq<Blob>, picks: seq<nat>, n: nat, from: nat)
    requires Bound(keys, blobs)
  {
    && (forall m :: n <= m < |picks| && picks[m] < |blobs| ==>
          PrefixOf(prefixes, IdentityOf(keys, blobs[picks[m]])) == blobs[picks[m]].prefix)
    && (forall m :: n <= m < |picks| ==> from <= picks[m])
  }

  lemma AheadNext(keys: Keys, ids: Ids, prefixes: map<Identity, seq<byte>>, blobs: seq<Blob>, requests: seq<(nat, nat)>,
                  picks: seq<nat>, n: nat, from: nat, from': nat)
    requires Bound(keys, blobs) && Distinct(keys, blobs) && InOrder(keys, ids, blobs, requests, picks)
    requires n < |picks| && Ahead(keys, prefixes, blobs, picks, n, from) && from' <= picks[n] + 1
    ensures Ahead(keys, prefixes - {IdentityOf(keys, blobs[picks[n]])}, blobs, picks, n + 1, from')
  {
    forall m | n + 1 <= m < |picks| && picks[m] < |blobs|
      ensures PrefixOf(prefixes - {IdentityOf(keys, blobs[picks[n]])}, IdentityOf(keys, blobs[picks[m]])) == blobs[picks[m]].prefix
    {
      assert picks[n] < picks[m];
      assert IdentityOf(keys, blobs[picks[n]]) != IdentityOf(keys, blobs[picks[m]]);
    }
  }

  lemma DistinctFrom(keys: Keys, blobs: seq<Blob>, from: nat)
    requires Bound(keys, blobs) && Distinct(keys, blobs) && from <= |blobs|
    ensures Bound(keys, blobs[from..]) && Distinct(keys, blobs[from..])
  {}

  /** Each pick's bytes, in order. */
  ghost predicate Delivered(contents: seq<seq<byte>>, blobs: seq<Blob>, picks: seq<nat>) {
    && |contents| == |picks|
    && forall i :: 0 <= i < |picks| ==> picks[i] < |blobs| && contents[i] == Contents(blobs[picks[i]])
  }

  lemma DeliveredNext(contents: seq<seq<byte>>, blobs: seq<Blob>, picks: seq<nat>, n: nat, bytes: seq<byte>)
    requires n < |picks| && picks[n] < |blobs| && Delivered(contents, blobs, picks[..n])
    requires bytes == Contents(blobs[picks[n]])
    ensures Delivered(contents + [bytes], blobs, picks[..n + 1])
  {}

  lemma DropTwice<T>(s: seq<T>, a: nat, b: nat)
    requires a + b <= |s|
    ensures s[a..][b..] == s[a + b..]
  {}

  method DeliverNext(source: Source, requests: seq<(nat, nat)>, n: nat, ghost blobs: seq<Blob>, ghost picks: seq<nat>,
                     ghost rest: seq<Token>, ghost from: nat)
    returns (bytes: seq<byte>, ghost from': nat)
    requires source.DistinctIds() && Bound(source.pathKeys, blobs) && Distinct(source.pathKeys, blobs)
    requires InOrder(source.pathKeys, source.directIds, blobs, requests, picks) && n < |requests|
    requires Ahead(source.pathKeys, source.prefixes, blobs, picks, n, from)
    requires from <= |blobs| && source.Stream() == Phase(blobs[from..], rest)
    modifies source
    ensures source.pathKeys == old(source.pathKeys) && source.directIds == old(source.directIds)
    ensures from' <= |blobs| && source.Stream() == Phase(blobs[from'..], rest)
    ensures Ahead(source.pathKeys, source.prefixes, blobs, picks, n + 1, from')
    ensures bytes == Contents(blobs[picks[n]])
  {
    ghost var pick, prefixes := picks[n], source.prefixes;
    DistinctFrom(source.pathKeys, blobs, from);
    assert blobs[from..][pick - from] == blobs[pick];
    var fetched, passed := FetchBlob(source, requests[n].0, requests[n].1, blobs[from..], pick - from, rest);
    DropTwice(blobs, from, passed);
    AheadNext(source.pathKeys, source.directIds, prefixes, blobs, requests, picks, n, from, from + passed);
    return fetched.value, from + passed;
  }

  /**
   A candidate from first to last: any subset of its streams, opened in order, comes back byte for byte; the rest
   is discarded, and the input is left just after the candidate.
   */
  method DeliverCandidate(source: Source, requests: seq<(nat, nat)>, ghost blobs: seq<Blob>, ghost picks: seq<nat>,
                          ghost rest: seq<Token>)
    returns (contents: seq<seq<byte>>, finished: Result<(), Error>)
    requires source.DistinctIds() && Bound(source.pathKeys, blobs) && Distinct(source.pathKeys, blobs)
    requires InOrder(source.pathKeys, source.directIds, blobs, requests, picks)
    requires PrefixesHeld(source.pathKeys, source.prefixes, blobs)
    requires source.Stream() == Phase(blobs, rest)
    modifies source
    ensures Delivered(contents, blobs, picks) && finished.Ok?
    ensures source.Stream() == rest && source.prefixes == map[] && source.pathKeys == map[] && source.directIds == map[]
  {
    contents := [];
    ghost var from: nat := 0;
    ghost var keys, ids := source.pathKeys, source.directIds;
    assert blobs[from..] == blobs;
    for n := 0 to |requests|
      invariant source.pathKeys == keys && source.directIds == ids
      invariant from <= |blobs| && source.Stream() == Phase(blobs[from..], rest)
      invariant Ahead(keys, source.prefixes, blobs, picks, n, from)
      invariant Delivered(contents, blobs, picks[..n])
    {
      var bytes;
      bytes, from := DeliverNext(source, requests, n, blobs, picks, rest, from);
      DeliveredNext(contents, blobs, picks, n, bytes);
      contents := contents + [bytes];
    }
    assert picks[..|requests|] == picks;
    FinishLeavesRest(blobs[from..], rest);
    finished := source.FinishTopLevel();
  }
}

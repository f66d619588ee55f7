/**
 The worker's side of a payload: a prefix streamed with the metadata, and the rest deferred. The native reader
 returns short reads; every chunk is emitted as soon as it is read.
 */
module PayloadStream {
  import opened Wrappers
  import opened Direct

  const CHUNK_BYTES: nat := 64 * 1024

  datatype Request = Full | Prefix(most: nat) | DeferredPrefix(most: nat)

  datatype StreamError = Native | SizeMismatch | Overlong

  /** A native data stream, read from front to back. */
  class Entry {
    const data: seq<byte>
    /** Whether a read of this stream may fail, and whether it may return more than was asked for. */
    const mayFail: bool
    const mayOverrun: bool
    var position: nat
    /** Whether some read returned more than was asked for. */
    ghost var overlong: bool

    ghost predicate Valid()
      reads this
    {
      position <= |data| && (overlong ==> mayOverrun)
    }

    ghost predicate Unread()
      reads this
    {
      position == 0 && !overlong
    }

    constructor (content: seq<byte>, fails: bool, overruns: bool)
      ensures Valid() && data == content && mayFail == fails && mayOverrun == overruns && Unread()
    {
      data, mayFail, mayOverrun, position, overlong := content, fails, overruns, 0, false;
    }

    /**
     Between one byte and a buffer of them, whatever was asked for; nothing only at the end. The native call
     may fail.
     */
    method ReadBuffer(requested: nat) returns (r: Result<seq<byte>, StreamError>)
      requires Valid() && 0 < requested <= CHUNK_BYTES
      modifies this
      ensures Valid()
      ensures r.Err? ==> mayFail && r.error == Native && position == old(position) && overlong == old(overlong)
      ensures r.Ok? ==> |r.value| <= CHUNK_BYTES && position == old(position) + |r.value|
      ensures r.Ok? ==> r.value == data[old(position)..position]
      ensures r.Ok? ==> (r.value == [] <==> old(position) == |data|)
      ensures r.Ok? ==> overlong == (old(overlong) || |r.value| > requested)
    {
      var failed := *;
      if failed && mayFail {
        return Err(Native);
      }
      if position == |data| {
        return Ok([]);
      }
      var n: nat :| 1 <= n <= (if mayOverrun then CHUNK_BYTES else requested) && position + n <= |data|;
      r := Ok(data[position..position + n]);
      position := position + n;
      overlong := overlong || n > requested;
    }
  }

  lemma {:induction false} JoinedAppend(chunks: seq<seq<byte>>, chunk: seq<byte>)
    ensures Joined(chunks + [chunk]) == Joined(chunks) + chunk
  {
    if chunks == [] {
      assert [chunk][1..] == [];
    } else {
      assert (chunks + [chunk])[1..] == chunks[1..] + [chunk];
      JoinedAppend(chunks[1..], chunk);
    }
  }

  /** Chunks as the wire carries them: none empty, none longer than a buffer. */
  predicate Wire(chunks: seq<seq<byte>>) {
    forall i :: 0 <= i < |chunks| ==> 0 < |chunks[i]| <= 65_536
  }

  function Limit(expected: nat, request: Request): nat {
    if request.Full? then expected else Smaller(expected, request.most)
  }

  /** Why a part of a stream cannot be had: it is too short, or too long when all of it was asked for. */
  predicate WrongSize(size: nat, expected: nat, request: Request) {
    size < Limit(expected, request) || (request.Full? && size > expected)
  }

  /**
   The part of an attachment that goes with the metadata. Every byte emitted is the stream's own, in order;
   success means exactly the limit was delivered, and a mismatch means the stream has the wrong size or a read
   returned more than was asked for.
   */
  method StreamAttachment(entry: Entry, expected: nat, request: Request)
    returns (r: Result<nat, StreamError>, chunks: seq<seq<byte>>)
    requires entry.Valid() && entry.Unread()
    modifies entry
    ensures entry.Valid() && Wire(chunks) && Joined(chunks) <= entry.data
    ensures r.Ok? ==> r.value == Limit(expected, request) && |Joined(chunks)| == r.value == entry.position && !entry.overlong
    ensures r.Err? ==> r.error != Overlong && (r.error == Native ==> entry.mayFail)
    ensures r == Err(SizeMismatch) ==> entry.overlong || WrongSize(|entry.data|, expected, request)
    ensures r.Ok? && request.Full? ==> |entry.data| == expected
  {
    var limit := Limit(expected, request);
    var total: nat := 0;
    chunks := [];
    while request.Full? || total < limit
      invariant entry.Valid() && Wire(chunks) && total == entry.position <= limit && !entry.overlong
      invariant Joined(chunks) == entry.data[..total]
      decreases |entry.data| - entry.position
    {
      var requested := if request.Full? then CHUNK_BYTES else Smaller(limit - total, CHUNK_BYTES);
      var read := entry.ReadBuffer(requested);
      if read.Err? {
        return Err(Native), chunks;
      }
      if read.value == [] {
        break;
      }
      var emitted := Smaller(limit - total, |read.value|);
      if emitted != 0 {
        JoinedAppend(chunks, read.value[..emitted]);
        chunks := chunks + [read.value[..emitted]];
      }
      if total + |read.value| > limit {
        return Err(SizeMismatch), chunks;
      }
      total := total + emitted;
    }
    r := if total == limit then Ok(total) else Err(SizeMismatch);
  }

  /**
   The part of a property that goes with the metadata, and the caller's check of its length. A read longer than
   asked for is emitted in full before the check refuses it.
   */
  method StreamProperty(entry: Entry, declared: nat, request: Request)
    returns (r: Result<nat, StreamError>, chunks: seq<seq<byte>>)
    requires entry.Valid() && entry.Unread()
    modifies entry
    ensures entry.Valid() && Wire(chunks) && Joined(chunks) <= entry.data && |Joined(chunks)| <= declared
    ensures r.Ok? ==> r.value == Limit(declared, request) && |Joined(chunks)| == r.value == entry.position && !entry.overlong
    ensures r.Err? ==> r.error != Overlong && (r.error == Native ==> entry.mayFail)
    ensures r == Err(SizeMismatch) ==> entry.overlong || WrongSize(|entry.data|, declared, request)
    ensures r.Ok? && request.Full? ==> |entry.data| == declared
  {
    var limit := Limit(declared, request);
    var total: nat := 0;
    chunks := [];
    while request.Full? || total < limit
      invariant entry.Valid() && Wire(chunks) && total == entry.position <= declared
      invariant entry.overlong <==> total > limit
      invariant Joined(chunks) == entry.data[..total]
      decreases |entry.data| - entry.position
    {
      var requested := if request.Full? then CHUNK_BYTES else Smaller(limit - total, CHUNK_BYTES);
      var read := entry.ReadBuffer(requested);
      if read.Err? {
        return Err(Native), chunks;
      }
      if read.value == [] {
        break;
      }
      total := total + |read.value|;
      if total > declared {
        return Err(SizeMismatch), chunks;
      }
      JoinedAppend(chunks, read.value);
      chunks := chunks + [read.value];
    }
    r := if total == limit then Ok(total) else Err(SizeMismatch);
  }

  /** The rest of a stream, continued where its prefix stopped. */
  method StreamDeferred(entry: Entry, expected: nat, prefixBytes: nat)
    returns (r: Result<nat, StreamError>, chunks: seq<seq<byte>>)
    requires entry.Valid() && entry.position == prefixBytes <= expected && !entry.overlong
    modifies entry
    ensures entry.Valid() && Wire(chunks) && Joined(chunks) <= entry.data[prefixBytes..]
    ensures r.Ok? ==> prefixBytes + r.value == expected <= |entry.data| && |Joined(chunks)| == r.value
    ensures r == Err(SizeMismatch) ==> |entry.data| < expected
    ensures r == Err(Overlong) <==> entry.overlong
    ensures r == Err(Native) ==> entry.mayFail
  {
    var remaining := expected - prefixBytes;
    var total: nat := 0;
    chunks := [];
    while total < remaining
      invariant entry.Valid() && Wire(chunks) && prefixBytes + total == entry.position && total <= remaining
      invariant !entry.overlong
      invariant Joined(chunks) == entry.data[prefixBytes..prefixBytes + total]
      decreases |entry.data| - entry.position
    {
      var requested := Smaller(remaining - total, CHUNK_BYTES);
      var read := entry.ReadBuffer(requested);
      if read.Err? {
        return Err(Native), chunks;
      }
      if read.value == [] {
        break;
      }
      if |read.value| > requested {
        return Err(Overlong), chunks;
      }
      JoinedAppend(chunks, read.value);
      total := total + |read.value|;
      chunks := chunks + [read.value];
    }
    r := if total == remaining then Ok(total) else Err(SizeMismatch);
  }
}

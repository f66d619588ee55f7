/**
 Length framing of the worker protocol: a four-byte big-endian length, an encoded control frame, and
 the payload bytes that a data frame announces. The encoding of a control frame is a parameter.
 */
module Framing {
  import opened Wrappers

  type byte = x: int | 0 <= x < 256

  const MAX_CONTROL_FRAME_BYTES: nat := 32 * 1024 * 1024
  const STREAM_CHUNK_BYTES: nat := 64 * 1024

  datatype Error = UnexpectedEof | Invalid | Undecodable

  /** Encoder, decoder, the payload length a frame announces, and whether it ends the stream. */
  datatype Codec<!F> = Codec(
    encode: F -> seq<byte>, decode: seq<byte> -> Option<F>, announced: F -> nat, last: F -> bool)

  datatype Item<F> = Item(control: F, payload: seq<byte>)

  ghost predicate Inverse<F(!new)>(c: Codec<F>) {
    forall f :: c.encode(f) != [] && c.decode(c.encode(f)) == Some(f)
  }

  /** The frame is within the limits of both ends and carries exactly the payload it announces. */
  predicate Sendable<F>(c: Codec<F>, item: Item<F>) {
    && |c.encode(item.control)| <= 33_554_432
    && |item.payload| == c.announced(item.control)
    && |item.payload| <= 65_536
  }

  function BigEndian(n: nat): (r: seq<byte>)
    requires n <= U32_MAX
    ensures |r| == 4
  {
    var upper3 := n / 0x100;
    var upper2 := upper3 / 0x100;
    [upper2 / 0x100, upper2 % 0x100, upper3 % 0x100, n % 0x100]
  }

  function FromBigEndian(b: seq<byte>): (n: nat)
    requires |b| == 4
    ensures n <= U32_MAX
  {
    var b0: int, b1: int, b2: int, b3: int := b[0], b[1], b[2], b[3];
    ((b0 * 0x100 + b1) * 0x100 + b2) * 0x100 + b3
  }

  /** The most significant byte comes first. */
  lemma BigEndianDigits(n: nat)
    requires n <= U32_MAX
    ensures var b := BigEndian(n);
      n == 16_777_216 * (b[0] as int) + 65_536 * (b[1] as int) + 256 * (b[2] as int) + (b[3] as int)
  {
    var upper3 := n / 0x100;
    var upper2 := upper3 / 0x100;
    assert n == upper3 * 0x100 + n % 0x100;
    assert upper3 == upper2 * 0x100 + upper3 % 0x100;
    assert upper2 == upper2 / 0x100 * 0x100 + upper2 % 0x100;
  }

  lemma BigEndianRoundTrip(n: nat)
    requires n <= U32_MAX
    ensures FromBigEndian(BigEndian(n)) == n
  {}

  function Serialized<F>(c: Codec<F>, item: Item<F>): seq<byte>
    requires Sendable(c, item)
  {
    BigEndian(|c.encode(item.control)|) + c.encode(item.control) + item.payload
  }

  function SerializedAll<F>(c: Codec<F>, items: seq<Item<F>>): seq<byte>
    requires forall i :: 0 <= i < |items| ==> Sendable(c, items[i])
  {
    if items == [] then [] else Serialized(c, items[0]) + SerializedAll(c, items[1..])
  }

  /** What reading one item from the front of a byte stream gives: the item and the bytes after it. */
  function ParseControl<F>(c: Codec<F>, bytes: seq<byte>): (r: Result<(F, seq<byte>), Error>)
    ensures r.Ok? ==> |r.value.1| < |bytes|
  {
    if |bytes| < 4 then Err(UnexpectedEof)
    else
      var length := FromBigEndian(bytes[..4]);
      if length == 0 || length > MAX_CONTROL_FRAME_BYTES then Err(Invalid)
      else if |bytes| < 4 + length then Err(UnexpectedEof)
      else match c.decode(bytes[4..4 + length])
        case None => Err(Undecodable)
        case Some(f) => Ok((f, bytes[4 + length..]))
  }

  /** A frame of no bytes or of more than 32 mebibytes is refused, whatever follows. */
  lemma ControlLimits<F>(c: Codec<F>, bytes: seq<byte>)
    requires |bytes| >= 4
    ensures var length := 16_777_216 * (bytes[0] as int) + 65_536 * (bytes[1] as int) + 256 * (bytes[2] as int) + (bytes[3] as int);
      length == 0 || length > 33_554_432 ==> ParseControl(c, bytes) == Err(Invalid)
  {
    assert bytes[..4][0] == bytes[0] && bytes[..4][1] == bytes[1] && bytes[..4][2] == bytes[2] && bytes[..4][3] == bytes[3];
  }

  function ParsePayload(bytes: seq<byte>, length: nat): (r: Result<(seq<byte>, seq<byte>), Error>)
    ensures r.Ok? ==> |r.value.1| <= |bytes|
  {
    if length > STREAM_CHUNK_BYTES then Err(Invalid)
    else if |bytes| < length then Err(UnexpectedEof)
    else Ok((bytes[..length], bytes[length..]))
  }

  function ParseItem<F>(c: Codec<F>, bytes: seq<byte>): (r: Result<(Item<F>, seq<byte>), Error>)
    ensures r.Ok? ==> |r.value.1| < |bytes|
  {
    var (control, rest) :- ParseControl(c, bytes);
    var (payload, rest') :- ParsePayload(rest, c.announced(control));
    Ok((Item(control, payload), rest'))
  }

  /** A complete stream: items up to one that ends it, and then no byte more. */
  function ParseAll<F>(c: Codec<F>, bytes: seq<byte>): Result<seq<Item<F>>, Error>
    decreases |bytes|
  {
    var (item, rest) :- ParseItem(c, bytes);
    if c.last(item.control) then (if rest == [] then Ok([item]) else Err(Invalid))
    else
      var items :- ParseAll(c, rest);
      Ok([item] + items)
  }

  // The two ends, as they read and write.

  class Output {
    var bytes: seq<byte>

    constructor ()
      ensures bytes == []
    {
      bytes := [];
    }

    method WriteControl<F>(c: Codec<F>, f: F) returns (r: Result<(), Error>)
      modifies this
      ensures r.Ok? <==> |c.encode(f)| <= 33_554_432
      ensures r.Ok? ==> |c.encode(f)| <= U32_MAX && bytes == old(bytes) + BigEndian(|c.encode(f)|) + c.encode(f)
      ensures r.Err? ==> bytes == old(bytes)
    {
      var encoded := c.encode(f);
      if |encoded| > MAX_CONTROL_FRAME_BYTES {
        return Err(Invalid);
      }
      bytes := bytes + BigEndian(|encoded|);
      bytes := bytes + encoded;
      return Ok(());
    }
  }

  class Input {
    var bytes: seq<byte>

    constructor (source: seq<byte>)
      ensures bytes == source
    {
      bytes := source;
    }

    method ReadExact(n: nat) returns (r: Result<seq<byte>, Error>)
      modifies this
      ensures |old(bytes)| < n ==> r == Err(UnexpectedEof)
      ensures |old(bytes)| >= n ==> r == Ok(old(bytes)[..n]) && bytes == old(bytes)[n..]
    {
      if |bytes| < n {
        bytes := [];
        return Err(UnexpectedEof);
      }
      r := Ok(bytes[..n]);
      bytes := bytes[n..];
    }

    method ReadControl<F>(c: Codec<F>) returns (r: Result<F, Error>)
      modifies this
      ensures match ParseControl(c, old(bytes))
        case Ok((f, rest)) => r == Ok(f) && bytes == rest
        case Err(e) => r == Err(e)
    {
      ghost var before := bytes;
      var prefix := ReadExact(4);
      if prefix.Err? {
        return Err(prefix.error);
      }
      var length := FromBigEndian(prefix.value);
      if length == 0 || length > MAX_CONTROL_FRAME_BYTES {
        return Err(Invalid);
      }
      assert |before| >= 4 + length ==> before[4..][..length] == before[4..4 + length];
      var encoded := ReadExact(length);
      if encoded.Err? {
        return Err(encoded.error);
      }
      assert before[4..][length..] == before[4 + length..];
      match c.decode(encoded.value)
      case None => return Err(Undecodable);
      case Some(f) => return Ok(f);
    }

    method ReadPayload(length: nat) returns (r: Result<seq<byte>, Error>)
      modifies this
      ensures match ParsePayload(old(bytes), length)
        case Ok((payload, rest)) => r == Ok(payload) && bytes == rest
        case Err(e) => r == Err(e)
    {
      if length > STREAM_CHUNK_BYTES {
        return Err(Invalid);
      }
      r := ReadExact(length);
    }

    /** Reads items until the stream ends itself, then insists that nothing follows. */
    method ReceiveAll<F>(c: Codec<F>) returns (r: Result<seq<Item<F>>, Error>)
      modifies this
      ensures r == ParseAll(c, old(bytes))
    {
      var items: seq<Item<F>> := [];
      ghost var all := bytes;
      PrependedNone(ParseAll(c, all));
      while true
        invariant ParseAll(c, all) == Prepended(items, ParseAll(c, bytes))
        decreases |bytes|
      {
        var control := ReadControl(c);
        if control.Err? {
          return Err(control.error);
        }
        var payload := ReadPayload(c.announced(control.value));
        if payload.Err? {
          return Err(payload.error);
        }
        var item := Item(control.value, payload.value);
        if c.last(control.value) {
          if bytes != [] {
            return Err(Invalid);
          }
          return Ok(items + [item]);
        }
        PrependedOne(items, item, ParseAll(c, bytes));
        items := items + [item];
      }
    }
  }

  ghost function Prepended<F>(items: seq<Item<F>>, rest: Result<seq<Item<F>>, Error>): Result<seq<Item<F>>, Error> {
    match rest
    case Ok(more) => Ok(items + more)
    case Err(e) => Err(e)
  }

  lemma PrependedNone<F>(rest: Result<seq<Item<F>>, Error>)
    ensures Prepended([], rest) == rest
  {
    match rest
    case Ok(more) => assert [] + more == more;
    case Err(_) =>
  }

  lemma PrependedOne<F>(items: seq<Item<F>>, item: Item<F>, rest: Result<seq<Item<F>>, Error>)
    ensures Prepended(items, Prepended([item], rest)) == Prepended(items + [item], rest)
  {
    match rest
    case Ok(more) => assert items + ([item] + more) == items + [item] + more;
    case Err(_) =>
  }

  // What framing guarantees.

  lemma ItemRoundTrip<F(!new)>(c: Codec<F>, item: Item<F>, rest: seq<byte>)
    requires Inverse(c) && Sendable(c, item)
    ensures ParseItem(c, Serialized(c, item) + rest) == Ok((item, rest))
  {
    var encoded := c.encode(item.control);
    var bytes := Serialized(c, item) + rest;
    BigEndianRoundTrip(|encoded|);
    assert bytes[..4] == BigEndian(|encoded|);
    assert bytes[4..4 + |encoded|] == encoded;
    assert bytes[4 + |encoded|..] == item.payload + rest;
    assert (item.payload + rest)[..|item.payload|] == item.payload;
    assert (item.payload + rest)[|item.payload|..] == rest;
  }

  /** Whatever was not delivered in full is not read as an item. */
  lemma ItemTruncated<F(!new)>(c: Codec<F>, item: Item<F>, cut: seq<byte>)
    requires Inverse(c) && Sendable(c, item)
    requires cut < Serialized(c, item)
    ensures ParseItem(c, cut).Err?
  {
    var encoded := c.encode(item.control);
    var whole := Serialized(c, item);
    BigEndianRoundTrip(|encoded|);
    assert whole[..4] == BigEndian(|encoded|);
    assert whole[4..4 + |encoded|] == encoded;
    if |cut| >= 4 {
      assert cut[..4] == whole[..4];
      if |cut| >= 4 + |encoded| {
        assert cut[4..4 + |encoded|] == whole[4..4 + |encoded|];
      }
    }
  }

  /** A stream: every item can be sent, and exactly the last one ends it. */
  ghost predicate Stream<F>(c: Codec<F>, items: seq<Item<F>>) {
    && items != []
    && (forall i :: 0 <= i < |items| ==> Sendable(c, items[i]))
    && (forall i :: 0 <= i < |items| ==> (c.last(items[i].control) <==> i == |items| - 1))
  }

  /** Reading what was written returns the same frames and payloads. */
  lemma {:induction false} StreamRoundTrip<F(!new)>(c: Codec<F>, items: seq<Item<F>>)
    requires Inverse(c) && Stream(c, items)
    ensures ParseAll(c, SerializedAll(c, items)) == Ok(items)
  {
    var rest := SerializedAll(c, items[1..]);
    ItemRoundTrip(c, items[0], rest);
    assert c.last(items[0].control) <==> |items| == 1;
    assert items == [items[0]] + items[1..];
    if |items| > 1 {
      StreamTail(c, items);
      StreamRoundTrip(c, items[1..]);
    } else {
      assert items[1..] == [] && items == [items[0]];
    }
  }

  lemma StreamTail<F>(c: Codec<F>, items: seq<Item<F>>)
    requires Stream(c, items) && |items| > 1
    ensures Stream(c, items[1..])
  {}

  /** No proper beginning of a stream is taken for a complete one. */
  lemma {:induction false} StreamTruncated<F(!new)>(c: Codec<F>, items: seq<Item<F>>, cut: seq<byte>)
    requires Inverse(c) && Stream(c, items)
    requires cut < SerializedAll(c, items)
    ensures ParseAll(c, cut).Err?
    decreases |items|
  {
    var first := Serialized(c, items[0]);
    var rest := SerializedAll(c, items[1..]);
    if |cut| < |first| {
      assert cut < first;
      ItemTruncated(c, items[0], cut);
    } else {
      var after := cut[|first|..];
      assert cut == first + after && after < rest;
      ItemRoundTrip(c, items[0], after);
      assert |items| > 1;
      StreamTail(c, items);
      StreamTruncated(c, items[1..], after);
    }
  }

  /** A byte after the end makes the stream invalid. */
  lemma {:induction false} StreamTrailing<F(!new)>(c: Codec<F>, items: seq<Item<F>>, extra: seq<byte>)
    requires Inverse(c) && Stream(c, items) && extra != []
    ensures ParseAll(c, SerializedAll(c, items) + extra) == Err(Invalid)
    decreases |items|
  {
    var first := Serialized(c, items[0]);
    var rest := SerializedAll(c, items[1..]) + extra;
    assert SerializedAll(c, items) + extra == first + rest;
    ItemRoundTrip(c, items[0], rest);
    if |items| > 1 {
      StreamTail(c, items);
      StreamTrailing(c, items[1..], extra);
    }
  }
}

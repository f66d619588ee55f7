/**
 The statistics of a part: kept message by message while it is filled, and what they amount to when it is
 published.
 */
module SplitStats {
  import opened Wrappers
  import opened PartWriter
  import opened SplitSpec
  import Greedy

  datatype Stats = Stats(
    itemKeys: seq<string>, unsupportedKeys: seq<string>, messageCount: nat, partial: bool,
    omittedFolders: nat, omittedProperties: nat, omittedAttachments: nat)

  function SaturatingAdd(a: nat, b: nat): nat {
    if a + b > U64_MAX then U64_MAX else a + b
  }

  function AddMessage(s: Stats, m: Message): Stats {
    s.(itemKeys := s.itemKeys + m.itemKeys,
       unsupportedKeys := s.unsupportedKeys + m.unsupportedKeys,
       messageCount := SaturatingAdd(s.messageCount, m.messageCount),
       partial := s.partial || m.partial,
       omittedProperties := SaturatingAdd(s.omittedProperties, m.omittedProperties),
       omittedAttachments := SaturatingAdd(s.omittedAttachments, m.omittedAttachments))
  }

  /** Only the first part accounts for the source folders that were omitted. */
  function InitialStats(env: Env, part: nat): Stats {
    Stats([], [], 0, false, if part == 1 then env.omittedFolders else 0, 0, 0)
  }

  function StatsOf(env: Env, part: nat, messages: seq<Message>): Stats {
    if messages == [] then InitialStats(env, part)
    else AddMessage(StatsOf(env, part, messages[..|messages| - 1]), messages[|messages| - 1])
  }

  lemma StatsAppend(env: Env, part: nat, messages: seq<Message>, m: Message)
    ensures StatsOf(env, part, messages + [m]) == AddMessage(StatsOf(env, part, messages), m)
  {
    assert (messages + [m])[..|messages|] == messages;
  }

  // What the statistics of a part amount to, read off its messages.

  function Each<T>(messages: seq<Message>, of: Message -> T): (r: seq<T>)
    ensures |r| == |messages|
    ensures forall i :: 0 <= i < |messages| ==> r[i] == of(messages[i])
  {
    seq(|messages|, i requires 0 <= i < |messages| => of(messages[i]))
  }

  function Sum(numbers: seq<nat>): nat {
    if numbers == [] then 0 else numbers[0] + Sum(numbers[1..])
  }

  /** A count that stops at the largest 64-bit number. */
  function Capped(n: nat): nat {
    if n > U64_MAX then U64_MAX else n
  }

  function ItemKeys(messages: seq<Message>): seq<string> {
    Greedy.Flatten(Each(messages, (m: Message) => m.itemKeys))
  }

  function UnsupportedKeys(messages: seq<Message>): seq<string> {
    Greedy.Flatten(Each(messages, (m: Message) => m.unsupportedKeys))
  }

  /** Key lists in message order, capped totals, and whether any message is partial. */
  ghost predicate Sums(messages: seq<Message>, s: Stats) {
    && s.itemKeys == ItemKeys(messages)
    && s.unsupportedKeys == UnsupportedKeys(messages)
    && s.messageCount == Capped(Sum(Each(messages, (m: Message) => m.messageCount)))
    && s.omittedProperties == Capped(Sum(Each(messages, (m: Message) => m.omittedProperties)))
    && s.omittedAttachments == Capped(Sum(Each(messages, (m: Message) => m.omittedAttachments)))
    && (s.partial <==> exists i :: 0 <= i < |messages| && messages[i].partial)
  }

  lemma {:induction false} SumAppend(numbers: seq<nat>, n: nat)
    ensures Sum(numbers + [n]) == Sum(numbers) + n
  {
    if numbers == [] {
      assert [n][1..] == [];
    } else {
      assert (numbers + [n])[1..] == numbers[1..] + [n];
      SumAppend(numbers[1..], n);
    }
  }

  lemma EachAppend<T>(messages: seq<Message>, m: Message, of: Message -> T)
    ensures Each(messages + [m], of) == Each(messages, of) + [of(m)]
  {}

  lemma TotalAppend(messages: seq<Message>, m: Message, of: Message -> nat)
    ensures Capped(Sum(Each(messages + [m], of))) == SaturatingAdd(Capped(Sum(Each(messages, of))), of(m))
  {
    EachAppend(messages, m, of);
    SumAppend(Each(messages, of), of(m));
  }

  lemma ListAppend(messages: seq<Message>, m: Message, of: Message -> seq<string>)
    ensures Greedy.Flatten(Each(messages + [m], of)) == Greedy.Flatten(Each(messages, of)) + of(m)
  {
    EachAppend(messages, m, of);
    Greedy.FlattenAppend(Each(messages, of), of(m));
  }

  lemma SumsAppend(messages: seq<Message>, s: Stats, m: Message)
    requires Sums(messages, s)
    ensures Sums(messages + [m], AddMessage(s, m))
  {
    ListAppend(messages, m, (m: Message) => m.itemKeys);
    ListAppend(messages, m, (m: Message) => m.unsupportedKeys);
    TotalAppend(messages, m, (m: Message) => m.messageCount);
    TotalAppend(messages, m, (m: Message) => m.omittedProperties);
    TotalAppend(messages, m, (m: Message) => m.omittedAttachments);
    PartialAppend(messages, m);
  }

  lemma PartialAppend(messages: seq<Message>, m: Message)
    ensures (exists i :: 0 <= i < |messages + [m]| && (messages + [m])[i].partial)
       <==> (exists i :: 0 <= i < |messages| && messages[i].partial) || m.partial
  {
    if m.partial {
      assert (messages + [m])[|messages|].partial;
    }
    if i :| 0 <= i < |messages| && messages[i].partial {
      assert (messages + [m])[i].partial;
    }
  }

  /** The statistics kept while a part is filled amount to this; only the first part accounts for omitted folders. */
  lemma {:induction false} StatsAmountTo(env: Env, part: nat, messages: seq<Message>)
    ensures Sums(messages, StatsOf(env, part, messages))
    ensures StatsOf(env, part, messages).omittedFolders == if part == 1 then env.omittedFolders else 0
  {
    if messages != [] {
      var n := |messages| - 1;
      StatsAmountTo(env, part, messages[..n]);
      SumsAppend(messages[..n], StatsOf(env, part, messages[..n]), messages[n]);
      assert messages[..n] + [messages[n]] == messages;
    }
  }

  // Every key is published once.

  lemma {:induction false} EachJoin<T>(a: seq<Message>, b: seq<Message>, of: Message -> T)
    ensures Each(a + b, of) == Each(a, of) + Each(b, of)
  {}

  lemma {:induction false} FlattenJoin<T>(a: seq<seq<T>>, b: seq<seq<T>>)
    ensures Greedy.Flatten(a + b) == Greedy.Flatten(a) + Greedy.Flatten(b)
  {
    if b == [] {
      assert a + b == a;
    } else {
      var n := |b| - 1;
      FlattenJoin(a, b[..n]);
      Greedy.FlattenAppend(a + b[..n], b[n]);
      Greedy.FlattenAppend(b[..n], b[n]);
      assert a + b == (a + b[..n]) + [b[n]] && b == b[..n] + [b[n]];
    }
  }

  lemma ItemKeysJoin(a: seq<Message>, b: seq<Message>)
    ensures ItemKeys(a + b) == ItemKeys(a) + ItemKeys(b)
  {
    EachJoin(a, b, (m: Message) => m.itemKeys);
    FlattenJoin(Each(a, (m: Message) => m.itemKeys), Each(b, (m: Message) => m.itemKeys));
  }
}

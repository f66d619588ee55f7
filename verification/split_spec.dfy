/**
 What filling size-capped parts means, one message at a time: the specification the batching part loop
 is compared with, and its relation to the packer's greedy blocks.
 */
module SplitSpec {
  import opened Wrappers
  import opened PartWriter
  import Greedy

  /** Translating a candidate yields a message, a durable rejection, or an error that ends the run. */
  datatype Translation = Writable(message: Message) | Unwritable | Broken

  /** Candidates are durable keys in canonical order; a key is the primary key of the job ledger. */
  datatype Env = Env(
    candidates: seq<string>, translate: string -> Translation,
    maximum: nat, folderCount: nat, omittedFolders: nat, sizes: Sizes, faults: Faults)

  ghost predicate Distinct(keys: seq<string>) {
    forall i, j :: 0 <= i < j < |keys| ==> keys[i] != keys[j]
  }

  /** The messages of candidates i to j, in order. */
  function Writables(env: Env, i: nat, j: nat): seq<Message>
    requires i <= j <= |env.candidates|
  {
    if i == j then []
    else
      var earlier := Writables(env, i, j - 1);
      match env.translate(env.candidates[j - 1])
      case Writable(m) => earlier + [m]
      case _ => earlier
  }

  /** The keys rejected among the first n candidates, in order. */
  function RejectedKeys(env: Env, n: nat): seq<string>
    requires n <= |env.candidates|
  {
    if n == 0 then []
    else
      var key := env.candidates[n - 1];
      RejectedKeys(env, n - 1) + (if env.translate(key).Unwritable? then [key] else [])
  }

  /** A part may be published: it is within the maximum, or it holds a single message. */
  predicate Accepted(env: Env, part: nat, messages: seq<Message>) {
    |messages| <= 1 || env.sizes.projected(part, messages) <= env.maximum
  }

  /** One message at a time: keep appending until a message no longer fits beside the ones taken. */
  function Fill(env: Env, part: nat, i: nat, taken: seq<Message>): (r: (seq<Message>, nat))
    requires i <= |env.candidates|
    ensures i <= r.1 <= |env.candidates|
    ensures taken <= r.0
    ensures r.0 == [] ==> r.1 == |env.candidates|
    ensures taken != r.0 ==> r.1 > i
    decreases |env.candidates| - i
  {
    if i == |env.candidates| then (taken, i)
    else match env.translate(env.candidates[i])
      case Writable(m) =>
        if taken != [] && env.sizes.projected(part, taken + [m]) > env.maximum then (taken, i)
        else Fill(env, part, i + 1, taken + [m])
      case _ => Fill(env, part, i + 1, taken)
  }

  /** The parts of one-message-at-a-time filling from candidate i on, the first numbered `part`. */
  function GreedyParts(env: Env, part: nat, i: nat): seq<seq<Message>>
    requires i <= |env.candidates|
    decreases |env.candidates| - i
  {
    var (taken, next) := Fill(env, part, i, []);
    if taken == [] then [] else [taken] + GreedyParts(env, part + 1, next)
  }

  ghost predicate NeverShrinks(size: (nat, seq<Message>) -> nat, part: nat, s: seq<Message>, m: Message) {
    size(part, s) <= size(part, s + [m])
  }

  /** Appending a message never makes the projected file shorter. */
  ghost predicate GrowingSizes(env: Env) {
    forall part, s, m :: NeverShrinks(env.sizes.projected, part, s, m)
  }

  lemma {:induction false} WritablesJoin(env: Env, i: nat, j: nat, k: nat)
    requires i <= j <= k <= |env.candidates|
    ensures Writables(env, i, k) == Writables(env, i, j) + Writables(env, j, k)
    decreases k
  {
    if j < k {
      WritablesJoin(env, i, j, k - 1);
    }
  }

  lemma {:induction false} AcceptedPrefix(env: Env, part: nat, s: seq<Message>, n: nat)
    requires GrowingSizes(env) && n <= |s| && Accepted(env, part, s)
    ensures Accepted(env, part, s[..n])
    decreases |s|
  {
    if n < |s| {
      var m := |s| - 1;
      assert s[..m] + [s[m]] == s;
      assert NeverShrinks(env.sizes.projected, part, s[..m], s[m]);
      AcceptedPrefix(env, part, s[..m], n);
      assert s[..m][..n] == s[..n];
    } else {
      assert s[..n] == s;
    }
  }

  // Without any assumption on sizes: what greedy filling passes through.

  /** Every part that could have been cut here on the way was publishable. */
  ghost predicate AcceptedThroughout(env: Env, part: nat, s: seq<Message>) {
    forall n :: 0 <= n <= |s| ==> Accepted(env, part, s[..n])
  }

  lemma ThroughoutPrefix(env: Env, part: nat, s: seq<Message>, t: seq<Message>)
    requires AcceptedThroughout(env, part, t) && s <= t
    ensures AcceptedThroughout(env, part, s)
  {
    forall n | 0 <= n <= |s| ensures Accepted(env, part, s[..n]) {
      assert s[..n] == t[..n];
    }
  }

  lemma ThroughoutAppend(env: Env, part: nat, s: seq<Message>, m: Message)
    requires AcceptedThroughout(env, part, s) && Accepted(env, part, s + [m])
    ensures AcceptedThroughout(env, part, s + [m])
  {
    forall n | 0 <= n <= |s + [m]| ensures Accepted(env, part, (s + [m])[..n]) {
      if n <= |s| {
        assert (s + [m])[..n] == s[..n];
      } else {
        assert (s + [m])[..n] == s + [m];
      }
    }
  }

  lemma {:induction false} FillStaysAccepted(env: Env, part: nat, i: nat, taken: seq<Message>)
    requires i <= |env.candidates| && AcceptedThroughout(env, part, taken)
    ensures AcceptedThroughout(env, part, Fill(env, part, i, taken).0)
    decreases |env.candidates| - i
  {
    if i < |env.candidates| {
      match env.translate(env.candidates[i])
      case Writable(m) =>
        if taken == [] || env.sizes.projected(part, taken + [m]) <= env.maximum {
          ThroughoutAppend(env, part, taken, m);
          FillStaysAccepted(env, part, i + 1, taken + [m]);
        }
      case _ => FillStaysAccepted(env, part, i + 1, taken);
    }
  }

  lemma {:induction false} FillReachesThroughout(env: Env, part: nat, i: nat, j: nat)
    requires i <= j <= |env.candidates| && AcceptedThroughout(env, part, Writables(env, i, j))
    ensures Fill(env, part, i, []) == Fill(env, part, j, Writables(env, i, j))
    decreases j
  {
    if i < j {
      var all := Writables(env, i, j);
      ThroughoutPrefix(env, part, Writables(env, i, j - 1), all);
      FillReachesThroughout(env, part, i, j - 1);
      assert all[..|all|] == all;
    }
  }

  // Greedy filling against the packer's blocks.

  /** The projected length does not depend on the part number, and grows at either end. */
  ghost predicate UniformSizes(env: Env, size: seq<Message> -> nat) {
    && Greedy.Monotone(size)
    && forall part, s :: env.sizes.projected(part, s) == size(s)
  }

  lemma UniformGrowing(env: Env, size: seq<Message> -> nat)
    requires UniformSizes(env, size)
    ensures GrowingSizes(env)
  {
    forall part, s, m ensures NeverShrinks(env.sizes.projected, part, s, m) {
      assert Greedy.Grows(size, s, m);
    }
  }

  /** A filled part is the first n of these messages, and the rest are still to come. */
  ghost predicate Takes(env: Env, filled: (seq<Message>, nat), xs: seq<Message>, n: nat) {
    && n <= |xs| && filled.1 <= |env.candidates|
    && filled.0 == xs[..n] && Writables(env, filled.1, |env.candidates|) == xs[n..]
  }

  /** Filling takes the same first block as the packer, whatever was rejected in between. */
  lemma {:induction false} FillIsGrow(env: Env, size: seq<Message> -> nat, part: nat, i: nat, j: nat)
    requires UniformSizes(env, size)
    requires i <= j <= |env.candidates| && Writables(env, i, j) != []
    ensures |Writables(env, i, j)| <= |Writables(env, i, |env.candidates|)|
    ensures Takes(env, Fill(env, part, j, Writables(env, i, j)), Writables(env, i, |env.candidates|),
      Greedy.Grow(size, env.maximum, Writables(env, i, |env.candidates|), |Writables(env, i, j)|))
    decreases |env.candidates| - j
  {
    var end := |env.candidates|;
    var taken := Writables(env, i, j);
    WritablesJoin(env, i, j, end);
    if j < end {
      match env.translate(env.candidates[j])
      case Writable(m) =>
        WritablesJoin(env, i, j + 1, end);
        NextTaken(taken, m, Writables(env, j + 1, end));
        assert Writables(env, i, j + 1) == taken + [m];
        assert env.sizes.projected(part, taken + [m]) == size(taken + [m]);
        if size(taken + [m]) <= env.maximum {
          FillIsGrow(env, size, part, i, j + 1);
        } else {
          assert Fill(env, part, j, taken) == (taken, j);
        }
      case _ =>
        assert Writables(env, i, j + 1) == taken;
        FillIsGrow(env, size, part, i, j + 1);
    }
  }

  lemma NextTaken<T>(taken: seq<T>, m: T, rest: seq<T>)
    ensures (taken + [m] + rest)[..|taken| + 1] == taken + [m]
    ensures (taken + [m] + rest)[..|taken|] == taken
  {}

  lemma {:induction false} FillFromNothing(env: Env, size: seq<Message> -> nat, part: nat, i: nat)
    requires UniformSizes(env, size) && i <= |env.candidates|
    ensures var xs := Writables(env, i, |env.candidates|);
      var (taken, next) := Fill(env, part, i, []);
      if xs == [] then taken == []
      else
        var n := Greedy.FirstLength(size, env.maximum, xs);
        Takes(env, (taken, next), xs, n)
    decreases |env.candidates| - i
  {
    var end := |env.candidates|;
    if i < end {
      WritablesStep(env, i);
      match env.translate(env.candidates[i])
      case Writable(m) =>
        FillIsGrow(env, size, part, i, i + 1);
        OversizeAlone(size, env.maximum, Writables(env, i, end));
      case _ =>
        FillFromNothing(env, size, part, i + 1);
    }
  }

  lemma WritablesStep(env: Env, i: nat)
    requires i < |env.candidates|
    ensures var rest := Writables(env, i + 1, |env.candidates|);
      match env.translate(env.candidates[i])
      case Writable(m) =>
        Writables(env, i, i + 1) == [m] && Writables(env, i, |env.candidates|) == [m] + rest
      case _ => Writables(env, i, i + 1) == [] && Writables(env, i, |env.candidates|) == rest
  {
    WritablesJoin(env, i, i + 1, |env.candidates|);
    assert Writables(env, i, i) == [];
    assert [] + Writables(env, i + 1, |env.candidates|) == Writables(env, i + 1, |env.candidates|);
  }

  /** The packer closes a block at once when its first item is oversize; growing it would stop there too. */
  lemma OversizeAlone<T(!new)>(size: seq<T> -> nat, limit: nat, xs: seq<T>)
    requires Greedy.Monotone(size) && xs != []
    ensures Greedy.FirstLength(size, limit, xs) == Greedy.Grow(size, limit, xs, 1)
  {
    if |xs| > 1 {
      assert Greedy.Grows(size, xs[..1], xs[1]);
      assert xs[..1] + [xs[1]] == xs[..2];
    }
  }

  /** One-message-at-a-time parts are the packer's greedy blocks of the writable messages. */
  lemma {:induction false} GreedyPartsAreBlocks(env: Env, size: seq<Message> -> nat, part: nat, i: nat)
    requires UniformSizes(env, size) && i <= |env.candidates|
    ensures GreedyParts(env, part, i)
         == Greedy.Blocks(size, env.maximum, Writables(env, i, |env.candidates|))
    decreases |env.candidates| - i
  {
    FillFromNothing(env, size, part, i);
    var (taken, next) := Fill(env, part, i, []);
    if taken != [] {
      GreedyPartsAreBlocks(env, size, part + 1, next);
    }
  }

  /** So no division of the writable messages into publishable parts uses fewer parts. */
  lemma GreedyPartsFewest(env: Env, size: seq<Message> -> nat, part: nat, i: nat, blocks: seq<seq<Message>>)
    requires UniformSizes(env, size) && i <= |env.candidates|
    requires Greedy.Division(size, env.maximum, Writables(env, i, |env.candidates|), blocks)
    ensures |GreedyParts(env, part, i)| <= |blocks|
  {
    GreedyPartsAreBlocks(env, size, part, i);
    Greedy.BlocksFewest(size, env.maximum, Writables(env, i, |env.candidates|), blocks);
  }
}

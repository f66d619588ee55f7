/**
 What filling a part in batches takes, as a function of the candidates: appending goes on unmeasured until a batch
 is due, an accepted batch is kept, and the first batch that overshoots is filled again one message at a time.
 Compared with one-message-at-a-time filling from the start.
 */
module SplitBatches {
  import opened Wrappers
  import opened PartWriter
  import opened SplitSpec
  import Greedy

  const MAX_BATCH_MESSAGES: nat := 2048

  function SaturatingSub(a: nat, b: nat): nat {
    if a < b then 0 else a - b
  }

  /** How many private bytes a batch may add before it is measured. */
  function BatchByteTarget(maximum: nat, privateEof: nat): (r: nat)
    ensures r > 0
  {
    var reserve := if maximum / 16 > 1 then maximum / 16 else 1;
    if privateEof >= SaturatingSub(maximum, reserve) then (if maximum / 256 > 1 then maximum / 256 else 1)
    else reserve
  }

  /**
   Far from the maximum a batch may add a sixteenth of it, which never leads past the maximum; within the last
   sixteenth it may add a 256th.
   */
  lemma TargetScales(maximum: nat, privateEof: nat)
    requires maximum >= 256
    ensures 16 * (maximum - privateEof) > maximum ==>
      && 16 * BatchByteTarget(maximum, privateEof) <= maximum < 16 * BatchByteTarget(maximum, privateEof) + 16
      && privateEof + BatchByteTarget(maximum, privateEof) <= maximum
    ensures 16 * (maximum - privateEof) <= maximum ==>
      256 * BatchByteTarget(maximum, privateEof) <= maximum < 256 * BatchByteTarget(maximum, privateEof) + 256
  {}

  function Max(a: nat, b: nat): nat {
    if a < b then b else a
  }

  /** Whether the batch from candidate b to candidate j is measured now. */
  predicate Due(env: Env, part: nat, start: nat, b: nat, j: nat, attempts: nat)
    requires start <= b <= j <= |env.candidates|
  {
    var now := env.sizes.privateEof(part, Writables(env, start, j));
    && attempts != 0
    && Writables(env, start, j) != []
    && (|| SaturatingSub(now, env.sizes.privateEof(part, Writables(env, start, b))) >= BatchByteTarget(env.maximum, now)
        || attempts >= MAX_BATCH_MESSAGES
        || j == |env.candidates|)
  }

  /** A candidate counts as an attempt unless it was rejected when it was seen before. */
  function NextAttempts(env: Env, j: nat, attempts: nat, visited: nat): nat
    requires j < |env.candidates|
  {
    if j < visited && env.translate(env.candidates[j]).Unwritable? then attempts else attempts + 1
  }

  /** A part: its messages, the candidate after it, and how many candidates have been seen by then. */
  datatype Filled = Filled(messages: seq<Message>, next: nat, visited: nat)

  function Seen(filled: (seq<Message>, nat), visited: nat): Filled {
    Filled(filled.0, filled.1, Max(visited, filled.1))
  }

  /** The part that results when candidate j is next and the open batch began at candidate b. */
  function FillBatches(env: Env, part: nat, start: nat, b: nat, j: nat, attempts: nat, visited: nat): (r: Filled)
    requires start <= b <= j <= |env.candidates|
    ensures start <= r.next <= |env.candidates| && visited <= r.visited && r.next <= r.visited
    ensures if r.messages == [] then r.next == |env.candidates| else start < r.next
    decreases |env.candidates| - j, attempts
  {
    var taken := Writables(env, start, j);
    if Due(env, part, start, b, j, attempts) then
      if env.sizes.projected(part, taken) > env.maximum && |taken| > 1 then
        Seen(Fill(env, part, b, Writables(env, start, b)), visited)
      else
        FillBatches(env, part, start, j, j, 0, visited)
    else if j == |env.candidates| then
      Seen((taken, j), visited)
    else
      FillBatches(env, part, start, b, j + 1, NextAttempts(env, j, attempts, visited), Max(visited, j + 1))
  }

  function BatchedPart(env: Env, part: nat, start: nat, visited: nat): Filled
    requires start <= |env.candidates|
  {
    FillBatches(env, part, start, start, start, 0, visited)
  }

  /** The parts of a run from candidate i on, the first numbered `part`. */
  function BatchedParts(env: Env, part: nat, i: nat, visited: nat): seq<seq<Message>>
    requires i <= |env.candidates|
    decreases |env.candidates| - i
  {
    var filled := BatchedPart(env, part, i, visited);
    if filled.messages == [] then []
    else [filled.messages] + BatchedParts(env, part + 1, filled.next, filled.visited)
  }

  // Batches against one message at a time.

  /** How a part ends: at the last candidate, or before a message that does not fit beside it. */
  ghost predicate EndsWell(env: Env, part: nat, start: nat, end: nat)
    requires start <= end <= |env.candidates|
  {
    && Accepted(env, part, Writables(env, start, end))
    && (end < |env.candidates| ==>
         && Writables(env, start, end) != []
         && env.translate(env.candidates[end]).Writable?
         && env.sizes.projected(part, Writables(env, start, end) + [env.translate(env.candidates[end]).message]) > env.maximum)
  }

  /** One-message-at-a-time filling takes the same part exactly when every prefix of it was publishable. */
  lemma SameAsGreedyExactly(env: Env, part: nat, start: nat, end: nat)
    requires start <= end <= |env.candidates| && EndsWell(env, part, start, end)
    ensures Fill(env, part, start, []) == (Writables(env, start, end), end)
       <==> AcceptedThroughout(env, part, Writables(env, start, end))
  {
    if AcceptedThroughout(env, part, Writables(env, start, end)) {
      FillReachesThroughout(env, part, start, end);
    }
    if Fill(env, part, start, []) == (Writables(env, start, end), end) {
      FillStaysAccepted(env, part, start, []);
    }
  }

  /** The parts of one-message-at-a-time filling are publishable at every prefix. */
  lemma {:induction false} GreedyPartsThroughout(env: Env, part: nat, i: nat, k: nat)
    requires i <= |env.candidates| && k < |GreedyParts(env, part, i)|
    ensures AcceptedThroughout(env, part + k, GreedyParts(env, part, i)[k])
    decreases k
  {
    FillStaysAccepted(env, part, i, []);
    if k > 0 {
      GreedyPartsThroughout(env, part + 1, Fill(env, part, i, []).1, k - 1);
    }
  }

  /** When appending never makes a file shorter, a publishable part was publishable at every prefix. */
  lemma GrowingThroughout(env: Env, part: nat, s: seq<Message>)
    requires GrowingSizes(env) && Accepted(env, part, s)
    ensures AcceptedThroughout(env, part, s)
  {
    forall n | 0 <= n <= |s| ensures Accepted(env, part, s[..n]) {
      AcceptedPrefix(env, part, s, n);
    }
  }

  // A file that shrinks when a third message joins.

  ghost predicate Shrinking(env: Env, m: Message) {
    && env.candidates == ["a", "b", "c"] && env.translate == (key => Writable(m)) && env.maximum == 10
    && env.sizes.projected == ((part, messages) => if |messages| == 2 then 11 else 10)
    && env.sizes.privateEof == ((part, messages) => 0)
  }

  /** The loop keeps all three messages in one part, while one-message-at-a-time filling stops after the first. */
  lemma ShrinkingFileSplitsDifferently(env: Env, m: Message, part: nat)
    requires Shrinking(env, m)
    ensures BatchedParts(env, part, 0, 0) == [[m, m, m]]
    ensures Fill(env, part, 0, []) == ([m], 1) && GreedyParts(env, part, 0) != [[m, m, m]]
  {
    assert Writables(env, 0, 0) == [];
    assert Writables(env, 0, 1) == [m];
    assert Writables(env, 0, 2) == [m, m];
    assert Writables(env, 0, 3) == [m, m, m];
    assert |[m, m]| == 2 && Fill(env, part, 1, [m]) == ([m], 1);
    assert FillBatches(env, part, 0, 3, 3, 0, 3) == Filled([m, m, m], 3, 3);
    assert FillBatches(env, part, 0, 0, 3, 3, 3) == Filled([m, m, m], 3, 3);
    assert FillBatches(env, part, 0, 0, 2, 2, 2) == Filled([m, m, m], 3, 3);
    assert FillBatches(env, part, 0, 0, 1, 1, 1) == Filled([m, m, m], 3, 3);
    assert Writables(env, 3, 3) == [];
    assert BatchedPart(env, part + 1, 3, 3).messages == [];
    assert GreedyParts(env, part, 0)[0] == [m];
  }
}

/**
 Greedy filling of size-capped blocks, as a specification shared by the packer and the part loop: a
 block grows while the whole block still fits, and an item too large on its own stands alone.
 */
module Greedy {

  ghost predicate Grows<T>(size: seq<T> -> nat, s: seq<T>, x: T) {
    size(s) <= size(s + [x]) && size(s) <= size([x] + s)
  }

  /** Adding an item at either end never makes a block smaller. */
  ghost predicate Monotone<T(!new)>(size: seq<T> -> nat) {
    forall s, x :: Grows(size, s, x)
  }

  /** Whether a block may be emitted: it fits, or it cannot be split. */
  predicate Allowed<T>(size: seq<T> -> nat, limit: nat, block: seq<T>) {
    block != [] && (size(block) <= limit || |block| == 1)
  }

  /** How far a block that already holds the first n items grows. */
  function Grow<T>(size: seq<T> -> nat, limit: nat, xs: seq<T>, n: nat): (r: nat)
    requires 0 < n <= |xs|
    ensures n <= r <= |xs|
    ensures forall k :: n < k <= r ==> size(xs[..k]) <= limit
    ensures r < |xs| ==> size(xs[..r + 1]) > limit
    decreases |xs| - n
  {
    if n < |xs| && size(xs[..n + 1]) <= limit then Grow(size, limit, xs, n + 1) else n
  }

  function FirstLength<T>(size: seq<T> -> nat, limit: nat, xs: seq<T>): (r: nat)
    requires xs != []
    ensures 0 < r <= |xs|
  {
    if size(xs[..1]) > limit then 1 else Grow(size, limit, xs, 1)
  }

  function Blocks<T>(size: seq<T> -> nat, limit: nat, xs: seq<T>): seq<seq<T>> {
    if xs == [] then []
    else
      var n := FirstLength(size, limit, xs);
      [xs[..n]] + Blocks(size, limit, xs[n..])
  }

  function Flatten<T>(blocks: seq<seq<T>>): seq<T> {
    if blocks == [] then [] else blocks[0] + Flatten(blocks[1..])
  }

  lemma {:induction false} FlattenAppend<T>(blocks: seq<seq<T>>, last: seq<T>)
    ensures Flatten(blocks + [last]) == Flatten(blocks) + last
  {
    if blocks == [] {
      assert [] + [last] == [last] && [last][1..] == [];
    } else {
      assert (blocks + [last])[1..] == blocks[1..] + [last];
      FlattenAppend(blocks[1..], last);
    }
  }

  /** A division of xs, in order, into blocks that may all be emitted. */
  ghost predicate Division<T>(size: seq<T> -> nat, limit: nat, xs: seq<T>, blocks: seq<seq<T>>) {
    && Flatten(blocks) == xs
    && forall i :: 0 <= i < |blocks| ==> Allowed(size, limit, blocks[i])
  }

  lemma {:induction false} BlocksAreDivision<T>(size: seq<T> -> nat, limit: nat, xs: seq<T>)
    ensures Division(size, limit, xs, Blocks(size, limit, xs))
  {
    if xs != [] {
      var n := FirstLength(size, limit, xs);
      BlocksAreDivision(size, limit, xs[n..]);
      var rest := Blocks(size, limit, xs[n..]);
      assert Blocks(size, limit, xs)[1..] == rest;
      assert xs[..n] + xs[n..] == xs;
      assert Allowed(size, limit, xs[..n]) by {
        if n > 1 { assert size(xs[..n]) <= limit; }
      }
    }
  }

  lemma {:induction false} PrefixSmaller<T(!new)>(size: seq<T> -> nat, s: seq<T>, n: nat)
    requires Monotone(size) && n <= |s|
    ensures size(s[..n]) <= size(s)
    decreases |s|
  {
    if n < |s| {
      var m := |s| - 1;
      PrefixSmaller(size, s[..m], n);
      assert s[..m][..n] == s[..n];
      assert s[..m] + [s[m]] == s;
      assert Grows(size, s[..m], s[m]);
    } else {
      assert s[..n] == s;
    }
  }

  lemma {:induction false} SuffixSmaller<T(!new)>(size: seq<T> -> nat, s: seq<T>, n: nat)
    requires Monotone(size) && n <= |s|
    ensures size(s[n..]) <= size(s)
    decreases n
  {
    if n > 0 {
      SuffixSmaller(size, s[1..], n - 1);
      assert s[1..][n - 1..] == s[n..];
      assert [s[0]] + s[1..] == s;
      assert Grows(size, s[1..], s[0]);
    } else {
      assert s[0..] == s;
    }
  }

  /** No allowed block at the front is longer than the greedy one. */
  lemma FirstLengthMaximal<T(!new)>(size: seq<T> -> nat, limit: nat, xs: seq<T>, n: nat)
    requires Monotone(size) && 0 < n <= |xs| && Allowed(size, limit, xs[..n])
    ensures n <= FirstLength(size, limit, xs)
  {
    var g := FirstLength(size, limit, xs);
    if g < n {
      assert xs[..n][..g + 1] == xs[..g + 1];
      assert xs[..g + 1][..1] == xs[..1];
      PrefixSmaller(size, xs[..g + 1], 1);
      PrefixSmaller(size, xs[..n], g + 1);
    }
  }

  /** Starting later never needs more blocks. */
  lemma {:induction false} LaterStart<T(!new)>(size: seq<T> -> nat, limit: nat, xs: seq<T>, n: nat)
    requires Monotone(size) && n <= |xs|
    ensures |Blocks(size, limit, xs[n..])| <= |Blocks(size, limit, xs)|
    decreases |xs|, n
  {
    if n == 0 {
      assert xs[0..] == xs;
    } else {
      var g := FirstLength(size, limit, xs);
      if n >= g {
        LaterStart(size, limit, xs[g..], n - g);
        assert xs[g..][n - g..] == xs[n..];
      } else {
        // xs[n..g] is the end of an allowed block, so the greedy block from n reaches at least g.
        SuffixSmaller(size, xs[..g], n);
        assert xs[..g][n..] == xs[n..][..g - n];
        FirstLengthMaximal(size, limit, xs[n..], g - n);
        var h := FirstLength(size, limit, xs[n..]);
        LaterStart(size, limit, xs[g..], n + h - g);
        assert xs[g..][n + h - g..] == xs[n..][h..];
      }
    }
  }

  /** Greedy filling uses the fewest blocks of any division. */
  lemma {:induction false} BlocksFewest<T(!new)>(size: seq<T> -> nat, limit: nat, xs: seq<T>, blocks: seq<seq<T>>)
    requires Monotone(size) && Division(size, limit, xs, blocks)
    ensures |Blocks(size, limit, xs)| <= |blocks|
    decreases |blocks|
  {
    if blocks != [] {
      var n := |blocks[0]|;
      var rest := Flatten(blocks[1..]);
      assert xs == blocks[0] + rest;
      assert xs[..n] == blocks[0] && xs[n..] == rest;
      assert Division(size, limit, rest, blocks[1..]);
      BlocksFewest(size, limit, rest, blocks[1..]);
      assert Allowed(size, limit, blocks[0]);
      FirstLengthMaximal(size, limit, xs, n);
      var g := FirstLength(size, limit, xs);
      LaterStart(size, limit, rest, g - n);
      assert rest[g - n..] == xs[g..];
    }
  }
}

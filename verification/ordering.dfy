/** Comparison functions, lexicographic order on sequences, and stable sorting. */
module Ordering {

  /** A three-way comparison that is a total order whose ties are equalities. */
  ghost predicate TotalOrder<T(!new)>(cmp: (T, T) -> int) {
    && (forall a, b :: cmp(a, b) == 0 <==> a == b)
    && (forall a, b :: cmp(a, b) < 0 <==> cmp(b, a) > 0)
    && (forall a, b, c :: cmp(a, b) <= 0 && cmp(b, c) <= 0 ==> cmp(a, c) <= 0)
  }

  function CompareSeq<T>(cmp: (T, T) -> int, a: seq<T>, b: seq<T>): int {
    if a == [] then (if b == [] then 0 else -1)
    else if b == [] then 1
    else
      var first := cmp(a[0], b[0]);
      if first != 0 then first else CompareSeq(cmp, a[1..], b[1..])
  }

  lemma {:induction false} CompareSeqTies<T(!new)>(cmp: (T, T) -> int, a: seq<T>, b: seq<T>)
    requires TotalOrder(cmp)
    ensures CompareSeq(cmp, a, b) == 0 <==> a == b
    ensures CompareSeq(cmp, a, b) < 0 <==> CompareSeq(cmp, b, a) > 0
  {
    if a != [] && b != [] {
      CompareSeqTies(cmp, a[1..], b[1..]);
      assert a == [a[0]] + a[1..] && b == [b[0]] + b[1..];
    }
  }

  lemma {:induction false} CompareSeqTransitive<T(!new)>(cmp: (T, T) -> int, a: seq<T>, b: seq<T>, c: seq<T>)
    requires TotalOrder(cmp)
    requires CompareSeq(cmp, a, b) <= 0 && CompareSeq(cmp, b, c) <= 0
    ensures CompareSeq(cmp, a, c) <= 0
  {
    if a != [] && b != [] && c != [] {
      if cmp(a[0], b[0]) == 0 && cmp(b[0], c[0]) == 0 {
        CompareSeqTransitive(cmp, a[1..], b[1..], c[1..]);
      } else {
        assert cmp(a[0], c[0]) <= 0;
      }
    }
  }

  lemma CompareSeqTotalOrder<T(!new)>(cmp: (T, T) -> int)
    requires TotalOrder(cmp)
    ensures TotalOrder((a, b) => CompareSeq(cmp, a, b))
  {
    forall a, b
      ensures CompareSeq(cmp, a, b) == 0 <==> a == b
      ensures CompareSeq(cmp, a, b) < 0 <==> CompareSeq(cmp, b, a) > 0
    {
      CompareSeqTies(cmp, a, b);
    }
    forall a, b, c | CompareSeq(cmp, a, b) <= 0 && CompareSeq(cmp, b, c) <= 0
      ensures CompareSeq(cmp, a, c) <= 0
    {
      CompareSeqTransitive(cmp, a, b, c);
    }
  }

  // Stable sorting by a rank.

  function Insert<T, R>(rank: T -> R, cmp: (R, R) -> int, x: T, s: seq<T>): seq<T> {
    if s == [] then [x]
    else if cmp(rank(x), rank(s[0])) <= 0 then [x] + s
    else [s[0]] + Insert(rank, cmp, x, s[1..])
  }

  function Sort<T, R>(rank: T -> R, cmp: (R, R) -> int, s: seq<T>): seq<T> {
    if s == [] then [] else Insert(rank, cmp, s[0], Sort(rank, cmp, s[1..]))
  }

  lemma {:induction false} InsertPermutes<T, R>(rank: T -> R, cmp: (R, R) -> int, x: T, s: seq<T>)
    ensures multiset(Insert(rank, cmp, x, s)) == multiset([x]) + multiset(s)
  {
    if s != [] && cmp(rank(x), rank(s[0])) > 0 {
      InsertPermutes(rank, cmp, x, s[1..]);
      assert s == [s[0]] + s[1..];
    }
  }

  lemma {:induction false} SortPermutes<T, R>(rank: T -> R, cmp: (R, R) -> int, s: seq<T>)
    ensures multiset(Sort(rank, cmp, s)) == multiset(s)
  {
    if s != [] {
      SortPermutes(rank, cmp, s[1..]);
      InsertPermutes(rank, cmp, s[0], Sort(rank, cmp, s[1..]));
      assert s == [s[0]] + s[1..];
    }
  }

  function Ranks<T, R>(rank: T -> R, s: seq<T>): (r: seq<R>)
    ensures |r| == |s|
    ensures forall i :: 0 <= i < |s| ==> r[i] == rank(s[i])
  {
    seq(|s|, i requires 0 <= i < |s| => rank(s[i]))
  }

  ghost predicate Sorted<T, R>(rank: T -> R, cmp: (R, R) -> int, s: seq<T>) {
    forall i, j :: 0 <= i < j < |s| ==> cmp(rank(s[i]), rank(s[j])) <= 0
  }

  lemma {:induction false} InsertMember<T, R>(rank: T -> R, cmp: (R, R) -> int, x: T, s: seq<T>, y: T)
    requires y in Insert(rank, cmp, x, s)
    ensures y == x || y in s
  {
    if s != [] && cmp(rank(x), rank(s[0])) > 0 && y != s[0] {
      InsertMember(rank, cmp, x, s[1..], y);
    }
  }

  lemma {:induction false} InsertSorted<T, R(!new)>(rank: T -> R, cmp: (R, R) -> int, x: T, s: seq<T>)
    requires TotalOrder(cmp) && Sorted(rank, cmp, s)
    ensures Sorted(rank, cmp, Insert(rank, cmp, x, s))
  {
    if s == [] {
    } else if cmp(rank(x), rank(s[0])) <= 0 {
      forall j | 0 <= j < |s| ensures cmp(rank(x), rank(s[j])) <= 0 {
        assert j == 0 || cmp(rank(s[0]), rank(s[j])) <= 0;
      }
    } else {
      InsertSorted(rank, cmp, x, s[1..]);
      var rest := Insert(rank, cmp, x, s[1..]);
      forall j | 0 <= j < |rest| ensures cmp(rank(s[0]), rank(rest[j])) <= 0 {
        InsertMember(rank, cmp, x, s[1..], rest[j]);
      }
    }
  }

  lemma {:induction false} SortSorted<T, R(!new)>(rank: T -> R, cmp: (R, R) -> int, s: seq<T>)
    requires TotalOrder(cmp)
    ensures Sorted(rank, cmp, Sort(rank, cmp, s))
  {
    if s != [] {
      SortSorted(rank, cmp, s[1..]);
      InsertSorted(rank, cmp, s[0], Sort(rank, cmp, s[1..]));
    }
  }

  lemma TailContents<T>(s: seq<T>)
    requires s != []
    ensures multiset(s[1..]) == multiset(s) - multiset{s[0]}
  {
    assert s == [s[0]] + s[1..];
  }

  lemma HeadLeast<T, R(!new)>(rank: T -> R, cmp: (R, R) -> int, s: seq<T>, x: T)
    requires TotalOrder(cmp) && Sorted(rank, cmp, s) && x in s
    ensures cmp(rank(s[0]), rank(x)) <= 0
  {
    var i :| 0 <= i < |s| && s[i] == x;
    assert i == 0 || cmp(rank(s[0]), rank(s[i])) <= 0;
  }

  lemma Antisymmetric<R(!new)>(cmp: (R, R) -> int, x: R, y: R)
    requires TotalOrder(cmp) && cmp(x, y) <= 0 && cmp(y, x) <= 0
    ensures x == y
  {}

  lemma Removed<T>(s: seq<T>, x: T) returns (i: nat)
    requires x in s
    ensures i < |s| && s[i] == x
    ensures multiset(s[..i] + s[i + 1..]) == multiset(s) - multiset{x}
  {
    i :| 0 <= i < |s| && s[i] == x;
    assert s == s[..i] + [x] + s[i + 1..];
  }

  /** Sorting sends equal contents to equal ranks, position by position. */
  lemma {:induction false} SortedRanksUnique<T, R(!new)>(rank: T -> R, cmp: (R, R) -> int, a: seq<T>, b: seq<T>)
    requires TotalOrder(cmp) && Sorted(rank, cmp, a) && Sorted(rank, cmp, b)
    requires multiset(Ranks(rank, a)) == multiset(Ranks(rank, b))
    ensures Ranks(rank, a) == Ranks(rank, b)
  {
    if a == [] {
      assert |multiset(Ranks(rank, b))| == 0;
    } else {
      SameHead(rank, cmp, a, b);
      RanksTail(rank, a);
      RanksTail(rank, b);
      SortedTail(rank, cmp, a);
      SortedTail(rank, cmp, b);
      SortedRanksUnique(rank, cmp, a[1..], b[1..]);
    }
  }

  lemma SortedTail<T, R>(rank: T -> R, cmp: (R, R) -> int, s: seq<T>)
    requires s != [] && Sorted(rank, cmp, s)
    ensures Sorted(rank, cmp, s[1..])
  {}

  lemma RanksTail<T, R>(rank: T -> R, s: seq<T>)
    requires s != []
    ensures multiset(Ranks(rank, s[1..])) == multiset(Ranks(rank, s)) - multiset{rank(s[0])}
    ensures Ranks(rank, s) == [rank(s[0])] + Ranks(rank, s[1..])
  {
    assert Ranks(rank, s) == [rank(s[0])] + Ranks(rank, s[1..]);
  }

  lemma SameHead<T, R(!new)>(rank: T -> R, cmp: (R, R) -> int, a: seq<T>, b: seq<T>)
    requires TotalOrder(cmp) && Sorted(rank, cmp, a) && Sorted(rank, cmp, b)
    requires a != [] && multiset(Ranks(rank, a)) == multiset(Ranks(rank, b))
    ensures b != [] && rank(a[0]) == rank(b[0])
  {
    RankOccurs(rank, a, b);
    RankOccurs(rank, b, a);
    var i :| 0 <= i < |b| && rank(b[i]) == rank(a[0]);
    var j :| 0 <= j < |a| && rank(a[j]) == rank(b[0]);
    HeadLeast(rank, cmp, b, b[i]);
    HeadLeast(rank, cmp, a, a[j]);
    Antisymmetric(cmp, rank(a[0]), rank(b[0]));
  }

  lemma RankOccurs<T, R>(rank: T -> R, a: seq<T>, b: seq<T>)
    requires a != [] && multiset(Ranks(rank, a)) == multiset(Ranks(rank, b))
    ensures exists i :: 0 <= i < |b| && rank(b[i]) == rank(a[0])
    ensures b != []
  {
    var ra, rb := Ranks(rank, a), Ranks(rank, b);
    assert ra[0] in multiset(rb);
    var i :| 0 <= i < |rb| && rb[i] == ra[0];
    assert rank(b[i]) == rank(a[0]);
  }

  /** The contents of the ranks depend only on the contents of the sequence. */
  lemma {:induction false} RanksOfPermutation<T, R>(rank: T -> R, a: seq<T>, b: seq<T>)
    requires multiset(a) == multiset(b)
    ensures multiset(Ranks(rank, a)) == multiset(Ranks(rank, b))
  {
    if a == [] {
      assert |multiset(b)| == 0;
    } else {
      assert a[0] in multiset(b);
      var i := Removed(b, a[0]);
      var rest := b[..i] + b[i + 1..];
      TailContents(a);
      RanksOfPermutation(rank, a[1..], rest);
      RanksTail(rank, a);
      RanksSplit(rank, b, i);
    }
  }

  lemma RanksSplit<T, R>(rank: T -> R, s: seq<T>, i: nat)
    requires i < |s|
    ensures multiset(Ranks(rank, s)) == multiset(Ranks(rank, s[..i] + s[i + 1..])) + multiset{rank(s[i])}
  {
    var r := Ranks(rank, s);
    assert r == r[..i] + [r[i]] + r[i + 1..];
    assert Ranks(rank, s[..i] + s[i + 1..]) == r[..i] + r[i + 1..];
  }
}

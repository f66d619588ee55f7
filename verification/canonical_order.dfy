/**
 What the canonical order of candidates is, said of the candidates themselves, and when packing succeeds.
 */
module CanonicalOrder {
  import opened Wrappers
  import opened Ordering
  import opened Packing

  // Dictionary order.

  /** The first difference decides, and a prefix comes first. */
  ghost predicate DictionaryBefore<T(!new)>(less: (T, T) -> bool, a: seq<T>, b: seq<T>) {
    exists k :: DiffersAt(less, a, b, k)
  }

  ghost predicate DiffersAt<T(!new)>(less: (T, T) -> bool, a: seq<T>, b: seq<T>, k: nat) {
    && k <= |a| && k < |b| && a[..k] == b[..k]
    && (k == |a| || less(a[k], b[k]))
  }

  ghost predicate Decides<T(!new)>(cmp: (T, T) -> int, less: (T, T) -> bool) {
    forall a, b :: cmp(a, b) < 0 <==> less(a, b)
  }

  lemma DiffersLater<T(!new)>(less: (T, T) -> bool, a: seq<T>, b: seq<T>, k: nat)
    requires a != [] && b != [] && a[0] == b[0]
    ensures DiffersAt(less, a[1..], b[1..], k) <==> DiffersAt(less, a, b, k + 1)
  {
    if k + 1 <= |a| && k + 1 <= |b| {
      assert a[..k + 1] == [a[0]] + a[1..][..k];
      assert b[..k + 1] == [b[0]] + b[1..][..k];
      if a[..k + 1] == b[..k + 1] {
        assert a[..k + 1][1..] == b[..k + 1][1..];
        assert a[..k + 1][1..] == a[1..][..k] && b[..k + 1][1..] == b[1..][..k];
      }
    }
  }

  lemma NoLaterDifference<T(!new)>(less: (T, T) -> bool, a: seq<T>, b: seq<T>, k: nat)
    requires a != [] && b != [] && a[0] != b[0] && k > 0
    ensures !DiffersAt(less, a, b, k)
  {
    if k <= |a| && k < |b| {
      assert a[..k][0] == a[0] && b[..k][0] == b[0];
    }
  }

  /** The comparison of sequences is dictionary order. */
  lemma {:induction false} CompareSeqIsDictionary<T(!new)>(cmp: (T, T) -> int, less: (T, T) -> bool, a: seq<T>, b: seq<T>)
    requires TotalOrder(cmp) && Decides(cmp, less)
    ensures CompareSeq(cmp, a, b) < 0 <==> DictionaryBefore(less, a, b)
  {
    if a == [] {
      if b != [] {
        assert DiffersAt(less, a, b, 0);
      }
    } else if b != [] {
      if cmp(a[0], b[0]) != 0 {
        assert DiffersAt(less, a, b, 0) <==> less(a[0], b[0]);
        forall k: nat | k > 0 ensures !DiffersAt(less, a, b, k) {
          NoLaterDifference(less, a, b, k);
        }
      } else {
        CompareSeqIsDictionary(cmp, less, a[1..], b[1..]);
        assert !DiffersAt(less, a, b, 0) by {
          assert cmp(a[0], b[0]) == 0;
        }
        forall k: nat ensures DiffersAt(less, a[1..], b[1..], k) <==> DiffersAt(less, a, b, k + 1) {
          DiffersLater(less, a, b, k);
        }
        if DictionaryBefore(less, a, b) {
          var k: nat :| DiffersAt(less, a, b, k);
          assert DiffersAt(less, a[1..], b[1..], k - 1);
        }
      }
    }
  }

  // The order of candidates.

  predicate CharBefore(a: char, b: char) {
    a < b
  }

  ghost predicate StringBefore(a: string, b: string) {
    DictionaryBefore(CharBefore, a, b)
  }

  ghost predicate PathBefore(a: seq<string>, b: seq<string>) {
    DictionaryBefore(StringBefore, a, b)
  }

  /** Normal items first, then recovered ones, orphans and fragments. */
  predicate ProvenanceBefore(a: Provenance, b: Provenance) {
    match a
    case Normal => !b.Normal?
    case Recovered => b.Orphan? || b.Fragment?
    case Orphan => b.Fragment?
    case Fragment => false
  }

  /** No number before any number. */
  predicate OptionBefore(a: Option<nat>, b: Option<nat>) {
    b.Some? && (a.None? || a.value < b.value)
  }

  predicate KeyBefore(a: ItemKey, b: ItemKey) {
    || ProvenanceBefore(a.provenance, b.provenance)
    || (a.provenance == b.provenance &&
        (|| OptionBefore(a.sourceNodeId, b.sourceNodeId)
         || (a.sourceNodeId == b.sourceNodeId &&
             (|| OptionBefore(a.recoveryIndex, b.recoveryIndex)
              || (a.recoveryIndex == b.recoveryIndex && a.occurrence < b.occurrence)))))
  }

  /** What is under the store root first; then by folder path, and in a folder by item key. */
  ghost predicate CandidateBefore(a: PackCandidate, b: PackCandidate) {
    || (a.location.StoreRoot? && b.location.IpmSubtree?)
    || (a.location == b.location && (PathBefore(a.path, b.path) || (a.path == b.path && KeyBefore(a.key, b.key))))
  }

  lemma StringOrder(a: string, b: string)
    ensures CompareString(a, b) < 0 <==> StringBefore(a, b)
  {
    CompareSeqIsDictionary(CompareChar, CharBefore, a, b);
  }

  lemma PathOrder(a: seq<string>, b: seq<string>)
    ensures ComparePath(a, b) < 0 <==> PathBefore(a, b)
  {
    forall x, y ensures CompareString(x, y) < 0 <==> StringBefore(x, y) {
      StringOrder(x, y);
    }
    CompareStringTotal();
    CompareSeqIsDictionary(CompareString, StringBefore, a, b);
  }

  lemma CompareFour(a: seq<int>, b: seq<int>)
    requires |a| == |b| == 4
    ensures CompareSeq(CompareNat, a, b) < 0 <==>
      a[0] < b[0] || (a[0] == b[0] && (a[1] < b[1] || (a[1] == b[1] && (a[2] < b[2] || (a[2] == b[2] && a[3] < b[3])))))
  {
    var a1, b1 := a[1..], b[1..];
    var a2, b2 := a1[1..], b1[1..];
    var a3, b3 := a2[1..], b2[1..];
    assert CompareSeq(CompareNat, a3[1..], b3[1..]) == 0;
    assert CompareSeq(CompareNat, a3, b3) == CompareNat(a3[0], b3[0]);
    assert CompareSeq(CompareNat, a2, b2) == if CompareNat(a2[0], b2[0]) != 0 then CompareNat(a2[0], b2[0])
                                            else CompareSeq(CompareNat, a3, b3);
    assert CompareSeq(CompareNat, a1, b1) == if CompareNat(a1[0], b1[0]) != 0 then CompareNat(a1[0], b1[0])
                                            else CompareSeq(CompareNat, a2, b2);
  }

  lemma KeyOrder(a: ItemKey, b: ItemKey)
    ensures CompareSeq(CompareNat, KeyFields(a), KeyFields(b)) < 0 <==> KeyBefore(a, b)
  {
    CompareFour(KeyFields(a), KeyFields(b));
  }

  lemma RankOrder(a: PackCandidate, b: PackCandidate)
    ensures CompareRank(RankOf(a), RankOf(b)) < 0 <==> CandidateBefore(a, b)
  {
    if a.location == b.location {
      PathOrder(a.path, b.path);
      ComparePathTotal();
      assert ComparePath(a.path, b.path) == 0 <==> a.path == b.path;
      KeyOrder(a.key, b.key);
    }
  }

  /** Nothing in the canonical order comes before something placed earlier. */
  lemma CanonicalInOrder(candidates: seq<PackCandidate>, i: nat, j: nat)
    requires i < j < |Canonical(candidates)|
    ensures !CandidateBefore(Canonical(candidates)[j], Canonical(candidates)[i])
  {
    var s := Canonical(candidates);
    CanonicalIsSorted(candidates);
    RankOrder(s[j], s[i]);
    CompareRankTies(RankOf(s[i]), RankOf(s[j]));
    CompareRankTies(RankOf(s[j]), RankOf(s[i]));
  }

  // When packing succeeds.

  /** No key repeats exactly when there are as many keys as candidates. */
  lemma {:induction false} KeysCount(s: seq<PackCandidate>)
    ensures |Keys(s)| <= |s|
    ensures |Keys(s)| == |s| <==> DistinctKeys(s)
  {
    if s != [] {
      var n := |s| - 1;
      KeysCount(s[..n]);
      assert s == s[..n] + [s[n]];
      DistinctKeysAppend(s[..n], s[n]);
      KeysAppend(s[..n], s[n]);
    }
  }

  lemma KeysAppend(s: seq<PackCandidate>, x: PackCandidate)
    ensures Keys(s + [x]) == Keys(s) + {x.key}
  {
    forall i | 0 <= i < |s| ensures s[i].key in Keys(s + [x]) {
      assert (s + [x])[i] == s[i];
    }
    assert (s + [x])[|s|] == x;
  }

  lemma SameKeys(a: seq<PackCandidate>, b: seq<PackCandidate>)
    requires multiset(a) == multiset(b)
    ensures Keys(a) <= Keys(b) && |a| == |b|
  {
    forall i | 0 <= i < |a| ensures a[i].key in Keys(b) {
      assert a[i] in multiset(b);
      var j :| 0 <= j < |b| && b[j] == a[i];
    }
    assert |multiset(a)| == |a| && |multiset(b)| == |b|;
  }

  lemma DistinctKeysPermute(a: seq<PackCandidate>, b: seq<PackCandidate>)
    requires multiset(a) == multiset(b)
    ensures DistinctKeys(a) <==> DistinctKeys(b)
  {
    SameKeys(a, b);
    SameKeys(b, a);
    assert Keys(a) == Keys(b);
    KeysCount(a);
    KeysCount(b);
  }

  /** The estimator answers for every proposed part. */
  ghost predicate Answers(est: SizeEstimator) {
    forall s :: est(s).Ok?
  }

  lemma {:induction false} ExtendAnswers(est: SizeEstimator, limit: nat, xs: seq<PackCandidate>, n: nat, bytes: nat)
    requires Answers(est) && 0 < n <= |xs|
    ensures Extend(est, limit, xs, n, bytes).Ok?
    decreases |xs| - n
  {
    if n < |xs| && est(xs[..n + 1]).value <= limit {
      ExtendAnswers(est, limit, xs, n + 1, est(xs[..n + 1]).value);
    }
  }

  lemma {:induction false} AssignAnswers(est: SizeEstimator, limit: nat, xs: seq<PackCandidate>, emitted: nat)
    requires Answers(est) && emitted + |xs| <= 0xFFFF_FFFF
    ensures Assign(est, limit, xs, emitted).Ok?
    decreases |xs|
  {
    if xs != [] {
      if est(xs[..1]).value <= limit {
        ExtendAnswers(est, limit, xs, 1, est(xs[..1]).value);
      }
      AssignAnswers(est, limit, xs[FirstPart(est, limit, xs).value.0..], emitted + 1);
    }
  }

  lemma {:induction false} AssignNumbers(est: SizeEstimator, limit: nat, xs: seq<PackCandidate>, emitted: nat)
    requires Assign(est, limit, xs, emitted).Ok? && emitted <= 0xFFFF_FFFF
    ensures emitted + |Assign(est, limit, xs, emitted).value| <= 0xFFFF_FFFF
    decreases |xs|
  {
    if xs != [] {
      AssignNumbers(est, limit, xs[FirstPart(est, limit, xs).value.0..], emitted + 1);
    }
  }

  /** Every part has a 32-bit number. */
  lemma PartsHaveNumbers(candidates: seq<PackCandidate>, maximum: nat, reserve: nat, est: SizeEstimator)
    requires Pack(candidates, maximum, reserve, est).Ok?
    ensures |Pack(candidates, maximum, reserve, est).value| <= 0xFFFF_FFFF
  {
    PackIsAssign(candidates, maximum, reserve, est);
    AssignNumbers(est, maximum - reserve, Canonical(candidates), 0);
  }

  /** No candidate lies in a folder without a name. */
  ghost predicate NamedFolders(candidates: seq<PackCandidate>) {
    forall c :: c in candidates ==> forall name :: name in c.path ==> |name| > 0
  }

  /**
   With an estimator that answers and no more candidates than part numbers, packing succeeds exactly for a size
   that leaves room for the reserve, named folders, and keys that do not repeat.
   */
  lemma PackSucceeds(candidates: seq<PackCandidate>, maximum: nat, reserve: nat, est: SizeEstimator)
    requires Answers(est) && |candidates| <= 0xFFFF_FFFF
    ensures Pack(candidates, maximum, reserve, est).Ok? <==>
      0 < maximum && reserve <= maximum && NamedFolders(candidates) && DistinctKeys(candidates)
  {
    NamedMeansValid(candidates);
    OrderedRepeats(candidates);
    if reserve <= maximum {
      OrderedSucceeds(candidates, maximum - reserve, est);
    }
  }

  lemma OrderedRepeats(candidates: seq<PackCandidate>)
    ensures FirstRepeat(Canonical(candidates)).None? <==> DistinctKeys(candidates)
  {
    CanonicalIsSorted(candidates);
    DistinctKeysPermute(Canonical(candidates), candidates);
    FirstRepeatExact(Canonical(candidates));
  }

  lemma OrderedSucceeds(candidates: seq<PackCandidate>, limit: nat, est: SizeEstimator)
    requires Answers(est) && |candidates| <= 0xFFFF_FFFF
    ensures Assign(est, limit, Canonical(candidates), 0).Ok?
  {
    CanonicalIsSorted(candidates);
    SameKeys(Canonical(candidates), candidates);
    AssignAnswers(est, limit, Canonical(candidates), 0);
  }

  lemma NamedMeansValid(candidates: seq<PackCandidate>)
    ensures NamedFolders(candidates) <==> ValidPaths(candidates)
  {
    if NamedFolders(candidates) {
      forall i, k | 0 <= i < |candidates| && 0 <= k < |candidates[i].path| ensures candidates[i].path[k] != "" {
        assert candidates[i] in candidates && candidates[i].path[k] in candidates[i].path;
      }
    }
    if ValidPaths(candidates) {
      forall c, name | c in candidates && name in c.path ensures |name| > 0 {
        var i :| 0 <= i < |candidates| && candidates[i] == c;
        assert ValidPath(candidates[i].path);
      }
    }
  }

  /** The key reported is the first that repeats an earlier one. */
  lemma {:induction false} FirstRepeatIsEarliest(s: seq<PackCandidate>, key: ItemKey) returns (n: nat)
    requires FirstRepeat(s) == Some(key)
    ensures n < |s| && s[n].key == key && DistinctKeys(s[..n])
    ensures exists m :: 0 <= m < n && s[m].key == key
  {
    n := |s| - 1;
    if FirstRepeat(s[..n]).Some? {
      n := FirstRepeatIsEarliest(s[..n], key);
      assert s[..|s| - 1][..n] == s[..n];
      var m :| 0 <= m < n && s[..|s| - 1][m].key == key;
      assert s[m].key == key;
    } else {
      FirstRepeatExact(s[..n]);
      var m :| 0 <= m < n && s[..n][m].key == key;
      assert s[m].key == key;
    }
  }
}

/**
 Assignment of candidates to output parts: canonical sorting, duplicate rejection, and greedy packing
 against an estimator that measures whole parts and may fail.
 */
module Packing {
  import opened Wrappers
  import opened Ordering
  import Greedy

  datatype Provenance = Normal | Recovered | Orphan | Fragment
  datatype Location = StoreRoot | IpmSubtree

  datatype ItemKey = ItemKey(
    provenance: Provenance, sourceNodeId: Option<nat>, recoveryIndex: Option<nat>, occurrence: nat)

  datatype PackCandidate = PackCandidate(
    key: ItemKey, location: Location, path: seq<string>, payloadBytes: nat)

  datatype PartAssignment = PartAssignment(
    index: nat, candidates: seq<PackCandidate>, estimatedBytes: nat, oversize: bool)

  datatype PackingError =
    | ZeroMaximumSize
    | ReserveExceedsMaximum(reserve: nat, maximum: nat)
    | InvalidFolderPath
    | DuplicateCandidate(key: ItemKey)
    | TooManyParts
    | SizeOverflow
    | Estimator(detail: string)

  type SizeEstimator = seq<PackCandidate> -> Result<nat, PackingError>

  // Canonical order: location, then path, then item key, each by its derived ordering.

  datatype Rank = Rank(location: Location, path: seq<string>, key: ItemKey)

  function RankOf(c: PackCandidate): Rank {
    Rank(c.location, c.path, c.key)
  }

  function CompareNat(a: int, b: int): int {
    a - b
  }

  function CompareChar(a: char, b: char): int {
    a as int - b as int
  }

  function CompareString(a: string, b: string): int {
    CompareSeq(CompareChar, a, b)
  }

  function ComparePath(a: seq<string>, b: seq<string>): int {
    CompareSeq(CompareString, a, b)
  }

  function LocationNumber(l: Location): int {
    if l.StoreRoot? then 0 else 1
  }

  function ProvenanceNumber(p: Provenance): int {
    match p
    case Normal => 0
    case Recovered => 1
    case Orphan => 2
    case Fragment => 3
  }

  /** An absent value sorts before every present one. */
  function OptionNumber(o: Option<nat>): int {
    match o
    case None => -1
    case Some(v) => v
  }

  function KeyFields(k: ItemKey): seq<int> {
    [ProvenanceNumber(k.provenance), OptionNumber(k.sourceNodeId), OptionNumber(k.recoveryIndex), k.occurrence]
  }

  function CompareRank(a: Rank, b: Rank): int {
    if a.location != b.location then LocationNumber(a.location) - LocationNumber(b.location)
    else if ComparePath(a.path, b.path) != 0 then ComparePath(a.path, b.path)
    else CompareSeq(CompareNat, KeyFields(a.key), KeyFields(b.key))
  }

  lemma KeyFieldsInjective(a: ItemKey, b: ItemKey)
    requires KeyFields(a) == KeyFields(b)
    ensures a == b
  {
    assert KeyFields(a)[0] == KeyFields(b)[0];
    assert KeyFields(a)[1] == KeyFields(b)[1];
    assert KeyFields(a)[2] == KeyFields(b)[2];
    assert KeyFields(a)[3] == KeyFields(b)[3];
  }

  lemma CompareStringTotal()
    ensures TotalOrder(CompareString)
  {
    CompareSeqTotalOrder(CompareChar);
    var f := (a, b) => CompareSeq(CompareChar, a, b);
    assert forall a, b :: f(a, b) == CompareString(a, b);
  }

  lemma ComparePathTotal()
    ensures TotalOrder(ComparePath)
  {
    CompareStringTotal();
    CompareSeqTotalOrder(CompareString);
    var g := (a, b) => CompareSeq(CompareString, a, b);
    assert forall a, b :: g(a, b) == ComparePath(a, b);
  }

  lemma CompareRankTies(a: Rank, b: Rank)
    ensures CompareRank(a, b) == 0 <==> a == b
    ensures CompareRank(a, b) < 0 <==> CompareRank(b, a) > 0
  {
    ComparePathTotal();
    CompareSeqTies(CompareNat, KeyFields(a.key), KeyFields(b.key));
    if KeyFields(a.key) == KeyFields(b.key) {
      KeyFieldsInjective(a.key, b.key);
    }
  }

  lemma CompareRankTransitive(a: Rank, b: Rank, c: Rank)
    requires CompareRank(a, b) <= 0 && CompareRank(b, c) <= 0
    ensures CompareRank(a, c) <= 0
  {
    if a.location == b.location == c.location {
      ComparePathTotal();
      assert ComparePath(a.path, c.path) <= 0;
      if ComparePath(a.path, c.path) == 0 {
        assert ComparePath(b.path, a.path) <= 0;
        CompareSeqTransitive(CompareNat, KeyFields(a.key), KeyFields(b.key), KeyFields(c.key));
      }
    }
  }

  lemma CompareRankTotal()
    ensures TotalOrder(CompareRank)
  {
    forall a, b
      ensures CompareRank(a, b) == 0 <==> a == b
      ensures CompareRank(a, b) < 0 <==> CompareRank(b, a) > 0
    {
      CompareRankTies(a, b);
    }
    forall a, b, c | CompareRank(a, b) <= 0 && CompareRank(b, c) <= 0
      ensures CompareRank(a, c) <= 0
    {
      CompareRankTransitive(a, b, c);
    }
  }

  function Canonical(candidates: seq<PackCandidate>): seq<PackCandidate> {
    Sort(RankOf, CompareRank, candidates)
  }

  predicate ValidPath(path: seq<string>) {
    forall i :: 0 <= i < |path| ==> path[i] != ""
  }

  predicate ValidPaths(candidates: seq<PackCandidate>) {
    forall i :: 0 <= i < |candidates| ==> ValidPath(candidates[i].path)
  }

  function Keys(s: seq<PackCandidate>): set<ItemKey> {
    set i | 0 <= i < |s| :: s[i].key
  }

  /** The key of the earliest candidate that repeats an earlier candidate's key. */
  function FirstRepeat(s: seq<PackCandidate>): Option<ItemKey> {
    if s == [] then None
    else
      var n := |s| - 1;
      var earlier := FirstRepeat(s[..n]);
      if earlier.Some? then earlier
      else if s[n].key in Keys(s[..n]) then Some(s[n].key)
      else None
  }

  ghost predicate DistinctKeys(s: seq<PackCandidate>) {
    forall i, j :: 0 <= i < j < |s| ==> s[i].key != s[j].key
  }

  lemma DistinctKeysAppend(s: seq<PackCandidate>, x: PackCandidate)
    ensures DistinctKeys(s + [x]) <==> DistinctKeys(s) && x.key !in Keys(s)
  {
    var t := s + [x];
    assert forall i :: 0 <= i < |s| ==> t[i] == s[i];
    if DistinctKeys(t) {
      forall i | 0 <= i < |s| ensures s[i].key != x.key {
        assert t[i].key != t[|s|].key;
      }
    }
    if DistinctKeys(s) && x.key !in Keys(s) {
      forall i, j | 0 <= i < j < |t| ensures t[i].key != t[j].key {
        assert s[i].key in Keys(s);
      }
    }
  }

  /** Some key repeats exactly when the keys are not distinct. */
  lemma {:induction false} FirstRepeatExact(s: seq<PackCandidate>)
    ensures FirstRepeat(s).None? <==> DistinctKeys(s)
  {
    if s != [] {
      var n := |s| - 1;
      FirstRepeatExact(s[..n]);
      assert s == s[..n] + [s[n]];
      DistinctKeysAppend(s[..n], s[n]);
    }
  }

  // Packing, block by block.

  /** The length and estimate of the part that already holds the first n items. */
  function Extend(est: SizeEstimator, limit: nat, xs: seq<PackCandidate>, n: nat, bytes: nat)
      : (r: Result<(nat, nat), PackingError>)
    requires 0 < n <= |xs|
    ensures r.Ok? ==> n <= r.value.0 <= |xs|
    decreases |xs| - n
  {
    if n == |xs| then Ok((n, bytes))
    else
      var proposed :- est(xs[..n + 1]);
      if proposed > limit then Ok((n, bytes)) else Extend(est, limit, xs, n + 1, proposed)
  }

  function FirstPart(est: SizeEstimator, limit: nat, xs: seq<PackCandidate>)
      : (r: Result<(nat, nat), PackingError>)
    requires xs != []
    ensures r.Ok? ==> 0 < r.value.0 <= |xs|
  {
    var alone :- est(xs[..1]);
    if alone > limit then Ok((1, alone)) else Extend(est, limit, xs, 1, alone)
  }

  function Assign(est: SizeEstimator, limit: nat, xs: seq<PackCandidate>, emitted: nat)
      : (r: Result<seq<PartAssignment>, PackingError>)
    decreases |xs|
  {
    if xs == [] then Ok([])
    else
      var first :- FirstPart(est, limit, xs);
      if emitted >= U32_MAX then Err(TooManyParts)
      else
        var part := PartAssignment(emitted + 1, xs[..first.0], first.1, first.1 > limit);
        var rest :- Assign(est, limit, xs[first.0..], emitted + 1);
        Ok([part] + rest)
  }

  function Pack(candidates: seq<PackCandidate>, maximum: nat, reserve: nat, est: SizeEstimator)
      : (r: Result<seq<PartAssignment>, PackingError>)
  {
    if maximum == 0 then Err(ZeroMaximumSize)
    else if reserve > maximum then Err(ReserveExceedsMaximum(reserve, maximum))
    else if !ValidPaths(candidates) then Err(InvalidFolderPath)
    else
      var ordered := Canonical(candidates);
      match FirstRepeat(ordered)
      case Some(key) => Err(DuplicateCandidate(key))
      case None => Assign(est, maximum - reserve, ordered, 0)
  }

  method PushPart(parts: seq<PartAssignment>, candidates: seq<PackCandidate>, bytes: nat, oversize: bool)
    returns (r: Result<seq<PartAssignment>, PackingError>)
    ensures |parts| >= U32_MAX ==> r == Err(TooManyParts)
    ensures |parts| < U32_MAX ==> r == Ok(parts + [PartAssignment(|parts| + 1, candidates, bytes, oversize)])
  {
    if |parts| > U32_MAX || |parts| + 1 > U32_MAX {
      return Err(TooManyParts);
    }
    return Ok(parts + [PartAssignment(|parts| + 1, candidates, bytes, oversize)]);
  }

  /** The result of the whole assignment, given the parts already emitted and what remains. */
  ghost function Finish(parts: seq<PartAssignment>, rest: Result<seq<PartAssignment>, PackingError>)
      : Result<seq<PartAssignment>, PackingError>
  {
    match rest
    case Ok(more) => Ok(parts + more)
    case Err(e) => Err(e)
  }

  /** The same, when a part holding the first n items of xs is still open. */
  ghost function Resume(est: SizeEstimator, limit: nat, parts: seq<PartAssignment>, xs: seq<PackCandidate>, n: nat, bytes: nat)
      : Result<seq<PartAssignment>, PackingError>
    requires n <= |xs|
  {
    if n == 0 then Finish(parts, Assign(est, limit, xs, |parts|))
    else match Extend(est, limit, xs, n, bytes)
      case Err(e) => Err(e)
      case Ok((m, total)) =>
        if |parts| >= U32_MAX then Err(TooManyParts)
        else Finish(parts + [PartAssignment(|parts| + 1, xs[..m], total, false)], Assign(est, limit, xs[m..], |parts| + 1))
  }

  method PackCandidates(candidates: seq<PackCandidate>, maximum: nat, reserve: nat, est: SizeEstimator)
    returns (r: Result<seq<PartAssignment>, PackingError>)
    ensures r == Pack(candidates, maximum, reserve, est)
  {
    if maximum == 0 {
      return Err(ZeroMaximumSize);
    }
    if reserve > maximum {
      return Err(ReserveExceedsMaximum(reserve, maximum));
    }
    var limit := maximum - reserve;
    for i := 0 to |candidates|
      invariant forall k :: 0 <= k < i ==> ValidPath(candidates[k].path)
    {
      if !ValidPath(candidates[i].path) {
        return Err(InvalidFolderPath);
      }
    }
    var ordered := Canonical(candidates);
    var repeated := FindRepeat(ordered);
    if repeated.Some? {
      return Err(DuplicateCandidate(repeated.value));
    }
    r := PackOrdered(ordered, limit, est);
  }

  method FindRepeat(ordered: seq<PackCandidate>) returns (r: Option<ItemKey>)
    ensures r == FirstRepeat(ordered)
  {
    var keys: set<ItemKey> := {};
    for i := 0 to |ordered|
      invariant keys == Keys(ordered[..i])
      invariant FirstRepeat(ordered[..i]) == None
    {
      assert ordered[..i + 1][..i] == ordered[..i];
      if ordered[i].key in keys {
        RepeatPersists(ordered, i + 1);
        return Some(ordered[i].key);
      }
      keys := keys + {ordered[i].key};
    }
    assert ordered[..|ordered|] == ordered;
    return None;
  }

  lemma {:induction false} RepeatPersists(s: seq<PackCandidate>, n: nat)
    requires n <= |s| && FirstRepeat(s[..n]).Some?
    ensures FirstRepeat(s) == FirstRepeat(s[..n])
    decreases |s|
  {
    if n < |s| {
      assert s[..|s| - 1][..n] == s[..n];
      RepeatPersists(s[..|s| - 1], n);
    } else {
      assert s[..n] == s;
    }
  }

  lemma FinishNothing(rest: Result<seq<PartAssignment>, PackingError>)
    ensures Finish([], rest) == rest
  {
    match rest
    case Ok(more) => assert [] + more == more;
    case Err(_) =>
  }

  lemma FinishAppended(parts: seq<PartAssignment>, part: PartAssignment, rest: Result<seq<PartAssignment>, PackingError>)
    ensures Finish(parts + [part], rest)
         == (match rest case Ok(more) => Ok(parts + ([part] + more)) case Err(e) => Err(e))
  {
    match rest
    case Ok(more) => assert parts + [part] + more == parts + ([part] + more);
    case Err(_) =>
  }

  lemma ResumeFails(est: SizeEstimator, limit: nat, parts: seq<PartAssignment>, xs: seq<PackCandidate>, n: nat, bytes: nat)
    requires n < |xs| && est(xs[..n + 1]).Err?
    ensures Resume(est, limit, parts, xs, n, bytes) == Err(est(xs[..n + 1]).error)
  {}

  lemma ResumeGrows(est: SizeEstimator, limit: nat, parts: seq<PartAssignment>, xs: seq<PackCandidate>, n: nat, bytes: nat)
    requires n < |xs| && est(xs[..n + 1]).Ok? && est(xs[..n + 1]).value <= limit
    requires n > 0 ==> bytes <= limit
    ensures Resume(est, limit, parts, xs, n, bytes) == Resume(est, limit, parts, xs, n + 1, est(xs[..n + 1]).value)
  {
    if n == 0 {
      var bytes1 := est(xs[..1]).value;
      match Extend(est, limit, xs, 1, bytes1)
      case Err(_) =>
      case Ok((m, total)) =>
        ExtendFits(est, limit, xs, 1, bytes1);
        FinishAppended(parts, PartAssignment(|parts| + 1, xs[..m], total, false),
                       Assign(est, limit, xs[m..], |parts| + 1));
    }
  }

  lemma {:induction false} ExtendFits(est: SizeEstimator, limit: nat, xs: seq<PackCandidate>, n: nat, bytes: nat)
    requires 0 < n <= |xs| && bytes <= limit
    ensures var r := Extend(est, limit, xs, n, bytes); r.Ok? ==> r.value.1 <= limit
    decreases |xs| - n
  {
    if n < |xs| && est(xs[..n + 1]).Ok? && est(xs[..n + 1]).value <= limit {
      ExtendFits(est, limit, xs, n + 1, est(xs[..n + 1]).value);
    }
  }

  lemma ResumeStandsAlone(est: SizeEstimator, limit: nat, parts: seq<PartAssignment>, xs: seq<PackCandidate>)
    requires xs != [] && est(xs[..1]).Ok? && est(xs[..1]).value > limit
    ensures Resume(est, limit, parts, xs, 0, 0)
         == if |parts| >= U32_MAX then Err(TooManyParts)
            else Resume(est, limit, parts + [PartAssignment(|parts| + 1, xs[..1], est(xs[..1]).value, true)], xs[1..], 0, 0)
  {
    FinishAppended(parts, PartAssignment(|parts| + 1, xs[..1], est(xs[..1]).value, true),
                   Assign(est, limit, xs[1..], |parts| + 1));
  }

  lemma ResumeCloses(est: SizeEstimator, limit: nat, parts: seq<PartAssignment>, xs: seq<PackCandidate>, n: nat, bytes: nat)
    requires 0 < n <= |xs|
    requires n == |xs| || (est(xs[..n + 1]).Ok? && est(xs[..n + 1]).value > limit)
    ensures Resume(est, limit, parts, xs, n, bytes)
         == if |parts| >= U32_MAX then Err(TooManyParts)
            else Resume(est, limit, parts + [PartAssignment(|parts| + 1, xs[..n], bytes, false)], xs[n..], 0, 0)
  {}

  lemma ResumeDone(est: SizeEstimator, limit: nat, parts: seq<PartAssignment>)
    ensures Resume(est, limit, parts, [], 0, 0) == Ok(parts)
  {
    assert parts + [] == parts;
  }

  /** `Resume` split at the loop variable: the open part, and the candidates not yet looked at. */
  ghost function Continue(est: SizeEstimator, limit: nat, parts: seq<PartAssignment>, current: seq<PackCandidate>, bytes: nat, rest: seq<PackCandidate>)
      : Result<seq<PartAssignment>, PackingError>
  {
    Resume(est, limit, parts, current + rest, |current|, bytes)
  }

  lemma ContinueFails(est: SizeEstimator, limit: nat, parts: seq<PartAssignment>, current: seq<PackCandidate>, bytes: nat, rest: seq<PackCandidate>)
    requires rest != [] && est(current + [rest[0]]).Err?
    ensures Continue(est, limit, parts, current, bytes, rest) == Err(est(current + [rest[0]]).error)
  {
    assert (current + rest)[..|current| + 1] == current + [rest[0]];
    ResumeFails(est, limit, parts, current + rest, |current|, bytes);
  }

  lemma ContinueGrows(est: SizeEstimator, limit: nat, parts: seq<PartAssignment>, current: seq<PackCandidate>, bytes: nat, rest: seq<PackCandidate>)
    requires rest != [] && est(current + [rest[0]]).Ok? && est(current + [rest[0]]).value <= limit && bytes <= limit
    ensures Continue(est, limit, parts, current, bytes, rest)
         == Continue(est, limit, parts, current + [rest[0]], est(current + [rest[0]]).value, rest[1..])
  {
    assert (current + rest)[..|current| + 1] == current + [rest[0]];
    assert current + rest == (current + [rest[0]]) + rest[1..];
    ResumeGrows(est, limit, parts, current + rest, |current|, bytes);
  }

  lemma ContinueCloses(est: SizeEstimator, limit: nat, parts: seq<PartAssignment>, current: seq<PackCandidate>, bytes: nat, rest: seq<PackCandidate>)
    requires current != []
    requires rest == [] || (est(current + [rest[0]]).Ok? && est(current + [rest[0]]).value > limit)
    ensures Continue(est, limit, parts, current, bytes, rest)
         == if |parts| >= U32_MAX then Err(TooManyParts)
            else Continue(est, limit, parts + [PartAssignment(|parts| + 1, current, bytes, false)], [], 0, rest)
  {
    var xs := current + rest;
    assert rest != [] ==> xs[..|current| + 1] == current + [rest[0]];
    assert xs[..|current|] == current && xs[|current|..] == [] + rest;
    ResumeCloses(est, limit, parts, xs, |current|, bytes);
  }

  lemma ContinueAlone(est: SizeEstimator, limit: nat, parts: seq<PartAssignment>, rest: seq<PackCandidate>)
    requires rest != [] && est([rest[0]]).Ok? && est([rest[0]]).value > limit
    ensures Continue(est, limit, parts, [], 0, rest)
         == if |parts| >= U32_MAX then Err(TooManyParts)
            else Continue(est, limit, parts + [PartAssignment(|parts| + 1, [rest[0]], est([rest[0]]).value, true)], [], 0, rest[1..])
  {
    assert [] + rest == rest && rest[..1] == [rest[0]] && [] + rest[1..] == rest[1..];
    ResumeStandsAlone(est, limit, parts, rest);
  }

  lemma ContinueDone(est: SizeEstimator, limit: nat, parts: seq<PartAssignment>)
    ensures Continue(est, limit, parts, [], 0, []) == Ok(parts)
  {
    ResumeDone(est, limit, parts);
  }

  lemma ContinueStarts(est: SizeEstimator, limit: nat, ordered: seq<PackCandidate>)
    ensures Continue(est, limit, [], [], 0, ordered) == Assign(est, limit, ordered, 0)
  {
    assert [] + ordered == ordered;
    FinishNothing(Assign(est, limit, ordered, 0));
  }

  method PackOrdered(ordered: seq<PackCandidate>, limit: nat, est: SizeEstimator)
    returns (r: Result<seq<PartAssignment>, PackingError>)
    ensures r == Assign(est, limit, ordered, 0)
  {
    var parts: seq<PartAssignment> := [];
    var current: seq<PackCandidate> := [];
    var currentBytes: nat := 0;
    ContinueStarts(est, limit, ordered);
    assert ordered[0..] == ordered;
    for i := 0 to |ordered|
      invariant Continue(est, limit, parts, current, currentBytes, ordered[i..]) == Assign(est, limit, ordered, 0)
      invariant current == [] ==> currentBytes == 0
      invariant currentBytes <= limit
    {
      ghost var rest := ordered[i..];
      assert rest[1..] == ordered[i + 1..];
      var candidate := ordered[i];
      var proposed := current + [candidate];
      var measured := est(proposed);
      if measured.Err? {
        ContinueFails(est, limit, parts, current, currentBytes, rest);
        return Err(measured.error);
      }
      if current != [] && measured.value > limit {
        ContinueCloses(est, limit, parts, current, currentBytes, rest);
        var pushed := PushPart(parts, current, currentBytes, false);
        if pushed.Err? {
          return Err(pushed.error);
        }
        parts := pushed.value;
        current := [candidate];
        assert [] + [candidate] == current;
        var alone := est(current);
        if alone.Err? {
          ContinueFails(est, limit, parts, [], 0, rest);
          return Err(alone.error);
        }
        currentBytes := alone.value;
        if currentBytes > limit {
          ContinueAlone(est, limit, parts, rest);
          pushed := PushPart(parts, current, currentBytes, true);
          if pushed.Err? {
            return Err(pushed.error);
          }
          parts := pushed.value;
          current := [];
          currentBytes := 0;
        } else {
          ContinueGrows(est, limit, parts, [], 0, rest);
        }
      } else if measured.value > limit {
        assert proposed == [candidate];
        ContinueAlone(est, limit, parts, rest);
        var pushed := PushPart(parts, proposed, measured.value, true);
        if pushed.Err? {
          return Err(pushed.error);
        }
        parts := pushed.value;
        current := [];
        currentBytes := 0;
      } else {
        ContinueGrows(est, limit, parts, current, currentBytes, rest);
        current := proposed;
        currentBytes := measured.value;
      }
    }
    assert ordered[|ordered|..] == [];
    if current != [] {
      ContinueCloses(est, limit, parts, current, currentBytes, []);
      var pushed := PushPart(parts, current, currentBytes, false);
      if pushed.Err? {
        return Err(pushed.error);
      }
      parts := pushed.value;
    }
    ContinueDone(est, limit, parts);
    return Ok(parts);
  }

  // What the packer promises.

  function Contents(parts: seq<PartAssignment>): (r: seq<seq<PackCandidate>>)
    ensures |r| == |parts|
    ensures forall i :: 0 <= i < |parts| ==> r[i] == parts[i].candidates
  {
    seq(|parts|, i requires 0 <= i < |parts| => parts[i].candidates)
  }

  ghost predicate WellFormedPart(est: SizeEstimator, limit: nat, p: PartAssignment) {
    && p.candidates != []
    && est(p.candidates) == Ok(p.estimatedBytes)
    && (p.oversize <==> p.estimatedBytes > limit)
    && (p.oversize ==> |p.candidates| == 1)
  }

  /** p could not have taken the first candidate of the part after it. */
  ghost predicate Maximal(est: SizeEstimator, limit: nat, p: PartAssignment, next: PartAssignment) {
    next.candidates != [] && !p.oversize ==>
      var grown := est(p.candidates + [next.candidates[0]]);
      grown.Ok? && grown.value > limit
  }

  ghost predicate Numbered(parts: seq<PartAssignment>, emitted: nat) {
    forall i :: 0 <= i < |parts| ==> parts[i].index == emitted + i + 1
  }

  ghost predicate AllWellFormed(est: SizeEstimator, limit: nat, parts: seq<PartAssignment>) {
    forall i :: 0 <= i < |parts| ==> WellFormedPart(est, limit, parts[i])
  }

  ghost predicate AllMaximal(est: SizeEstimator, limit: nat, parts: seq<PartAssignment>) {
    forall i, j {:trigger Maximal(est, limit, parts[i], parts[j])} ::
      0 <= i && j == i + 1 < |parts| ==> Maximal(est, limit, parts[i], parts[j])
  }

  /** The parts, one after the other, are these candidates. */
  ghost predicate Covers(parts: seq<PartAssignment>, xs: seq<PackCandidate>) {
    Greedy.Flatten(Contents(parts)) == xs
  }

  ghost predicate WellPacked(est: SizeEstimator, limit: nat, xs: seq<PackCandidate>, emitted: nat, parts: seq<PartAssignment>) {
    && Covers(parts, xs)
    && Numbered(parts, emitted) && AllWellFormed(est, limit, parts) && AllMaximal(est, limit, parts)
  }

  lemma {:induction false} ExtendMeasures(est: SizeEstimator, limit: nat, xs: seq<PackCandidate>, n: nat, bytes: nat)
    requires 0 < n <= |xs| && est(xs[..n]) == Ok(bytes)
    requires Extend(est, limit, xs, n, bytes).Ok?
    ensures var (m, total) := Extend(est, limit, xs, n, bytes).value;
      && est(xs[..m]) == Ok(total)
      && (m < |xs| ==> est(xs[..m + 1]).Ok? && est(xs[..m + 1]).value > limit)
    decreases |xs| - n
  {
    if n < |xs| && est(xs[..n + 1]).value <= limit {
      ExtendMeasures(est, limit, xs, n + 1, est(xs[..n + 1]).value);
    }
  }

  lemma {:induction false} AssignWellPacked(est: SizeEstimator, limit: nat, xs: seq<PackCandidate>, emitted: nat)
    requires Assign(est, limit, xs, emitted).Ok?
    ensures WellPacked(est, limit, xs, emitted, Assign(est, limit, xs, emitted).value)
    decreases |xs|
  {
    if xs != [] {
      var parts := Assign(est, limit, xs, emitted).value;
      var n := |parts[0].candidates|;
      FirstPartMeasures(est, limit, xs);
      AssignWellPacked(est, limit, xs[n..], emitted + 1);
      assert parts == [parts[0]] + parts[1..];
      if parts[1..] != [] {
        FirstOfRest(est, limit, xs[n..], emitted + 1, parts[1..]);
        assert xs[..n] + [xs[n]] == xs[..n + 1];
      }
      PartInFront(est, limit, xs, n, emitted, parts[0], parts[1..]);
    }
  }

  /** The first part begins with the first candidate. */
  lemma FirstOfRest(est: SizeEstimator, limit: nat, xs: seq<PackCandidate>, emitted: nat, parts: seq<PartAssignment>)
    requires WellPacked(est, limit, xs, emitted, parts) && parts != []
    ensures xs != [] && parts[0].candidates != [] && xs[0] == parts[0].candidates[0]
  {
    assert WellFormedPart(est, limit, parts[0]);
    assert Greedy.Flatten(Contents(parts))[0] == Contents(parts)[0][0];
  }

  lemma PartInFront(est: SizeEstimator, limit: nat, xs: seq<PackCandidate>, n: nat, emitted: nat,
                    first: PartAssignment, rest: seq<PartAssignment>)
    requires n <= |xs| && first.candidates == xs[..n] && first.index == emitted + 1
    requires WellFormedPart(est, limit, first) && WellPacked(est, limit, xs[n..], emitted + 1, rest)
    requires rest != [] ==> Maximal(est, limit, first, rest[0])
    ensures WellPacked(est, limit, xs, emitted, [first] + rest)
  {
    var parts := [first] + rest;
    assert Contents(parts)[1..] == Contents(rest);
    assert xs[..n] + xs[n..] == xs;
    forall i | 0 <= i < |parts| ensures parts[i].index == emitted + i + 1 && WellFormedPart(est, limit, parts[i]) {
      if i > 0 { assert parts[i] == rest[i - 1]; }
    }
    forall i, j | 0 <= i && j == i + 1 < |parts| ensures Maximal(est, limit, parts[i], parts[j]) {
      if i > 0 { assert parts[i] == rest[i - 1] && parts[j] == rest[i]; }
    }
  }

  lemma FirstPartMeasures(est: SizeEstimator, limit: nat, xs: seq<PackCandidate>)
    requires xs != [] && FirstPart(est, limit, xs).Ok?
    ensures var (n, bytes) := FirstPart(est, limit, xs).value;
      && est(xs[..n]) == Ok(bytes)
      && (bytes > limit ==> n == 1)
      && (n < |xs| && bytes <= limit ==> est(xs[..n + 1]).Ok? && est(xs[..n + 1]).value > limit)
  {
    var alone := est(xs[..1]).value;
    if alone <= limit {
      ExtendMeasures(est, limit, xs, 1, alone);
      ExtendFits(est, limit, xs, 1, alone);
    }
  }

  /** A successful packing is a well-packed division of the canonical order, numbered from one. */
  lemma PackIsWellPacked(candidates: seq<PackCandidate>, maximum: nat, reserve: nat, est: SizeEstimator, parts: seq<PartAssignment>)
    requires Pack(candidates, maximum, reserve, est) == Ok(parts)
    ensures reserve <= maximum
    ensures WellPacked(est, maximum - reserve, Canonical(candidates), 0, parts)
  {
    PackIsAssign(candidates, maximum, reserve, est);
    OrderedIsWellPacked(est, maximum - reserve, Canonical(candidates), parts);
  }

  lemma OrderedIsWellPacked(est: SizeEstimator, limit: nat, xs: seq<PackCandidate>, parts: seq<PartAssignment>)
    requires Assign(est, limit, xs, 0) == Ok(parts)
    ensures WellPacked(est, limit, xs, 0, parts)
  {
    AssignWellPacked(est, limit, xs, 0);
  }

  lemma CanonicalIsSorted(candidates: seq<PackCandidate>)
    ensures Sorted(RankOf, CompareRank, Canonical(candidates))
    ensures multiset(Canonical(candidates)) == multiset(candidates)
  {
    CompareRankTotal();
    SortPermutes(RankOf, CompareRank, candidates);
    SortSorted(RankOf, CompareRank, candidates);
  }

  /** Whenever the estimator answers, it answers with this size. */
  ghost predicate Measures(est: SizeEstimator, size: seq<PackCandidate> -> nat) {
    forall s :: est(s).Ok? ==> est(s).value == size(s)
  }

  lemma {:induction false} ExtendIsGrow(est: SizeEstimator, size: seq<PackCandidate> -> nat, limit: nat, xs: seq<PackCandidate>, n: nat, bytes: nat)
    requires Measures(est, size) && 0 < n <= |xs| && Extend(est, limit, xs, n, bytes).Ok?
    ensures Extend(est, limit, xs, n, bytes).value.0 == Greedy.Grow(size, limit, xs, n)
    decreases |xs| - n
  {
    if n < |xs| && size(xs[..n + 1]) <= limit {
      ExtendIsGrow(est, size, limit, xs, n + 1, est(xs[..n + 1]).value);
    }
  }

  lemma FirstPartIsFirstLength(est: SizeEstimator, size: seq<PackCandidate> -> nat, limit: nat, xs: seq<PackCandidate>)
    requires Measures(est, size) && xs != [] && FirstPart(est, limit, xs).Ok?
    ensures FirstPart(est, limit, xs).value.0 == Greedy.FirstLength(size, limit, xs)
  {
    if size(xs[..1]) <= limit {
      ExtendIsGrow(est, size, limit, xs, 1, est(xs[..1]).value);
    }
  }

  lemma AssignStep(est: SizeEstimator, limit: nat, xs: seq<PackCandidate>, emitted: nat)
    requires xs != [] && Assign(est, limit, xs, emitted).Ok?
    ensures FirstPart(est, limit, xs).Ok?
    ensures var n := FirstPart(est, limit, xs).value.0;
      && Assign(est, limit, xs[n..], emitted + 1).Ok?
      && Contents(Assign(est, limit, xs, emitted).value)
         == [xs[..n]] + Contents(Assign(est, limit, xs[n..], emitted + 1).value)
  {
    var parts := Assign(est, limit, xs, emitted).value;
    assert Contents(parts) == [parts[0].candidates] + Contents(parts[1..]);
  }

  lemma {:induction false} AssignIsGreedy(est: SizeEstimator, size: seq<PackCandidate> -> nat, limit: nat, xs: seq<PackCandidate>, emitted: nat)
    requires Measures(est, size) && Assign(est, limit, xs, emitted).Ok?
    ensures Contents(Assign(est, limit, xs, emitted).value) == Greedy.Blocks(size, limit, xs)
    decreases |xs|
  {
    if xs != [] {
      AssignStep(est, limit, xs, emitted);
      FirstPartIsFirstLength(est, size, limit, xs);
      var n := Greedy.FirstLength(size, limit, xs);
      AssignIsGreedy(est, size, limit, xs[n..], emitted + 1);
    }
  }

  lemma AssignFewest(est: SizeEstimator, size: seq<PackCandidate> -> nat, limit: nat, xs: seq<PackCandidate>, blocks: seq<seq<PackCandidate>>)
    requires Measures(est, size) && Greedy.Monotone(size) && Assign(est, limit, xs, 0).Ok?
    requires Greedy.Division(size, limit, xs, blocks)
    ensures |Assign(est, limit, xs, 0).value| <= |blocks|
  {
    AssignIsGreedy(est, size, limit, xs, 0);
    Greedy.BlocksFewest(size, limit, xs, blocks);
  }

  lemma PackIsAssign(candidates: seq<PackCandidate>, maximum: nat, reserve: nat, est: SizeEstimator)
    requires Pack(candidates, maximum, reserve, est).Ok?
    ensures reserve <= maximum
    ensures Pack(candidates, maximum, reserve, est) == Assign(est, maximum - reserve, Canonical(candidates), 0)
  {}

  /** With a monotone estimator no division of the canonical order into emittable parts is shorter. */
  lemma PackUsesFewestParts(candidates: seq<PackCandidate>, maximum: nat, reserve: nat, est: SizeEstimator,
      size: seq<PackCandidate> -> nat, parts: seq<PartAssignment>, blocks: seq<seq<PackCandidate>>)
    requires Measures(est, size) && Greedy.Monotone(size)
    requires Pack(candidates, maximum, reserve, est) == Ok(parts) && reserve <= maximum
    requires Greedy.Division(size, maximum - reserve, Canonical(candidates), blocks)
    ensures |parts| <= |blocks|
  {
    PackIsAssign(candidates, maximum, reserve, est);
    AssignFewest(est, size, maximum - reserve, Canonical(candidates), blocks);
  }

  // The result does not depend on the order in which candidates were discovered.

  lemma {:induction false} FirstRepeatByKeys(a: seq<PackCandidate>, b: seq<PackCandidate>)
    requires |a| == |b| && forall i :: 0 <= i < |a| ==> a[i].key == b[i].key
    ensures FirstRepeat(a) == FirstRepeat(b)
  {
    if a != [] {
      var n := |a| - 1;
      FirstRepeatByKeys(a[..n], b[..n]);
      assert Keys(a[..n]) == Keys(b[..n]);
    }
  }

  lemma CanonicalRanks(a: seq<PackCandidate>, b: seq<PackCandidate>)
    requires multiset(a) == multiset(b)
    ensures multiset(Canonical(a)) == multiset(Canonical(b))
    ensures Ranks(RankOf, Canonical(a)) == Ranks(RankOf, Canonical(b))
  {
    CompareRankTotal();
    CanonicalIsSorted(a);
    CanonicalIsSorted(b);
    RanksOfPermutation(RankOf, Canonical(a), Canonical(b));
    SortedRanksUnique(RankOf, CompareRank, Canonical(a), Canonical(b));
  }

  lemma SameWhenDistinct(a: seq<PackCandidate>, b: seq<PackCandidate>)
    requires multiset(a) == multiset(b)
    requires Ranks(RankOf, a) == Ranks(RankOf, b)
    requires DistinctKeys(b)
    ensures a == b
  {
    assert |a| == |Ranks(RankOf, a)| == |b|;
    forall i | 0 <= i < |a| ensures a[i] == b[i] {
      assert a[i] in multiset(b);
      var j :| 0 <= j < |b| && b[j] == a[i];
      assert Ranks(RankOf, a)[i] == RankOf(b[i]);
      assert i == j;
    }
  }

  lemma SameRanksSameRepeat(x: seq<PackCandidate>, y: seq<PackCandidate>)
    requires multiset(x) == multiset(y) && Ranks(RankOf, x) == Ranks(RankOf, y)
    ensures FirstRepeat(x) == FirstRepeat(y) && (FirstRepeat(y).None? ==> x == y)
  {
    forall i | 0 <= i < |x| ensures x[i].key == y[i].key {
      assert Ranks(RankOf, x)[i] == Ranks(RankOf, y)[i];
    }
    assert |x| == |Ranks(RankOf, x)| == |y|;
    FirstRepeatByKeys(x, y);
    FirstRepeatExact(y);
    if FirstRepeat(y).None? {
      SameWhenDistinct(x, y);
    }
  }

  lemma ValidPathsPermute(a: seq<PackCandidate>, b: seq<PackCandidate>)
    requires multiset(a) == multiset(b) && ValidPaths(a)
    ensures ValidPaths(b)
  {
    forall i | 0 <= i < |b| ensures ValidPath(b[i].path) {
      assert b[i] in multiset(a);
    }
  }

  /** Reordering the input changes nothing: not the parts, and not the error either. */
  lemma PackIgnoresDiscoveryOrder(a: seq<PackCandidate>, b: seq<PackCandidate>, maximum: nat, reserve: nat, est: SizeEstimator)
    requires multiset(a) == multiset(b)
    ensures Pack(a, maximum, reserve, est) == Pack(b, maximum, reserve, est)
  {
    if ValidPaths(a) { ValidPathsPermute(a, b); }
    if ValidPaths(b) { ValidPathsPermute(b, a); }
    CanonicalIgnoresDiscoveryOrder(a, b);
  }

  lemma CanonicalIgnoresDiscoveryOrder(a: seq<PackCandidate>, b: seq<PackCandidate>)
    requires multiset(a) == multiset(b)
    ensures FirstRepeat(Canonical(a)) == FirstRepeat(Canonical(b))
    ensures FirstRepeat(Canonical(b)).None? ==> Canonical(a) == Canonical(b)
  {
    CanonicalRanks(a, b);
    SameRanksSameRepeat(Canonical(a), Canonical(b));
  }
}

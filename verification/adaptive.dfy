/**
 The adaptive size model of the retained whole-part loop: a layout estimator, a scaling prediction from
 the last staged file, the prefix searches that use it, and the loop that retries until a part settles.
 */
module Adaptive {
  import opened Wrappers
  import opened Packing
  import Greedy

  const U128_MAX: nat := 0xFFFF_FFFF_FFFF_FFFF_FFFF_FFFF_FFFF_FFFF
  const ESTIMATED_STORE_BYTES: nat := 1024 * 1024
  const ESTIMATED_MESSAGE_BYTES: nat := 64 * 1024
  const ESTIMATED_FOLDER_BYTES: nat := 16 * 1024

  // The layout estimator.

  function PathPrefixes(path: seq<string>): set<seq<string>> {
    set k | 1 <= k <= |path| :: path[..k]
  }

  function Folders(s: seq<PackCandidate>): set<seq<string>> {
    if s == [] then {} else Folders(s[..|s| - 1]) + PathPrefixes(s[|s| - 1].path)
  }

  function MessageBytes(s: seq<PackCandidate>): nat {
    if s == [] then ESTIMATED_STORE_BYTES
    else MessageBytes(s[..|s| - 1]) + s[|s| - 1].payloadBytes + ESTIMATED_MESSAGE_BYTES
  }

  /** Payload, a fixed cost for each message, and a fixed cost for each distinct folder prefix. */
  function LayoutSize(s: seq<PackCandidate>): nat {
    MessageBytes(s) + FolderBytes(|Folders(s)|)
  }

  function FolderBytes(count: nat): nat {
    count * ESTIMATED_FOLDER_BYTES
  }

  function Layout(s: seq<PackCandidate>): Result<nat, PackingError> {
    if LayoutSize(s) <= U64_MAX then Ok(LayoutSize(s)) else Err(SizeOverflow)
  }

  method InsertPrefixes(known: set<seq<string>>, path: seq<string>) returns (folders: set<seq<string>>)
    ensures folders == known + PathPrefixes(path)
  {
    folders := known;
    for length := 1 to |path| + 1
      invariant folders == known + set k | 1 <= k < length :: path[..k]
    {
      folders := folders + {path[..length]};
    }
  }

  lemma Overflowing(s: seq<PackCandidate>, n: nat)
    requires n <= |s| && MessageBytes(s[..n]) > U64_MAX
    ensures Layout(s) == Err(SizeOverflow)
  {
    BytesGrow(s, n);
  }

  method EstimateCandidates(s: seq<PackCandidate>) returns (r: Result<nat, PackingError>)
    ensures r == Layout(s)
  {
    var folders: set<seq<string>> := {};
    var estimated: nat := ESTIMATED_STORE_BYTES;
    for i := 0 to |s|
      invariant folders == Folders(s[..i])
      invariant ESTIMATED_STORE_BYTES <= estimated == MessageBytes(s[..i]) <= U64_MAX
    {
      assert s[..i + 1][..i] == s[..i];
      folders := InsertPrefixes(folders, s[i].path);
      if estimated + s[i].payloadBytes > U64_MAX || estimated + s[i].payloadBytes + ESTIMATED_MESSAGE_BYTES > U64_MAX {
        Overflowing(s, i + 1);
        return Err(SizeOverflow);
      }
      estimated := estimated + s[i].payloadBytes + ESTIMATED_MESSAGE_BYTES;
    }
    assert s[..|s|] == s;
    r := AddFolders(estimated, |folders|);
  }

  /** The last addition saturates its product, which can only saturate a sum that overflows anyway. */
  method AddFolders(estimated: nat, count: nat) returns (r: Result<nat, PackingError>)
    requires 0 < estimated <= U64_MAX
    ensures r == if estimated + FolderBytes(count) <= U64_MAX then Ok(estimated + FolderBytes(count)) else Err(SizeOverflow)
  {
    var product := FolderBytes(count);
    var saturated := if product > U64_MAX then U64_MAX else product;
    if estimated + saturated > U64_MAX {
      return Err(SizeOverflow);
    }
    return Ok(estimated + saturated);
  }

  lemma {:induction false} BytesGrow(s: seq<PackCandidate>, n: nat)
    requires n <= |s|
    ensures MessageBytes(s[..n]) <= MessageBytes(s)
    decreases |s|
  {
    if n < |s| {
      assert s[..|s| - 1][..n] == s[..n];
      BytesGrow(s[..|s| - 1], n);
    } else {
      assert s[..n] == s;
    }
  }

  lemma {:induction false} BytesPrepend(x: PackCandidate, s: seq<PackCandidate>)
    ensures MessageBytes([x] + s) == MessageBytes(s) + x.payloadBytes + ESTIMATED_MESSAGE_BYTES
  {
    var t := [x] + s;
    if s == [] {
      assert t[..0] == [];
    } else {
      assert t[..|t| - 1] == [x] + s[..|s| - 1];
      BytesPrepend(x, s[..|s| - 1]);
    }
  }

  lemma {:induction false} FoldersPrepend(x: PackCandidate, s: seq<PackCandidate>)
    ensures Folders([x] + s) == PathPrefixes(x.path) + Folders(s)
  {
    var t := [x] + s;
    if s == [] {
      assert t[..0] == [];
    } else {
      assert t[..|t| - 1] == [x] + s[..|s| - 1];
      FoldersPrepend(x, s[..|s| - 1]);
    }
  }

  lemma {:induction false} SubsetSmaller<T>(a: set<T>, b: set<T>)
    requires a <= b
    ensures |a| <= |b|
  {
    if a != {} {
      var x :| x in a;
      SubsetSmaller(a - {x}, b - {x});
    }
  }

  lemma FoldersAppend(s: seq<PackCandidate>, x: PackCandidate)
    ensures Folders(s + [x]) == Folders(s) + PathPrefixes(x.path)
    ensures MessageBytes(s + [x]) == MessageBytes(s) + x.payloadBytes + ESTIMATED_MESSAGE_BYTES
  {
    assert (s + [x])[..|s|] == s;
  }

  lemma MoreFoldersLarger(s: seq<PackCandidate>, t: seq<PackCandidate>)
    requires MessageBytes(s) <= MessageBytes(t) && Folders(s) <= Folders(t)
    ensures LayoutSize(s) <= LayoutSize(t)
  {
    SubsetSmaller(Folders(s), Folders(t));
    ProductMonotone(|Folders(s)|, |Folders(t)|, ESTIMATED_FOLDER_BYTES);
  }

  lemma LayoutGrows(s: seq<PackCandidate>, x: PackCandidate)
    ensures Greedy.Grows(LayoutSize, s, x)
  {
    FoldersAppend(s, x);
    MoreFoldersLarger(s, s + [x]);
    BytesPrepend(x, s);
    FoldersPrepend(x, s);
    MoreFoldersLarger(s, [x] + s);
  }

  /** The estimator is one for which greedy packing is optimal. */
  lemma LayoutIsMonotone()
    ensures Greedy.Monotone(LayoutSize)
    ensures Measures(Layout, LayoutSize)
  {
    forall s, x ensures Greedy.Grows(LayoutSize, s, x) {
      LayoutGrows(s, x);
    }
  }

  // What the estimate amounts to.

  function TotalPayload(s: seq<PackCandidate>): nat {
    if s == [] then 0 else s[0].payloadBytes + TotalPayload(s[1..])
  }

  /** The folders named on the way to some candidate. */
  ghost function NamedFolders(s: seq<PackCandidate>): set<seq<string>> {
    set i, k | 0 <= i < |s| && 1 <= k <= |s[i].path| :: s[i].path[..k]
  }

  lemma {:induction false} TotalPayloadAppend(s: seq<PackCandidate>, x: PackCandidate)
    ensures TotalPayload(s + [x]) == TotalPayload(s) + x.payloadBytes
  {
    if s == [] {
      assert [x][1..] == [];
    } else {
      assert (s + [x])[1..] == s[1..] + [x];
      TotalPayloadAppend(s[1..], x);
    }
  }

  lemma NamedFoldersAppend(s: seq<PackCandidate>, x: PackCandidate)
    ensures NamedFolders(s + [x]) == NamedFolders(s) + PathPrefixes(x.path)
  {
    var t := s + [x];
    assert t[|s|] == x;
    forall p | p in NamedFolders(s) ensures p in NamedFolders(t) {
      var i, k :| 0 <= i < |s| && 1 <= k <= |s[i].path| && p == s[i].path[..k];
      assert t[i] == s[i];
    }
    forall p | p in NamedFolders(t) ensures p in NamedFolders(s) + PathPrefixes(x.path) {
      var i, k :| 0 <= i < |t| && 1 <= k <= |t[i].path| && p == t[i].path[..k];
      if i < |s| {
        assert t[i] == s[i];
      }
    }
  }

  /**
   One mebibyte for the store, the payload and 64 kibibytes for each message, and 16 kibibytes for each folder on
   the way to one, however many messages share it.
   */
  lemma {:induction false} LayoutMeaning(s: seq<PackCandidate>)
    ensures Folders(s) == NamedFolders(s)
    ensures LayoutSize(s) == 1_048_576 + TotalPayload(s) + 65_536 * |s| + 16_384 * |NamedFolders(s)|
  {
    if s != [] {
      var before, last := s[..|s| - 1], s[|s| - 1];
      assert s == before + [last];
      LayoutMeaning(before);
      FoldersAppend(before, last);
      NamedFoldersAppend(before, last);
      TotalPayloadAppend(before, last);
    }
  }

  // The scaling prediction.

  /** The last (estimate, actual) pair observed; a recorded estimate is never zero. */
  type Observation = o: Option<(nat, nat)> | o.Some? ==> o.value.0 > 0 witness None

  function RoundedUp(n: nat, d: nat): nat
    requires d > 0
  {
    (n + (d - 1)) / d
  }

  function Predict(o: Observation, estimated: nat): Result<nat, PackingError> {
    match o
    case None => Ok(estimated)
    case Some((observedEstimate, observedActual)) =>
      var numerator := estimated * observedActual;
      if numerator > U128_MAX then Err(SizeOverflow)
      else if numerator + (observedEstimate - 1) > U128_MAX then Err(SizeOverflow)
      else
        var predicted := RoundedUp(numerator, observedEstimate);
        if predicted > U64_MAX then Err(SizeOverflow) else Ok(predicted)
  }

  /** With nothing observed the estimate itself is the prediction. */
  lemma PredictUnobserved(estimated: nat)
    ensures Predict(None, estimated) == Ok(estimated)
  {}

  /** p is the least integer not below n / d. */
  ghost predicate IsCeiling(p: nat, n: nat, d: nat) {
    d > 0 && p * d >= n && (p > 0 ==> (p - 1) * d < n)
  }

  lemma CeilingDivision(n: nat, d: nat)
    requires d > 0
    ensures IsCeiling(RoundedUp(n, d), n, d)
  {
    var p := (n + (d - 1)) / d;
    var r := (n + (d - 1)) % d;
    assert p * d + r == n + (d - 1);
    if p > 0 {
      assert (p - 1) * d == p * d - d;
    }
  }

  /** A ceiling exceeds a bound exactly when the bound is too small for the quotient. */
  lemma CeilingExceeds(p: nat, n: nat, d: nat, bound: nat)
    requires IsCeiling(p, n, d)
    ensures p > bound <==> bound * d < n
  {
    if p > bound {
      ProductMonotone(bound, p - 1, d);
    } else {
      ProductMonotone(p, bound, d);
    }
  }

  lemma CeilingMonotone(p: nat, n: nat, q: nat, m: nat, d: nat)
    requires IsCeiling(p, n, d) && IsCeiling(q, m, d) && n <= m
    ensures p <= q
  {
    if q < p {
      ProductMonotone(q, p - 1, d);
    }
  }

  lemma ProductMonotone(a: nat, b: nat, c: nat)
    requires a <= b
    ensures a * c <= b * c
  {}

  lemma WideEnough(e: nat, a: nat, o: nat)
    requires e <= U64_MAX && a <= U64_MAX && 0 < o <= U64_MAX
    ensures e * a + (o - 1) <= U128_MAX
  {
    ProductMonotone(e, U64_MAX, a);
    ProductMonotone(a, U64_MAX, U64_MAX);
    assert U64_MAX * U64_MAX + U64_MAX <= U128_MAX;
  }

  /** On 64-bit inputs the prediction is the exact ceiling, and fails exactly when that exceeds 64 bits. */
  lemma PredictIsCeiling(o: Observation, estimated: nat)
    requires o.Some? && o.value.0 <= U64_MAX && o.value.1 <= U64_MAX && estimated <= U64_MAX
    ensures Predict(o, estimated).Ok? ==> IsCeiling(Predict(o, estimated).value, estimated * o.value.1, o.value.0)
    ensures Predict(o, estimated).Err? <==> U64_MAX * o.value.0 < estimated * o.value.1
  {
    WideEnough(estimated, o.value.1, o.value.0);
    PredictWide(o, estimated, estimated * o.value.1);
  }

  /** The rounding itself, once the sum is known to fit 128 bits. */
  lemma PredictWide(o: Observation, estimated: nat, numerator: nat)
    requires o.Some? && numerator == estimated * o.value.1 && numerator + (o.value.0 - 1) <= U128_MAX
    ensures Predict(o, estimated).Ok? ==> IsCeiling(Predict(o, estimated).value, numerator, o.value.0)
    ensures Predict(o, estimated).Err? <==> U64_MAX * o.value.0 < numerator
  {
    CeilingDivision(numerator, o.value.0);
    CeilingExceeds(RoundedUp(numerator, o.value.0), numerator, o.value.0, U64_MAX);
  }

  /** The prediction is exact where it was observed. */
  lemma PredictAtObservation(o: Observation)
    requires o.Some? && o.value.0 <= U64_MAX && o.value.1 <= U64_MAX
    ensures Predict(o, o.value.0) == Ok(o.value.1)
  {
    var (e, a) := o.value;
    PredictIsCeiling(o, e);
    ProductMonotone(a, U64_MAX, e);
    ExactCeiling(a, e);
    var p := Predict(o, e).value;
    CeilingMonotone(p, e * a, a, e * a, e);
    CeilingMonotone(a, e * a, p, e * a, e);
  }

  lemma ExactCeiling(a: nat, e: nat)
    requires e > 0
    ensures IsCeiling(a, e * a, e)
  {
    if a > 0 {
      assert (a - 1) * e == e * a - e;
    }
  }

  lemma PredictMonotone(o: Observation, small: nat, large: nat)
    requires small <= large && Predict(o, large).Ok?
    ensures Predict(o, small).Ok? && Predict(o, small).value <= Predict(o, large).value
  {
    if o.Some? {
      var (e, a) := o.value;
      ProductMonotone(small, large, a);
      CeilingDivision(small * a, e);
      CeilingDivision(large * a, e);
      CeilingMonotone(RoundedUp(small * a, e), small * a, RoundedUp(large * a, e), large * a, e);
    }
  }

  // Prefix searches.

  function Fits(o: Observation, maximum: nat, s: seq<PackCandidate>): Result<bool, PackingError> {
    var estimated :- Layout(s);
    var predicted :- Predict(o, estimated);
    Ok(predicted <= maximum)
  }

  /** Fitting is closed under shortening, and so is being measurable at all. */
  lemma FitsPrefix(o: Observation, maximum: nat, s: seq<PackCandidate>, n: nat)
    requires n <= |s|
    ensures Fits(o, maximum, s).Ok? ==> Fits(o, maximum, s[..n]).Ok?
    ensures Fits(o, maximum, s) == Ok(true) ==> Fits(o, maximum, s[..n]) == Ok(true)
  {
    LayoutIsMonotone();
    Greedy.PrefixSmaller(LayoutSize, s, n);
    if Fits(o, maximum, s).Ok? {
      PredictMonotone(o, LayoutSize(s[..n]), LayoutSize(s));
    }
  }

  type Probe = nat -> Result<bool, PackingError>

  /** The test the searches run: whether the first n items fit. */
  function PrefixFits(o: Observation, maximum: nat, all: seq<PackCandidate>): Probe {
    (n: nat) => if n <= |all| then Fits(o, maximum, all[..n]) else Ok(false)
  }

  /** Up to the bound, whatever can be measured or fits at one length does so at every shorter one. */
  ghost predicate Downward(fits: Probe, bound: nat) {
    forall i: nat, j: nat :: i <= j <= bound ==>
      (fits(j).Ok? ==> fits(i).Ok?) && (fits(j) == Ok(true) ==> fits(i) == Ok(true))
  }

  lemma PrefixFitsDownward(o: Observation, maximum: nat, all: seq<PackCandidate>)
    ensures Downward(PrefixFits(o, maximum, all), |all|)
  {
    var fits := PrefixFits(o, maximum, all);
    forall i: nat, j: nat | i <= j <= |all|
      ensures (fits(j).Ok? ==> fits(i).Ok?) && (fits(j) == Ok(true) ==> fits(i) == Ok(true))
    {
      FitsPrefix(o, maximum, all[..j], i);
      assert all[..j][..i] == all[..i];
    }
  }

  /** n fits and, up to the bound, nothing longer does. */
  ghost predicate Longest(fits: Probe, bound: nat, n: nat) {
    n <= bound && fits(n) == Ok(true) && forall k :: n < k <= bound ==> fits(k) != Ok(true)
  }

  /** The longest fitting length, or one item when not even one fits. */
  ghost predicate LongestOrOne(fits: Probe, bound: nat, n: nat) {
    Longest(fits, bound, n) || (n == 1 && fits(1) == Ok(false))
  }

  /** The halving loop shared by both searches: low fits, high does not or lies just past the bound. */
  method Bisect(fits: Probe, ghost bound: nat, low0: nat, high0: nat) returns (r: Result<nat, PackingError>)
    requires Downward(fits, bound)
    requires low0 < high0 <= bound + 1
    requires fits(low0) == Ok(true)
    requires high0 <= bound ==> fits(high0) == Ok(false)
    ensures r.Ok? ==> low0 <= r.value && Longest(fits, bound, r.value)
    ensures r.Err? ==> fits(bound).Err?
  {
    var low, high := low0, high0;
    while low + 1 < high
      invariant low0 <= low < high <= high0
      invariant fits(low) == Ok(true)
      invariant high <= bound ==> fits(high) == Ok(false)
    {
      var middle := low + (high - low) / 2;
      var measured := fits(middle);
      if measured.Err? {
        return Err(measured.error);
      }
      if measured.value {
        low := middle;
      } else {
        high := middle;
      }
    }
    return Ok(low);
  }

  /** Doubling steps upward from the selection, then halving steps back down. */
  method Gallop(fits: Probe, most: nat) returns (r: Result<nat, PackingError>)
    requires Downward(fits, most)
    requires 0 < most && fits(1) == Ok(true)
    ensures r.Ok? ==> 0 < r.value && Longest(fits, most, r.value)
    ensures r.Err? ==> fits(most).Err?
  {
    var low, high := 1, if 2 < most then 2 else most;
    while high < most
      invariant 1 <= low <= high <= most
      invariant low == high ==> high == most
      invariant fits(low) == Ok(true)
      decreases most - high
    {
      var measured := fits(high);
      if measured.Err? {
        return Err(measured.error);
      }
      if !measured.value {
        break;
      }
      low := high;
      high := if high * 2 < most then high * 2 else most;
    }
    var top := fits(high);
    if top.Err? {
      return Err(top.error);
    }
    if top.value {
      return Ok(high);
    }
    r := Bisect(fits, most, low, high);
  }

  /** How many of the next items fit on top of `base` items; zero when not even one does. */
  method Further(fits: Probe, base: nat, additional: nat) returns (r: Result<nat, PackingError>)
    requires Downward(fits, base + additional) && 0 < additional
    ensures r.Ok? && r.value == 0 ==> fits(base + 1) == Ok(false)
    ensures r.Ok? && r.value > 0 ==> Longest(fits, base + additional, base + r.value)
    ensures r.Err? ==> fits(base + additional).Err?
  {
    var fitsWith := (n: nat) => fits(base + n);
    var one := fitsWith(1);
    if one.Err? {
      return Err(one.error);
    }
    if !one.value {
      return Ok(0);
    }
    r := Gallop(fitsWith, additional);
    if r.Ok? {
      forall k | base + r.value < k <= base + additional ensures fits(k) != Ok(true) {
        assert fitsWith(k - base) != Ok(true);
      }
    }
  }

  /**
   The longest fitting prefix, or one item when not even one fits. An error means the whole slice
   cannot be measured.
   */
  method FittingPrefixLength(o: Observation, maximum: nat, all: seq<PackCandidate>)
    returns (r: Result<nat, PackingError>)
    ensures r.Ok? ==> r.value <= |all| && (r.value == 0 <==> all == [])
    ensures r.Ok? && all != [] ==> LongestOrOne(PrefixFits(o, maximum, all), |all|, r.value)
    ensures r.Err? ==> all != [] && PrefixFits(o, maximum, all)(|all|).Err?
  {
    if all == [] {
      return Ok(0);
    }
    var fits := PrefixFits(o, maximum, all);
    PrefixFitsDownward(o, maximum, all);
    var one := fits(1);
    if one.Err? {
      return Err(one.error);
    }
    if !one.value {
      return Ok(1);
    }
    r := Bisect(fits, |all|, 1, |all| + 1);
  }

  // The queue of candidates being divided: a selected prefix and what remains, updated in place.

  class Queue {
    var selected: seq<PackCandidate>
    var remaining: seq<PackCandidate>

    constructor (candidates: seq<PackCandidate>)
      ensures selected == [] && remaining == candidates
    {
      selected, remaining := [], candidates;
    }

    function All(): seq<PackCandidate>
      reads this
    {
      selected + remaining
    }

    /** Moves the longest fitting prefix of the remaining candidates, at least one, into a new selection. */
    method Take(o: Observation, maximum: nat) returns (r: Result<(), PackingError>)
      requires remaining != []
      modifies this
      ensures r.Err? ==> selected == old(selected) && remaining == old(remaining)
      ensures r.Ok? ==> selected != [] && All() == old(remaining)
      ensures r.Ok? ==> LongestOrOne(PrefixFits(o, maximum, old(remaining)), |old(remaining)|, |selected|)
      ensures r.Err? ==> PrefixFits(o, maximum, remaining)(|remaining|).Err?
    {
      var count := FittingPrefixLength(o, maximum, remaining);
      if count.Err? {
        return Err(count.error);
      }
      selected, remaining := remaining[..count.value], remaining[count.value..];
      return Ok(());
    }

    /** How far the selection may grow: a length already rejected is never reached again. */
    function Bound(rejected: Option<nat>): nat
      reads this
    {
      match rejected
      case None => |All()|
      case Some(r) => if r - 1 < |All()| then (if r == 0 then 0 else r - 1) else |All()|
    }

    /**
     Grows the selection to the longest prediction that fits below the rejected length. Reports
     whether it grew; when it did not, no longer prefix below that length fits.
     */
    method ExtendToFit(o: Observation, maximum: nat, rejected: Option<nat>)
      returns (r: Result<bool, PackingError>)
      requires selected != []
      modifies this
      ensures All() == old(All())
      ensures r != Ok(true) ==> selected == old(selected) && remaining == old(remaining)
      ensures r == Ok(true) ==>
        && |old(selected)| < |selected|
        && old(selected) <= selected
        && Longest(PrefixFits(o, maximum, All()), old(Bound(rejected)), |selected|)
      ensures r == Ok(false) ==>
        forall k :: |selected| < k <= Bound(rejected) ==> PrefixFits(o, maximum, All())(k) != Ok(true)
      ensures r.Err? ==> PrefixFits(o, maximum, All())(Bound(rejected)).Err?
    {
      if remaining == [] {
        return Ok(false);
      }
      ghost var all := All();
      var selectedLength := |selected|;
      var maximumCount := match rejected
        case Some(count) => (if count == 0 then 0 else count - 1)
        case None => selectedLength + |remaining|;
      if maximumCount <= selectedLength {
        return Ok(false);
      }
      var additional := if maximumCount - selectedLength < |remaining| then maximumCount - selectedLength else |remaining|;
      var bound := selectedLength + additional;
      assert bound == Bound(rejected);
      var candidates := selected + remaining;
      var fits := PrefixFits(o, maximum, candidates);
      PrefixFitsDownward(o, maximum, candidates);
      var grown := Further(fits, selectedLength, additional);
      if grown.Err? {
        return Err(grown.error);
      }
      if grown.value == 0 {
        return Ok(false);
      }
      var length := selectedLength + grown.value;
      selected, remaining := candidates[..length], candidates[length..];
      return Ok(true);
    }

    /** Shrinks the selection to its longest fitting proper prefix, or to one item when none fits. */
    method ShrinkToFit(o: Observation, maximum: nat) returns (r: Result<(), PackingError>)
      requires |selected| > 1
      modifies this
      ensures All() == old(All())
      ensures r.Err? ==> selected == old(selected) && remaining == old(remaining)
      ensures r.Ok? ==> 0 < |selected| < |old(selected)| && selected <= old(selected)
      ensures r.Ok? ==> LongestOrOne(PrefixFits(o, maximum, old(selected)), |old(selected)| - 1, |selected|)
      ensures r.Err? ==> PrefixFits(o, maximum, selected)(|selected|).Err?
    {
      var fitting := FittingPrefixLength(o, maximum, selected);
      if fitting.Err? {
        return Err(fitting.error);
      }
      var count := fitting.value;
      PrefixFitsDownward(o, maximum, selected);
      if count >= |selected| {
        count := if |selected| - 1 > 1 then |selected| - 1 else 1;
      }
      selected, remaining := selected[..count], selected[count..] + remaining;
      return Ok(());
    }
  }

}

/**
 The supervisor's counters. A worker counts the messages it started, the supervisor adds the candidates of
 isolated units, and the total must agree with the ledger: candidates replayed, newly committed and isolated.
 */
module Accounting {
  import opened Wrappers
  import opened Replay

  // Counting.

  function Tally<T>(s: seq<T>, p: T -> bool): nat {
    if s == [] then 0 else Tally(s[..|s| - 1], p) + (if p(s[|s| - 1]) then 1 else 0)
  }

  lemma {:induction false} TallyConcatenation<T>(a: seq<T>, b: seq<T>, p: T -> bool)
    ensures Tally(a + b, p) == Tally(a, p) + Tally(b, p)
  {
    if b == [] {
      assert a + b == a;
    } else {
      assert (a + b)[..|a + b| - 1] == a + b[..|b| - 1];
      TallyConcatenation(a, b[..|b| - 1], p);
    }
  }

  lemma TallyOne<T>(x: T, p: T -> bool)
    ensures Tally([x], p) == if p(x) then 1 else 0
  {
    assert [x][..0] == [];
  }

  lemma TallyMiddle<T>(before: seq<T>, x: T, after: seq<T>, p: T -> bool)
    ensures Tally(before + ([x] + after), p) == Tally(before + after, p) + (if p(x) then 1 else 0)
  {
    TallyOne(x, p);
    TallyConcatenation([x], after, p);
    TallyConcatenation(before, [x] + after, p);
    TallyConcatenation(before, after, p);
  }

  lemma TallyWithout<T>(s: seq<T>, i: nat, rest: seq<T>, p: T -> bool)
    requires i < |s| && rest == s[..i] + s[i + 1..]
    ensures Tally(s, p) == Tally(rest, p) + (if p(s[i]) then 1 else 0)
  {
    assert s == s[..i] + ([s[i]] + s[i + 1..]);
    TallyMiddle(s[..i], s[i], s[i + 1..], p);
  }

  /** Counting does not depend on the order. */
  lemma {:induction false} TallyPermutation<T>(a: seq<T>, b: seq<T>, p: T -> bool)
    requires multiset(a) == multiset(b)
    ensures Tally(a, p) == Tally(b, p)
    decreases |a|
  {
    if a == [] {
      assert |multiset(a)| == 0 && |multiset(b)| == |b|;
    } else {
      var n := |a| - 1;
      assert a == a[..n] + [a[n]];
      assert a[n] in multiset(b);
      var i :| 0 <= i < |b| && b[i] == a[n];
      SameRest(a, b, i);
      var rest := b[..i] + b[i + 1..];
      TallyPermutation(a[..n], rest, p);
      TallyWithout(b, i, rest, p);
    }
  }

  lemma OneLess<T>(before: seq<T>, after: seq<T>, x: T)
    ensures multiset(before + after) == multiset(before + [x] + after) - multiset{x}
  {
    assert multiset(before + [x] + after) == multiset(before) + multiset{x} + multiset(after);
    assert multiset(before + after) == multiset(before) + multiset(after);
  }

  lemma SameRest<T>(a: seq<T>, b: seq<T>, i: nat)
    requires multiset(a) == multiset(b) && a != [] && i < |b| && b[i] == a[|a| - 1]
    ensures multiset(a[..|a| - 1]) == multiset(b[..i] + b[i + 1..])
  {
    assert a == a[..|a| - 1] + [a[|a| - 1]];
    assert b == b[..i] + [b[i]] + b[i + 1..];
    OneLess(a[..|a| - 1], [], b[i]);
    OneLess(b[..i], b[i + 1..], b[i]);
    assert a[..|a| - 1] + [b[i]] + [] == a && a[..|a| - 1] + [] == a[..|a| - 1];
  }

  // Catalogs.

  function IsRecovered(s: Signature): bool { s.provenance.Recovered? }
  function IsOrphan(s: Signature): bool { s.provenance.Orphan? }
  function IsFragment(s: Signature): bool { s.provenance.Fragment? }
  function IsUnsupported(s: Signature): bool { !s.metadata.supported }

  function RecoveredIn(messages: seq<Signature>): nat { Tally(messages, IsRecovered) }
  function OrphanIn(messages: seq<Signature>): nat { Tally(messages, IsOrphan) }
  function FragmentIn(messages: seq<Signature>): nat { Tally(messages, IsFragment) }
  function UnsupportedIn(messages: seq<Signature>): nat { Tally(messages, IsUnsupported) }

  /** The counters for these messages. */
  function CatalogOf(messages: seq<Signature>): Catalog {
    Catalog(|messages|, RecoveredIn(messages), OrphanIn(messages), FragmentIn(messages), UnsupportedIn(messages))
  }

  function Plus(a: Catalog, b: Catalog): Catalog {
    Catalog(a.messages + b.messages, a.recovered + b.recovered, a.orphan + b.orphan, a.fragment + b.fragment,
            a.unsupported + b.unsupported)
  }

  /** Every counter fits its 64-bit field. */
  predicate Representable(c: Catalog) {
    && c.messages <= U64_MAX && c.recovered <= U64_MAX && c.orphan <= U64_MAX && c.fragment <= U64_MAX
    && c.unsupported <= U64_MAX
  }

  lemma RecoveredConcatenation(a: seq<Signature>, b: seq<Signature>)
    ensures RecoveredIn(a + b) == RecoveredIn(a) + RecoveredIn(b)
  {
    TallyConcatenation(a, b, IsRecovered);
  }

  lemma OrphanConcatenation(a: seq<Signature>, b: seq<Signature>)
    ensures OrphanIn(a + b) == OrphanIn(a) + OrphanIn(b)
  {
    TallyConcatenation(a, b, IsOrphan);
  }

  lemma FragmentConcatenation(a: seq<Signature>, b: seq<Signature>)
    ensures FragmentIn(a + b) == FragmentIn(a) + FragmentIn(b)
  {
    TallyConcatenation(a, b, IsFragment);
  }

  lemma UnsupportedConcatenation(a: seq<Signature>, b: seq<Signature>)
    ensures UnsupportedIn(a + b) == UnsupportedIn(a) + UnsupportedIn(b)
  {
    TallyConcatenation(a, b, IsUnsupported);
  }

  lemma CatalogSum(whole: seq<Signature>, a: seq<Signature>, b: seq<Signature>)
    requires |whole| == |a| + |b| && RecoveredIn(whole) == RecoveredIn(a) + RecoveredIn(b)
    requires OrphanIn(whole) == OrphanIn(a) + OrphanIn(b) && FragmentIn(whole) == FragmentIn(a) + FragmentIn(b)
    requires UnsupportedIn(whole) == UnsupportedIn(a) + UnsupportedIn(b)
    ensures CatalogOf(whole) == Plus(CatalogOf(a), CatalogOf(b))
  {}

  lemma CatalogOfConcatenation(a: seq<Signature>, b: seq<Signature>)
    ensures CatalogOf(a + b) == Plus(CatalogOf(a), CatalogOf(b))
  {
    RecoveredConcatenation(a, b);
    OrphanConcatenation(a, b);
    FragmentConcatenation(a, b);
    UnsupportedConcatenation(a, b);
    CatalogSum(a + b, a, b);
  }

  lemma CatalogOfPermutation(a: seq<Signature>, b: seq<Signature>)
    requires multiset(a) == multiset(b)
    ensures CatalogOf(a) == CatalogOf(b)
  {
    TallyPermutation(a, b, IsRecovered);
    TallyPermutation(a, b, IsOrphan);
    TallyPermutation(a, b, IsFragment);
    TallyPermutation(a, b, IsUnsupported);
    assert |a| == |multiset(a)| && |b| == |multiset(b)|;
  }

  method CheckedIncrement(n: nat) returns (r: Result<nat, ()>)
    ensures r == if n < U64_MAX then Ok(n + 1) else Err(())
  {
    r := if n < U64_MAX then Ok(n + 1) else Err(());
  }

  lemma CountsGrow(worker: Catalog, isolated: seq<Signature>, i: nat)
    requires i <= |isolated| && !Representable(Plus(worker, CatalogOf(isolated[..i])))
    ensures !Representable(Plus(worker, CatalogOf(isolated)))
  {
    assert isolated == isolated[..i] + isolated[i..];
    CatalogOfConcatenation(isolated[..i], isolated[i..]);
  }

  lemma OneMore(isolated: seq<Signature>, i: nat)
    requires i < |isolated|
    ensures CatalogOf(isolated[..i + 1]) == Plus(CatalogOf(isolated[..i]), CatalogOf([isolated[i]]))
  {
    assert isolated[..i + 1] == isolated[..i] + [isolated[i]];
    CatalogOfConcatenation(isolated[..i], [isolated[i]]);
  }

  lemma CatalogOfOne(s: Signature)
    ensures CatalogOf([s]) == Catalog(1, if IsRecovered(s) then 1 else 0, if IsOrphan(s) then 1 else 0,
                                      if IsFragment(s) then 1 else 0, if IsUnsupported(s) then 1 else 0)
  {
    TallyOne(s, IsRecovered);
    TallyOne(s, IsOrphan);
    TallyOne(s, IsFragment);
    TallyOne(s, IsUnsupported);
  }

  /** Adds one isolated candidate with checked additions. */
  method AddCandidate(catalog: Catalog, candidate: ReplayCandidate) returns (r: Result<Catalog, ()>)
    requires Representable(catalog)
    ensures r == (var sum := Plus(catalog, CatalogOf([CandidateSignature(candidate)]));
                  if Representable(sum) then Ok(sum) else Err(()))
  {
    var sum := catalog;
    CatalogOfOne(CandidateSignature(candidate));
    var messages :- CheckedIncrement(catalog.messages);
    sum := sum.(messages := messages);
    match candidate.provenance {
      case Normal =>
      case Recovered =>
        var recovered :- CheckedIncrement(catalog.recovered);
        sum := sum.(recovered := recovered);
      case Orphan =>
        var orphan :- CheckedIncrement(catalog.orphan);
        sum := sum.(orphan := orphan);
      case Fragment =>
        var fragment :- CheckedIncrement(catalog.fragment);
        sum := sum.(fragment := fragment);
    }
    if !candidate.metadata.supported {
      var unsupported :- CheckedIncrement(catalog.unsupported);
      sum := sum.(unsupported := unsupported);
    }
    return Ok(sum);
  }

  /** Adds the isolated candidates to the worker's counters; fails exactly when a counter would overflow. */
  method AccountIsolated(worker: Catalog, isolated: seq<ReplayCandidate>) returns (r: Result<Catalog, ()>)
    requires Representable(worker)
    ensures r == (var sum := Plus(worker, CatalogOf(Signatures(isolated)));
                  if Representable(sum) then Ok(sum) else Err(()))
  {
    var catalog := worker;
    ghost var signatures := Signatures(isolated);
    for i := 0 to |isolated|
      invariant Representable(catalog) && catalog == Plus(worker, CatalogOf(signatures[..i]))
    {
      OneMore(signatures, i);
      var added := AddCandidate(catalog, isolated[i]);
      if added.Err? {
        CountsGrow(worker, signatures, i + 1);
        return added;
      }
      catalog := added.value;
    }
    assert signatures[..|isolated|] == signatures;
    return Ok(catalog);
  }

  /** The final check: the counters equal the ledger's summary, field by field. */
  predicate Agrees(catalog: Catalog, summary: Catalog) {
    && catalog.messages == summary.messages && catalog.recovered == summary.recovered
    && catalog.orphan == summary.orphan && catalog.fragment == summary.fragment
    && catalog.unsupported == summary.unsupported
  }

  // What an accepted run means for the ledger.

  lemma {:induction false} SignaturesPermutation(a: seq<ReplayCandidate>, b: seq<ReplayCandidate>)
    requires multiset(a) == multiset(b)
    ensures multiset(Signatures(a)) == multiset(Signatures(b))
    decreases |a|
  {
    if a == [] {
      assert |multiset(a)| == 0 && |multiset(b)| == |b|;
    } else {
      var n := |a| - 1;
      assert a == a[..n] + [a[n]];
      assert a[n] in multiset(b);
      var i :| 0 <= i < |b| && b[i] == a[n];
      SameRest(a, b, i);
      SignaturesPermutation(a[..n], b[..i] + b[i + 1..]);
      SignaturesWithout(a, n);
      SignaturesWithout(b, i);
      assert a[..n] + a[n + 1..] == a[..n];
    }
  }

  lemma SignaturesWithout(s: seq<ReplayCandidate>, i: nat)
    requires i < |s|
    ensures multiset(Signatures(s)) == multiset(Signatures(s[..i] + s[i + 1..])) + multiset{CandidateSignature(s[i])}
  {
    assert Signatures(s) == Signatures(s[..i]) + [CandidateSignature(s[i])] + Signatures(s[i + 1..]);
    assert Signatures(s[..i] + s[i + 1..]) == Signatures(s[..i]) + Signatures(s[i + 1..]);
  }

  /**
   In an accepted run every given candidate was observed again exactly once, and the messages the worker
   started are those candidates plus the forwarded ones.
   */
  lemma AcceptedConserves(candidates: seq<ReplayCandidate>, frames: seq<Frame>, faults: Faults, log: Log, catalog: Catalog)
    requires Faithful(candidates, log) && Explains(faults, Ok(catalog), log, frames)
    ensures multiset(Candidates(log.replayed)) == multiset(candidates)
    ensures multiset(StartSignatures(frames)) == multiset(Signatures(candidates) + StartSignatures(log.forwarded))
  {
    LastStartsNothing(log.seen, frames);
    NothingAwaited(candidates, log.left, Candidates(log.replayed));
    SignaturesPermutation(Candidates(log.replayed), candidates);
    StartsConserved(StartSignatures(log.seen), StartSignatures(log.forwarded), Signatures(Candidates(log.replayed)),
                    Signatures(candidates));
  }

  lemma LastStartsNothing(seen: seq<Frame>, frames: seq<Frame>)
    requires seen <= frames && |frames| == |seen| + 1 && !frames[|seen|].MessageStart?
    ensures StartSignatures(frames) == StartSignatures(seen)
  {
    assert frames == seen + [frames[|seen|]];
    Appended(seen, frames[|seen|]);
  }

  lemma NothingAwaited(candidates: seq<ReplayCandidate>, left: multiset<ReplayCandidate>, replayed: seq<ReplayCandidate>)
    requires CandidatesConserved(candidates, left, replayed) && left == multiset{}
    ensures multiset(replayed) == multiset(candidates)
  {
    assert left + multiset(replayed) == multiset(replayed);
  }

  lemma StartsConserved(seen: seq<Signature>, forwarded: seq<Signature>, replayed: seq<Signature>, given: seq<Signature>)
    requires SignaturesConserved(seen, forwarded, replayed) && multiset(replayed) == multiset(given)
    ensures multiset(seen) == multiset(given + forwarded)
  {
    assert multiset(given + forwarded) == multiset(given) + multiset(forwarded);
  }

  /** The ledger after the run: candidates replayed, candidates isolated, and newly committed messages. */
  function Ledger(candidates: seq<ReplayCandidate>, isolated: seq<ReplayCandidate>, forwarded: seq<Frame>)
    : seq<Signature>
  {
    Signatures(candidates) + StartSignatures(forwarded) + Signatures(isolated)
  }

  /**
   The final check passes exactly when the worker's own counters are the counts of the messages it started,
   whatever was replayed, forwarded or isolated.
   */
  lemma ValidationDetectsMiscount(candidates: seq<ReplayCandidate>, isolated: seq<ReplayCandidate>,
                                  frames: seq<Frame>, faults: Faults, log: Log, catalog: Catalog)
    requires Faithful(candidates, log) && Explains(faults, Ok(catalog), log, frames)
    ensures Agrees(Plus(catalog, CatalogOf(Signatures(isolated))),
                   CatalogOf(Ledger(candidates, isolated, log.forwarded)))
            <==> catalog == CatalogOf(StartSignatures(frames))
  {
    AcceptedConserves(candidates, frames, faults, log, catalog);
    CatalogOfPermutation(StartSignatures(frames), Signatures(candidates) + StartSignatures(log.forwarded));
    CatalogOfConcatenation(Signatures(candidates) + StartSignatures(log.forwarded), Signatures(isolated));
  }

  /** The worker counted the messages it started, and with the isolated ones they fit their counters. */
  ghost predicate CountedRightly(frames: seq<Frame>, isolated: seq<ReplayCandidate>, worker: Catalog) {
    && worker == CatalogOf(StartSignatures(frames))
    && Representable(Plus(worker, CatalogOf(Signatures(isolated))))
  }

  /**
   How an attempt ends: with the error its run stopped with; or, after an accepted run, with the counts of
   the ledger exactly when the worker counted rightly, and an integrity error otherwise.
   */
  ghost predicate Attempted(candidates: seq<ReplayCandidate>, isolated: seq<ReplayCandidate>, frames: seq<Frame>,
                            received: Result<Catalog, Error>, forwarded: seq<Frame>, r: Result<Catalog, Error>)
  {
    match received
    case Err(_) => r == received
    case Ok(worker) =>
      r == if CountedRightly(frames, isolated, worker) then Ok(CatalogOf(Ledger(candidates, isolated, forwarded)))
           else Err(Invalid)
  }

  /** One supervised attempt to the end: receive, account for isolated candidates, validate. */
  method CompleteAttempt(candidates: seq<ReplayCandidate>, isolated: seq<ReplayCandidate>, frames: seq<Frame>, faults: Faults)
    returns (r: Result<Catalog, Error>, forwarded: seq<Frame>, replayed: seq<(ReplayCandidate, nat)>)
    requires forall i :: 0 <= i < |frames| && frames[i].Complete? ==> Representable(frames[i].catalog)
    ensures exists log, received ::
      && Account(candidates, frames, faults, received, forwarded, replayed, log)
      && Attempted(candidates, isolated, frames, received, forwarded, r)
  {
    var received;
    received, forwarded, replayed := Receive(candidates, frames, faults);
    ghost var log :| Account(candidates, frames, faults, received, forwarded, replayed, log);
    r := received;
    if received.Ok? {
      r := Validate(candidates, isolated, frames, faults, received.value, log, forwarded);
    }
    assert Account(candidates, frames, faults, received, forwarded, replayed, log);
    assert Attempted(candidates, isolated, frames, received, forwarded, r);
  }

  /** Accounts for the isolated candidates of an accepted run and compares the counters with the ledger. */
  method Validate(candidates: seq<ReplayCandidate>, isolated: seq<ReplayCandidate>, ghost frames: seq<Frame>,
                  ghost faults: Faults, worker: Catalog, ghost log: Log, forwarded: seq<Frame>)
    returns (r: Result<Catalog, Error>)
    requires Faithful(candidates, log) && Explains(faults, Ok(worker), log, frames)
    requires Representable(worker) && forwarded == log.forwarded
    ensures Attempted(candidates, isolated, frames, Ok(worker), forwarded, r)
  {
    var accounted := AccountIsolated(worker, isolated);
    if accounted.Err? {
      return Err(Invalid);
    }
    ValidationDetectsMiscount(candidates, isolated, frames, faults, log, worker);
    // The ledger's summary, counted from its rows.
    var summary := CatalogOf(Ledger(candidates, isolated, forwarded));
    if !Agrees(accounted.value, summary) {
      return Err(Invalid);
    }
    return Ok(accounted.value);
  }
}

/**
 The supervisor's side of a worker run after a crash: re-emitted messages are matched against the
 candidates already committed, as a multiset of signatures, and everything else is forwarded in order.
 */
module Replay {
  import opened Wrappers

  type Unit = nat

  datatype Provenance = Normal | Recovered | Orphan | Fragment

  /** Stable message metadata: what identifies a message across runs, and whether it is supported. */
  datatype Metadata = Metadata(identity: string, supported: bool)

  datatype Signature = Signature(
    provenance: Provenance, recoveryIndex: Option<nat>, unit: Option<Unit>, metadata: Metadata)

  datatype ReplayCandidate = ReplayCandidate(
    itemKey: string, provenance: Provenance, recoveryIndex: Option<nat>, unit: Option<Unit>, metadata: Metadata)

  datatype Catalog = Catalog(messages: nat, recovered: nat, orphan: nat, fragment: nat, unsupported: nat)

  datatype Frame =
    | UnitStart(unit: Unit)
    | UnitEnd(unit: Unit)
    | MessageStart(id: nat, provenance: Provenance, recoveryIndex: Option<nat>, metadata: Metadata)
    | MessageEnd(id: nat)
    | Data(payload: seq<nat>)
    | Detail
    | Hello
    | Complete(catalog: Catalog)
    | ParserBoundary
    | ErrorFrame

  datatype Error = Invalid | Reported | Io | SinkRefused

  /** What may go wrong outside the supervisor during a run: the sink refusing a frame, a payload read failing. */
  datatype Faults = Faults(sinkRefuses: bool, readsFail: bool)

  function CandidateSignature(c: ReplayCandidate): Signature {
    Signature(c.provenance, c.recoveryIndex, c.unit, c.metadata)
  }

  function Signatures(cs: seq<ReplayCandidate>): (r: seq<Signature>)
    ensures |r| == |cs|
    ensures forall i :: 0 <= i < |cs| ==> r[i] == CandidateSignature(cs[i])
  {
    seq(|cs|, i requires 0 <= i < |cs| => CandidateSignature(cs[i]))
  }

  /** The unit that is open after these frames. */
  function ActiveAfter(frames: seq<Frame>): Option<Unit> {
    if frames == [] then None
    else match frames[|frames| - 1]
      case UnitStart(u) => Some(u)
      case UnitEnd(_) => None
      case _ => ActiveAfter(frames[..|frames| - 1])
  }

  /** The signature of the message a frame starts, under the unit open at that point. */
  function StartOf(f: Frame, active: Option<Unit>): seq<Signature> {
    if f.MessageStart? then [Signature(f.provenance, f.recoveryIndex, active, f.metadata)] else []
  }

  /** The signatures of the messages started in these frames, in order. */
  function StartSignatures(frames: seq<Frame>): seq<Signature> {
    if frames == [] then []
    else
      var before := frames[..|frames| - 1];
      StartSignatures(before) + StartOf(frames[|frames| - 1], ActiveAfter(before))
  }

  function NextActive(f: Frame, active: Option<Unit>): Option<Unit> {
    if f.UnitStart? then Some(f.unit) else if f.UnitEnd? then None else active
  }

  lemma Appended(frames: seq<Frame>, f: Frame)
    ensures ActiveAfter(frames + [f]) == NextActive(f, ActiveAfter(frames))
    ensures StartSignatures(frames + [f]) == StartSignatures(frames) + StartOf(f, ActiveAfter(frames))
  {
    assert (frames + [f])[..|frames|] == frames;
  }

  // What a run keeps and what it discards.

  /** The frames kept by a mask, in order. */
  function Kept(frames: seq<Frame>, mask: seq<bool>): seq<Frame>
    requires |mask| == |frames|
  {
    if frames == [] then []
    else
      var n := |frames| - 1;
      Kept(frames[..n], mask[..n]) + (if mask[n] then [frames[n]] else [])
  }

  datatype Discarding = Outside | Within(id: nat) | Malformed

  function NextDiscard(state: Discarding, f: Frame, keep: bool): Discarding {
    match state
    case Malformed => Malformed
    case Outside =>
      if keep then Outside else if f.MessageStart? then Within(f.id) else Malformed
    case Within(id) =>
      if f.UnitStart? || f.UnitEnd? then (if keep then Within(id) else Malformed)
      else if keep || f.MessageStart? then Malformed
      else if f.MessageEnd? then (if f.id == id then Outside else Malformed)
      else Within(id)
  }

  /** Discarded frames make up whole messages: a start, its contents, and the end with the same identifier. */
  function DiscardState(frames: seq<Frame>, mask: seq<bool>): Discarding
    requires |mask| == |frames|
  {
    if frames == [] then Outside
    else
      var n := |frames| - 1;
      NextDiscard(DiscardState(frames[..n], mask[..n]), frames[n], mask[n])
  }

  lemma MaskAppended(frames: seq<Frame>, mask: seq<bool>, f: Frame, keep: bool)
    requires |mask| == |frames|
    ensures Kept(frames + [f], mask + [keep]) == Kept(frames, mask) + (if keep then [f] else [])
    ensures DiscardState(frames + [f], mask + [keep]) == NextDiscard(DiscardState(frames, mask), f, keep)
  {
    assert (frames + [f])[..|frames|] == frames && (mask + [keep])[..|mask|] == mask;
  }

  // The candidates waiting to be observed again.

  type Bags = map<Signature, seq<ReplayCandidate>>

  /** The bags hold exactly the candidates left, each under its own signature. */
  ghost predicate Holds(bags: Bags, left: multiset<ReplayCandidate>) {
    Counted(bags, left) && Keyed(bags)
  }

  ghost predicate Counted(bags: Bags, left: multiset<ReplayCandidate>) {
    forall c :: left[c] == InBag(bags, c)
  }

  ghost predicate Keyed(bags: Bags) {
    forall s, i :: s in bags && 0 <= i < |bags[s]| ==> CandidateSignature(bags[s][i]) == s
  }

  /** How often a candidate lies in the bag of its own signature. */
  function InBag(bags: Bags, c: ReplayCandidate): nat {
    multiset(BagOf(bags, CandidateSignature(c)))[c]
  }

  function BagOf(bags: Bags, s: Signature): seq<ReplayCandidate> {
    if s in bags then bags[s] else []
  }

  /** Replacing one bag changes only the counts of candidates with that signature. */
  lemma BagReplaced(bags: Bags, s: Signature, bag: seq<ReplayCandidate>, d: ReplayCandidate)
    ensures InBag(bags[s := bag], d) == if CandidateSignature(d) == s then multiset(bag)[d] else InBag(bags, d)
  {}

  lemma PushCount(bag: seq<ReplayCandidate>, c: ReplayCandidate, d: ReplayCandidate)
    ensures multiset(bag + [c])[d] == multiset(bag)[d] + (if d == c then 1 else 0)
  {
    assert multiset(bag + [c]) == multiset(bag) + multiset{c};
  }

  lemma PushKeyed(bags: Bags, c: ReplayCandidate)
    requires Keyed(bags)
    ensures Keyed(bags[CandidateSignature(c) := BagOf(bags, CandidateSignature(c)) + [c]])
  {}

  lemma PushHolds(bags: Bags, left: multiset<ReplayCandidate>, c: ReplayCandidate)
    requires Holds(bags, left)
    ensures Holds(bags[CandidateSignature(c) := BagOf(bags, CandidateSignature(c)) + [c]], left + multiset{c})
  {
    var s := CandidateSignature(c);
    var bag := BagOf(bags, s);
    PushKeyed(bags, c);
    forall d ensures (left + multiset{c})[d] == InBag(bags[s := bag + [c]], d) {
      assert left[d] == InBag(bags, d);
      BagReplaced(bags, s, bag + [c], d);
      PushCount(bag, c, d);
    }
  }

  lemma PrefixGrows<T>(s: seq<T>, i: nat)
    requires i < |s|
    ensures s[..i + 1] == s[..i] + [s[i]]
  {}

  method CollectBags(candidates: seq<ReplayCandidate>) returns (bags: Bags)
    ensures Holds(bags, multiset(candidates))
  {
    bags := map[];
    for i := 0 to |candidates|
      invariant Holds(bags, multiset(candidates[..i]))
    {
      var c := candidates[i];
      var s := CandidateSignature(c);
      PrefixGrows(candidates, i);
      PushHolds(bags, multiset(candidates[..i]), c);
      bags := bags[s := BagOf(bags, s) + [c]];
    }
    assert candidates[..|candidates|] == candidates;
  }

  lemma NothingLeft(bags: Bags, left: multiset<ReplayCandidate>, s: Signature)
    requires Holds(bags, left) && BagOf(bags, s) == []
    ensures NoneLeft(left, s)
  {
    forall c | CandidateSignature(c) == s ensures left[c] == 0 {
      assert left[c] == InBag(bags, c);
    }
  }

  lemma PopHolds(bags: Bags, left: multiset<ReplayCandidate>, s: Signature,
                 rest: seq<ReplayCandidate>, c: ReplayCandidate)
    requires Holds(bags, left) && s in bags && bags[s] == rest + [c]
    ensures CandidateSignature(c) == s && c in left
    ensures Holds(bags[s := rest], left - multiset{c})
  {
    assert bags[s][|rest|] == c;
    PushCount(rest, c, c);
    assert left[c] == InBag(bags, c);
    forall d ensures (left - multiset{c})[d] == InBag(bags[s := rest], d) {
      assert left[d] == InBag(bags, d);
      BagReplaced(bags, s, rest, d);
      PushCount(rest, c, d);
    }
    forall i | 0 <= i < |rest| ensures CandidateSignature(rest[i]) == s {
      assert rest[i] == bags[s][i];
    }
  }

  /** Takes the last candidate of a signature. */
  method Pop(bags: Bags, s: Signature, ghost left: multiset<ReplayCandidate>)
    returns (taken: Option<ReplayCandidate>, bags': Bags)
    requires Holds(bags, left)
    ensures taken.None? ==> bags' == bags && NoneLeft(left, s)
    ensures taken.Some? ==> CandidateSignature(taken.value) == s && taken.value in left
    ensures taken.Some? ==> Holds(bags', left - multiset{taken.value})
  {
    if s !in bags || bags[s] == [] {
      NothingLeft(bags, left, s);
      return None, bags;
    }
    var bag := bags[s];
    var c, rest := bag[|bag| - 1], bag[..|bag| - 1];
    PopHolds(bags, left, s, rest, c);
    return Some(c), bags[s := rest];
  }

  // The receive loop.

  function Candidates(replayed: seq<(ReplayCandidate, nat)>): (r: seq<ReplayCandidate>)
    ensures |r| == |replayed|
    ensures forall i :: 0 <= i < |replayed| ==> r[i] == replayed[i].0
  {
    seq(|replayed|, i requires 0 <= i < |replayed| => replayed[i].0)
  }

  /** A message start: its signature, its identifier in this run, and whether it was forwarded. */
  datatype Mark = Mark(signature: Signature, id: nat, forwarded: bool)

  function Marks(frames: seq<Frame>, mask: seq<bool>): seq<Mark>
    requires |mask| == |frames|
  {
    if frames == [] then []
    else
      var n := |frames| - 1;
      var f := frames[n];
      Marks(frames[..n], mask[..n]) +
      (if f.MessageStart? then [Mark(StartOf(f, ActiveAfter(frames[..n]))[0], f.id, mask[n])] else [])
  }

  lemma MarksAppended(frames: seq<Frame>, mask: seq<bool>, f: Frame, keep: bool)
    requires |mask| == |frames|
    ensures Marks(frames + [f], mask + [keep]) == Marks(frames, mask) +
      (if f.MessageStart? then [Mark(StartOf(f, ActiveAfter(frames))[0], f.id, keep)] else [])
  {
    assert (frames + [f])[..|frames|] == frames && (mask + [keep])[..|mask|] == mask;
  }

  /** Of the messages with one signature, the earliest ones are the replayed ones. */
  ghost predicate EarliestReplayed(marks: seq<Mark>) {
    forall i, j :: 0 <= i < j < |marks| && marks[i].forwarded && !marks[j].forwarded ==> marks[i].signature != marks[j].signature
  }

  /** No candidate is left for a signature that has been forwarded. */
  ghost predicate ForwardedUsedUp(marks: seq<Mark>, left: multiset<ReplayCandidate>) {
    forall i, c :: 0 <= i < |marks| && marks[i].forwarded && CandidateSignature(c) == marks[i].signature ==> left[c] == 0
  }

  /** The frames read so far and what became of them. */
  datatype Log = Log(seen: seq<Frame>, mask: seq<bool>, forwarded: seq<Frame>,
                     replayed: seq<(ReplayCandidate, nat)>, left: multiset<ReplayCandidate>)

  /** What was forwarded is what the mask keeps, and no unit frame is ever dropped. */
  ghost predicate MaskHonoured(log: Log) {
    && |log.mask| == |log.seen|
    && log.forwarded == Kept(log.seen, log.mask)
    && ActiveAfter(log.forwarded) == ActiveAfter(log.seen)
  }

  /** The candidates still awaited and those replayed are the given ones. */
  ghost predicate CandidatesConserved(candidates: seq<ReplayCandidate>, left: multiset<ReplayCandidate>,
                                      replayed: seq<ReplayCandidate>) {
    left + multiset(replayed) == multiset(candidates)
  }

  /** Every message seen was forwarded or replayed, never both. */
  ghost predicate SignaturesConserved(seen: seq<Signature>, forwarded: seq<Signature>, replayed: seq<Signature>) {
    multiset(seen) == multiset(forwarded) + multiset(replayed)
  }

  ghost predicate Conserved(candidates: seq<ReplayCandidate>, log: Log) {
    && CandidatesConserved(candidates, log.left, Candidates(log.replayed))
    && SignaturesConserved(StartSignatures(log.seen), StartSignatures(log.forwarded),
                           Signatures(Candidates(log.replayed)))
  }

  /** The messages dropped, in order. */
  function Dropped(marks: seq<Mark>): seq<(Signature, nat)> {
    if marks == [] then []
    else
      var mark := marks[|marks| - 1];
      Dropped(marks[..|marks| - 1]) + (if mark.forwarded then [] else [(mark.signature, mark.id)])
  }

  function Pairings(replayed: seq<(ReplayCandidate, nat)>): (r: seq<(Signature, nat)>)
    ensures |r| == |replayed|
    ensures forall i :: 0 <= i < |replayed| ==> r[i] == (CandidateSignature(replayed[i].0), replayed[i].1)
  {
    seq(|replayed|, i requires 0 <= i < |replayed| => (CandidateSignature(replayed[i].0), replayed[i].1))
  }

  /** Each dropped message is paired with the candidate replayed for it. */
  ghost predicate Paired(marks: seq<Mark>, replayed: seq<(ReplayCandidate, nat)>) {
    Dropped(marks) == Pairings(replayed)
  }

  ghost predicate InOrder(marks: seq<Mark>, left: multiset<ReplayCandidate>) {
    EarliestReplayed(marks) && ForwardedUsedUp(marks, left)
  }

  ghost predicate Faithful(candidates: seq<ReplayCandidate>, log: Log) {
    && MaskHonoured(log)
    && Conserved(candidates, log)
    && InOrder(Marks(log.seen, log.mask), log.left)
    && Paired(Marks(log.seen, log.mask), log.replayed)
  }

  lemma InOrderForward(marks: seq<Mark>, left: multiset<ReplayCandidate>, s: Signature, id: nat)
    requires InOrder(marks, left)
    requires forall c :: CandidateSignature(c) == s ==> left[c] == 0
    ensures InOrder(marks + [Mark(s, id, true)], left)
  {}

  lemma InOrderMatch(marks: seq<Mark>, left: multiset<ReplayCandidate>, c: ReplayCandidate, id: nat)
    requires InOrder(marks, left) && c in left
    ensures InOrder(marks + [Mark(CandidateSignature(c), id, false)], left - multiset{c})
  {}

  lemma PairedForward(marks: seq<Mark>, replayed: seq<(ReplayCandidate, nat)>, s: Signature, id: nat)
    requires Paired(marks, replayed)
    ensures Paired(marks + [Mark(s, id, true)], replayed)
  {
    assert (marks + [Mark(s, id, true)])[..|marks|] == marks;
  }

  lemma PairedMatch(marks: seq<Mark>, replayed: seq<(ReplayCandidate, nat)>, c: ReplayCandidate, id: nat)
    requires Paired(marks, replayed)
    ensures Paired(marks + [Mark(CandidateSignature(c), id, false)], replayed + [(c, id)])
  {
    assert (marks + [Mark(CandidateSignature(c), id, false)])[..|marks|] == marks;
    assert Pairings(replayed + [(c, id)]) == Pairings(replayed) + [(CandidateSignature(c), id)];
  }

  lemma CandidateMoved(candidates: seq<ReplayCandidate>, left: multiset<ReplayCandidate>,
                       replayed: seq<ReplayCandidate>, c: ReplayCandidate)
    requires CandidatesConserved(candidates, left, replayed) && c in left
    ensures CandidatesConserved(candidates, left - multiset{c}, replayed + [c])
  {
    assert multiset(replayed + [c]) == multiset(replayed) + multiset{c};
    assert left == (left - multiset{c}) + multiset{c};
  }

  lemma SignatureReplayed(seen: seq<Signature>, forwarded: seq<Signature>, replayed: seq<Signature>, s: Signature)
    requires SignaturesConserved(seen, forwarded, replayed)
    ensures SignaturesConserved(seen + [s], forwarded, replayed + [s])
  {}

  lemma SignaturesForwarded(seen: seq<Signature>, forwarded: seq<Signature>, replayed: seq<Signature>,
                            started: seq<Signature>)
    requires SignaturesConserved(seen, forwarded, replayed)
    ensures SignaturesConserved(seen + started, forwarded + started, replayed)
  {}

  lemma ReplayedAppended(replayed: seq<(ReplayCandidate, nat)>, c: ReplayCandidate, id: nat)
    ensures Candidates(replayed + [(c, id)]) == Candidates(replayed) + [c]
    ensures Signatures(Candidates(replayed + [(c, id)])) == Signatures(Candidates(replayed)) + [CandidateSignature(c)]
  {
    assert Candidates(replayed + [(c, id)]) == Candidates(replayed) + [c];
  }

  lemma ConservedMatch(candidates: seq<ReplayCandidate>, log: Log, after: Log, c: ReplayCandidate, id: nat)
    requires Conserved(candidates, log) && c in log.left
    requires after.replayed == log.replayed + [(c, id)] && after.left == log.left - multiset{c}
    requires after.forwarded == log.forwarded
    requires StartSignatures(after.seen) == StartSignatures(log.seen) + [CandidateSignature(c)]
    ensures Conserved(candidates, after)
  {
    var done := Candidates(log.replayed);
    CandidateMoved(candidates, log.left, done, c);
    SignatureReplayed(StartSignatures(log.seen), StartSignatures(log.forwarded), Signatures(done), CandidateSignature(c));
    ReplayedAppended(log.replayed, c, id);
  }

  lemma ConservedForward(candidates: seq<ReplayCandidate>, log: Log, after: Log, started: seq<Signature>)
    requires Conserved(candidates, log)
    requires after.replayed == log.replayed && after.left == log.left
    requires StartSignatures(after.seen) == StartSignatures(log.seen) + started
    requires StartSignatures(after.forwarded) == StartSignatures(log.forwarded) + started
    ensures Conserved(candidates, after)
  {
    SignaturesForwarded(StartSignatures(log.seen), StartSignatures(log.forwarded),
                        Signatures(Candidates(log.replayed)), started);
  }

  function Forward(log: Log, f: Frame): Log {
    log.(seen := log.seen + [f], mask := log.mask + [true], forwarded := log.forwarded + [f])
  }

  function Discard(log: Log, f: Frame): Log {
    log.(seen := log.seen + [f], mask := log.mask + [false])
  }

  lemma MaskForward(log: Log, f: Frame)
    requires MaskHonoured(log)
    ensures MaskHonoured(Forward(log, f))
    ensures StartSignatures(log.seen + [f]) == StartSignatures(log.seen) + StartOf(f, ActiveAfter(log.seen))
    ensures StartSignatures(log.forwarded + [f]) == StartSignatures(log.forwarded) + StartOf(f, ActiveAfter(log.seen))
  {
    Appended(log.seen, f);
    Appended(log.forwarded, f);
    MaskAppended(log.seen, log.mask, f, true);
  }

  lemma FaithfulForward(candidates: seq<ReplayCandidate>, log: Log, f: Frame)
    requires Faithful(candidates, log)
    requires f.MessageStart? ==> NoneLeft(log.left, StartOf(f, ActiveAfter(log.seen))[0])
    ensures Faithful(candidates, Forward(log, f))
  {
    MaskForward(log, f);
    MarksAppended(log.seen, log.mask, f, true);
    ConservedForward(candidates, log, Forward(log, f), StartOf(f, ActiveAfter(log.seen)));
    if f.MessageStart? {
      var s := StartOf(f, ActiveAfter(log.seen))[0];
      InOrderForward(Marks(log.seen, log.mask), log.left, s, f.id);
      PairedForward(Marks(log.seen, log.mask), log.replayed, s, f.id);
    } else {
      assert Marks(log.seen, log.mask) + [] == Marks(log.seen, log.mask);
    }
  }

  ghost predicate NoneLeft(left: multiset<ReplayCandidate>, s: Signature) {
    forall c :: CandidateSignature(c) == s ==> left[c] == 0
  }

  lemma FaithfulDiscard(candidates: seq<ReplayCandidate>, log: Log, f: Frame)
    requires Faithful(candidates, log) && !f.MessageStart? && !f.UnitStart? && !f.UnitEnd?
    ensures Faithful(candidates, Discard(log, f))
  {
    Appended(log.seen, f);
    MaskAppended(log.seen, log.mask, f, false);
    MarksAppended(log.seen, log.mask, f, false);
    assert StartSignatures(log.forwarded) + [] == StartSignatures(log.forwarded);
    ConservedForward(candidates, log, Discard(log, f), []);
    assert Marks(log.seen, log.mask) + [] == Marks(log.seen, log.mask);
  }

  function MatchCandidate(log: Log, f: Frame, c: ReplayCandidate, id: nat): Log {
    Discard(log, f).(replayed := log.replayed + [(c, id)], left := log.left - multiset{c})
  }

  lemma FaithfulMatch(candidates: seq<ReplayCandidate>, log: Log, f: Frame, c: ReplayCandidate)
    requires Faithful(candidates, log) && f.MessageStart? && c in log.left
    requires CandidateSignature(c) == StartOf(f, ActiveAfter(log.seen))[0]
    ensures Faithful(candidates, MatchCandidate(log, f, c, f.id))
  {
    Appended(log.seen, f);
    MaskAppended(log.seen, log.mask, f, false);
    MarksAppended(log.seen, log.mask, f, false);
    ConservedMatch(candidates, log, MatchCandidate(log, f, c, f.id), c, f.id);
    InOrderMatch(Marks(log.seen, log.mask), log.left, c, f.id);
    PairedMatch(Marks(log.seen, log.mask), log.replayed, c, f.id);
  }

  // The receive loop.

  /** What the loop keeps between frames. */
  datatype State = State(bags: Bags, remaining: nat, active: Option<Unit>, discarding: Option<nat>,
                         forwarded: seq<Frame>, replayed: seq<(ReplayCandidate, nat)>)

  function Forwarded(state: State, f: Frame): State {
    state.(active := NextActive(f, state.active), forwarded := state.forwarded + [f])
  }

  function Discarded(state: State, f: Frame): State {
    state.(discarding := if f.MessageEnd? then None else state.discarding)
  }

  function Matched(state: State, f: Frame, c: ReplayCandidate, bags: Bags): State
    requires f.MessageStart? && state.remaining > 0
  {
    state.(bags := bags, remaining := state.remaining - 1, discarding := Some(f.id),
           replayed := state.replayed + [(c, f.id)])
  }

  function DiscardingOf(id: Option<nat>): Discarding {
    if id.None? then Outside else Within(id.value)
  }

  ghost predicate Sound(candidates: seq<ReplayCandidate>, state: State, log: Log) {
    && Faithful(candidates, log)
    && state.active == ActiveAfter(log.seen)
    && DiscardState(log.seen, log.mask) == DiscardingOf(state.discarding)
    && Holds(state.bags, log.left) && |log.left| == state.remaining
    && state.forwarded == log.forwarded && state.replayed == log.replayed
  }

  lemma SoundForward(candidates: seq<ReplayCandidate>, state: State, log: Log, f: Frame)
    requires Sound(candidates, state, log)
    requires state.discarding.Some? ==> f.UnitStart? || f.UnitEnd?
    requires f.MessageStart? ==> NoneLeft(log.left, StartOf(f, state.active)[0])
    ensures Sound(candidates, Forwarded(state, f), Forward(log, f))
  {
    FaithfulForward(candidates, log, f);
    Appended(log.seen, f);
    MaskAppended(log.seen, log.mask, f, true);
  }

  lemma SoundDiscard(candidates: seq<ReplayCandidate>, state: State, log: Log, f: Frame)
    requires Sound(candidates, state, log) && state.discarding.Some?
    requires !f.MessageStart? && !f.UnitStart? && !f.UnitEnd?
    requires f.MessageEnd? ==> f.id == state.discarding.value
    ensures Sound(candidates, Discarded(state, f), Discard(log, f))
  {
    FaithfulDiscard(candidates, log, f);
    Appended(log.seen, f);
    MaskAppended(log.seen, log.mask, f, false);
  }

  lemma SoundMatch(candidates: seq<ReplayCandidate>, state: State, log: Log, f: Frame, c: ReplayCandidate, bags: Bags)
    requires Sound(candidates, state, log) && state.discarding.None?
    requires f.MessageStart? && c in log.left && state.remaining > 0 && CandidateSignature(c) == StartOf(f, state.active)[0]
    requires Holds(bags, log.left - multiset{c})
    ensures |log.left| == |log.left - multiset{c}| + 1
    ensures Sound(candidates, Matched(state, f, c, bags), MatchCandidate(log, f, c, f.id))
  {
    assert log.left == (log.left - multiset{c}) + multiset{c};
    FaithfulMatch(candidates, log, f, c);
    Appended(log.seen, f);
    MaskAppended(log.seen, log.mask, f, false);
  }

  /** The frame the loop refuses: a protocol error, given everything read before it. */
  ghost predicate Violates(log: Log, f: Frame, last: bool)
    requires MaskHonoured(log)
  {
    if f.UnitStart? then ActiveAfter(log.seen).Some?
    else if f.UnitEnd? then ActiveAfter(log.seen) != Some(f.unit)
    else if f.Hello? || f.ParserBoundary? then true
    else if DiscardState(log.seen, log.mask).Within? then
      f.MessageStart? || f.Complete? || (f.MessageEnd? && f.id != DiscardState(log.seen, log.mask).id)
    else f.Complete? && (log.left != multiset{} || !last)
  }

  /** Why a run stopped at this frame. The sink and the payload reads may fail on their own account. */
  ghost predicate StopsAt(faults: Faults, r: Result<Catalog, Error>, log: Log, f: Frame, last: bool)
    requires MaskHonoured(log)
  {
    match r
    case Ok(catalog) =>
      && f == Complete(catalog) && last
      && log.left == multiset{} && DiscardState(log.seen, log.mask) == Outside
    case Err(Invalid) => Violates(log, f, last)
    case Err(Reported) => f == ErrorFrame
    case Err(Io) => f.Data? && faults.readsFail
    case Err(SinkRefused) => !f.ErrorFrame? && !f.Complete? && faults.sinkRefuses
  }

  ghost predicate Explains(faults: Faults, r: Result<Catalog, Error>, log: Log, frames: seq<Frame>)
    requires MaskHonoured(log)
  {
    && log.seen <= frames
    && (if log.seen == frames then r == Err(Io)
        else StopsAt(faults, r, log, frames[|log.seen|], |frames| == |log.seen| + 1))
  }

  datatype Verdict = More | Stop(r: Result<Catalog, Error>)

  /** What one turn of the loop does with a frame. */
  ghost predicate Turn(candidates: seq<ReplayCandidate>, faults: Faults, log: Log, f: Frame, last: bool,
                       verdict: Verdict, state': State, log': Log)
  {
    && Faithful(candidates, log)
    && (if verdict.Stop? then log' == log && StopsAt(faults, verdict.r, log, f, last)
        else Sound(candidates, state', log') && log'.seen == log.seen + [f])
  }

  method UnitFrame(ghost candidates: seq<ReplayCandidate>, faults: Faults, state: State, ghost log: Log, f: Frame, last: bool)
    returns (verdict: Verdict, state': State, ghost log': Log)
    requires Sound(candidates, state, log) && (f.UnitStart? || f.UnitEnd?)
    ensures Turn(candidates, faults, log, f, last, verdict, state', log')
    ensures verdict.Stop? ==> state' == state
  {
    if (f.UnitStart? && state.active.Some?) || (f.UnitEnd? && state.active != Some(f.unit)) {
      return Stop(Err(Invalid)), state, log;
    }
    var refused := *;
    if refused && faults.sinkRefuses {
      return Stop(Err(SinkRefused)), state, log;
    }
    SoundForward(candidates, state, log, f);
    return More, Forwarded(state, f), Forward(log, f);
  }

  /** A frame inside a replayed message: dropped, up to the message's own end. */
  method DiscardedFrame(ghost candidates: seq<ReplayCandidate>, faults: Faults, state: State, ghost log: Log, f: Frame, last: bool)
    returns (verdict: Verdict, state': State, ghost log': Log)
    requires Sound(candidates, state, log) && !f.UnitStart? && !f.UnitEnd? && state.discarding.Some?
    ensures Turn(candidates, faults, log, f, last, verdict, state', log')
    ensures verdict.Stop? ==> state' == state
  {
    var failed := *;
    if f.Data? && failed && faults.readsFail {
      return Stop(Err(Io)), state, log;
    }
    if f.MessageStart? || f.Complete? || f.ParserBoundary? || f.Hello? ||
       (f.MessageEnd? && f.id != state.discarding.value) {
      return Stop(Err(Invalid)), state, log;
    }
    if f.ErrorFrame? {
      return Stop(Err(Reported)), state, log;
    }
    SoundDiscard(candidates, state, log, f);
    return More, Discarded(state, f), Discard(log, f);
  }

  /** The start of a message that may be a candidate seen before. */
  method StartFrame(ghost candidates: seq<ReplayCandidate>, faults: Faults, state: State, ghost log: Log, f: Frame, last: bool)
    returns (verdict: Verdict, state': State, ghost log': Log)
    requires Sound(candidates, state, log) && f.MessageStart? && state.discarding.None?
    ensures Turn(candidates, faults, log, f, last, verdict, state', log')
    ensures verdict.Stop? ==> state' == state
  {
    var signature := Signature(f.provenance, f.recoveryIndex, state.active, f.metadata);
    var candidate, bags := Pop(state.bags, signature, log.left);
    var refused := *;
    if refused && faults.sinkRefuses {
      return Stop(Err(SinkRefused)), state, log;
    }
    if candidate.Some? {
      Removed(log.left, candidate.value);
      SoundMatch(candidates, state, log, f, candidate.value, bags);
      return More, Matched(state, f, candidate.value, bags), MatchCandidate(log, f, candidate.value, f.id);
    }
    SoundForward(candidates, state, log, f);
    return More, Forwarded(state, f), Forward(log, f);
  }

  method OtherFrame(ghost candidates: seq<ReplayCandidate>, faults: Faults, state: State, ghost log: Log, f: Frame, last: bool)
    returns (verdict: Verdict, state': State, ghost log': Log)
    requires Sound(candidates, state, log) && state.discarding.None?
    requires !f.UnitStart? && !f.UnitEnd? && !f.MessageStart?
    ensures Turn(candidates, faults, log, f, last, verdict, state', log')
    ensures verdict.Stop? ==> state' == state
  {
    if f.Hello? || f.ParserBoundary? {
      return Stop(Err(Invalid)), state, log;
    }
    if f.Complete? {
      if state.remaining != 0 || !last {
        return Stop(Err(Invalid)), state, log;
      }
      return Stop(Ok(f.catalog)), state, log;
    }
    if f.ErrorFrame? {
      return Stop(Err(Reported)), state, log;
    }
    var failed := *;
    if f.Data? && failed && faults.readsFail {
      return Stop(Err(Io)), state, log;
    }
    var refused := *;
    if refused && faults.sinkRefuses {
      return Stop(Err(SinkRefused)), state, log;
    }
    SoundForward(candidates, state, log, f);
    return More, Forwarded(state, f), Forward(log, f);
  }

  method TakeFrame(ghost candidates: seq<ReplayCandidate>, faults: Faults, state: State, ghost log: Log, f: Frame, last: bool)
    returns (verdict: Verdict, state': State, ghost log': Log)
    requires Sound(candidates, state, log)
    ensures Turn(candidates, faults, log, f, last, verdict, state', log')
    ensures verdict.Stop? ==> state' == state
  {
    if f.UnitStart? || f.UnitEnd? {
      verdict, state', log' := UnitFrame(candidates, faults, state, log, f, last);
    } else if state.discarding.Some? {
      verdict, state', log' := DiscardedFrame(candidates, faults, state, log, f, last);
    } else if f.MessageStart? {
      verdict, state', log' := StartFrame(candidates, faults, state, log, f, last);
    } else {
      verdict, state', log' := OtherFrame(candidates, faults, state, log, f, last);
    }
  }

  lemma SoundInitially(candidates: seq<ReplayCandidate>, bags: Bags)
    requires Holds(bags, multiset(candidates))
    ensures Sound(candidates, State(bags, |candidates|, None, None, [], []),
                  Log([], [], [], [], multiset(candidates)))
  {}

  lemma ExplainsStop(faults: Faults, r: Result<Catalog, Error>, log: Log, frames: seq<Frame>, i: nat)
    requires MaskHonoured(log) && i < |frames| && log.seen == frames[..i]
    requires StopsAt(faults, r, log, frames[i], i + 1 == |frames|)
    ensures Explains(faults, r, log, frames)
  {}

  // What replaying means on frames and candidates.

  ghost predicate NoUnitFrame(frames: seq<Frame>, from: nat) {
    forall k :: from <= k < |frames| ==> !frames[k].UnitStart? && !frames[k].UnitEnd?
  }

  /** The last unit frame starts this unit; or there is none, or it ends one. */
  ghost predicate OpenUnit(frames: seq<Frame>, unit: Option<Unit>) {
    match unit
    case Some(u) => exists j :: 0 <= j < |frames| && frames[j] == UnitStart(u) && NoUnitFrame(frames, j + 1)
    case None => NoUnitFrame(frames, 0) || exists j :: 0 <= j < |frames| && frames[j].UnitEnd? && NoUnitFrame(frames, j + 1)
  }

  lemma {:induction false} ActiveIsOpen(frames: seq<Frame>)
    ensures OpenUnit(frames, ActiveAfter(frames))
  {
    if frames != [] {
      var n := |frames| - 1;
      var before := frames[..n];
      if frames[n].UnitStart? || frames[n].UnitEnd? {
        assert NoUnitFrame(frames, n + 1);
      } else {
        ActiveIsOpen(before);
        forall j | 0 <= j <= n && NoUnitFrame(before, j) ensures NoUnitFrame(frames, j) {
          assert forall k :: j <= k < n ==> frames[k] == before[k];
        }
        if !NoUnitFrame(before, 0) {
          var j :| 0 <= j < n && NoUnitFrame(before, j + 1) &&
            (match ActiveAfter(before) case Some(u) => before[j] == UnitStart(u) case None => before[j].UnitEnd?);
          assert frames[j] == before[j];
        }
      }
    }
  }

  lemma OpenUnitOnce(frames: seq<Frame>, a: Option<Unit>, b: Option<Unit>)
    requires OpenUnit(frames, a) && OpenUnit(frames, b)
    ensures a == b
  {}

  /** This frame starts the candidate's message: same provenance, recovery index and metadata, in the candidate's unit. */
  ghost predicate Restarts(frames: seq<Frame>, k: nat, c: ReplayCandidate)
    requires k < |frames|
  {
    && frames[k].MessageStart?
    && frames[k].provenance == c.provenance
    && frames[k].recoveryIndex == c.recoveryIndex
    && frames[k].metadata == c.metadata
    && OpenUnit(frames[..k], c.unit)
  }

  lemma RestartsBySignature(frames: seq<Frame>, k: nat, c: ReplayCandidate)
    requires k < |frames| && frames[k].MessageStart?
    ensures Restarts(frames, k, c) <==> CandidateSignature(c) == StartOf(frames[k], ActiveAfter(frames[..k]))[0]
  {
    ActiveIsOpen(frames[..k]);
    if Restarts(frames, k, c) {
      OpenUnitOnce(frames[..k], ActiveAfter(frames[..k]), c.unit);
    }
  }

  ghost predicate IsDroppedStart(frames: seq<Frame>, mask: seq<bool>, k: nat)
    requires |mask| == |frames|
  {
    k < |frames| && frames[k].MessageStart? && !mask[k]
  }

  /** These are the positions of the dropped starts before n, in order. */
  ghost predicate ListsDropped(starts: seq<nat>, frames: seq<Frame>, mask: seq<bool>, n: nat)
    requires |mask| == |frames|
  {
    && (forall i, j :: 0 <= i < j < |starts| ==> starts[i] < starts[j])
    && (forall i :: 0 <= i < |starts| ==> starts[i] < n && IsDroppedStart(frames, mask, starts[i]))
    && (forall k :: 0 <= k < n && IsDroppedStart(frames, mask, k) ==> k in starts)
  }

  /**
   The dropped starts, in order, restart the replayed candidates one by one; a start is forwarded only when no
   candidate it restarts is left, and no later one of the same message is dropped.
   */
  ghost predicate Rematched(starts: seq<nat>, log: Log)
    requires |log.mask| == |log.seen|
  {
    && |starts| == |log.replayed|
    && ListsDropped(starts, log.seen, log.mask, |log.seen|)
    && (forall i :: 0 <= i < |starts| ==>
          && starts[i] < |log.seen| && Restarts(log.seen, starts[i], log.replayed[i].0)
          && log.seen[starts[i]].id == log.replayed[i].1)
    && (forall k, c :: 0 <= k < |log.seen| && log.mask[k] && Restarts(log.seen, k, c) ==>
          log.left[c] == 0 && forall j :: k < j < |log.seen| && Restarts(log.seen, j, c) ==> log.mask[j])
  }

  /** The positions of the dropped starts. */
  function DroppedStarts(frames: seq<Frame>, mask: seq<bool>): seq<nat>
    requires |mask| == |frames|
  {
    if frames == [] then []
    else
      var n := |frames| - 1;
      DroppedStarts(frames[..n], mask[..n]) + (if frames[n].MessageStart? && !mask[n] then [n] else [])
  }

  function MarkAt(frames: seq<Frame>, mask: seq<bool>, k: nat): Mark
    requires |mask| == |frames| && k < |frames| && frames[k].MessageStart?
  {
    Mark(StartOf(frames[k], ActiveAfter(frames[..k]))[0], frames[k].id, mask[k])
  }

  lemma {:induction false} DroppedStartsInOrder(frames: seq<Frame>, mask: seq<bool>)
    requires |mask| == |frames|
    ensures ListsDropped(DroppedStarts(frames, mask), frames, mask, |frames|)
  {
    if frames != [] {
      var n := |frames| - 1;
      DroppedStartsInOrder(frames[..n], mask[..n]);
      DroppedStartsGrow(DroppedStarts(frames[..n], mask[..n]), frames, mask, n);
    }
  }

  lemma DroppedStartsGrow(earlier: seq<nat>, frames: seq<Frame>, mask: seq<bool>, n: nat)
    requires |mask| == |frames| == n + 1 && ListsDropped(earlier, frames[..n], mask[..n], n)
    ensures ListsDropped(earlier + (if frames[n].MessageStart? && !mask[n] then [n] else []), frames, mask, n + 1)
  {
    forall k | 0 <= k < n ensures IsDroppedStart(frames, mask, k) <==> IsDroppedStart(frames[..n], mask[..n], k) {}
  }

  /** Dropped message by dropped message, the positions are those of the marks. */
  lemma {:induction false} DroppedAtStarts(frames: seq<Frame>, mask: seq<bool>)
    requires |mask| == |frames|
    ensures var starts, dropped := DroppedStarts(frames, mask), Dropped(Marks(frames, mask));
      && |starts| == |dropped|
      && forall i :: 0 <= i < |starts| ==>
           && starts[i] < |frames| && frames[starts[i]].MessageStart?
           && dropped[i] == (MarkAt(frames, mask, starts[i]).signature, frames[starts[i]].id)
  {
    if frames != [] {
      var n := |frames| - 1;
      var before, kept := frames[..n], mask[..n];
      DroppedAtStarts(before, kept);
      assert forall k :: 0 <= k < n ==> frames[..k] == before[..k];
      if frames[n].MessageStart? {
        var marks := Marks(before, kept);
        assert Marks(frames, mask) == marks + [MarkAt(frames, mask, n)];
        assert (marks + [MarkAt(frames, mask, n)])[..|marks|] == marks;
      } else {
        assert Marks(frames, mask) == Marks(before, kept);
      }
    }
  }

  /** The mark of a start stands where the starts before it end. */
  lemma {:induction false} MarkPosition(frames: seq<Frame>, mask: seq<bool>, k: nat)
    requires |mask| == |frames| && k < |frames| && frames[k].MessageStart?
    ensures |Marks(frames[..k], mask[..k])| < |Marks(frames, mask)|
    ensures Marks(frames, mask)[|Marks(frames[..k], mask[..k])|] == MarkAt(frames, mask, k)
  {
    var n := |frames| - 1;
    if k < n {
      assert frames[..n][..k] == frames[..k] && mask[..n][..k] == mask[..k];
      MarkPosition(frames[..n], mask[..n], k);
    }
  }

  lemma MarkOrder(frames: seq<Frame>, mask: seq<bool>, k: nat, j: nat)
    requires |mask| == |frames| && k < j < |frames| && frames[k].MessageStart?
    ensures |Marks(frames[..k], mask[..k])| < |Marks(frames[..j], mask[..j])|
  {
    assert frames[..j][..k] == frames[..k] && mask[..j][..k] == mask[..k];
    MarkPosition(frames[..j], mask[..j], k);
  }

  /** A run that is faithful by signatures rematches messages and candidates. */
  lemma FaithfulRematches(candidates: seq<ReplayCandidate>, log: Log)
    requires Faithful(candidates, log)
    ensures Rematched(DroppedStarts(log.seen, log.mask), log)
  {
    var starts, marks := DroppedStarts(log.seen, log.mask), Marks(log.seen, log.mask);
    DroppedStartsInOrder(log.seen, log.mask);
    DroppedAtStarts(log.seen, log.mask);
    forall i | 0 <= i < |starts| ensures Restarts(log.seen, starts[i], log.replayed[i].0) {
      RestartsBySignature(log.seen, starts[i], log.replayed[i].0);
    }
    forall k, c | 0 <= k < |log.seen| && log.mask[k] && Restarts(log.seen, k, c)
      ensures log.left[c] == 0
      ensures forall j :: k < j < |log.seen| && Restarts(log.seen, j, c) ==> log.mask[j]
    {
      ForwardedLast(candidates, log, k, c);
    }
  }

  lemma ForwardedLast(candidates: seq<ReplayCandidate>, log: Log, k: nat, c: ReplayCandidate)
    requires Faithful(candidates, log) && k < |log.seen| && log.mask[k] && Restarts(log.seen, k, c)
    ensures log.left[c] == 0
    ensures forall j :: k < j < |log.seen| && Restarts(log.seen, j, c) ==> log.mask[j]
  {
    MarkPosition(log.seen, log.mask, k);
    RestartsBySignature(log.seen, k, c);
    forall j | k < j < |log.seen| && Restarts(log.seen, j, c) ensures log.mask[j] {
      MarkPosition(log.seen, log.mask, j);
      MarkOrder(log.seen, log.mask, k, j);
      RestartsBySignature(log.seen, j, c);
    }
  }

  // What is dropped makes up whole messages.

  predicate IsUnitFrame(f: Frame) {
    f.UnitStart? || f.UnitEnd?
  }

  /** The dropped message that starts at k is still open at j. */
  ghost predicate OpenDropped(frames: seq<Frame>, mask: seq<bool>, k: nat, j: nat)
    requires |mask| == |frames|
  {
    && k < j <= |frames| && frames[k].MessageStart? && !mask[k]
    && forall i :: k < i < j ==> !frames[i].MessageEnd?
  }

  /**
   While a dropped message is open every frame but those of units is dropped, none starts a message, and the first
   end is its own; nothing else is dropped.
   */
  ghost predicate DropsMessages(frames: seq<Frame>, mask: seq<bool>)
    requires |mask| == |frames|
  {
    && (forall j :: 0 <= j < |frames| && IsUnitFrame(frames[j]) ==> mask[j])
    && (forall k, j :: 0 <= k < j < |frames| && OpenDropped(frames, mask, k, j) && !IsUnitFrame(frames[j]) ==>
          && !mask[j] && !frames[j].MessageStart?
          && (frames[j].MessageEnd? ==> frames[j].id == frames[k].id))
    && (forall j :: 0 <= j < |frames| && !mask[j] ==> frames[j].MessageStart? || SomeOpen(frames, mask, j))
  }

  ghost predicate SomeOpen(frames: seq<Frame>, mask: seq<bool>, j: nat)
    requires |mask| == |frames|
  {
    exists k :: 0 <= k < j && OpenDropped(frames, mask, k, j)
  }

  /** The dropped message open after all frames, if any, has this identifier. */
  ghost predicate OpenAfter(frames: seq<Frame>, mask: seq<bool>, state: Discarding)
    requires |mask| == |frames|
  {
    match state
    case Malformed => true
    case Outside => forall k :: 0 <= k < |frames| ==> !OpenDropped(frames, mask, k, |frames|)
    case Within(id) =>
      && SomeOpen(frames, mask, |frames|)
      && forall k :: 0 <= k < |frames| && OpenDropped(frames, mask, k, |frames|) ==> frames[k].id == id
  }

  lemma OpenPrefix(frames: seq<Frame>, mask: seq<bool>, k: nat, j: nat)
    requires |mask| == |frames| && j < |frames|
    ensures OpenDropped(frames[..|frames| - 1], mask[..|frames| - 1], k, j) <==> OpenDropped(frames, mask, k, j)
  {
    var n := |frames| - 1;
    assert forall i :: 0 <= i < n ==> frames[..n][i] == frames[i] && mask[..n][i] == mask[i];
  }

  lemma OpenLater(frames: seq<Frame>, mask: seq<bool>, k: nat)
    requires |mask| == |frames| > 0
    ensures OpenDropped(frames, mask, k, |frames|) <==>
      if k == |frames| - 1 then frames[k].MessageStart? && !mask[k]
      else OpenDropped(frames, mask, k, |frames| - 1) && !frames[|frames| - 1].MessageEnd?
  {}

  lemma {:induction false} DiscardsMessages(frames: seq<Frame>, mask: seq<bool>)
    requires |mask| == |frames| && !DiscardState(frames, mask).Malformed?
    ensures DropsMessages(frames, mask) && OpenAfter(frames, mask, DiscardState(frames, mask))
  {
    if frames != [] {
      var n := |frames| - 1;
      DiscardsMessages(frames[..n], mask[..n]);
      DiscardsOneMore(frames, mask);
    }
  }

  lemma DiscardsOneMore(frames: seq<Frame>, mask: seq<bool>)
    requires |mask| == |frames| > 0 && !DiscardState(frames, mask).Malformed?
    requires var n := |frames| - 1;
      DropsMessages(frames[..n], mask[..n]) && OpenAfter(frames[..n], mask[..n], DiscardState(frames[..n], mask[..n]))
    ensures DropsMessages(frames, mask) && OpenAfter(frames, mask, DiscardState(frames, mask))
  {
    var n := |frames| - 1;
    var before, kept := frames[..n], mask[..n];
    forall k, j | 0 <= k < j <= n ensures OpenDropped(before, kept, k, j) <==> OpenDropped(frames, mask, k, j) {
      OpenPrefix(frames, mask, k, j);
    }
    forall j | 0 <= j <= n ensures SomeOpen(before, kept, j) <==> SomeOpen(frames, mask, j) {
      if SomeOpen(before, kept, j) {
        var k :| 0 <= k < j && OpenDropped(before, kept, k, j);
        assert OpenDropped(frames, mask, k, j);
      }
    }
    StillDropsMessages(frames, mask);
    forall k | 0 <= k < |frames|
      ensures OpenDropped(frames, mask, k, |frames|) <==>
        if k == n then frames[k].MessageStart? && !mask[k] else OpenDropped(frames, mask, k, n) && !frames[n].MessageEnd?
    {
      OpenLater(frames, mask, k);
    }
    if DiscardState(frames, mask).Within? {
      if frames[n].MessageStart? && !mask[n] {
        assert OpenDropped(frames, mask, n, |frames|);
      } else {
        var k :| 0 <= k < n && OpenDropped(frames, mask, k, n);
        assert OpenDropped(frames, mask, k, |frames|);
      }
    }
  }

  /** What is known one frame earlier. */
  ghost predicate DroppedSoFar(frames: seq<Frame>, mask: seq<bool>)
    requires |mask| == |frames| > 0
  {
    var n := |frames| - 1;
    && !DiscardState(frames, mask).Malformed?
    && DropsMessages(frames[..n], mask[..n]) && OpenAfter(frames[..n], mask[..n], DiscardState(frames[..n], mask[..n]))
  }

  lemma DroppedInside(frames: seq<Frame>, mask: seq<bool>, j: nat)
    requires |mask| == |frames| > 0 && DroppedSoFar(frames, mask) && j < |frames| && !mask[j]
    requires j < |frames| ==> (SomeOpen(frames[..|frames| - 1], mask[..|frames| - 1], j) <==> SomeOpen(frames, mask, j))
    ensures !IsUnitFrame(frames[j]) && (frames[j].MessageStart? || SomeOpen(frames, mask, j))
  {
    var n := |frames| - 1;
    if j < n {
      assert frames[..n][j] == frames[j] && mask[..n][j] == mask[j];
    }
  }

  lemma OpenDrops(frames: seq<Frame>, mask: seq<bool>, k: nat, j: nat)
    requires |mask| == |frames| > 0 && DroppedSoFar(frames, mask)
    requires k < j < |frames| && OpenDropped(frames, mask, k, j) && !IsUnitFrame(frames[j])
    ensures !mask[j] && !frames[j].MessageStart? && (frames[j].MessageEnd? ==> frames[j].id == frames[k].id)
  {
    var n := |frames| - 1;
    OpenPrefix(frames, mask, k, j);
    assert frames[..n][k] == frames[k];
    if j < n {
      assert frames[..n][j] == frames[j] && mask[..n][j] == mask[j];
    }
  }

  lemma StillDropsMessages(frames: seq<Frame>, mask: seq<bool>)
    requires |mask| == |frames| > 0 && DroppedSoFar(frames, mask)
    requires forall j :: 0 <= j < |frames| ==>
      (SomeOpen(frames[..|frames| - 1], mask[..|frames| - 1], j) <==> SomeOpen(frames, mask, j))
    ensures DropsMessages(frames, mask)
  {
    forall j | 0 <= j < |frames| && !mask[j]
      ensures !IsUnitFrame(frames[j]) && (frames[j].MessageStart? || SomeOpen(frames, mask, j))
    {
      DroppedInside(frames, mask, j);
    }
    forall k, j | 0 <= k < j < |frames| && OpenDropped(frames, mask, k, j) && !IsUnitFrame(frames[j])
      ensures !mask[j] && !frames[j].MessageStart? && (frames[j].MessageEnd? ==> frames[j].id == frames[k].id)
    {
      OpenDrops(frames, mask, k, j);
    }
  }

  /** A faithful account of a run, with what it forwarded and replayed and the reason it stopped. */
  ghost predicate Account(candidates: seq<ReplayCandidate>, frames: seq<Frame>, faults: Faults, r: Result<Catalog, Error>,
                          forwarded: seq<Frame>, replayed: seq<(ReplayCandidate, nat)>, log: Log)
  {
    && Faithful(candidates, log) && DropsMessages(log.seen, log.mask)
    && Rematched(DroppedStarts(log.seen, log.mask), log)
    && forwarded == log.forwarded && replayed == log.replayed
    && Explains(faults, r, log, frames)
  }

  method Receive(candidates: seq<ReplayCandidate>, frames: seq<Frame>, faults: Faults)
    returns (r: Result<Catalog, Error>, forwarded: seq<Frame>, replayed: seq<(ReplayCandidate, nat)>)
    ensures exists log :: Account(candidates, frames, faults, r, forwarded, replayed, log)
  {
    var bags := CollectBags(candidates);
    var state := State(bags, |candidates|, None, None, [], []);
    ghost var log := Log([], [], [], [], multiset(candidates));
    SoundInitially(candidates, bags);
    for i := 0 to |frames|
      invariant Sound(candidates, state, log) && log.seen == frames[..i]
    {
      PrefixGrows(frames, i);
      var verdict, state', log' := TakeFrame(candidates, faults, state, log, frames[i], i + 1 == |frames|);
      if verdict.Stop? {
        ExplainsStop(faults, verdict.r, log, frames, i);
        FaithfulRematches(candidates, log);
        DiscardsMessages(log.seen, log.mask);
        assert Account(candidates, frames, faults, verdict.r, state.forwarded, state.replayed, log);
        return verdict.r, state.forwarded, state.replayed;
      }
      state, log := state', log';
    }
    FaithfulRematches(candidates, log);
    DiscardsMessages(log.seen, log.mask);
    assert Account(candidates, frames, faults, Err(Io), state.forwarded, state.replayed, log);
    return Err(Io), state.forwarded, state.replayed;
  }

  lemma Removed(left: multiset<ReplayCandidate>, c: ReplayCandidate)
    requires c in left
    ensures |left| == |left - multiset{c}| + 1
  {
    assert left == (left - multiset{c}) + multiset{c};
  }
}

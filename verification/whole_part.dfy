/**
 The retained loop that stages whole parts: take a predicted prefix, write it, measure the file, then
 shrink or extend and try again until the part settles.
 */
module WholePart {
  import opened Wrappers
  import opened Packing
  import opened Adaptive
  import Greedy

  /** A part, the length of its file, and the attempt that wrote it. */
  datatype StagedPart = StagedPart(group: seq<PackCandidate>, byteLength: nat, attempt: nat)

  /** The length of the file each attempt writes for a selection. */
  type Staging = (nat, seq<PackCandidate>) -> nat

  datatype Ending =
    | Completed
    | Interrupted
    | Rejected(error: PackingError)
    | PartExceedsMaximum(byteLength: nat)

  /** One staged file: how many candidates it held and whether it was refused for its length. */
  datatype Attempt = Attempt(length: nat, refused: bool)

  /**
   What a part is filled from: the candidates left, the attempts made at earlier parts, the last file observed by
   then, and the estimator. `staged` is arbitrary, so nothing depends on the writer behaving like the estimator.
   */
  datatype Task = Task(
    maximum: nat, all: seq<PackCandidate>, staged: Staging, attempts: nat, observed: Observation,
    size: seq<PackCandidate> -> nat)

  /** The estimator is the layout estimator. */
  ghost predicate Estimates(task: Task) {
    forall s {:trigger LayoutSize(s)} :: task.size(s) == LayoutSize(s)
  }

  function Groups(parts: seq<StagedPart>): (r: seq<seq<PackCandidate>>)
    ensures |r| == |parts|
    ensures forall i :: 0 <= i < |parts| ==> r[i] == parts[i].group
  {
    seq(|parts|, i requires 0 <= i < |parts| => parts[i].group)
  }

  /** The hard maximum: a part fits, or it holds exactly one candidate. */
  ghost predicate WithinMaximum(maximum: nat, p: StagedPart) {
    p.group != [] && (p.byteLength <= maximum || |p.group| == 1)
  }

  // The log of the attempts at one part.

  function Front<T>(s: seq<T>, n: nat): seq<T> {
    if n <= |s| then s[..n] else s
  }

  /** The file attempt i wrote. */
  function FileAt(task: Task, tried: seq<Attempt>, i: nat): nat
    requires i < |tried|
  {
    task.staged(task.attempts + i + 1, Front(task.all, tried[i].length))
  }

  /** The last length refused by the first n attempts, which no later selection reaches; one past the end if none was. */
  function Cap(tried: seq<Attempt>, n: nat, most: nat): nat
    requires n <= |tried|
  {
    if n == 0 then most + 1
    else if tried[n - 1].refused then tried[n - 1].length
    else Cap(tried, n - 1, most)
  }

  /** An estimate of zero is no observation. */
  function Observe(estimated: nat, actual: nat): Observation {
    if estimated == 0 then None else Some((estimated, actual))
  }

  /** The last file observed once the first n attempts have been made. */
  function Observed(task: Task, tried: seq<Attempt>, n: nat): Observation
    requires n <= |tried|
  {
    if n == 0 then task.observed
    else Observe(task.size(Front(task.all, tried[n - 1].length)), FileAt(task, tried, n - 1))
  }

  /**
   The selection staged after the first n attempts, by the prediction from the last file observed: at first the
   longest that fits; after a refusal the longest shorter one; otherwise the longest below every refusal, if longer.
   */
  ghost predicate Selects(task: Task, tried: seq<Attempt>, n: nat, next: nat)
    requires n <= |tried|
  {
    var fits := PrefixFits(Observed(task, tried, n), task.maximum, task.all);
    if n == 0 then LongestOrOne(fits, |task.all|, next)
    else
      var last, cap := tried[n - 1], Cap(tried, n, |task.all|);
      if last.refused then last.length > 0 && LongestOrOne(fits, last.length - 1, next)
      else last.length < next < cap && Longest(fits, cap - 1, next)
  }

  /**
   Attempt n staged the selection that follows from the files before it, and refused its own file if it was too
   long and not of a single candidate.
   */
  ghost predicate Told(task: Task, tried: seq<Attempt>, n: nat)
    requires n < |tried|
  {
    && 1 <= tried[n].length <= |task.all|
    && Selects(task, tried, n, tried[n].length)
    && (tried[n].refused <==> tried[n].length > 1 && FileAt(task, tried, n) > task.maximum)
  }

  /** The log tells, attempt by attempt, what was staged and what became of it. */
  ghost predicate TrueLog(task: Task, tried: seq<Attempt>) {
    forall n :: 0 <= n < |tried| ==> Told(task, tried, n)
  }

  /**
   Why an accepted part stopped at n candidates: every longer prefix was refused at or below its
   length, or is predicted not to fit from the accepted file itself.
   */
  ghost predicate Settled(task: Task, byteLength: nat, tried: seq<Attempt>, n: nat) {
    var fits := PrefixFits(Observe(task.size(Front(task.all, n)), byteLength), task.maximum, task.all);
    forall k :: n < k <= |task.all| ==> RefusedBy(tried, k) || fits(k) != Ok(true)
  }

  ghost predicate RefusedBy(tried: seq<Attempt>, k: nat) {
    exists i :: 0 <= i < |tried| && tried[i].refused && tried[i].length <= k
  }

  /** A part that the attempts in a true log of what was staged led to, and that is settled by them. */
  ghost predicate LedTo(task: Task, tried: seq<Attempt>, part: StagedPart) {
    && TrueLog(task, tried) && tried != []
    && WithinMaximum(task.maximum, part) && part.group <= task.all
    && part.attempt == task.attempts + |tried|
    && tried[|tried| - 1] == Attempt(|part.group|, false)
    && part.byteLength == task.staged(part.attempt, part.group)
    && (part.byteLength <= task.maximum ==> Settled(task, part.byteLength, tried, |part.group|))
  }

  /** From the last file observed it cannot be predicted whether all that is left would fit. */
  ghost predicate Unmeasurable(task: Task, tried: seq<Attempt>) {
    PrefixFits(Observed(task, tried, |tried|), task.maximum, task.all)(|task.all|).Err?
  }

  /** One candidate alone is too long, and would not be without the source's own folders. */
  ghost predicate Exceeds(task: Task, baseline: nat -> nat, attempt: nat, byteLength: nat) {
    && task.all != [] && byteLength == task.staged(attempt, task.all[..1])
    && byteLength > task.maximum && baseline(attempt) <= task.maximum
  }

  /** How a part ends: led to its file; or by a cause in what was staged, or by an interruption that may come. */
  ghost predicate Ends(task: Task, tried: seq<Attempt>, end: Ending, part: StagedPart, withFolders: bool, baseline: nat -> nat,
                       interrupts: bool)
  {
    && TrueLog(task, tried)
    && match end
       case Completed => LedTo(task, tried, part)
       case Interrupted => interrupts
       case Rejected(_) => Unmeasurable(task, tried)
       case PartExceedsMaximum(byteLength) => withFolders && Exceeds(task, baseline, task.attempts + |tried|, byteLength)
  }

  // What a true log says about refused lengths.

  lemma BelowCap(task: Task, tried: seq<Attempt>, n: nat, next: nat)
    requires TrueLog(task, tried) && n <= |tried| && Selects(task, tried, n, next) && task.all != []
    ensures next < Cap(tried, n, |task.all|)
  {
    if n > 0 {
      assert Told(task, tried, n - 1);
    }
  }

  lemma {:induction false} CapBelow(task: Task, tried: seq<Attempt>, i: nat, n: nat)
    requires TrueLog(task, tried) && i < n <= |tried| && tried[i].refused
    ensures Cap(tried, n, |task.all|) <= tried[i].length
  {
    if i < n - 1 {
      CapBelow(task, tried, i, n - 1);
      assert Told(task, tried, n - 1);
      BelowCap(task, tried, n - 1, tried[n - 1].length);
    }
  }

  /** Once a length is refused every later attempt at the part is shorter. */
  lemma NeverRevisits(task: Task, tried: seq<Attempt>, i: nat, j: nat)
    requires TrueLog(task, tried) && i < j < |tried| && tried[i].refused
    ensures tried[j].length < tried[i].length
  {
    assert Told(task, tried, j);
    CapBelow(task, tried, i, j);
    BelowCap(task, tried, j, tried[j].length);
  }

  lemma {:induction false} CapRefused(tried: seq<Attempt>, n: nat, most: nat)
    requires n <= |tried| && Cap(tried, n, most) <= most
    ensures RefusedBy(tried, Cap(tried, n, most))
  {
    if !tried[n - 1].refused {
      CapRefused(tried, n - 1, most);
    }
  }

  lemma CapSettles(task: Task, tried: seq<Attempt>, byteLength: nat, n: nat)
    requires var fits := PrefixFits(Observe(task.size(Front(task.all, n)), byteLength), task.maximum, task.all);
      forall k :: n < k < Cap(tried, |tried|, |task.all|) ==> fits(k) != Ok(true)
    ensures Settled(task, byteLength, tried, n)
  {
    var cap := Cap(tried, |tried|, |task.all|);
    forall k | cap <= k <= |task.all| ensures RefusedBy(tried, k) {
      CapRefused(tried, |tried|, |task.all|);
      var i :| 0 <= i < |tried| && tried[i].refused && tried[i].length <= cap;
    }
  }

  // One attempt more.

  /** The selection about to be staged continues the log. */
  ghost predicate Trying(task: Task, tried: seq<Attempt>, next: nat) {
    TrueLog(task, tried) && 1 <= next <= |task.all| && Selects(task, tried, |tried|, next)
  }

  lemma {:induction false} CapPrefix(tried: seq<Attempt>, more: seq<Attempt>, n: nat, most: nat)
    requires tried <= more && n <= |tried|
    ensures Cap(more, n, most) == Cap(tried, n, most)
  {
    if n > 0 {
      CapPrefix(tried, more, n - 1, most);
    }
  }

  lemma SelectsPrefix(task: Task, tried: seq<Attempt>, more: seq<Attempt>, n: nat, next: nat)
    requires tried <= more && n <= |tried|
    ensures Selects(task, more, n, next) <==> Selects(task, tried, n, next)
  {
    CapPrefix(tried, more, n, |task.all|);
  }

  lemma ToldPrefix(task: Task, tried: seq<Attempt>, more: seq<Attempt>, n: nat)
    requires tried <= more && n < |tried| && Told(task, tried, n)
    ensures Told(task, more, n)
  {
    SelectsPrefix(task, tried, more, n, tried[n].length);
  }

  lemma ToldLast(task: Task, tried: seq<Attempt>, more: seq<Attempt>)
    requires tried <= more && |more| == |tried| + 1 && Trying(task, tried, more[|tried|].length)
    requires more[|tried|].refused <==>
      more[|tried|].length > 1 && task.staged(task.attempts + |tried| + 1, task.all[..more[|tried|].length]) > task.maximum
    ensures Told(task, more, |tried|)
  {
    SelectsPrefix(task, tried, more, |tried|, more[|tried|].length);
  }

  lemma Tried(task: Task, tried: seq<Attempt>, more: seq<Attempt>)
    requires tried <= more && |more| == |tried| + 1 && Trying(task, tried, more[|tried|].length)
    requires more[|tried|].refused <==>
      more[|tried|].length > 1 && task.staged(task.attempts + |tried| + 1, task.all[..more[|tried|].length]) > task.maximum
    ensures TrueLog(task, more)
  {
    ToldLast(task, tried, more);
    forall n | 0 <= n < |more| ensures Told(task, more, n) {
      if n < |tried| {
        ToldPrefix(task, tried, more, n);
      }
    }
  }

  /** A prefix of the selection fits as a prefix of everything. */
  lemma SelectionFits(o: Observation, maximum: nat, selected: seq<PackCandidate>, all: seq<PackCandidate>, bound: nat, n: nat)
    requires [] != selected <= all && bound <= |selected| && LongestOrOne(PrefixFits(o, maximum, selected), bound, n)
    ensures LongestOrOne(PrefixFits(o, maximum, all), bound, n)
  {
    forall k: nat | k <= |selected| ensures PrefixFits(o, maximum, all)(k) == PrefixFits(o, maximum, selected)(k) {
      assert all[..k] == selected[..k];
    }
  }

  lemma LongerUnmeasurable(o: Observation, maximum: nat, all: seq<PackCandidate>, n: nat)
    requires n <= |all| && PrefixFits(o, maximum, all)(n).Err?
    ensures PrefixFits(o, maximum, all)(|all|).Err?
  {
    PrefixFitsDownward(o, maximum, all);
  }

  lemma SelectedUnmeasurable(o: Observation, maximum: nat, selected: seq<PackCandidate>, all: seq<PackCandidate>)
    requires selected <= all && Fits(o, maximum, selected).Err?
    ensures PrefixFits(o, maximum, all)(|all|).Err?
  {
    assert all[..|selected|] == selected;
    LongerUnmeasurable(o, maximum, all, |selected|);
  }

  lemma LayoutPositive(s: seq<PackCandidate>)
    ensures LayoutSize(s) > 0
  {
    BytesGrow(s, 0);
  }

  function Least(known: Option<nat>, length: nat): nat {
    match known
    case None => length
    case Some(k) => if k < length then k else length
  }

  lemma SelectedPrefix<T>(selected: seq<T>, remaining: seq<T>)
    ensures (selected + remaining)[..|selected|] == selected
    ensures Front(selected + remaining, |selected|) == selected
  {}

  // The loop.

  /** The lowest refused length the loop remembers is the cap of the log. */
  ghost predicate Remembers(task: Task, tried: seq<Attempt>, rejected: Option<nat>) {
    Cap(tried, |tried|, |task.all|) == if rejected.Some? then rejected.value else |task.all| + 1
  }

  /** The selection was just staged: its file is the last of the log. */
  ghost predicate JustStaged(task: Task, tried: seq<Attempt>, selected: seq<PackCandidate>, refused: bool, byteLength: nat) {
    && TrueLog(task, tried) && tried != [] && tried[|tried| - 1] == Attempt(|selected|, refused)
    && selected != [] && selected <= task.all
    && byteLength == FileAt(task, tried, |tried| - 1)
    && Observed(task, tried, |tried|) == Observe(task.size(selected), byteLength)
  }

  /** The longest selection below every refusal. */
  ghost function CapBound(task: Task, tried: seq<Attempt>): nat {
    var cap := Cap(tried, |tried|, |task.all|);
    if cap == 0 then 0 else cap - 1
  }

  ghost function NextFits(task: Task, tried: seq<Attempt>): Probe {
    PrefixFits(Observed(task, tried, |tried|), task.maximum, task.all)
  }

  lemma BoundUnmeasurable(task: Task, tried: seq<Attempt>)
    requires TrueLog(task, tried) && NextFits(task, tried)(CapBound(task, tried)).Err?
    ensures Unmeasurable(task, tried)
  {
    CapInRange(task, tried, |tried|);
    LongerUnmeasurable(Observed(task, tried, |tried|), task.maximum, task.all, CapBound(task, tried));
  }

  lemma GrowsSelection(task: Task, tried: seq<Attempt>, selected: seq<PackCandidate>, byteLength: nat, next: nat)
    requires JustStaged(task, tried, selected, false, byteLength) && |selected| < next
    requires Longest(NextFits(task, tried), CapBound(task, tried), next)
    ensures Selects(task, tried, |tried|, next)
  {}

  lemma StaysSettled(task: Task, tried: seq<Attempt>, selected: seq<PackCandidate>, byteLength: nat)
    requires JustStaged(task, tried, selected, false, byteLength)
    requires var fits := NextFits(task, tried);
      forall k :: |selected| < k <= CapBound(task, tried) ==> fits(k) != Ok(true)
    ensures Settled(task, byteLength, tried, |selected|)
  {
    assert Front(task.all, |selected|) == selected;
    CapInRange(task, tried, |tried|);
    assert NextFits(task, tried) == PrefixFits(Observe(task.size(selected), byteLength), task.maximum, task.all);
    CapSettles(task, tried, byteLength, |selected|);
  }

  lemma Extended(task: Task, tried: seq<Attempt>, selected: seq<PackCandidate>, byteLength: nat, next: nat,
                 r: Result<bool, PackingError>)
    requires JustStaged(task, tried, selected, false, byteLength)
    requires r == Ok(true) ==> |selected| < next && Longest(NextFits(task, tried), CapBound(task, tried), next)
    requires r == Ok(false) ==>
      var fits := NextFits(task, tried); forall k :: |selected| < k <= CapBound(task, tried) ==> fits(k) != Ok(true)
    requires r.Err? ==> NextFits(task, tried)(CapBound(task, tried)).Err?
    ensures r == Ok(true) ==> Selects(task, tried, |tried|, next)
    ensures r == Ok(false) ==> Settled(task, byteLength, tried, |selected|)
    ensures r.Err? ==> Unmeasurable(task, tried)
  {
    if r.Err? {
      BoundUnmeasurable(task, tried);
    } else if r.value {
      GrowsSelection(task, tried, selected, byteLength, next);
    } else {
      StaysSettled(task, tried, selected, byteLength);
    }
  }

  /** After a file that was not refused: grow below the cap if the prediction allows it, or settle. */
  method Extend(queue: Queue, observation: Observation, rejected: Option<nat>, byteLength: nat, maximum: nat,
      ghost task: Task, ghost tried: seq<Attempt>)
    returns (r: Result<bool, PackingError>)
    requires queue.All() == task.all && maximum == task.maximum
    requires JustStaged(task, tried, queue.selected, false, byteLength) && Remembers(task, tried, rejected)
    requires observation == Observed(task, tried, |tried|)
    modifies queue
    ensures queue.All() == task.all
    ensures r == Ok(true) ==>
      |old(queue.selected)| < |queue.selected| && Selects(task, tried, |tried|, |queue.selected|)
    ensures r == Ok(false) ==> queue.selected == old(queue.selected)
    ensures r == Ok(false) && byteLength <= maximum ==> Settled(task, byteLength, tried, |queue.selected|)
    ensures r.Err? ==> Unmeasurable(task, tried)
  {
    if byteLength > maximum {
      return Ok(false);
    }
    ghost var selected := queue.selected;
    assert queue.Bound(rejected) == CapBound(task, tried) by {
      CapInRange(task, tried, |tried|);
    }
    r := queue.ExtendToFit(observation, maximum, rejected);
    Extended(task, tried, selected, byteLength, |queue.selected|, r);
  }

  lemma {:induction false} CapInRange(task: Task, tried: seq<Attempt>, n: nat)
    requires TrueLog(task, tried) && n <= |tried|
    ensures 1 <= Cap(tried, n, |task.all|) <= |task.all| + 1
  {
    if n > 0 {
      assert Told(task, tried, n - 1);
      CapInRange(task, tried, n - 1);
    }
  }

  /** After a refused file: the longest shorter selection predicted to fit. */
  method Shrink(queue: Queue, observation: Observation, byteLength: nat, maximum: nat, ghost task: Task, ghost tried: seq<Attempt>)
    returns (r: Result<(), PackingError>)
    requires queue.All() == task.all && maximum == task.maximum && |queue.selected| > 1
    requires JustStaged(task, tried, queue.selected, true, byteLength)
    requires observation == Observed(task, tried, |tried|)
    modifies queue
    ensures r.Ok? ==> queue.All() == task.all && 0 < |queue.selected| && Selects(task, tried, |tried|, |queue.selected|)
    ensures r.Err? ==> Unmeasurable(task, tried)
  {
    ghost var selected := queue.selected;
    r := queue.ShrinkToFit(observation, maximum);
    if r.Err? {
      assert selected[..|selected|] == selected;
      SelectedUnmeasurable(observation, maximum, selected, task.all);
    } else {
      SelectionFits(observation, maximum, selected, task.all, |selected| - 1, |queue.selected|);
    }
  }

  /**
   Learns from a staged file: shrinks the selection after a refusal, otherwise extends it if the prediction allows.
   Reports whether there is another selection to stage.
   */
  method Adjust(queue: Queue, observed: Observation, rejected: Option<nat>, refused: bool, byteLength: nat, maximum: nat,
      ghost task: Task, ghost tried: seq<Attempt>)
    returns (r: Result<bool, PackingError>, observation: Observation)
    requires queue.All() == task.all && maximum == task.maximum && Estimates(task) && (refused ==> |queue.selected| > 1)
    requires JustStaged(task, tried, queue.selected, refused, byteLength) && Remembers(task, tried, rejected)
    modifies queue
    ensures r.Ok? ==> queue.All() == task.all && observation == Observed(task, tried, |tried|)
    ensures r == Ok(true) ==> 0 < |queue.selected| && Selects(task, tried, |tried|, |queue.selected|)
    ensures r == Ok(true) && !refused ==> |old(queue.selected)| < |queue.selected|
    ensures r == Ok(false) ==> !refused && queue.selected == old(queue.selected)
    ensures r == Ok(false) && byteLength <= maximum ==> Settled(task, byteLength, tried, |queue.selected|)
    ensures r.Err? ==> Unmeasurable(task, tried)
  {
    observation := observed;
    var estimated := EstimateCandidates(queue.selected);
    if estimated.Err? {
      SelectedUnmeasurable(Observed(task, tried, |tried|), maximum, queue.selected, task.all);
      return Err(estimated.error), observation;
    }
    LayoutPositive(queue.selected);
    observation := Some((estimated.value, byteLength));
    if refused {
      var shrunk := Shrink(queue, observation, byteLength, maximum, task, tried);
      return if shrunk.Err? then Err(shrunk.error) else Ok(true), observation;
    }
    r := Extend(queue, observation, rejected, byteLength, maximum, task, tried);
  }

  datatype Turn = Again | Done(end: Ending)

  lemma Reached(task: Task, tried: seq<Attempt>, part: StagedPart)
    requires JustStaged(task, tried, part.group, false, part.byteLength) && part.attempt == task.attempts + |tried|
    requires part.byteLength <= task.maximum ==> Settled(task, part.byteLength, tried, |part.group|)
    ensures LedTo(task, tried, part)
  {
    assert Told(task, tried, |tried| - 1);
    assert Front(task.all, |part.group|) == part.group;
  }

  /** What a turn of the loop leaves: another selection below what was refused, or the end of the part. */
  ghost predicate Turned(task: Task, log: seq<Attempt>, before: nat, tried: seq<Attempt>, after: nat, turn: Turn,
                         part: StagedPart, withFolders: bool, baseline: nat -> nat)
  {
    match turn
    case Again =>
      var capBefore, capAfter := Cap(log, |log|, |task.all|), Cap(tried, |tried|, |task.all|);
      Trying(task, tried, after) && (capAfter < capBefore || (capAfter == capBefore && before < after))
    case Done(end) => !end.Interrupted? && Ends(task, tried, end, part, withFolders, baseline, false)
  }

  lemma ExceedsAlone(task: Task, log: seq<Attempt>, tried: seq<Attempt>, selected: seq<PackCandidate>, byteLength: nat,
                     part: StagedPart, baseline: nat -> nat)
    requires JustStaged(task, tried, selected, false, byteLength) && |selected| == 1
    requires byteLength > task.maximum && baseline(task.attempts + |tried|) <= task.maximum
    ensures Turned(task, log, 1, tried, 1, Done(PartExceedsMaximum(byteLength)), part, true, baseline)
  {
    assert Front(task.all, 1) == task.all[..1];
  }

  /** How the cap of the log changes with the attempt just made. */
  ghost predicate CapFollows(task: Task, log: seq<Attempt>, tried: seq<Attempt>, length: nat, refused: bool) {
    && length < Cap(log, |log|, |task.all|)
    && Cap(tried, |tried|, |task.all|) == if refused then length else Cap(log, |log|, |task.all|)
  }

  function TurnAfter(adjusted: Result<bool, PackingError>): Turn {
    match adjusted
    case Err(e) => Done(Rejected(e))
    case Ok(again) => if again then Again else Done(Completed)
  }

  lemma TurnTaken(task: Task, log: seq<Attempt>, tried: seq<Attempt>, selected: seq<PackCandidate>, next: seq<PackCandidate>,
                  adjusted: Result<bool, PackingError>, byteLength: nat, part: StagedPart, withFolders: bool,
                  baseline: nat -> nat)
    requires tried != [] && JustStaged(task, tried, selected, tried[|tried| - 1].refused, byteLength)
    requires CapFollows(task, log, tried, |selected|, tried[|tried| - 1].refused)
    requires var refused := tried[|tried| - 1].refused;
      && (adjusted == Ok(true) ==>
           && 0 < |next| <= |task.all| && Selects(task, tried, |tried|, |next|)
           && (!refused ==> |selected| < |next|))
      && (adjusted == Ok(false) ==> !refused && part == StagedPart(selected, byteLength, task.attempts + |tried|))
    requires adjusted == Ok(false) && byteLength <= task.maximum ==> Settled(task, byteLength, tried, |selected|)
    requires adjusted.Err? ==> Unmeasurable(task, tried)
    ensures Turned(task, log, |selected|, tried, |next|, TurnAfter(adjusted), part, withFolders, baseline)
  {
    if adjusted == Ok(false) {
      Reached(task, tried, part);
    }
  }

  /** Stages the selection and records the attempt; a refused length is remembered. */
  method Stage(queue: Queue, maximum: nat, before: nat, staged: Staging, known: Option<nat>, ghost task: Task,
      ghost log: seq<Attempt>)
    returns (byteLength: nat, refused: bool, rejected: Option<nat>, ghost tried: seq<Attempt>)
    requires queue.All() == task.all && maximum == task.maximum && staged == task.staged
    requires before == task.attempts + |log| && Remembers(task, log, known)
    requires Trying(task, log, |queue.selected|)
    ensures tried == log + [Attempt(|queue.selected|, refused)]
    ensures refused <==> byteLength > maximum && |queue.selected| > 1
    ensures JustStaged(task, tried, queue.selected, refused, byteLength) && Remembers(task, tried, rejected)
    ensures CapFollows(task, log, tried, |queue.selected|, refused)
  {
    byteLength := staged(before + 1, queue.selected);
    refused := byteLength > maximum && |queue.selected| > 1;
    tried := Recording(queue, byteLength, refused, task, log);
    rejected := if refused then Some(Least(known, |queue.selected|)) else known;
  }

  /** After a staged file: the next selection, or the part. */
  method Resolve(queue: Queue, observed: Observation, rejected: Option<nat>, refused: bool, byteLength: nat, attempt: nat,
      maximum: nat, withFolders: bool, baseline: nat -> nat, ghost task: Task, ghost log: seq<Attempt>, ghost tried: seq<Attempt>)
    returns (turn: Turn, part: StagedPart, observation: Observation)
    requires queue.All() == task.all && maximum == task.maximum && Estimates(task) && (refused ==> |queue.selected| > 1)
    requires JustStaged(task, tried, queue.selected, refused, byteLength) && Remembers(task, tried, rejected)
    requires CapFollows(task, log, tried, |queue.selected|, refused) && attempt == task.attempts + |tried|
    modifies queue
    ensures Turned(task, log, |old(queue.selected)|, tried, |queue.selected|, turn, part, withFolders, baseline)
    ensures turn.Again? ==> queue.All() == task.all
    ensures turn.Again? || turn == Done(Completed) ==> observation == Observed(task, tried, |tried|)
    ensures turn == Done(Completed) ==> queue.All() == task.all && queue.selected == part.group
  {
    if byteLength > maximum && |queue.selected| == 1 && withFolders && baseline(attempt) <= maximum {
      turn, part, observation := Done(PartExceedsMaximum(byteLength)), StagedPart([], 0, 0), observed;
      ExceedsAlone(task, log, tried, queue.selected, byteLength, part, baseline);
      return;
    }
    ghost var selected := queue.selected;
    var adjusted;
    adjusted, observation := Adjust(queue, observed, rejected, refused, byteLength, maximum, task, tried);
    part := if adjusted == Ok(false) then StagedPart(queue.selected, byteLength, attempt) else StagedPart([], 0, 0);
    turn := TurnAfter(adjusted);
    TurnTaken(task, log, tried, selected, queue.selected, adjusted, byteLength, part, withFolders, baseline);
  }

  /** The log with the file just staged. */
  ghost method Recording(queue: Queue, byteLength: nat, refused: bool, task: Task, log: seq<Attempt>)
    returns (tried: seq<Attempt>)
    requires queue.All() == task.all && Trying(task, log, |queue.selected|)
    requires byteLength == task.staged(task.attempts + |log| + 1, queue.selected)
    requires refused <==> byteLength > task.maximum && |queue.selected| > 1
    ensures tried == log + [Attempt(|queue.selected|, refused)]
    ensures JustStaged(task, tried, queue.selected, refused, byteLength)
    ensures CapFollows(task, log, tried, |queue.selected|, refused)
  {
    SelectedPrefix(queue.selected, queue.remaining);
    BelowCap(task, log, |log|, |queue.selected|);
    tried := log + [Attempt(|queue.selected|, refused)];
    Tried(task, log, tried);
    CapPrefix(log, tried, |log|, |task.all|);
  }

  /** One turn of the retry loop: stage the selection, record the attempt, and adjust the selection or stop. */
  method StageOnce(queue: Queue, maximum: nat, observed: Observation, before: nat, staged: Staging,
      withFolders: bool, baseline: nat -> nat, known: Option<nat>, ghost task: Task, ghost log: seq<Attempt>)
    returns (turn: Turn, part: StagedPart, observation: Observation, attempt: nat, rejected: Option<nat>,
             ghost tried: seq<Attempt>)
    requires queue.All() == task.all && maximum == task.maximum && staged == task.staged && Estimates(task)
    requires before == task.attempts + |log| && Remembers(task, log, known)
    requires Trying(task, log, |queue.selected|)
    modifies queue
    ensures attempt == task.attempts + |tried|
    ensures Turned(task, log, |old(queue.selected)|, tried, |queue.selected|, turn, part, withFolders, baseline)
    ensures turn.Again? ==> queue.All() == task.all && Remembers(task, tried, rejected)
    ensures turn == Done(Completed) ==>
      queue.All() == task.all && queue.selected == part.group && observation == Observed(task, tried, |tried|)
  {
    var byteLength, refused;
    byteLength, refused, rejected, tried := Stage(queue, maximum, before, staged, known, task, log);
    attempt := before + 1;
    turn, part, observation :=
      Resolve(queue, observed, rejected, refused, byteLength, attempt, maximum, withFolders, baseline, task, log, tried);
  }

  /** The retry loop over the first selection. */
  method SettlePart(queue: Queue, maximum: nat, observed: Observation, attempts: nat, staged: Staging,
      withFolders: bool, baseline: nat -> nat, interrupts: bool, ghost task: Task)
    returns (end: Ending, part: StagedPart, observation: Observation, attempt: nat, ghost tried: seq<Attempt>)
    requires queue.selected != [] && task == Task(maximum, queue.All(), staged, attempts, observed, LayoutSize)
    requires Selects(task, [], 0, |queue.selected|)
    modifies queue
    ensures Ends(task, tried, end, part, withFolders, baseline, interrupts)
    ensures end.Completed? ==>
      && queue.All() == task.all && queue.selected == part.group
      && observation == Observed(task, tried, |tried|) && attempt == part.attempt
  {
    observation, attempt, tried := observed, attempts, [];
    part := StagedPart([], 0, 0);
    var rejected: Option<nat> := None;
    while true
      invariant queue.All() == task.all && attempt == attempts + |tried|
      invariant Remembers(task, tried, rejected)
      invariant Trying(task, tried, |queue.selected|)
      decreases Cap(tried, |tried|, |task.all|), |task.all| - |queue.selected|
    {
      var raised := *;
      if raised && interrupts {
        end := Interrupted;
        return;
      }
      var turn;
      turn, part, observation, attempt, rejected, tried :=
        StageOnce(queue, maximum, observation, attempt, staged, withFolders, baseline, rejected, task, tried);
      if turn.Done? {
        end := turn.end;
        return;
      }
    }
  }

  /** Fills one part from the queue: the first selection, then the retry loop. */
  method FillPart(queue: Queue, maximum: nat, observed: Observation, attempts: nat, staged: Staging,
      withFolders: bool, baseline: nat -> nat, interrupts: bool, ghost task: Task)
    returns (end: Ending, part: StagedPart, observation: Observation, attempt: nat, ghost tried: seq<Attempt>)
    requires queue.remaining != [] && task == Task(maximum, queue.remaining, staged, attempts, observed, LayoutSize)
    modifies queue
    ensures Ends(task, tried, end, part, withFolders, baseline, interrupts)
    ensures observed.None? && tried != [] ==> EstimateSelects(maximum, task.all, tried[0].length)
    ensures end.Completed? ==>
      && queue.All() == task.all && queue.selected == part.group
      && observation == Observed(task, tried, |tried|) && attempt == part.attempt
  {
    part, attempt, tried, observation := StagedPart([], 0, 0), attempts, [], observed;
    var taken := queue.Take(observation, maximum);
    if taken.Err? {
      end := Rejected(taken.error);
      return;
    }
    end, part, observation, attempt, tried :=
      SettlePart(queue, maximum, observed, attempts, staged, withFolders, baseline, interrupts, task);
    if observed.None? && tried != [] {
      assert Told(task, tried, 0);
      FirstSelection(maximum, task.all, tried[0].length);
    }
  }

  /** Without a file to go by, the longest selection the estimate itself allows, or one candidate. */
  ghost predicate EstimateSelects(maximum: nat, all: seq<PackCandidate>, n: nat) {
    && n <= |all| && (LayoutSize(all[..n]) <= maximum || n == 1)
    && forall k :: n < k <= |all| ==> LayoutSize(all[..k]) > maximum || LayoutSize(all[..k]) > U64_MAX
  }

  lemma FirstSelection(maximum: nat, all: seq<PackCandidate>, n: nat)
    requires 0 < n <= |all| && LongestOrOne(PrefixFits(None, maximum, all), |all|, n)
    ensures EstimateSelects(maximum, all, n)
  {
    PredictUnobserved(LayoutSize(all[..n]));
    forall k | n < k <= |all| ensures LayoutSize(all[..k]) > maximum || LayoutSize(all[..k]) > U64_MAX {
      PredictUnobserved(LayoutSize(all[..k]));
      assert all[..k][..n] == all[..n];
      if LayoutSize(all[..k]) <= maximum && LayoutSize(all[..k]) <= U64_MAX {
        assert PrefixFits(None, maximum, all)(k) == Ok(true);
        FitsPrefix(None, maximum, all[..k], n);
      }
    }
  }

  // The whole division.

  function LastAttempt(parts: seq<StagedPart>): nat {
    if parts == [] then 0 else parts[|parts| - 1].attempt
  }

  /** The file of the last part, as the size model observed it. */
  function LastObserved(parts: seq<StagedPart>): Observation {
    if parts == [] then None
    else
      var last := parts[|parts| - 1];
      Observe(LayoutSize(last.group), last.byteLength)
  }

  /** What is left of the order after these parts. */
  function After(ordered: seq<PackCandidate>, parts: seq<StagedPart>): seq<PackCandidate> {
    var done := |Greedy.Flatten(Groups(parts))|;
    if done <= |ordered| then ordered[done..] else []
  }

  /** The next part's task. */
  function TaskAfter(maximum: nat, ordered: seq<PackCandidate>, staged: Staging, parts: seq<StagedPart>): Task {
    Task(maximum, After(ordered, parts), staged, LastAttempt(parts), LastObserved(parts), LayoutSize)
  }

  ghost predicate Led(task: Task, part: StagedPart) {
    exists tried :: LedTo(task, tried, part)
  }

  /** Every part was settled on what the parts before it left, by attempts and files that follow theirs. */
  ghost predicate AllLed(maximum: nat, ordered: seq<PackCandidate>, staged: Staging, parts: seq<StagedPart>) {
    if parts == [] then true
    else
      var before := parts[..|parts| - 1];
      && AllLed(maximum, ordered, staged, before)
      && Led(TaskAfter(maximum, ordered, staged, before), parts[|parts| - 1])
  }

  /** Each part is a file of its own attempt, within the maximum or of one candidate. */
  ghost predicate IsFile(maximum: nat, staged: Staging, part: StagedPart) {
    WithinMaximum(maximum, part) && part.byteLength == staged(part.attempt, part.group)
  }

  ghost predicate Files(maximum: nat, staged: Staging, parts: seq<StagedPart>) {
    && (forall i :: 0 <= i < |parts| ==> IsFile(maximum, staged, parts[i]))
    && (forall i, j :: 0 <= i < j < |parts| ==> parts[i].attempt < parts[j].attempt)
  }

  lemma LedAppend(maximum: nat, ordered: seq<PackCandidate>, staged: Staging, parts: seq<StagedPart>, part: StagedPart)
    requires AllLed(maximum, ordered, staged, parts)
    requires Led(TaskAfter(maximum, ordered, staged, parts), part)
    ensures AllLed(maximum, ordered, staged, parts + [part])
  {
    assert (parts + [part])[..|parts|] == parts;
  }

  lemma FilesAppend(task: Task, parts: seq<StagedPart>, part: StagedPart)
    requires Files(task.maximum, task.staged, parts) && task.attempts == LastAttempt(parts) && Led(task, part)
    ensures Files(task.maximum, task.staged, parts + [part])
  {
    var tried :| LedTo(task, tried, part);
    assert part.attempt > LastAttempt(parts) && IsFile(task.maximum, task.staged, part);
  }

  /** Why a division ends before the last candidate, in what was staged for the part after these. */
  ghost predicate StopsAt(task: Task, end: Ending, withFolders: bool, baseline: nat -> nat, interrupts: bool) {
    exists tried :: Ends(task, tried, end, StagedPart([], 0, 0), withFolders, baseline, interrupts)
  }

  /**
   Divides the canonical order. The parts are, in order, the candidates so far; each is a file that an attempt
   staged, is within the maximum or holds one candidate, and was settled by a true log of the attempts at it.
   A division that does not complete stopped for a cause in what it staged next, or was interrupted.
   */
  method FillParts(ordered: seq<PackCandidate>, maximum: nat, staged: Staging, hasFolders: bool, baseline: nat -> nat,
                   interrupts: bool)
    returns (end: Ending, parts: seq<StagedPart>)
    ensures Greedy.Flatten(Groups(parts)) <= ordered
    ensures end.Completed? ==> Greedy.Flatten(Groups(parts)) == ordered
    ensures AllLed(maximum, ordered, staged, parts) && Files(maximum, staged, parts)
    ensures !end.Completed? ==>
      StopsAt(TaskAfter(maximum, ordered, staged, parts), end, hasFolders && parts == [], baseline, interrupts)
  {
    var queue := new Queue(ordered);
    var observation: Observation := None;
    var attempt: nat := 0;
    parts := [];
    while queue.remaining != []
      invariant Greedy.Flatten(Groups(parts)) + queue.remaining == ordered
      invariant AllLed(maximum, ordered, staged, parts) && Files(maximum, staged, parts)
      invariant attempt == LastAttempt(parts) && observation == LastObserved(parts)
      decreases |queue.remaining|
    {
      ghost var task := TaskAfter(maximum, ordered, staged, parts);
      ghost var before := queue.remaining;
      LeftAfter(ordered, parts, before);
      var part;
      end, part, observation, attempt :=
        NextPart(queue, maximum, observation, attempt, staged, hasFolders && parts == [], baseline, interrupts, task);
      if !end.Completed? {
        return;
      }
      LedAppend(maximum, ordered, staged, parts, part);
      FilesAppend(task, parts, part);
      PartTaken(ordered, parts, part, before, queue.remaining);
      parts := parts + [part];
    }
    end := Completed;
  }

  method NextPart(queue: Queue, maximum: nat, observed: Observation, attempts: nat, staged: Staging,
                  withFolders: bool, baseline: nat -> nat, interrupts: bool, ghost task: Task)
    returns (end: Ending, part: StagedPart, observation: Observation, attempt: nat)
    requires queue.remaining != [] && task == Task(maximum, queue.remaining, staged, attempts, observed, LayoutSize)
    modifies queue
    ensures end.Completed? ==>
      && task.all == part.group + queue.remaining && part.group != []
      && Led(task, part) && part.attempt == attempt && observation == LastObserved([part])
    ensures !end.Completed? ==> StopsAt(task, end, withFolders, baseline, interrupts)
  {
    ghost var tried;
    end, part, observation, attempt, tried :=
      FillPart(queue, maximum, observed, attempts, staged, withFolders, baseline, interrupts, task);
    if end.Completed? {
      assert task.all[..|part.group|] == part.group;
    } else {
      assert Ends(task, tried, end, StagedPart([], 0, 0), withFolders, baseline, interrupts);
    }
  }

  lemma LeftAfter(ordered: seq<PackCandidate>, parts: seq<StagedPart>, left: seq<PackCandidate>)
    requires Greedy.Flatten(Groups(parts)) + left == ordered
    ensures After(ordered, parts) == left
    ensures parts == [] ==> left == ordered
  {}

  lemma PartTaken(ordered: seq<PackCandidate>, parts: seq<StagedPart>, part: StagedPart, before: seq<PackCandidate>,
                  left: seq<PackCandidate>)
    requires Greedy.Flatten(Groups(parts)) + before == ordered && before == part.group + left
    ensures Greedy.Flatten(Groups(parts + [part])) + left == ordered
  {
    Greedy.FlattenAppend(Groups(parts), part.group);
    GroupsAppend(parts, part);
  }

  lemma GroupsAppend(parts: seq<StagedPart>, p: StagedPart)
    ensures Groups(parts + [p]) == Groups(parts) + [p.group]
  {}
}

/**
 Supervision of a crash-prone recovery worker: a failure inside a unit isolates the unit, any other
 failure uses a global budget, and the worker is started again without the isolated units.
 */
module Supervision {
  import opened Wrappers

  const MAX_WORKER_RETRIES: nat := 3
  const MAX_UNIT_RETRIES: nat := 0

  /**
   How one attempt goes. The first three end before the worker runs. A retryable failure may have
   happened inside a unit; one that coincides with an interruption counts as interrupted.
   */
  datatype Attempt<U> =
    | SpawnFails
    | SpawnInterrupted
    | SpawnFatal
    | Finished
    | AttemptInterrupted
    | AttemptFatal
    | Retryable(unit: Option<U>, reportedParser: bool)

  datatype Ending = Completed | Interrupted | RetriesExhausted | Failed

  /** The worker of one run: how each attempt goes. */
  type Worker<U> = nat -> Attempt<U>

  // The budget, and the run a worker leads to.

  /** What the failures so far have left. */
  datatype Budget<U> = Budget(units: set<U>, skipped: set<U>, globalFailures: nat)

  /** Whether this attempt failed in a way the loop may go on after. */
  ghost predicate Charged<U>(attempt: Attempt<U>) {
    attempt.SpawnFails? || (attempt.Retryable? && (attempt.unit.Some? || !attempt.reportedParser))
  }

  ghost function UnitOf<U>(attempt: Attempt<U>): Option<U> {
    if attempt.Retryable? then attempt.unit else None
  }

  /** What one charged failure leaves of the budget. */
  ghost function AfterFailure<U>(b: Budget<U>, unit: Option<U>): Budget<U> {
    match unit
    case None => b.(globalFailures := b.globalFailures + 1)
    case Some(u) => b.(skipped := b.skipped + {u})
  }

  ghost predicate Exhausted<U>(b: Budget<U>) {
    b.globalFailures > 3
  }

  /** The budget once the first `k` attempts have been charged. */
  ghost function BudgetAfter<U>(worker: Worker<U>, b: Budget<U>, k: nat): Budget<U> {
    if k == 0 then b else AfterFailure(BudgetAfter(worker, b, k - 1), UnitOf(worker(k - 1)))
  }

  /** Attempt `k` is the last one if it comes to that. */
  ghost predicate Ends<U>(worker: Worker<U>, b: Budget<U>, k: nat) {
    !Charged(worker(k)) || Exhausted(BudgetAfter(worker, b, k + 1))
  }

  /** None of the first `k` attempts ends the run. */
  ghost predicate GoesOn<U>(worker: Worker<U>, b: Budget<U>, k: nat) {
    k == 0 || (GoesOn(worker, b, k - 1) && !Ends(worker, b, k - 1))
  }

  /** Attempt `k` is the first one that ends the run. */
  ghost predicate EndsFirst<U>(worker: Worker<U>, b: Budget<U>, k: nat) {
    GoesOn(worker, b, k) && Ends(worker, b, k)
  }

  /** No attempt before `k` got as far as a running worker. */
  ghost predicate NeverStarted<U>(worker: Worker<U>, k: nat) {
    forall j :: 0 <= j < k ==> worker(j).SpawnFails?
  }

  /** How a run ends at attempt `k`: without a first worker it fails whatever the reason. */
  ghost function EndingAt<U>(worker: Worker<U>, k: nat): Ending {
    match worker(k)
    case Finished => Completed
    case AttemptInterrupted => Interrupted
    case SpawnInterrupted => if NeverStarted(worker, k) then Failed else Interrupted
    case SpawnFails => if NeverStarted(worker, k) then Failed else RetriesExhausted
    case Retryable(_, _) => RetriesExhausted
    case _ => Failed
  }

  // What the budget amounts to, read off the attempts.

  /** The units the first k attempts failed in. */
  ghost function FailedUnits<U>(worker: Worker<U>, k: nat): set<U> {
    if k == 0 then {}
    else
      FailedUnits(worker, k - 1) +
      (match worker(k - 1) case Retryable(Some(u), _) => {u} case _ => {})
  }

  /** How many of the first k attempts happened outside every unit. */
  ghost function OutsideUnits<U>(worker: Worker<U>, k: nat): nat {
    if k == 0 then 0
    else OutsideUnits(worker, k - 1) + (match worker(k - 1) case Retryable(Some(_), _) => 0 case _ => 1)
  }

  lemma {:induction false} BudgetMeaning<U>(worker: Worker<U>, b: Budget<U>, k: nat)
    ensures BudgetAfter(worker, b, k)
         == Budget(b.units, b.skipped + FailedUnits(worker, k), b.globalFailures + OutsideUnits(worker, k))
  {
    if k == 0 {
      assert b.skipped + {} == b.skipped;
    } else {
      BudgetMeaning(worker, b, k - 1);
      match worker(k - 1)
      case Retryable(Some(u), _) =>
        assert b.skipped + FailedUnits(worker, k - 1) + {u} == b.skipped + (FailedUnits(worker, k - 1) + {u});
      case _ =>
        assert FailedUnits(worker, k) == FailedUnits(worker, k - 1);
    }
  }

  /**
   The run goes on after a failed start or a retryable failure, unless the parser reported it outside every unit,
   as long as no more than three of all these happened outside every unit.
   */
  lemma EndsMeaning<U>(worker: Worker<U>, b: Budget<U>, k: nat)
    requires b.globalFailures == 0
    ensures !Ends(worker, b, k) <==>
      && OutsideUnits(worker, k + 1) <= 3
      && match worker(k)
         case SpawnFails => true
         case Retryable(Some(_), _) => true
         case Retryable(None, reportedParser) => !reportedParser
         case _ => false
  {
    BudgetMeaning(worker, b, k + 1);
  }

  // Breaches: failures inside a unit the worker was told to skip.

  ghost predicate Breach<U>(attempt: Attempt<U>, b: Budget<U>) {
    attempt.Retryable? && attempt.unit.Some? && attempt.unit.value in b.skipped
  }

  ghost function Breaches<U>(worker: Worker<U>, b: Budget<U>, k: nat): nat {
    if k == 0 then 0
    else Breaches(worker, b, k - 1) + (if Breach(worker(k - 1), BudgetAfter(worker, b, k - 1)) then 1 else 0)
  }

  /** Every unit a worker fails in is a unit of the source. */
  ghost predicate WithinUnits<U>(worker: Worker<U>, units: set<U>) {
    forall k: nat :: UnitOf(worker(k)).Some? ==> UnitOf(worker(k)).value in units
  }

  /** As long as the run goes on, the worker breaches no more often than this. */
  ghost predicate BreachesAtMost<U>(worker: Worker<U>, b: Budget<U>, breaches: nat) {
    forall k: nat :: GoesOn(worker, b, k) ==> Breaches(worker, b, k) <= breaches
  }

  ghost function Remaining<U>(b: Budget<U>): int {
    |b.units - b.skipped| + MAX_WORKER_RETRIES + 1 - b.globalFailures
  }

  lemma IsolationAccounts<U>(units: set<U>, skipped: set<U>, u: U)
    requires u in units
    ensures |units - (skipped + {u})| == |units - skipped| - (if u in skipped then 0 else 1)
  {
    if u in skipped {
      assert skipped + {u} == skipped;
    } else {
      assert units - (skipped + {u}) == (units - skipped) - {u};
      assert u in units - skipped;
    }
  }

  /** A failure uses the budget exactly when it does not repeat a unit that is skipped already. */
  lemma FailureUsesBudget<U>(b: Budget<U>, unit: Option<U>)
    requires unit.Some? ==> unit.value in b.units
    ensures Remaining(AfterFailure(b, unit)) == Remaining(b) - (if unit.Some? && unit.value in b.skipped then 0 else 1)
  {
    if unit.Some? {
      IsolationAccounts(b.units, b.skipped, unit.value);
    }
  }

  /** Each attempt used the budget or was a breach. */
  lemma {:induction false} AttemptsConserved<U>(worker: Worker<U>, b: Budget<U>, k: nat)
    requires WithinUnits(worker, b.units)
    ensures BudgetAfter(worker, b, k).units == b.units
    ensures Remaining(BudgetAfter(worker, b, k)) + k == Remaining(b) + Breaches(worker, b, k)
  {
    if k > 0 {
      AttemptsConserved(worker, b, k - 1);
      FailureUsesBudget(BudgetAfter(worker, b, k - 1), UnitOf(worker(k - 1)));
    }
  }

  lemma {:induction false} GoesOnThrough<U>(worker: Worker<U>, b: Budget<U>, j: nat, k: nat)
    requires GoesOn(worker, b, k) && j < k
    ensures GoesOn(worker, b, j) && !Ends(worker, b, j)
  {
    if j < k - 1 {
      GoesOnThrough(worker, b, j, k - 1);
    }
  }

  lemma NotExhausted<U>(worker: Worker<U>, b: Budget<U>, k: nat)
    requires GoesOn(worker, b, k) && !Exhausted(b)
    ensures !Exhausted(BudgetAfter(worker, b, k))
  {
    if k > 0 {
      assert !Ends(worker, b, k - 1);
    }
  }

  /**
   A run that goes on has attempted no more than the units not skipped at first, the global retries and
   the breaches allow.
   */
  lemma AttemptsBounded<U>(worker: Worker<U>, b: Budget<U>, k: nat)
    requires WithinUnits(worker, b.units) && !Exhausted(b) && GoesOn(worker, b, k)
    ensures k + b.globalFailures <= |b.units - b.skipped| + MAX_WORKER_RETRIES + Breaches(worker, b, k)
  {
    AttemptsConserved(worker, b, k);
    NotExhausted(worker, b, k);
  }

  /** A worker that fails inside one unit `n` times and then finishes. */
  function FailsThenFinishes<U>(u: U, n: nat): Worker<U> {
    (k: nat) => if k < n then Retryable(Some(u), false) else Finished
  }

  /** A worker that fails inside one unit every time. */
  function FailsForever<U>(u: U): Worker<U> {
    (k: nat) => Retryable(Some(u), false)
  }

  /** Failures inside a unit that is skipped already leave the budget alone. */
  lemma {:induction false} RepeatsKeepBudget<U>(worker: Worker<U>, b: Budget<U>, u: U, k: nat)
    requires u in b.skipped && !Exhausted(b)
    requires forall j :: 0 <= j < k ==> worker(j) == Retryable(Some(u), false)
    ensures BudgetAfter(worker, b, k) == b && Breaches(worker, b, k) == k && GoesOn(worker, b, k)
  {
    if k > 0 {
      RepeatsKeepBudget(worker, b, u, k - 1);
      assert b.skipped + {u} == b.skipped;
    }
  }

  /** However large `n` is, a worker that fails `n` times inside one skipped unit is started `n + 1` times. */
  lemma BreachesForceAttempts<U>(b: Budget<U>, u: U, n: nat, k: nat)
    requires u in b.skipped && !Exhausted(b)
    ensures Breaches(FailsThenFinishes(u, n), b, n) == n
    ensures EndsFirst(FailsThenFinishes(u, n), b, k) <==> k == n
  {
    var worker := FailsThenFinishes(u, n);
    RepeatsKeepBudget(worker, b, u, n);
    assert Ends(worker, b, n);
    if EndsFirst(worker, b, k) && k != n {
      if k < n {
        GoesOnThrough(worker, b, k, n);
      } else {
        GoesOnThrough(worker, b, n, k);
      }
    }
  }

  /** A worker that always fails inside one skipped unit is started without end. */
  lemma FailsForeverNeverEnds<U>(b: Budget<U>, u: U, k: nat)
    requires u in b.skipped && !Exhausted(b)
    ensures !Ends(FailsForever(u), b, k)
  {
    RepeatsKeepBudget(FailsForever(u), b, u, k + 1);
  }

  // What the loop keeps.

  predicate Starts<U>(attempt: Attempt<U>) {
    !attempt.SpawnFails? && !attempt.SpawnInterrupted? && !attempt.SpawnFatal?
  }

  ghost predicate OnlySpawnFails<U>(worker: Worker<U>, from: nat, to: nat) {
    forall j :: from <= j < to ==> worker(j).SpawnFails?
  }

  ghost predicate Waits<U>(worker: Worker<U>, b: Budget<U>, k: nat, now: Budget<U>) {
    now == BudgetAfter(worker, b, k) && GoesOn(worker, b, k)
  }

  /** The budget a run that ends at attempt `k` is left with. */
  ghost function BudgetAt<U>(worker: Worker<U>, b: Budget<U>, k: nat): Budget<U> {
    BudgetAfter(worker, b, if Charged(worker(k)) then k + 1 else k)
  }

  /** A parser failure outside every unit is a failure too, though it is charged to nothing. */
  ghost function FailuresAt<U>(worker: Worker<U>, k: nat): nat {
    if worker(k).Retryable? || worker(k).SpawnFails? then k + 1 else k
  }

  function SpawnEnding<U>(attempt: Attempt<U>): Ending {
    if attempt.SpawnInterrupted? then Interrupted
    else if attempt.SpawnFails? then RetriesExhausted
    else Failed
  }

  lemma StartedBefore<U>(worker: Worker<U>, j: nat, k: nat)
    requires j < k && Starts(worker(j)) && !Starts(worker(k))
    ensures EndingAt(worker, k) == SpawnEnding(worker(k))
  {
    assert !worker(j).SpawnFails?;
  }

  lemma EndsUncharged<U>(worker: Worker<U>, b: Budget<U>, k: nat)
    requires GoesOn(worker, b, k) && !Charged(worker(k))
    ensures EndsFirst(worker, b, k) && BudgetAt(worker, b, k) == BudgetAfter(worker, b, k)
  {}

  /** A charged attempt either exhausts the budget and ends the run, or leaves it waiting. */
  lemma ChargeStep<U>(worker: Worker<U>, b: Budget<U>, k: nat, now: Budget<U>)
    requires Waits(worker, b, k, now) && Charged(worker(k))
    ensures AfterFailure(now, UnitOf(worker(k))) == BudgetAt(worker, b, k)
    ensures if Exhausted(AfterFailure(now, UnitOf(worker(k)))) then EndsFirst(worker, b, k)
            else Waits(worker, b, k + 1, AfterFailure(now, UnitOf(worker(k))))
  {}

  /** No run of this worker goes on for more attempts than this. */
  ghost predicate Limited<U>(worker: Worker<U>, b: Budget<U>, limit: nat) {
    forall k: nat :: GoesOn(worker, b, k) ==> k <= limit
  }

  ghost function AttemptLimit<U>(b: Budget<U>, breaches: nat): nat {
    |b.units - b.skipped| + MAX_WORKER_RETRIES + breaches
  }

  lemma LimitedByBreaches<U>(worker: Worker<U>, b: Budget<U>, breaches: nat)
    requires WithinUnits(worker, b.units) && !Exhausted(b) && BreachesAtMost(worker, b, breaches)
    ensures Limited(worker, b, AttemptLimit(b, breaches))
  {
    forall k: nat | GoesOn(worker, b, k) ensures k <= AttemptLimit(b, breaches) {
      AttemptsBounded(worker, b, k);
      assert Breaches(worker, b, k) <= breaches;
    }
  }

  lemma {:induction false} BreachesAreAttempts<U>(worker: Worker<U>, b: Budget<U>, k: nat)
    ensures Breaches(worker, b, k) <= k
  {
    if k > 0 {
      BreachesAreAttempts(worker, b, k - 1);
    }
  }

  /** A run is sure to end exactly when there is a limit on its breaches. */
  lemma LimitedIffFewBreaches<U>(worker: Worker<U>, b: Budget<U>)
    requires WithinUnits(worker, b.units) && !Exhausted(b)
    ensures (exists limit: nat :: Limited(worker, b, limit)) <==> (exists n: nat :: BreachesAtMost(worker, b, n))
  {
    forall n: nat | BreachesAtMost(worker, b, n) ensures exists limit: nat :: Limited(worker, b, limit) {
      LimitedByBreaches(worker, b, n);
    }
    forall limit: nat | Limited(worker, b, limit) ensures BreachesAtMost(worker, b, limit) {
      forall k: nat | GoesOn(worker, b, k) ensures Breaches(worker, b, k) <= limit {
        BreachesAreAttempts(worker, b, k);
      }
    }
  }

  // The supervisor.

  class Supervisor<U(==)> {
    const units: set<U>
    const initiallySkipped: set<U>
    const worker: Worker<U>
    var skipped: set<U>
    var isolated: seq<U>
    var unitFailures: map<U, nat>
    var workerAttempts: nat
    var workerFailures: nat
    var globalFailures: nat

    constructor (all: set<U>, initial: set<U>, behaviour: Worker<U>)
      ensures units == all && initiallySkipped == initial && worker == behaviour
      ensures Valid() && Fresh() && ToBudget() == Budget(all, initial, 0)
    {
      units, initiallySkipped, worker, skipped := all, initial, behaviour, initial;
      isolated, unitFailures := [], map[];
      workerAttempts, workerFailures, globalFailures := 0, 0, 0;
    }

    /** The skip list is the initial one and the isolated units. */
    ghost predicate Valid()
      reads this
    {
      && skipped == initiallySkipped + (set u | u in isolated)
      && (forall u :: u in unitFailures ==> u in isolated)
    }

    ghost predicate Fresh()
      reads this
    {
      isolated == [] && workerAttempts == workerFailures == globalFailures == 0
    }

    ghost function ToBudget(): Budget<U>
      reads this
    {
      Budget(units, skipped, globalFailures)
    }

    /** Between attempts: every attempt so far was charged and none of them ended the run. */
    ghost predicate Waiting(b: Budget<U>)
      reads this
    {
      && Valid()
      && workerFailures == workerAttempts == globalFailures + |isolated|
      && Waits(worker, b, workerAttempts, ToBudget())
    }

    /** While the latest worker runs. */
    ghost predicate Running(b: Budget<U>)
      reads this
    {
      && Valid()
      && workerFailures == workerAttempts - 1 == globalFailures + |isolated|
      && Waits(worker, b, workerAttempts - 1, ToBudget())
      && Starts(worker(workerAttempts - 1))
    }

    /** After the run: its last attempt is the first that ends it. */
    ghost predicate Ended(b: Budget<U>)
      reads this
    {
      && Valid() && workerAttempts > 0
      && EndsFirst(worker, b, workerAttempts - 1)
      && ToBudget() == BudgetAt(worker, b, workerAttempts - 1)
      && workerFailures == FailuresAt(worker, workerAttempts - 1)
    }

    /** Starts a worker again until it starts, the run is interrupted, or the budget is gone. */
    method Respawn(ghost b: Budget<U>) returns (started: bool, ending: Ending)
      requires Waiting(b) && globalFailures <= MAX_WORKER_RETRIES
      modifies this
      ensures workerAttempts > old(workerAttempts)
      ensures OnlySpawnFails(worker, old(workerAttempts), workerAttempts - 1)
      ensures started ==> Running(b)
      ensures !started ==> Ended(b) && !Starts(worker(workerAttempts - 1))
      ensures !started ==> ending == SpawnEnding(worker(workerAttempts - 1))
    {
      while true
        invariant Waiting(b) && globalFailures <= MAX_WORKER_RETRIES
        invariant workerAttempts >= old(workerAttempts)
        invariant OnlySpawnFails(worker, old(workerAttempts), workerAttempts)
        decreases MAX_WORKER_RETRIES - globalFailures
      {
        var attempt := worker(workerAttempts);
        workerAttempts := workerAttempts + 1;
        if !attempt.SpawnFails? {
          if !Starts(attempt) {
            EndsUncharged(worker, b, workerAttempts - 1);
          }
          return Starts(attempt), SpawnEnding(attempt);
        }
        ChargeStep(worker, b, workerAttempts - 1, ToBudget());
        Charge(None);
        if globalFailures > MAX_WORKER_RETRIES {
          return false, RetriesExhausted;
        }
      }
    }

    method Isolate(u: U)
      requires skipped == initiallySkipped + (set v | v in isolated)
      modifies `skipped, `isolated
      ensures skipped == initiallySkipped + (set v | v in isolated)
      ensures isolated == old(isolated) + [u] && skipped == old(skipped) + {u}
    {
      skipped := skipped + {u};
      isolated := isolated + [u];
    }

    /** Charges one failed attempt: to its unit, which is isolated, or to the global budget. */
    method Charge(unit: Option<U>)
      requires Valid()
      modifies this
      ensures Valid() && workerFailures == old(workerFailures) + 1 && workerAttempts == old(workerAttempts)
      ensures ToBudget() == AfterFailure(old(ToBudget()), unit)
      ensures isolated == old(isolated) + (if unit.Some? then [unit.value] else [])
    {
      workerFailures := workerFailures + 1;
      match unit
      case None =>
        globalFailures := globalFailures + 1;
      case Some(u) =>
        var failures := (if u in unitFailures then unitFailures[u] else 0) + 1;
        unitFailures := unitFailures[u := failures];
        if failures > MAX_UNIT_RETRIES {
          Isolate(u);
        }
    }

    /** Sees one worker through to its end and, when that does not end the run, to the start of the next. */
    method Attempted(ghost b: Budget<U>) returns (over: bool, ending: Ending)
      requires Running(b)
      modifies this
      ensures workerAttempts >= old(workerAttempts)
      ensures if over then Ended(b) && ending == EndingAt(worker, workerAttempts - 1)
              else Running(b) && workerAttempts > old(workerAttempts)
    {
      ghost var k := workerAttempts - 1;
      var attempt := worker(workerAttempts - 1);
      match attempt
      case Finished =>
        EndsUncharged(worker, b, k);
        return true, Completed;
      case AttemptInterrupted =>
        EndsUncharged(worker, b, k);
        return true, Interrupted;
      case AttemptFatal =>
        EndsUncharged(worker, b, k);
        return true, Failed;
      case Retryable(unit, reportedParser) =>
        over := Fail(b, unit, reportedParser);
        if over {
          return true, RetriesExhausted;
        }
        var started;
        started, ending := Respawn(b);
        if !started {
          StartedBefore(worker, k, workerAttempts - 1);
        }
        return !started, ending;
    }

    /** Settles a retryable failure of the running worker: it may end the run. */
    method Fail(ghost b: Budget<U>, unit: Option<U>, reportedParser: bool) returns (over: bool)
      requires Running(b) && worker(workerAttempts - 1) == Retryable(unit, reportedParser)
      modifies this
      ensures workerAttempts == old(workerAttempts)
      ensures if over then Ended(b) else Waiting(b) && globalFailures <= MAX_WORKER_RETRIES
    {
      if unit.None? && reportedParser {
        EndsUncharged(worker, b, workerAttempts - 1);
        workerFailures := workerFailures + 1;
        return true;
      }
      ChargeStep(worker, b, workerAttempts - 1, ToBudget());
      Charge(unit);
      return globalFailures > MAX_WORKER_RETRIES;
    }

    /**
     The supervision loop, for a worker with a limit on its breaches. It ends at the first attempt that
     ends a run, and has started a worker at most once for each unit not skipped at first, once for each
     breach, and MAX_WORKER_RETRIES + 1 times more.
     */
    method Supervise(ghost breaches: nat) returns (ending: Ending)
      requires Valid() && Fresh()
      requires WithinUnits(worker, units) && BreachesAtMost(worker, ToBudget(), breaches)
      modifies this
      ensures Ended(old(ToBudget())) && ending == EndingAt(worker, workerAttempts - 1)
      ensures workerAttempts <= |units - initiallySkipped| + MAX_WORKER_RETRIES + 1 + breaches
    {
      LimitedByBreaches(worker, ToBudget(), breaches);
      ending := Run(ToBudget(), AttemptLimit(ToBudget(), breaches));
    }

    method Run(ghost b: Budget<U>, ghost limit: nat) returns (ending: Ending)
      requires Valid() && Fresh() && b == ToBudget() && Limited(worker, b, limit)
      modifies this
      ensures Ended(b) && ending == EndingAt(worker, workerAttempts - 1) && workerAttempts <= limit + 1
    {
      var started;
      started, ending := Respawn(b);
      if !started {
        return Failed;
      }
      var over := false;
      while !over
        invariant if over then Ended(b) && ending == EndingAt(worker, workerAttempts - 1) else Running(b)
        invariant workerAttempts <= limit + 1
        decreases limit + 1 - workerAttempts, !over
      {
        over, ending := Attempted(b);
      }
    }
  }

  /** The bound needs its limit: for every `n`, the supervisor starts some worker with `n` breaches `n + 1` times. */
  method SuperviseBreaching<U(==)>(units: set<U>, skipped: set<U>, u: U, n: nat)
    returns (s: Supervisor<U>, ending: Ending)
    requires u in units && u in skipped
    ensures s.workerAttempts == n + 1 && s.skipped == skipped && s.globalFailures == 0 && ending == Completed
  {
    ghost var b := Budget(units, skipped, 0);
    s := new Supervisor(units, skipped, FailsThenFinishes(u, n));
    FewBreaches(b, u, n);
    ending := s.Supervise(n);
    BreachingRun(b, u, n, s.workerAttempts - 1);
  }

  lemma BreachingRun<U>(b: Budget<U>, u: U, n: nat, k: nat)
    requires u in b.skipped && !Exhausted(b) && EndsFirst(FailsThenFinishes(u, n), b, k)
    ensures k == n && BudgetAt(FailsThenFinishes(u, n), b, k) == b
    ensures EndingAt(FailsThenFinishes(u, n), k) == Completed
  {
    BreachesForceAttempts(b, u, n, k);
    RepeatsKeepBudget(FailsThenFinishes(u, n), b, u, n);
  }

  lemma FewBreaches<U>(b: Budget<U>, u: U, n: nat)
    requires u in b.units && u in b.skipped && !Exhausted(b)
    ensures WithinUnits(FailsThenFinishes(u, n), b.units)
    ensures BreachesAtMost(FailsThenFinishes(u, n), b, n)
  {
    forall k: nat | GoesOn(FailsThenFinishes(u, n), b, k) ensures Breaches(FailsThenFinishes(u, n), b, k) <= n {
      BreachesLimited(b, u, n, k);
    }
  }

  lemma {:induction false} BreachesLimited<U>(b: Budget<U>, u: U, n: nat, k: nat)
    requires u in b.skipped && !Exhausted(b)
    ensures Breaches(FailsThenFinishes(u, n), b, k) <= n
  {
    if k <= n {
      RepeatsKeepBudget(FailsThenFinishes(u, n), b, u, k);
    } else {
      BreachesLimited(b, u, n, k - 1);
    }
  }
}

/**
 The life of one background run: the request that schedules it, the worker thread
 that drives it through the store, the last-resort boundary around that thread,
 and everything that goes on meanwhile: cancel requests, output updates, faults of
 the telemetry or of the store at any step, and restarts of the process.
 */
module RunWorker {
  import opened Common
  import opened LogLines
  import opened RunStore

  datatype Result = Result(status: Status, outputs: Payload, failure: Option<Failure>)

  /** What every action result obeys: terminal, with a failure exactly when failed. */
  predicate ValidResult(r: Result) {
    Terminal(r.status) && (r.failure.Some? <==> r.status.Failed?)
  }

  /** Where the run's one worker stands. */
  datatype Pc =
    | Recorded                   // stored as queued, not given to the executor yet
    | Rejected                   // the executor refused it
    | Scheduled
    | Working                    // begun, the runner is executing
    | Caught(failure: Failure)   // the runner raised
    | Settling(result: Result)
    | Reporting                  // settled in the store, metrics to go
    | Escaped                    // an exception reached the last-resort boundary
    | LastResort
    | LastSettling(result: Result)
    | Gone

  datatype Worker = Worker(run: StoredRun, pc: Pc, unstorable: bool)

  datatype Step =
    // the request and the worker
    | Submit(accepted: bool)
    | SettleRejected(failure: Failure, now: Stamp)
    | Begin(now: Stamp)
    | RunnerReturns(result: Result)
    | RunnerRaises(failure: Failure)
    | SettleCaught
    | FinalizeRun(now: Stamp)
    | Report
    | CheckTerminal
    | SettleEscaped(failure: Failure)
    | FinalizeEscaped(now: Stamp)
    // faults
    | TelemetryFault
    | StoreFault
    // meanwhile
    | Cancel(now: Stamp)
    | SetOutputs(outputs: Payload)
    | RestartProcess(now: Stamp)

  /** No outputs at all. */
  const NO_OUTPUTS: Payload := 0

  /** The result for a runner that raised: a cancel in flight takes precedence. */
  function FromFailure(run: StoredRun, failure: Failure): Result {
    if run.cancelRequestedAt.Some? then Result(Canceled, NO_OUTPUTS, None)
    else Result(Failed, NO_OUTPUTS, Some(failure))
  }

  predicate Enabled(w: Worker, step: Step) {
    match step
    case Submit(_) => w.pc.Recorded?
    case SettleRejected(_, _) => w.pc.Rejected?
    case Begin(_) => w.pc.Scheduled?
    case RunnerReturns(result) => w.pc.Working? && ValidResult(result)
    case RunnerRaises(_) => w.pc.Working?
    case SettleCaught => w.pc.Caught?
    case FinalizeRun(_) => w.pc.Settling?
    case Report => w.pc.Reporting?
    case CheckTerminal => w.pc.Escaped?
    case SettleEscaped(_) => w.pc.LastResort?
    case FinalizeEscaped(_) => w.pc.LastSettling?
    case TelemetryFault => w.pc.Scheduled? || w.pc.Working? || w.pc.Settling? || w.pc.Reporting?
    case StoreFault => !w.pc.Recorded? && !w.pc.Working? && !w.pc.Reporting? && !w.pc.Gone?
    case Cancel(_) => true
    case SetOutputs(_) => true
    case RestartProcess(_) => true
  }

  function Advance(w: Worker, step: Step): Worker {
    if !Enabled(w, step) then w else
    match step
    case Submit(accepted) => w.(pc := if accepted then Scheduled else Rejected)
    case SettleRejected(failure, now) =>
      w.(run := Finalized(w.run, Failed, NO_OUTPUTS, Some(failure), now), pc := Gone)
    case Begin(now) => w.(run := Begun(w.run, now), pc := Working)
    case RunnerReturns(result) => w.(pc := Settling(result))
    case RunnerRaises(failure) => w.(pc := Caught(failure))
    case SettleCaught => w.(pc := Settling(FromFailure(w.run, w.pc.failure)))
    case FinalizeRun(now) =>
      var r := w.pc.result;
      w.(run := Finalized(w.run, r.status, r.outputs, r.failure, now), pc := Reporting)
    case Report => w.(pc := Gone)
    case CheckTerminal => w.(pc := if Terminal(w.run.status) then Gone else LastResort)
    case SettleEscaped(failure) => w.(pc := LastSettling(FromFailure(w.run, failure)))
    case FinalizeEscaped(now) =>
      var r := w.pc.result;
      w.(run := Finalized(w.run, r.status, r.outputs, r.failure, now), pc := Gone)
    case TelemetryFault => w.(pc := Escaped)
    case StoreFault =>
      if w.pc.Rejected? || w.pc.Escaped? || w.pc.LastResort? || w.pc.LastSettling?
      then w.(pc := Gone, unstorable := true) else w.(pc := Escaped)
    case Cancel(now) => w.(run := CancelRequested(w.run, now))
    case SetOutputs(outputs) => w.(run := w.run.(outputs := outputs))
    case RestartProcess(now) => Worker(InterruptedRun(w.run, now), Gone, false)
  }

  // ---------------------------------------------------------------------
  // What holds of a stored run, and how it may change

  predicate RunOk(r: StoredRun) {
    && (r.finishedAt.Some? <==> Terminal(r.status))
    && (r.failure.Some? <==> r.status.Failed?)
    && (r.cancelRequestedAt.Some? && Active(r.status) ==> r.status.Canceling?)
  }

  function Rank(s: Status): nat {
    if s.Queued? then 0 else if s.Provisioning? || s.Running? then 1 else if s.Canceling? then 2 else 3
  }

  /** The changes a run may ever undergo. */
  predicate Evolves(r: StoredRun, r': StoredRun) {
    && KeyOf(r') == KeyOf(r) && r'.operation == r.operation && r'.createdAt == r.createdAt
    && r'.idempotencyKey == r.idempotencyKey && r'.fingerprint == r.fingerprint
    && Rank(r.status) <= Rank(r'.status)
    && (Terminal(r.status) ==> r'.status == r.status && r'.failure == r.failure && r'.finishedAt == r.finishedAt)
    && (r.cancelRequestedAt.Some? ==> r'.cancelRequestedAt == r.cancelRequestedAt)
  }

  /** What that means for the status: a run is never queued again, one that is canceling
      stays so until it is settled, and a settled one keeps its status. */
  lemma NeverBack(r: StoredRun, r': StoredRun)
    requires Evolves(r, r')
    ensures !r.status.Queued? ==> !r'.status.Queued?
    ensures r.status.Canceling? ==> r'.status.Canceling? || Terminal(r'.status)
    ensures Terminal(r.status) ==> r'.status == r.status
  {
  }

  predicate WorkerOk(w: Worker) {
    && RunOk(w.run)
    && (!w.pc.Reporting? && !w.pc.Escaped? && !w.pc.Gone? ==> Active(w.run.status))
    && (w.pc.Settling? || w.pc.LastSettling? ==> ValidResult(w.pc.result))
    && (w.pc.Reporting? || (w.pc.Gone? && !w.unstorable) ==> Terminal(w.run.status))
  }

  lemma StepKeepsOk(w: Worker, step: Step)
    requires WorkerOk(w)
    ensures WorkerOk(Advance(w, step))
  {
  }

  lemma StepEvolves(w: Worker, step: Step)
    requires WorkerOk(w)
    ensures Evolves(w.run, Advance(w, step).run)
  {
  }

  lemma StepIsSound(w: Worker, step: Step)
    requires WorkerOk(w)
    ensures WorkerOk(Advance(w, step)) && Evolves(w.run, Advance(w, step).run)
  {
    StepKeepsOk(w, step);
    StepEvolves(w, step);
  }

  /** Finalizing is only ever sound on an unfinished run: the store itself would
      overwrite a settled one. */
  lemma FinalizeNeedsTheGuard(r: StoredRun, result: Result, now: Stamp)
    requires RunOk(r) && ValidResult(result) && r.finishedAt != Some(now)
    ensures Evolves(r, Finalized(r, result.status, result.outputs, result.failure, now)) <==> Active(r.status)
  {
  }

  // ---------------------------------------------------------------------
  // Whole histories

  ghost function History(w: Worker, steps: seq<Step>): (r: Worker)
    requires WorkerOk(w)
    ensures WorkerOk(r) && Evolves(w.run, r.run)
    decreases |steps|
  {
    if steps == [] then w else
    StepIsSound(w, steps[0]);
    History(Advance(w, steps[0]), steps[1..])
  }

  /** A run as the request records it. */
  predicate Fresh(r: StoredRun) {
    r.status.Queued? && r.startedAt.None? && r.finishedAt.None? && r.cancelRequestedAt.None? && r.failure.None?
  }

  lemma HistoryConcat(w: Worker, steps: seq<Step>, more: seq<Step>)
    requires WorkerOk(w)
    ensures History(w, steps + more) == History(History(w, steps), more)
    decreases |steps|
  {
    if steps == [] {
      assert steps + more == more;
    } else {
      StepIsSound(w, steps[0]);
      assert (steps + more)[1..] == steps[1..] + more;
      HistoryConcat(Advance(w, steps[0]), steps[1..], more);
    }
  }

  /** One durable settlement. Over every history, between any two moments of it:
      the status never goes back, a settled status and its failure and time are
      never rewritten, a cancel request is never lost, `finishedAt` is set exactly
      when settled and a failure exactly when failed; and once the worker is gone
      the run is settled, unless the store failed the last-resort boundary too. */
  lemma SettledOnce(r: StoredRun, steps: seq<Step>, more: seq<Step>)
    requires Fresh(r)
    ensures var w0 := Worker(r, Recorded, false);
            && WorkerOk(w0)
            && var w, w' := History(w0, steps), History(w0, steps + more);
            && Evolves(w.run, w'.run) && RunOk(w.run) && RunOk(w'.run)
            && (w'.pc.Gone? && !w'.unstorable ==> Terminal(w'.run.status))
  {
    HistoryConcat(Worker(r, Recorded, false), steps, more);
  }

  /** Starting up again settles whatever was left: an unfinished run has failed as
      interrupted, a settled one is as it was, and no worker is left. */
  lemma RestartSettles(w: Worker, steps: seq<Step>, now: Stamp)
    requires WorkerOk(w)
    ensures var before, after := History(w, steps), Advance(History(w, steps), RestartProcess(now));
            Interrupts(before.run, now, after.run) && Terminal(after.run.status) && after.pc.Gone? && !after.unstorable
  {
    InterruptedIsTheChange(History(w, steps).run, now, InterruptedRun(History(w, steps).run, now));
  }

  /** A requested cancel survives: from then on its first time stands, and an
      unfinished run is canceling, whatever the worker does. */
  lemma CancelSurvives(w: Worker, steps: seq<Step>, now: Stamp)
    requires WorkerOk(w)
    ensures WorkerOk(Advance(w, Cancel(now)))
    ensures var r := History(Advance(w, Cancel(now)), steps).run;
            && (w.run.cancelRequestedAt.None? ==> r.cancelRequestedAt == Some(now))
            && (w.run.cancelRequestedAt.Some? ==> r.cancelRequestedAt == w.run.cancelRequestedAt)
            && (Active(r.status) ==> r.status.Canceling?)
  {
    StepIsSound(w, Cancel(now));
  }

  /** Requests about the run always apply, wherever its worker stands. */
  lemma RequestsApply(w: Worker, outputs: Payload, now: Stamp)
    ensures var w' := Advance(w, Cancel(now)); Cancels(w.run, now, w'.run) && w' == w.(run := w'.run)
    ensures Advance(w, SetOutputs(outputs)) == w.(run := w.run.(outputs := outputs))
  {
  }

  /** A recorded run is worked on when the executor takes it, and has failed with the
      failure at hand when it does not, also when a cancel was requested before. */
  lemma TakenOrFailed(w: Worker, failure: Failure, now: Stamp)
    requires WorkerOk(w) && w.pc.Recorded?
    ensures Advance(w, Submit(true)) == w.(pc := Scheduled)
    ensures var w' := Advance(Advance(w, Submit(false)), SettleRejected(failure, now));
            && w'.pc.Gone? && w'.unstorable == w.unstorable
            && w'.run.status.Failed? && w'.run.failure == Some(failure) && w'.run.finishedAt == Some(now)
  {
  }

  /** A worker nothing disturbs stamps the start, settles the run as its runner returned,
      and is gone. */
  lemma WorksThrough(w: Worker, result: Result, began: Stamp, ended: Stamp)
    requires WorkerOk(w) && w.pc.Scheduled? && ValidResult(result)
    ensures var settling := Advance(Advance(w, Begin(began)), RunnerReturns(result));
            var w' := Advance(Advance(settling, FinalizeRun(ended)), Report);
            && Begins(w.run, began, settling.run) && w'.pc.Gone? && w'.unstorable == w.unstorable
            && Settles(settling.run, result.status, result.outputs, result.failure, ended, w'.run)
  {
  }

  /** Where a fault leaves the worker: anything escapes to the last-resort boundary with
      the run as it was, and only a store that fails that boundary, or the settling of a
      rejected run, leaves a run behind that may not be settled. */
  lemma FaultsEscape(w: Worker, step: Step)
    requires WorkerOk(w) && Enabled(w, step) && (step.TelemetryFault? || step.StoreFault?)
    ensures var last := w.pc.Rejected? || w.pc.Escaped? || w.pc.LastResort? || w.pc.LastSettling?;
            if step.StoreFault? && last then Advance(w, step) == w.(pc := Gone, unstorable := true)
            else Advance(w, step) == w.(pc := Escaped)
  {
  }

  /** The boundary leaves a settled run alone and takes any other one on. */
  lemma BoundaryChecks(w: Worker)
    requires w.pc.Escaped?
    ensures Advance(w, CheckTerminal) == w.(pc := if Terminal(w.run.status) then Gone else LastResort)
  {
  }

  // ---------------------------------------------------------------------
  // Failures and cancels

  /** Other calls about the run may go on while the worker is between two steps. */
  predicate Concurrent(step: Step) {
    step.Cancel? || step.SetOutputs?
  }

  /** The failure decided on: the one the runner raised, or the last-resort one. */
  function Deciding(w: Worker, step: Step): Failure
    requires Enabled(w, step) && (step.SettleCaught? || step.SettleEscaped?)
  {
    if step.SettleCaught? then w.pc.failure else step.failure
  }

  /** A run recorded a cancel before a failure was decided on: it is canceled, without a
      failure. It recorded none: it failed, with that failure. */
  ghost predicate FailsOrCancels(decided: StoredRun, failure: Failure, status: Status, stored: Option<Failure>) {
    && (decided.cancelRequestedAt.Some? ==> status.Canceled? && stored.None?)
    && (decided.cancelRequestedAt.None? ==> status.Failed? && stored == Some(failure))
  }

  lemma FailureIsDecided(w: Worker, step: Step)
    requires WorkerOk(w) && Enabled(w, step) && (step.SettleCaught? || step.SettleEscaped?)
    ensures var w' := Advance(w, step);
            && (step.SettleCaught? ==> w'.pc.Settling?) && (step.SettleEscaped? ==> w'.pc.LastSettling?)
            && w'.run == w.run && FailsOrCancels(w.run, Deciding(w, step), w'.pc.result.status, w'.pc.result.failure)
            && w'.pc.result.outputs == NO_OUTPUTS
  {
  }

  lemma {:induction false} OthersKeepThePlace(w: Worker, steps: seq<Step>)
    requires WorkerOk(w) && forall step | step in steps :: Concurrent(step)
    ensures History(w, steps).pc == w.pc
    decreases |steps|
  {
    if steps != [] {
      StepIsSound(w, steps[0]);
      assert Concurrent(steps[0]);
      OthersKeepThePlace(Advance(w, steps[0]), steps[1..]);
    }
  }

  /** Whatever is called meanwhile, the run is then settled as was decided: a cancel
      recorded later does not turn the failure into a cancel. */
  lemma FailureSettles(w: Worker, step: Step, meanwhile: seq<Step>, now: Stamp)
    requires WorkerOk(w) && Enabled(w, step) && (step.SettleCaught? || step.SettleEscaped?)
    requires forall other | other in meanwhile :: Concurrent(other)
    ensures WorkerOk(Advance(w, step))
    ensures var finalize := if step.SettleCaught? then FinalizeRun(now) else FinalizeEscaped(now);
            var w' := Advance(History(Advance(w, step), meanwhile), finalize);
            FailsOrCancels(w.run, Deciding(w, step), w'.run.status, w'.run.failure) && w'.run.finishedAt == Some(now)
            && w'.run.outputs == NO_OUTPUTS
  {
    StepIsSound(w, step);
    FailureIsDecided(w, step);
    OthersKeepThePlace(Advance(w, step), meanwhile);
  }

  // ---------------------------------------------------------------------
  // The worker's own code

  /** What happens around one step of the worker: other calls on the same run,
      whether telemetry or the store faults and with what message, and the time. */
  datatype Turn = Turn(meanwhile: seq<Step>, telemetryFails: bool, storeFails: bool, message: Payload, now: Stamp)

  datatype Outcome = Returns(result: Result) | Raises(failure: Failure)

  /** What a runner's outcome makes of the run, as it stands when that is decided. */
  ghost predicate Decided(outcome: Outcome, run: StoredRun, result: Result) {
    match outcome
    case Returns(returned) => result == returned
    case Raises(failure) => FailsOrCancels(run, failure, result.status, result.failure)
  }

  /** The run is settled as the outcome says. `decided` is the run as it stood when a
      failure was caught. */
  ghost predicate SettledAs(outcome: Outcome, decided: StoredRun, run: StoredRun) {
    match outcome
    case Returns(result) => run.status == result.status && run.failure == result.failure
    case Raises(failure) => FailsOrCancels(decided, failure, run.status, run.failure)
  }

  /** The last-resort boundary settles by some message, or as canceled when that was
      recorded before. */
  ghost predicate LastSettled(decided: StoredRun, run: StoredRun) {
    exists message :: FailsOrCancels(decided, Failure.Failure(message), run.status, run.failure)
  }

  /** The worker stands where it stood; its run is settled if it was. */
  ghost predicate Undisturbed(w: Worker, w': Worker) {
    && w'.pc == w.pc && w'.unstorable == w.unstorable && Evolves(w.run, w'.run)
    && (Terminal(w'.run.status) <==> Terminal(w.run.status))
  }

  class BackgroundRun {
    const weather: nat -> Turn
    var w: Worker
    var turn: Turn
    var count: nat
    ghost const start: Worker
    ghost var trace: seq<Step>

    ghost predicate Valid() reads this {
      WorkerOk(start) && w == History(start, trace)
    }

    /** Neither telemetry nor the store ever faults. */
    ghost predicate Calm() {
      forall n: nat :: !weather(n).telemetryFails && !weather(n).storeFails
    }

    /** The store never faults. */
    ghost predicate Storable() {
      forall n: nat :: !weather(n).storeFails
    }

    constructor (run: StoredRun, weather: nat -> Turn)
      requires Fresh(run)
      ensures Valid() && w == start == Worker(run, Recorded, false)
    {
      this.weather, count, turn := weather, 0, Turn([], false, false, 0, 0);
      w, start, trace := Worker(run, Recorded, false), Worker(run, Recorded, false), [];
    }

    method Take(step: Step)
      requires Valid()
      modifies this
      ensures Valid() && w == Advance(old(w), step) && turn == old(turn)
      ensures Evolves(old(w).run, w.run)
    {
      StepIsSound(w, step);
      HistoryConcat(start, trace, [step]);
      assert [step][1..] == [] && History(w, [step]) == Advance(w, step);
      trace := trace + [step];
      w := Advance(w, step);
    }

    /** Other threads call the store about this run. */
    method OtherCall(step: Step)
      requires Valid()
      modifies this
      ensures Valid() && turn == old(turn) && Undisturbed(old(w), w)
    {
      if Concurrent(step) { Take(step); }
    }

    /** Time passes: other threads call the store about this run. */
    method Pass()
      requires Valid()
      modifies this
      ensures Valid() && turn == weather(old(count)) && Undisturbed(old(w), w)
    {
      turn := weather(count);
      count := count + 1;
      var others := turn.meanwhile;
      for i := 0 to |others|
        invariant Valid() && turn == weather(old(count)) && Undisturbed(old(w), w)
      {
        OtherCall(others[i]);
      }
    }

    method BeginRun() returns (escaped: bool)
      requires Valid() && w.pc.Scheduled?
      modifies this
      ensures Valid() && w.unstorable == old(w).unstorable
      ensures if escaped then w.pc.Escaped? && !Terminal(w.run.status) else w.pc.Working?
      ensures Evolves(old(w).run, w.run) && (Calm() ==> !escaped)
    {
      Pass();
      escaped := turn.telemetryFails || turn.storeFails;
      Take(if turn.telemetryFails then TelemetryFault else if turn.storeFails then StoreFault else Begin(turn.now));
    }

    /** The runner executes; what it raises is logged and turned into a result. */
    method Execute(outcome: Outcome) returns (escaped: bool)
      requires Valid() && w.pc.Working? && (outcome.Returns? ==> ValidResult(outcome.result))
      modifies this
      ensures Valid() && w.unstorable == old(w).unstorable && Evolves(old(w).run, w.run)
      ensures if escaped then w.pc.Escaped? && !Terminal(w.run.status)
              else w.pc.Settling? && Decided(outcome, w.run, w.pc.result)
      ensures Calm() ==> !escaped
    {
      Pass();
      if turn.telemetryFails { Take(TelemetryFault); return true; }
      if outcome.Returns? { Take(RunnerReturns(outcome.result)); return false; }
      Take(RunnerRaises(outcome.failure));
      escaped := Catch();
    }

    method Catch() returns (escaped: bool)
      requires Valid() && w.pc.Caught?
      modifies this
      ensures Valid() && w.unstorable == old(w).unstorable && Evolves(old(w).run, w.run)
      ensures if escaped then w.pc.Escaped? && !Terminal(w.run.status) else
                w.pc.Settling? && FailsOrCancels(w.run, old(w).pc.failure, w.pc.result.status, w.pc.result.failure)
      ensures Calm() ==> !escaped
    {
      Pass();
      escaped := turn.storeFails;
      Take(if turn.storeFails then StoreFault else SettleCaught);
    }

    method Settle() returns (escaped: bool)
      requires Valid() && w.pc.Settling?
      modifies this
      ensures Valid() && w.unstorable == old(w).unstorable
      ensures if escaped then w.pc.Escaped? && !Terminal(w.run.status) else w.pc.Reporting?
      ensures !escaped ==>
                var result := old(w).pc.result;
                w.run.status == result.status && w.run.failure == result.failure && w.run.outputs == result.outputs
      ensures Evolves(old(w).run, w.run) && (Calm() ==> !escaped)
    {
      Pass();
      escaped := turn.telemetryFails || turn.storeFails;
      Take(if turn.telemetryFails then TelemetryFault else if turn.storeFails then StoreFault
           else FinalizeRun(turn.now));
    }

    method ReportMetrics() returns (escaped: bool)
      requires Valid() && w.pc.Reporting?
      modifies this
      ensures Valid() && w.unstorable == old(w).unstorable
      ensures if escaped then w.pc.Escaped? else w.pc.Gone?
      ensures Evolves(old(w).run, w.run) && (Calm() ==> !escaped)
    {
      Pass();
      escaped := turn.telemetryFails;
      Take(if turn.telemetryFails then TelemetryFault else Report);
    }

    /** The traced part of the worker. Returns whether an exception escaped it, and the run
        as it stood when the result was decided. */
    method InstrumentedWorker(outcome: Outcome) returns (escaped: bool, ghost decided: StoredRun)
      requires Valid() && w.pc.Scheduled? && (outcome.Returns? ==> ValidResult(outcome.result))
      modifies this
      ensures Valid() && w.unstorable == old(w).unstorable
      ensures if escaped then w.pc.Escaped? else w.pc.Gone?
      ensures Evolves(old(w).run, w.run) && (!escaped ==> Terminal(w.run.status))
      ensures Terminal(w.run.status) ==>
                SettledAs(outcome, decided, w.run) && Evolves(old(w).run, decided) && Evolves(decided, w.run)
      ensures Calm() ==> !escaped
    {
      decided := w.run;
      escaped := BeginRun();
      if escaped { return; }
      escaped := Execute(outcome);
      decided := w.run;
      if escaped { return; }
      escaped := SettleAndReport();
    }

    method SettleAndReport() returns (escaped: bool)
      requires Valid() && w.pc.Settling?
      modifies this
      ensures Valid() && w.unstorable == old(w).unstorable
      ensures if escaped then w.pc.Escaped? else w.pc.Gone?
      ensures Evolves(old(w).run, w.run) && (!escaped ==> Terminal(w.run.status)) && (Calm() ==> !escaped)
      ensures Terminal(w.run.status) ==>
                w.run.status == old(w).pc.result.status && w.run.failure == old(w).pc.result.failure
    {
      escaped := Settle();
      if !escaped { escaped := ReportMetrics(); }
    }

    /** The last-resort boundary: whatever escaped, a run that is not settled yet gets settled
        here; a settled one is left alone. A run without any fault ends as its outcome says.
        When the store works the run is settled, and when a cancel was recorded before the
        worker began, a runner that raises ends in a canceled run even when telemetry fails. */
    method WorkerThread(outcome: Outcome) returns (ghost decided: StoredRun)
      requires Valid() && w.pc.Scheduled? && !w.unstorable
      requires outcome.Returns? ==> ValidResult(outcome.result)
      modifies this
      ensures Valid() && w.pc.Gone? && Evolves(old(w).run, w.run) && RunOk(w.run)
      ensures !w.unstorable ==> Terminal(w.run.status)
      ensures Storable() ==> !w.unstorable
      ensures Calm() ==>
                SettledAs(outcome, decided, w.run) && Evolves(old(w).run, decided) && Evolves(decided, w.run)
      ensures outcome.Raises? && old(w).run.cancelRequestedAt.Some? && !w.unstorable ==>
                w.run.status.Canceled? && w.run.failure.None?
    {
      var escaped;
      escaped, decided := InstrumentedWorker(outcome);
      if escaped { decided := Recover(); }
    }

    /** A settled run is left alone; another one is settled by the failure that escaped, or as
        canceled, unless the store fails once more. */
    method Recover() returns (ghost decided: StoredRun)
      requires Valid() && w.pc.Escaped? && !w.unstorable
      modifies this
      ensures Valid() && w.pc.Gone? && Evolves(old(w).run, w.run)
      ensures Storable() ==> !w.unstorable
      ensures Terminal(old(w).run.status) ==> w.run.status == old(w).run.status && w.run.failure == old(w).run.failure
      ensures !Terminal(old(w).run.status) && !w.unstorable ==> LastSettled(decided, w.run)
      ensures Evolves(old(w).run, decided)
    {
      Pass();
      decided := w.run;
      Take(if turn.storeFails then StoreFault else CheckTerminal);
      if w.pc.LastResort? { decided := SettleLast(); }
    }

    method SettleLast() returns (ghost decided: StoredRun)
      requires Valid() && w.pc.LastResort? && !w.unstorable
      modifies this
      ensures Valid() && w.pc.Gone? && Evolves(old(w).run, w.run)
      ensures Storable() ==> !w.unstorable
      ensures !w.unstorable ==> LastSettled(decided, w.run)
      ensures Evolves(old(w).run, decided)
    {
      Pass();
      decided := w.run;
      Take(if turn.storeFails then StoreFault else SettleEscaped(Failure.Failure(turn.message)));
      if w.pc.LastSettling? { FinalizeLast(); }
    }

    method FinalizeLast()
      requires Valid() && w.pc.LastSettling? && !w.unstorable
      modifies this
      ensures Valid() && w.pc.Gone? && Evolves(old(w).run, w.run)
      ensures Storable() ==> !w.unstorable
      ensures !w.unstorable ==> w.run.status == old(w).pc.result.status && w.run.failure == old(w).pc.result.failure
    {
      Pass();
      Take(if turn.storeFails then StoreFault else FinalizeEscaped(turn.now));
    }
  }
}

/**
 A background run in the durable store: the worker and the requests about its run
 act through store operations, while the store serves every other run, stops and
 crashes. What is proved of the worker's own copy of the run thereby holds of the
 state file, and of what a later process loads.
 */
module DurableRun {
  import opened Common
  import opened LogLines
  import opened RunStore
  import opened RunWorker

  /** A step of the run's own life, a call about anything else, or the process
      stopping in or between operations and interrupting what was left. */
  datatype Event = OfRun(step: Step) | Elsewhere(op: Op) | Stop(op: Op, now: Stamp)

  /** What the store did so far, and where the run's worker stands. */
  datatype Durable = Durable(ops: seq<Op>, w: Worker)

  /** The store call behind one step of the worker, or of a request about its run. */
  function StoreCall(key: RunKey, w: Worker, step: Step): Option<Op> {
    if !Enabled(w, step) then None else
    match step
    case SettleRejected(failure, now) => Some(Op.Finalize(key, Failed, NO_OUTPUTS, Some(failure), now))
    case Begin(now) => Some(Op.BeginRun(key, now))
    case FinalizeRun(now) => Some(Settling(key, w.pc.result, now))
    case FinalizeEscaped(now) => Some(Settling(key, w.pc.result, now))
    case Cancel(now) => Some(Op.RequestCancel(key, now))
    case SetOutputs(outputs) => Some(Op.UpdateOutputs(key, outputs))
    case _ => None
  }

  function Settling(key: RunKey, r: Result, now: Stamp): Op {
    Op.Finalize(key, r.status, r.outputs, r.failure, now)
  }

  /** A call that is not about this run. */
  predicate NotAbout(key: RunKey, op: Op) {
    op.CreateRun? || op.Append? || (UpdatesOneRun(op) && op.key != key)
  }

  predicate IsStop(op: Op) {
    op.Restart? || op.CrashInCreate? || op.CrashInAppend?
  }

  function StoreCalls(key: RunKey, w: Worker, event: Event): seq<Op> {
    match event
    case OfRun(step) =>
      var call := StoreCall(key, w, step);
      if call.None? then [] else [call.value]
    case Elsewhere(op) => if NotAbout(key, op) then [op] else []
    case Stop(op, now) => if IsStop(op) then [op, InterruptIncomplete(now)] else []
  }

  /** A restart of the process is the event of stopping, not a step of the worker. */
  function WorkerAfter(w: Worker, event: Event): Worker {
    match event
    case OfRun(step) => if step.RestartProcess? then w else Advance(w, step)
    case Elsewhere(_) => w
    case Stop(op, now) => if IsStop(op) then Advance(w, RestartProcess(now)) else w
  }

  function AfterEvent(d: Durable, key: RunKey, event: Event): Durable {
    Durable(d.ops + StoreCalls(key, d.w, event), WorkerAfter(d.w, event))
  }

  function Live(d: Durable, key: RunKey, events: seq<Event>): Durable
    decreases |events|
  {
    if events == [] then d else Live(AfterEvent(d, key, events[0]), key, events[1..])
  }

  lemma {:induction false} LiveOneMore(d: Durable, key: RunKey, events: seq<Event>, event: Event)
    ensures Live(d, key, events + [event]) == AfterEvent(Live(d, key, events), key, event)
    decreases |events|
  {
    if events == [] {
      assert [event][1..] == [] && [] + [event] == [event];
    } else {
      assert (events + [event])[1..] == events[1..] + [event];
      LiveOneMore(AfterEvent(d, key, events[0]), key, events[1..], event);
    }
  }

  ghost function StoreAt(ops: seq<Op>): Store {
    Run(NEW_SYSTEM, ops).store
  }

  /** The state file holds the worker's run. */
  ghost predicate Tracked(st: Store, w: Worker, key: RunKey) {
    WorkerOk(w) && Lookup(st, key) == Some(w.run)
  }

  // ---------------------------------------------------------------------
  // What one store call does to the run

  lemma CallOnRun(st: Store, op: Op, key: RunKey, r: StoredRun)
    requires UpdatesOneRun(op) && op.key == key && Lookup(st, key) == Some(r)
    ensures Lookup(StoreAfter(st, op), key) == Some(Updated(st, op, r))
  {
  }

  lemma InterruptOnRun(st: Store, now: Stamp, key: RunKey, r: StoredRun)
    requires Lookup(st, key) == Some(r)
    ensures Lookup(Interrupt(st, now), key) == Some(InterruptedRun(r, now))
  {
  }

  lemma CallElsewhere(st: Store, op: Op, key: RunKey, r: StoredRun)
    requires RunsIndexed(st.disk.states, st.memory.runs) && st.disk.states.Keys <= st.disk.dirs
    requires NotAbout(key, op) && Lookup(st, key) == Some(r)
    ensures Lookup(StoreAfter(st, op), key) == Some(r)
  {
    match op
    case CreateRun(run) => CreateElsewhere(st, run, key, r);
    case Append(_, _) =>
    case _ => UpdateElsewhere(st, op, key, r);
  }

  lemma CreateElsewhere(st: Store, run: StoredRun, key: RunKey, r: StoredRun)
    requires RunsIndexed(st.disk.states, st.memory.runs) && st.disk.states.Keys <= st.disk.dirs
    requires Lookup(st, key) == Some(r)
    ensures Lookup(Create(st, run), key) == Some(r)
  {
    if CreateOutcome(st, run).Created? {
      CreatedIs(st, run);
      assert key.run in st.disk.states && key.run != run.runId;
    }
  }

  lemma UpdateElsewhere(st: Store, op: Op, key: RunKey, r: StoredRun)
    requires RunsIndexed(st.disk.states, st.memory.runs)
    requires UpdatesOneRun(op) && op.key != key && Lookup(st, key) == Some(r)
    ensures Lookup(AfterUpdate(st, op), key) == Some(r)
  {
    if Lookup(st, op.key).Some? {
      assert st.memory.runs[op.key] != st.memory.runs[key];
    }
  }

  lemma StopKeepsRun(st: Store, acked: map<Name, seq<Entry>>, op: Op, key: RunKey)
    requires Inv(st, acked) && IsStop(op)
    ensures Lookup(StoreAfter(st, op), key) == Lookup(st, key)
  {
    if Stops(st, op) {
      StopsAndComesBack(st, op);
      ComeBackIsSame(st, acked, op);
    }
  }

  // ---------------------------------------------------------------------
  // The state file is the worker's run

  lemma {:induction false} RunOneMore(s: System, ops: seq<Op>, op: Op)
    ensures Run(s, ops + [op]) == Do(Run(s, ops), op)
    decreases |ops|
  {
    if ops == [] {
      assert [] + [op] == [op] && [op][1..] == [];
    } else {
      assert (ops + [op])[1..] == ops[1..] + [op];
      RunOneMore(Do(s, ops[0]), ops[1..], op);
    }
  }

  lemma OneMoreCall(ops: seq<Op>, op: Op)
    ensures StoreAt(ops + [op]) == StoreAfter(StoreAt(ops), op)
  {
    RunOneMore(NEW_SYSTEM, ops, op);
  }

  /** A step does to the worker's run what its store call does to the state file. */
  lemma StepIsItsCall(st: Store, key: RunKey, w: Worker, step: Step)
    requires !step.RestartProcess?
    ensures match StoreCall(key, w, step)
            case None => Advance(w, step).run == w.run
            case Some(op) =>
              UpdatesOneRun(op) && op.key == key && Updated(st, op, w.run) == Advance(w, step).run
  {
  }

  lemma StepIsTracked(st: Store, w: Worker, key: RunKey, step: Step)
    requires Tracked(st, w, key) && !step.RestartProcess?
    ensures var call := StoreCall(key, w, step);
            Tracked(if call.None? then st else StoreAfter(st, call.value), Advance(w, step), key)
  {
    var call := StoreCall(key, w, step);
    StepKeepsOk(w, step);
    StepIsItsCall(st, key, w, step);
    if call.Some? { CallOnRun(st, call.value, key, w.run); }
  }

  lemma InterruptIsTracked(st: Store, w: Worker, key: RunKey, now: Stamp)
    requires Tracked(st, w, key)
    ensures Tracked(Interrupt(st, now), Advance(w, RestartProcess(now)), key)
  {
    StepKeepsOk(w, RestartProcess(now));
    InterruptOnRun(st, now, key, w.run);
  }

  lemma LifeIsTracked(d: Durable, key: RunKey, step: Step)
    requires Tracked(StoreAt(d.ops), d.w, key)
    ensures Tracked(StoreAt(d.ops + StoreCalls(key, d.w, OfRun(step))), WorkerAfter(d.w, OfRun(step)), key)
  {
    var call := StoreCall(key, d.w, step);
    assert d.ops + [] == d.ops;
    if !step.RestartProcess? {
      StepIsTracked(StoreAt(d.ops), d.w, key, step);
      if call.Some? { OneMoreCall(d.ops, call.value); }
    }
  }

  lemma CallIsTracked(d: Durable, key: RunKey, op: Op)
    requires Tracked(StoreAt(d.ops), d.w, key) && NotAbout(key, op)
    ensures Tracked(StoreAt(d.ops + [op]), d.w, key)
  {
    OneMoreCall(d.ops, op);
    CallKeepsFile(d.ops, op, key, d.w.run);
  }

  lemma CallKeepsFile(ops: seq<Op>, op: Op, key: RunKey, r: StoredRun)
    requires NotAbout(key, op) && Lookup(StoreAt(ops), key) == Some(r)
    ensures Lookup(StoreAfter(StoreAt(ops), op), key) == Some(r)
  {
    RunKeepsInv(NEW_SYSTEM, ops);
    CallElsewhere(StoreAt(ops), op, key, r);
  }

  lemma StopKeepsFile(ops: seq<Op>, op: Op, key: RunKey)
    requires IsStop(op)
    ensures Lookup(StoreAfter(StoreAt(ops), op), key) == Lookup(StoreAt(ops), key)
  {
    RunKeepsInv(NEW_SYSTEM, ops);
    StopKeepsRun(StoreAt(ops), Run(NEW_SYSTEM, ops).acked, op, key);
  }

  lemma StopIsTracked(d: Durable, key: RunKey, op: Op, now: Stamp)
    requires Tracked(StoreAt(d.ops), d.w, key) && IsStop(op)
    ensures Tracked(StoreAt(d.ops + [op, InterruptIncomplete(now)]), Advance(d.w, RestartProcess(now)), key)
  {
    StopKeepsFile(d.ops, op, key);
    StoppedStore(d.ops, op, now);
    InterruptIsTracked(StoreAfter(StoreAt(d.ops), op), d.w, key, now);
  }

  lemma StoppedStore(ops: seq<Op>, op: Op, now: Stamp)
    ensures StoreAt(ops + [op, InterruptIncomplete(now)]) == Interrupt(StoreAfter(StoreAt(ops), op), now)
  {
    var stopped := ops + [op];
    assert stopped + [InterruptIncomplete(now)] == ops + [op, InterruptIncomplete(now)];
    OneMoreCall(ops, op);
    OneMoreInterrupt(stopped, now);
  }

  lemma OneMoreInterrupt(ops: seq<Op>, now: Stamp)
    ensures StoreAt(ops + [InterruptIncomplete(now)]) == Interrupt(StoreAt(ops), now)
  {
    OneMoreCall(ops, InterruptIncomplete(now));
  }

  /** After every event, the state file holds the worker's run. */
  lemma EventIsTracked(d: Durable, key: RunKey, event: Event)
    requires Tracked(StoreAt(d.ops), d.w, key)
    ensures Tracked(StoreAt(d.ops + StoreCalls(key, d.w, event)), WorkerAfter(d.w, event), key)
  {
    assert d.ops + [] == d.ops;
    match event
    case OfRun(step) => LifeIsTracked(d, key, step);
    case Elsewhere(op) => if NotAbout(key, op) { CallIsTracked(d, key, op); }
    case Stop(op, now) => if IsStop(op) { StopIsTracked(d, key, op, now); }
  }

  /** What an event does to the state file: calls about other runs nothing, a stop
      interrupts an unfinished run, and a step of the run's own life changes it as the
      step's store call promises. */
  lemma EventChangesFile(d: Durable, key: RunKey, event: Event)
    requires Tracked(StoreAt(d.ops), d.w, key)
    ensures var file' := Lookup(StoreAt(d.ops + StoreCalls(key, d.w, event)), key);
            && file'.Some?
            && match event
               case Elsewhere(_) => file'.value == d.w.run
               case Stop(op, now) =>
                 if IsStop(op) then Interrupts(d.w.run, now, file'.value) else file'.value == d.w.run
               case OfRun(step) =>
                 var call := StoreCall(key, d.w, step);
                 if call.None? then file'.value == d.w.run else Changes(call.value, d.w.run, file'.value)
  {
    EventIsTracked(d, key, event);
    match event
    case Elsewhere(_) =>
    case Stop(_, now) => InterruptedIsTheChange(d.w.run, now, InterruptedRun(d.w.run, now));
    case OfRun(step) =>
      if !step.RestartProcess? {
        StepIsItsCall(StoreAt(d.ops), key, d.w, step);
        var call := StoreCall(key, d.w, step);
        if call.Some? {
          UpdatedIsTheChange(StoreAt(d.ops), call.value, d.w.run, Updated(StoreAt(d.ops), call.value, d.w.run));
        }
      }
  }

  /** A call about anything else reaches the store, and leaves the worker alone. */
  lemma CallsElsewhereHappen(d: Durable, key: RunKey, op: Op)
    requires NotAbout(key, op)
    ensures var d' := AfterEvent(d, key, Elsewhere(op));
            StoreAt(d'.ops) == StoreAfter(StoreAt(d.ops), op) && d'.w == d.w
  {
    OneMoreCall(d.ops, op);
  }

  lemma EventEvolves(w: Worker, event: Event)
    requires WorkerOk(w)
    ensures Evolves(w.run, WorkerAfter(w, event).run)
  {
    match event
    case OfRun(step) => StepEvolves(w, step);
    case Elsewhere(_) =>
    case Stop(_, now) => StepEvolves(w, RestartProcess(now));
  }

  lemma {:induction false} LiveIsTracked(d: Durable, key: RunKey, events: seq<Event>)
    requires Tracked(StoreAt(d.ops), d.w, key)
    ensures var d' := Live(d, key, events);
            Tracked(StoreAt(d'.ops), d'.w, key) && Evolves(d.w.run, d'.w.run)
    decreases |events|
  {
    if events != [] {
      EventIsTracked(d, key, events[0]);
      EventEvolves(d.w, events[0]);
      LiveIsTracked(AfterEvent(d, key, events[0]), key, events[1..]);
    }
  }

  lemma CreatedIsTracked(before: seq<Op>, run: StoredRun)
    requires CreateOutcome(StoreAt(before), run).Created? && Fresh(run)
    ensures Tracked(StoreAt(before + [CreateRun(run)]), Worker(run, Recorded, false), KeyOf(run))
  {
    OneMoreCall(before, CreateRun(run));
  }

  /** Settlement is durable. A run is created in a store with any history, and lives
      among any calls about other runs, stops and crashes. Then between any two
      moments its state file only ever evolves: it is settled once, a cancel request
      is never lost, and once the worker is gone it is settled, unless the store
      failed the last-resort boundary too. What a later process would load is the
      same. */
  lemma SettlementIsDurable(before: seq<Op>, run: StoredRun, events: seq<Event>, more: seq<Event>)
    requires CreateOutcome(StoreAt(before), run).Created? && Fresh(run)
    ensures var key := KeyOf(run);
            var d := Live(Durable(before + [CreateRun(run)], Worker(run, Recorded, false)), key, events);
            var d' := Live(d, key, more);
            var file, file' := Lookup(StoreAt(d.ops), key), Lookup(StoreAt(d'.ops), key);
            && file == Some(d.w.run) && file' == Some(d'.w.run)
            && Evolves(file.value, file'.value) && RunOk(file'.value)
            && (d'.w.pc.Gone? && !d'.w.unstorable ==> Terminal(file'.value.status))
            && Loadable(StoreAt(d'.ops).disk) && Lookup(Reload(StoreAt(d'.ops).disk), key) == file'
  {
    var key := KeyOf(run);
    var d0 := Durable(before + [CreateRun(run)], Worker(run, Recorded, false));
    CreatedIsTracked(before, run);
    LiveIsTracked(d0, key, events);
    LiveIsTracked(Live(d0, key, events), key, more);
    ReloadRefinesMemory(Live(Live(d0, key, events), key, more).ops);
  }
}

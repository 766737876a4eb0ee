/**
 Durable background runs: per-run state files and append-only logs on disk, and
 three indexes over them in memory (runs, idempotency slots, next log sequence)
 that are rebuilt from disk when the process comes back.

 A history is any list of store operations, restarts and crashes. Names,
 timestamps and payloads are only compared, so numbers stand for them.
 */
module RunStore {
  import opened Common
  import opened LogLines

  datatype Status = Queued | Provisioning | Running | Canceling | Succeeded | Failed | Canceled

  predicate Active(s: Status) {
    s.Queued? || s.Provisioning? || s.Running? || s.Canceling?
  }

  predicate Terminal(s: Status) {
    s.Succeeded? || s.Failed? || s.Canceled?
  }

  /** Identifiers, timestamps and payloads are only ever compared. */
  type Name = nat
  type Stamp = nat
  type Payload = nat

  datatype Operation =
    | Provision | ReeLoad | Build | Sbom | Crosscheck | Hbom | Activation | Source | Evaluate | Experiment

  datatype Failure = Failure(message: Payload) | Interruption

  datatype StoredRun = StoredRun(
    runId: Name,
    reeId: Name,
    operation: Operation,
    status: Status,
    createdAt: Stamp,
    startedAt: Option<Stamp>,
    finishedAt: Option<Stamp>,
    cancelRequestedAt: Option<Stamp>,
    outputs: Payload,
    failure: Option<Failure>,
    idempotencyKey: Option<Name>,
    fingerprint: Payload)

  datatype RunKey = RunKey(ree: Name, run: Name)
  datatype Slot = Slot(ree: Name, operation: Operation, key: Name)

  function KeyOf(r: StoredRun): RunKey {
    RunKey(r.reeId, r.runId)
  }

  function SlotOf(r: StoredRun): Slot
    requires r.idempotencyKey.Some?
  {
    Slot(r.reeId, r.operation, r.idempotencyKey.value)
  }

  /** The directory of runs: a directory a run, in it a state file (missing when a
      crash hit the creation) and a log file (missing until the first entry). */
  datatype Disk = Disk(dirs: set<Name>, states: map<Name, StoredRun>, logs: map<Name, string>)

  datatype Memory = Memory(
    runs: map<RunKey, Name>,
    slots: map<Slot, RunKey>,
    nextSeq: map<RunKey, nat>)

  datatype Store = Store(disk: Disk, memory: Memory)

  const EMPTY_STORE: Store := Store(Disk({}, map[], map[]), Memory(map[], map[], map[]))

  // ---------------------------------------------------------------------
  // What each operation does to one run

  function Begun(r: StoredRun, now: Stamp): StoredRun {
    r.(startedAt := Some(now),
       status := if !r.status.Queued? then r.status else if r.operation.Provision? then Provisioning else Running)
  }

  function CancelRequested(r: StoredRun, now: Stamp): StoredRun {
    r.(cancelRequestedAt := if r.cancelRequestedAt.None? then Some(now) else r.cancelRequestedAt,
       status := if Active(r.status) then Canceling else r.status)
  }

  function Finalized(r: StoredRun, status: Status, outputs: Payload, failure: Option<Failure>, now: Stamp): StoredRun {
    var override := r.cancelRequestedAt.Some? && !status.Failed? && !status.Succeeded?;
    var settled := if override then Canceled else status;
    r.(status := settled, outputs := outputs, failure := if override then None else failure,
       finishedAt := if Terminal(settled) then Some(now) else None)
  }

  function InterruptedRun(r: StoredRun, now: Stamp): StoredRun {
    if Active(r.status) then r.(status := Failed, failure := Some(Interruption), finishedAt := Some(now)) else r
  }

  // ---------------------------------------------------------------------
  // The store

  function Lookup(st: Store, key: RunKey): Option<StoredRun> {
    if key in st.memory.runs && st.memory.runs[key] in st.disk.states
    then Some(st.disk.states[st.memory.runs[key]]) else None
  }

  function WithRun(st: Store, key: RunKey, run: StoredRun): Store
    requires Lookup(st, key).Some?
  {
    st.(disk := st.disk.(states := st.disk.states[st.memory.runs[key] := run]))
  }

  datatype CreateResult = Created | Replayed(existing: StoredRun) | Conflict(existing: StoredRun) | DirectoryExists

  function CreateOutcome(st: Store, run: StoredRun): CreateResult {
    if run.idempotencyKey.Some? && SlotOf(run) in st.memory.slots
       && Lookup(st, st.memory.slots[SlotOf(run)]).Some? then
      var existing := Lookup(st, st.memory.slots[SlotOf(run)]).value;
      if existing.fingerprint != run.fingerprint then Conflict(existing) else Replayed(existing)
    else if run.runId in st.disk.dirs then DirectoryExists
    else Created
  }

  function Create(st: Store, run: StoredRun): Store {
    if !CreateOutcome(st, run).Created? then st else
    var key := KeyOf(run);
    Store(st.disk.(dirs := st.disk.dirs + {run.runId}, states := st.disk.states[run.runId := run]),
          Memory(st.memory.runs[key := run.runId],
                 if run.idempotencyKey.None? then st.memory.slots else st.memory.slots[SlotOf(run) := key],
                 st.memory.nextSeq[key := 1]))
  }

  function AppendLog(st: Store, key: RunKey, text: string): Store {
    if key !in st.memory.runs || key !in st.memory.nextSeq then st else
    var dir, entry := st.memory.runs[key], Entry(st.memory.nextSeq[key], text);
    Store(st.disk.(logs := st.disk.logs[dir := TextOf(st.disk.logs, dir) + Line(entry)]),
          st.memory.(nextSeq := st.memory.nextSeq[key := entry.number + 1]))
  }

  function Interrupt(st: Store, now: Stamp): Store {
    st.(disk := st.disk.(states := map d | d in st.disk.states :: InterruptedRun(st.disk.states[d], now)))
  }

  // ---------------------------------------------------------------------
  // Rebuilding the indexes

  /** Two runs claim one key or one slot. */
  ghost predicate Clash(states: map<Name, StoredRun>, d: Name, e: Name)
    requires d in states && e in states
  {
    d != e && (KeyOf(states[d]) == KeyOf(states[e])
               || (states[d].idempotencyKey.Some? && states[e].idempotencyKey.Some?
                   && SlotOf(states[d]) == SlotOf(states[e])))
  }

  ghost predicate Distinct(states: map<Name, StoredRun>) {
    forall d, e {:trigger Clash(states, d, e)} | d in states && e in states :: !Clash(states, d, e)
  }

  lemma KeysDiffer(states: map<Name, StoredRun>)
    requires Distinct(states)
    ensures forall d, e | d in states && e in states && KeyOf(states[d]) == KeyOf(states[e]) :: d == e
  {
    forall d, e | d in states && e in states && KeyOf(states[d]) == KeyOf(states[e]) ensures d == e {
      assert !Clash(states, d, e);
    }
  }

  lemma SlotsDiffer(states: map<Name, StoredRun>)
    requires Distinct(states)
    ensures forall d, e | d in states && states[d].idempotencyKey.Some? && e in states && states[e].idempotencyKey.Some?
                          && SlotOf(states[d]) == SlotOf(states[e]) :: d == e
  {
    forall d, e | d in states && states[d].idempotencyKey.Some? && e in states && states[e].idempotencyKey.Some?
                  && SlotOf(states[d]) == SlotOf(states[e])
      ensures d == e
    {
      assert !Clash(states, d, e);
    }
  }

  ghost function RebuiltRuns(states: map<Name, StoredRun>): map<RunKey, Name>
    requires Distinct(states)
  {
    KeysDiffer(states);
    map d | d in states :: KeyOf(states[d]) := d
  }

  ghost function RebuiltSlots(states: map<Name, StoredRun>): map<Slot, RunKey>
    requires Distinct(states)
  {
    SlotsDiffer(states);
    map d | d in states && states[d].idempotencyKey.Some? :: SlotOf(states[d]) := KeyOf(states[d])
  }

  // ---------------------------------------------------------------------
  // The invariant of a running store

  ghost predicate RunsIndexed(states: map<Name, StoredRun>, runs: map<RunKey, Name>) {
    && (forall d | d in states :: states[d].runId == d && KeyOf(states[d]) in runs)
    && (forall key | key in runs :: runs[key] == key.run && key.run in states && KeyOf(states[key.run]) == key)
  }

  ghost predicate SlotsIndexed(states: map<Name, StoredRun>, slots: map<Slot, RunKey>) {
    && (forall d | d in states && states[d].idempotencyKey.Some? ::
          SlotOf(states[d]) in slots && slots[SlotOf(states[d])] == KeyOf(states[d]))
    && (forall slot | slot in slots ::
          var d := slots[slot].run;
          d in states && states[d].idempotencyKey.Some? && SlotOf(states[d]) == slot && KeyOf(states[d]) == slots[slot])
  }

  lemma IndexedMeansRebuilt(states: map<Name, StoredRun>, runs: map<RunKey, Name>, slots: map<Slot, RunKey>)
    requires RunsIndexed(states, runs) && SlotsIndexed(states, slots)
    ensures Distinct(states) && RebuiltRuns(states) == runs && RebuiltSlots(states) == slots
  {
    IndexedMeansDistinct(states, runs, slots);
    RunsRebuilt(states, runs);
    SlotsRebuilt(states, slots);
  }

  lemma IndexedMeansDistinct(states: map<Name, StoredRun>, runs: map<RunKey, Name>, slots: map<Slot, RunKey>)
    requires RunsIndexed(states, runs) && SlotsIndexed(states, slots)
    ensures Distinct(states)
  {
  }

  lemma RunsRebuilt(states: map<Name, StoredRun>, runs: map<RunKey, Name>)
    requires RunsIndexed(states, runs) && Distinct(states)
    ensures RebuiltRuns(states) == runs
  {
    var rebuilt := RebuiltRuns(states);
    forall key | key in runs
      ensures key in rebuilt
    {
      assert key.run in states && KeyOf(states[key.run]) == key;
    }
  }

  lemma SlotOfRun(states: map<Name, StoredRun>, d: Name)
    requires Distinct(states) && d in states && states[d].idempotencyKey.Some?
    ensures SlotOf(states[d]) in RebuiltSlots(states)
    ensures RebuiltSlots(states)[SlotOf(states[d])] == KeyOf(states[d])
  {
    SlotsDiffer(states);
  }

  lemma SlotsRebuilt(states: map<Name, StoredRun>, slots: map<Slot, RunKey>)
    requires SlotsIndexed(states, slots) && Distinct(states)
    ensures RebuiltSlots(states) == slots
  {
    var rebuilt := RebuiltSlots(states);
    forall slot | slot in rebuilt ensures slot in slots && rebuilt[slot] == slots[slot] {
      var d :| d in states && states[d].idempotencyKey.Some? && SlotOf(states[d]) == slot;
      SlotOfRun(states, d);
    }
    forall slot | slot in slots ensures slot in rebuilt {
      SlotOfRun(states, slots[slot].run);
    }
  }

  ghost predicate Numbered(entries: seq<Entry>) {
    forall i | 0 <= i < |entries| :: entries[i].number == i + 1
  }

  function TextOf(logs: map<Name, string>, d: Name): string {
    if d in logs then logs[d] else ""
  }

  /** The log files hold exactly the acknowledged entries, in whole lines. */
  ghost predicate TextsOk(logs: map<Name, string>, acked: map<Name, seq<Entry>>) {
    logs.Keys <= acked.Keys && forall d | d in acked :: TextOf(logs, d) == Lines(acked[d])
  }

  /** Acknowledged entries are numbered from one without a gap, and the next
      number follows. */
  ghost predicate Counted(m: Memory, acked: map<Name, seq<Entry>>) {
    && m.nextSeq.Keys == m.runs.Keys
    && (forall d | d in acked :: Numbered(acked[d]))
    && (forall key | key in m.runs :: key.run in acked && m.nextSeq[key] == |acked[key.run]| + 1)
  }

  ghost predicate IndexOk(dirs: set<Name>, states: map<Name, StoredRun>, m: Memory, acked: map<Name, seq<Entry>>) {
    && acked.Keys == states.Keys && states.Keys <= dirs
    && RunsIndexed(states, m.runs) && SlotsIndexed(states, m.slots) && Counted(m, acked)
  }

  ghost predicate Inv(st: Store, acked: map<Name, seq<Entry>>) {
    IndexOk(st.disk.dirs, st.disk.states, st.memory, acked) && TextsOk(st.disk.logs, acked)
  }

  // ---------------------------------------------------------------------
  // Coming back from disk

  function NextSequence(log: Log): nat {
    if log.Corrupt? || log.entries == [] then 1 else log.entries[|log.entries| - 1].number + 1
  }

  function ReadBack(disk: Disk): map<Name, Log> {
    map d | d in disk.states :: ReadLog(TextOf(disk.logs, d))
  }

  function RecoveredLogs(logs: map<Name, string>, read: map<Name, Log>): map<Name, string> {
    map d | d in logs :: if d in read && read[d].Log? then read[d].file else logs[d]
  }

  ghost function RebuiltSequences(states: map<Name, StoredRun>, read: map<Name, Log>): map<RunKey, nat>
    requires Distinct(states) && states.Keys <= read.Keys
  {
    KeysDiffer(states);
    map d | d in states :: KeyOf(states[d]) := NextSequence(read[d])
  }

  ghost predicate Loadable(disk: Disk) {
    Distinct(disk.states) && forall d | d in ReadBack(disk) :: ReadBack(disk)[d].Log?
  }

  /** What a new process finds: every log of a listed run was read, which removes a
      cut last line, and the indexes are built from the state files. */
  ghost function Reload(disk: Disk): Store
    requires Loadable(disk)
  {
    var read := ReadBack(disk);
    Store(disk.(logs := RecoveredLogs(disk.logs, read)),
          Memory(RebuiltRuns(disk.states), RebuiltSlots(disk.states), RebuiltSequences(disk.states, read)))
  }

  /** The logs read as the acknowledged entries. */
  ghost predicate ReadsAs(read: map<Name, Log>, acked: map<Name, seq<Entry>>) {
    read.Keys == acked.Keys && forall d | d in read :: read[d].Log? && read[d].entries == acked[d]
  }

  /** Recovery leaves these texts behind. */
  ghost predicate RecoversTo(logs: map<Name, string>, read: map<Name, Log>, after: map<Name, string>) {
    logs.Keys == after.Keys <= read.Keys
    && forall d | d in logs :: read[d].Log? && read[d].file == after[d]
  }

  lemma NextSequencesRead(m: Memory, acked: map<Name, seq<Entry>>, read: map<Name, Log>, key: RunKey)
    requires Counted(m, acked) && ReadsAs(read, acked) && key in m.runs
    ensures key.run in read && NextSequence(read[key.run]) == m.nextSeq[key]
  {
  }

  lemma SequenceOf(states: map<Name, StoredRun>, read: map<Name, Log>, d: Name)
    requires Distinct(states) && states.Keys <= read.Keys && d in states
    ensures KeyOf(states[d]) in RebuiltSequences(states, read)
    ensures RebuiltSequences(states, read)[KeyOf(states[d])] == NextSequence(read[d])
  {
    KeysDiffer(states);
  }

  lemma SequencesRebuilt(states: map<Name, StoredRun>, m: Memory, read: map<Name, Log>)
    requires Distinct(states) && RunsIndexed(states, m.runs) && states.Keys <= read.Keys
    requires m.nextSeq.Keys == m.runs.Keys
    requires forall key | key in m.runs :: key.run in read && NextSequence(read[key.run]) == m.nextSeq[key]
    ensures RebuiltSequences(states, read) == m.nextSeq
  {
    var next := RebuiltSequences(states, read);
    forall key | key in next ensures key in m.nextSeq && next[key] == m.nextSeq[key] {
      var d :| d in states && KeyOf(states[d]) == key;
      SequenceOf(states, read, d);
      assert key.run == d;
    }
    forall key | key in m.nextSeq ensures key in next {
      SequenceOf(states, read, key.run);
    }
  }

  /** A disk with the same state files, whose logs read as the acknowledged
      entries, reloads into the store as it was. */
  lemma ReloadIs(disk: Disk, st: Store, acked: map<Name, seq<Entry>>)
    requires IndexOk(st.disk.dirs, st.disk.states, st.memory, acked)
    requires disk.states == st.disk.states
    requires ReadsAs(ReadBack(disk), acked) && RecoversTo(disk.logs, ReadBack(disk), st.disk.logs)
    ensures Loadable(disk) && Reload(disk) == st.(disk := st.disk.(dirs := disk.dirs))
  {
    var m, read := st.memory, ReadBack(disk);
    IndexedMeansRebuilt(disk.states, m.runs, m.slots);
    forall key | key in m.runs
      ensures key.run in read && NextSequence(read[key.run]) == m.nextSeq[key]
    {
      NextSequencesRead(m, acked, read, key);
    }
    SequencesRebuilt(disk.states, m, read);
    LogsRecovered(disk.logs, read, st.disk.logs);
  }

  lemma LogsRecovered(logs: map<Name, string>, read: map<Name, Log>, after: map<Name, string>)
    requires RecoversTo(logs, read, after)
    ensures RecoveredLogs(logs, read) == after
  {
  }

  lemma TextsReadBack(disk: Disk, acked: map<Name, seq<Entry>>)
    requires TextsOk(disk.logs, acked) && acked.Keys == disk.states.Keys
    ensures ReadsAs(ReadBack(disk), acked) && RecoversTo(disk.logs, ReadBack(disk), disk.logs)
  {
    forall d | d in acked
      ensures ReadBack(disk)[d] == Log(acked[d], TextOf(disk.logs, d))
    {
      ReadComplete(acked[d]);
    }
  }

  // ---------------------------------------------------------------------
  // Histories

  datatype Op =
    | CreateRun(run: StoredRun)
    | BeginRun(key: RunKey, now: Stamp)
    | Append(key: RunKey, text: string)
    | UpdateOutputs(key: RunKey, outputs: Payload)
    | RequestCancel(key: RunKey, now: Stamp)
    | Finalize(key: RunKey, status: Status, outputs: Payload, failure: Option<Failure>, now: Stamp)
    | InterruptIncomplete(now: Stamp)
    | Restart
    | CrashInCreate(runId: Name)
    | CrashInAppend(key: RunKey, text: string, cut: nat)

  /** The store on this machine, and the log entries it acknowledged or kept. */
  datatype System = System(store: Store, acked: map<Name, seq<Entry>>)

  const NEW_SYSTEM: System := System(EMPTY_STORE, map[])

  function Updated(st: Store, op: Op, r: StoredRun): StoredRun {
    match op
    case BeginRun(_, now) => Begun(r, now)
    case UpdateOutputs(_, outputs) => r.(outputs := outputs)
    case RequestCancel(_, now) => CancelRequested(r, now)
    case Finalize(_, status, outputs, failure, now) => Finalized(r, status, outputs, failure, now)
    case _ => r
  }

  predicate UpdatesOneRun(op: Op) {
    op.BeginRun? || op.UpdateOutputs? || op.RequestCancel? || op.Finalize?
  }

  /** The log files a crash leaves when it hits an append after `cut` characters. */
  function CutLogs(logs: map<Name, string>, d: Name, e: Entry, cut: nat): map<Name, string>
    requires cut <= |Line(e)|
  {
    logs[d := TextOf(logs, d) + Line(e)[..cut]]
  }

  /** The cut is strictly inside the object, so that recovery sees a fragment or
      nothing at all. */
  predicate CutInsideObject(st: Store, op: Op)
    requires op.CrashInAppend?
  {
    op.key in st.memory.runs && op.key in st.memory.nextSeq
    && op.cut < |Encode(Entry(st.memory.nextSeq[op.key], op.text))|
  }

  /** The process stops, in an operation or between two. */
  predicate Stops(st: Store, op: Op) {
    op.Restart? || op.CrashInCreate? || (op.CrashInAppend? && CutInsideObject(st, op))
  }

  /** The disk a crash leaves behind. */
  ghost function CrashedDisk(st: Store, op: Op): Disk
    requires Stops(st, op)
  {
    match op
    case CrashInCreate(runId) => st.disk.(dirs := st.disk.dirs + {runId})
    case CrashInAppend(key, text, cut) =>
      st.disk.(logs := CutLogs(st.disk.logs, st.memory.runs[key], Entry(st.memory.nextSeq[key], text), cut))
    case _ => st.disk
  }

  function AfterUpdate(st: Store, op: Op): Store
    requires UpdatesOneRun(op)
  {
    if Lookup(st, op.key).None? then st else WithRun(st, op.key, Updated(st, op, Lookup(st, op.key).value))
  }

  ghost function ComeBack(st: Store, disk: Disk): Store {
    if Loadable(disk) then Reload(disk) else st
  }

  ghost function StoreAfter(st: Store, op: Op): Store {
    match op
    case CreateRun(run) => Create(st, run)
    case Append(key, text) => AppendLog(st, key, text)
    case InterruptIncomplete(now) => Interrupt(st, now)
    case CrashInAppend(_, _, _) => if CutInsideObject(st, op) then ComeBack(st, CrashedDisk(st, op)) else st
    case Restart => ComeBack(st, st.disk)
    case CrashInCreate(_) => ComeBack(st, CrashedDisk(st, op))
    case _ => AfterUpdate(st, op)
  }

  /** Creating a run begins its log, and an append that is answered adds to it. */
  function AckedAfter(st: Store, acked: map<Name, seq<Entry>>, op: Op): map<Name, seq<Entry>> {
    match op
    case CreateRun(run) => if CreateOutcome(st, run).Created? then acked[run.runId := []] else acked
    case Append(key, text) =>
      if key in st.memory.runs && key in st.memory.nextSeq && key.run in acked
      then acked[key.run := acked[key.run] + [Entry(st.memory.nextSeq[key], text)]] else acked
    case _ => acked
  }

  ghost function Do(s: System, op: Op): System {
    System(StoreAfter(s.store, op), AckedAfter(s.store, s.acked, op))
  }

  lemma IndexKeepsIdentities(dirs: set<Name>, states: map<Name, StoredRun>, states': map<Name, StoredRun>,
                             m: Memory, acked: map<Name, seq<Entry>>)
    requires IndexOk(dirs, states, m, acked) && states'.Keys == states.Keys
    requires forall d | d in states ::
               KeyOf(states'[d]) == KeyOf(states[d]) && states'[d].operation == states[d].operation
               && states'[d].idempotencyKey == states[d].idempotencyKey
    ensures IndexOk(dirs, states', m, acked)
  {
  }

  /** Beginning stamps the start, and moves a queued run on; only provisioning is not
      running then. */
  ghost predicate Begins(r: StoredRun, now: Stamp, r': StoredRun) {
    && r' == r.(startedAt := Some(now), status := r'.status)
    && (!r.status.Queued? ==> r'.status == r.status)
    && (r.status.Queued? ==> (r'.status.Provisioning? <==> r.operation.Provision?)
                             && (r'.status.Running? <==> !r.operation.Provision?))
  }

  /** The first request for a cancel is recorded; an unfinished run is canceling from then on. */
  ghost predicate Cancels(r: StoredRun, now: Stamp, r': StoredRun) {
    && r' == r.(cancelRequestedAt := r'.cancelRequestedAt, status := r'.status)
    && (r.cancelRequestedAt.Some? ==> r'.cancelRequestedAt == r.cancelRequestedAt)
    && (r.cancelRequestedAt.None? ==> r'.cancelRequestedAt == Some(now))
    && (Active(r.status) ==> r'.status.Canceling?) && (!Active(r.status) ==> r'.status == r.status)
  }

  /** The run gets the outcome, unless a cancel was recorded and the outcome is neither a
      success nor a failure: then it is canceled without a failure. It has an end exactly
      when it is settled. */
  ghost predicate Settles(r: StoredRun, status: Status, outputs: Payload, failure: Option<Failure>, now: Stamp,
                          r': StoredRun) {
    && r' == r.(status := r'.status, outputs := outputs, failure := r'.failure, finishedAt := r'.finishedAt)
    && (if r.cancelRequestedAt.Some? && !status.Succeeded? && !status.Failed?
        then r'.status.Canceled? && r'.failure.None? else r'.status == status && r'.failure == failure)
    && (Terminal(r'.status) ==> r'.finishedAt == Some(now)) && (!Terminal(r'.status) ==> r'.finishedAt.None?)
  }

  /** An unfinished run fails as interrupted; any other run stays as it is. */
  ghost predicate Interrupts(r: StoredRun, now: Stamp, r': StoredRun) {
    && (Active(r.status) ==> r'.status.Failed? && r'.failure == Some(Interruption) && r'.finishedAt == Some(now))
    && r' == if Active(r.status) then r.(status := r'.status, failure := r'.failure, finishedAt := r'.finishedAt)
             else r
  }

  /** What a call about one run promises of it. */
  ghost predicate Changes(op: Op, r: StoredRun, r': StoredRun) {
    match op
    case BeginRun(_, now) => Begins(r, now, r')
    case UpdateOutputs(_, outputs) => r' == r.(outputs := outputs)
    case RequestCancel(_, now) => Cancels(r, now, r')
    case Finalize(_, status, outputs, failure, now) => Settles(r, status, outputs, failure, now, r')
    case _ => r' == r
  }

  /** A call makes exactly the change it promises: no other one fits. */
  lemma UpdatedIsTheChange(st: Store, op: Op, r: StoredRun, r': StoredRun)
    ensures Changes(op, r, r') <==> r' == Updated(st, op, r)
  {
  }

  lemma InterruptedIsTheChange(r: StoredRun, now: Stamp, r': StoredRun)
    ensures Interrupts(r, now, r') <==> r' == InterruptedRun(r, now)
  {
  }

  /** What becomes of one stored run: only a call about it changes it, and only as that
      call promises; starting up again interrupts it; nothing ever removes it. */
  ghost predicate Follows(op: Op, r: StoredRun, r': StoredRun) {
    if UpdatesOneRun(op) && op.key == KeyOf(r) then Changes(op, r, r')
    else if op.InterruptIncomplete? then Interrupts(r, op.now, r')
    else r' == r
  }

  lemma UpdateFollows(st: Store, op: Op, d: Name)
    requires RunsIndexed(st.disk.states, st.memory.runs) && UpdatesOneRun(op) && d in st.disk.states
    ensures var states' := AfterUpdate(st, op).disk.states;
            states'.Keys == st.disk.states.Keys && Follows(op, st.disk.states[d], states'[d])
  {
    var r := st.disk.states[d];
    assert st.memory.runs[KeyOf(r)] == d;
    UpdatedIsTheChange(st, op, r, Updated(st, op, r));
  }

  lemma CreateFollows(st: Store, run: StoredRun, d: Name)
    requires st.disk.states.Keys <= st.disk.dirs && d in st.disk.states
    ensures d in Create(st, run).disk.states && Create(st, run).disk.states[d] == st.disk.states[d]
  {
  }

  lemma InterruptFollows(st: Store, now: Stamp, d: Name)
    requires d in st.disk.states
    ensures d in Interrupt(st, now).disk.states
    ensures Interrupts(st.disk.states[d], now, Interrupt(st, now).disk.states[d])
  {
    InterruptedIsTheChange(st.disk.states[d], now, InterruptedRun(st.disk.states[d], now));
  }

  lemma CallFollows(st: Store, op: Op, d: Name)
    requires RunsIndexed(st.disk.states, st.memory.runs) && st.disk.states.Keys <= st.disk.dirs
    requires !op.Restart? && !op.CrashInCreate? && !op.CrashInAppend? && d in st.disk.states
    ensures d in StoreAfter(st, op).disk.states
    ensures Follows(op, st.disk.states[d], StoreAfter(st, op).disk.states[d])
  {
    if UpdatesOneRun(op) {
      UpdateFollows(st, op, d);
    } else if op.CreateRun? {
      CreateFollows(st, op.run, d);
    } else if op.InterruptIncomplete? {
      InterruptFollows(st, op.now, d);
    } else {
      assert StoreAfter(st, op).disk.states == st.disk.states;
    }
  }

  lemma UpdateKeepsIdentity(st: Store, op: Op, r: StoredRun)
    ensures var r' := Updated(st, op, r);
            KeyOf(r') == KeyOf(r) && r'.operation == r.operation && r'.idempotencyKey == r.idempotencyKey
            && r'.fingerprint == r.fingerprint
  {
  }

  lemma UpdateKeepsInv(st: Store, acked: map<Name, seq<Entry>>, op: Op)
    requires Inv(st, acked) && UpdatesOneRun(op) && Lookup(st, op.key).Some?
    ensures Inv(AfterUpdate(st, op), acked)
  {
    UpdateKeepsIndex(st, acked, op, Lookup(st, op.key).value);
  }

  lemma UpdateKeepsIndex(st: Store, acked: map<Name, seq<Entry>>, op: Op, r: StoredRun)
    requires IndexOk(st.disk.dirs, st.disk.states, st.memory, acked)
    requires UpdatesOneRun(op) && Lookup(st, op.key) == Some(r)
    ensures IndexOk(st.disk.dirs, WithRun(st, op.key, Updated(st, op, r)).disk.states, st.memory, acked)
  {
    UpdateKeepsIdentity(st, op, r);
    RewritingKeepsIndex(st, acked, op.key, Updated(st, op, r));
  }

  lemma RewritingKeepsIndex(st: Store, acked: map<Name, seq<Entry>>, key: RunKey, r: StoredRun)
    requires IndexOk(st.disk.dirs, st.disk.states, st.memory, acked) && Lookup(st, key).Some?
    requires KeyOf(r) == KeyOf(Lookup(st, key).value) && r.operation == Lookup(st, key).value.operation
    requires r.idempotencyKey == Lookup(st, key).value.idempotencyKey
    ensures IndexOk(st.disk.dirs, WithRun(st, key, r).disk.states, st.memory, acked)
  {
    IndexKeepsIdentities(st.disk.dirs, st.disk.states, WithRun(st, key, r).disk.states, st.memory, acked);
  }

  lemma InterruptKeepsInv(st: Store, acked: map<Name, seq<Entry>>, now: Stamp)
    requires Inv(st, acked)
    ensures Inv(Interrupt(st, now), acked)
  {
    InterruptIs(st, now);
    IndexKeepsIdentities(st.disk.dirs, st.disk.states, Interrupt(st, now).disk.states, st.memory, acked);
  }

  lemma InterruptIs(st: Store, now: Stamp)
    ensures var st' := Interrupt(st, now);
            && st'.memory == st.memory && st'.disk.dirs == st.disk.dirs && st'.disk.logs == st.disk.logs
            && st'.disk.states.Keys == st.disk.states.Keys
            && forall d | d in st.disk.states ::
                 KeyOf(st'.disk.states[d]) == KeyOf(st.disk.states[d])
                 && st'.disk.states[d].operation == st.disk.states[d].operation
                 && st'.disk.states[d].idempotencyKey == st.disk.states[d].idempotencyKey
  {
  }

  lemma CreateKeepsRuns(states: map<Name, StoredRun>, runs: map<RunKey, Name>, run: StoredRun)
    requires RunsIndexed(states, runs) && run.runId !in states
    ensures RunsIndexed(states[run.runId := run], runs[KeyOf(run) := run.runId])
  {
  }

  lemma CreateKeepsSlots(states: map<Name, StoredRun>, slots: map<Slot, RunKey>, run: StoredRun)
    requires SlotsIndexed(states, slots) && run.runId !in states
    requires run.idempotencyKey.Some? ==> SlotOf(run) !in slots
    requires forall d | d in states :: states[d].runId == d
    ensures SlotsIndexed(states[run.runId := run],
                         if run.idempotencyKey.None? then slots else slots[SlotOf(run) := KeyOf(run)])
  {
  }

  function CreatedMemory(m: Memory, run: StoredRun): Memory {
    Memory(m.runs[KeyOf(run) := run.runId],
           if run.idempotencyKey.None? then m.slots else m.slots[SlotOf(run) := KeyOf(run)],
           m.nextSeq[KeyOf(run) := 1])
  }

  lemma CreateKeepsCounts(m: Memory, acked: map<Name, seq<Entry>>, run: StoredRun)
    requires Counted(m, acked) && run.runId !in acked
    ensures Counted(CreatedMemory(m, run), acked[run.runId := []])
  {
  }

  lemma CreateKeepsIndex(st: Store, acked: map<Name, seq<Entry>>, run: StoredRun)
    requires IndexOk(st.disk.dirs, st.disk.states, st.memory, acked) && CreateOutcome(st, run).Created?
    ensures var st' := Create(st, run);
            IndexOk(st'.disk.dirs, st'.disk.states, st'.memory, acked[run.runId := []])
  {
    FreeSlot(st, run);
    CreatedIs(st, run);
    CreatedIndexOk(st.disk.dirs, st.disk.states, st.memory, acked, run);
  }

  lemma CreatedIndexOk(dirs: set<Name>, states: map<Name, StoredRun>, m: Memory, acked: map<Name, seq<Entry>>,
                       run: StoredRun)
    requires IndexOk(dirs, states, m, acked) && run.runId !in states
    requires run.idempotencyKey.Some? ==> SlotOf(run) !in m.slots
    ensures IndexOk(dirs + {run.runId}, states[run.runId := run], CreatedMemory(m, run), acked[run.runId := []])
  {
    CreateKeepsLists(states, m, run);
    assert Counted(CreatedMemory(m, run), acked[run.runId := []]) by { CreateKeepsCounts(m, acked, run); }
  }

  lemma CreateKeepsLists(states: map<Name, StoredRun>, m: Memory, run: StoredRun)
    requires RunsIndexed(states, m.runs) && SlotsIndexed(states, m.slots) && run.runId !in states
    requires run.idempotencyKey.Some? ==> SlotOf(run) !in m.slots
    ensures RunsIndexed(states[run.runId := run], CreatedMemory(m, run).runs)
    ensures SlotsIndexed(states[run.runId := run], CreatedMemory(m, run).slots)
  {
    assert SlotsIndexed(states[run.runId := run], CreatedMemory(m, run).slots) by {
      CreateKeepsSlots(states, m.slots, run);
    }
    assert RunsIndexed(states[run.runId := run], CreatedMemory(m, run).runs) by {
      CreateKeepsRuns(states, m.runs, run);
    }
  }

  lemma CreatedIs(st: Store, run: StoredRun)
    requires CreateOutcome(st, run).Created? && st.disk.states.Keys <= st.disk.dirs
    ensures run.runId !in st.disk.states
    ensures Create(st, run) ==
              Store(Disk(st.disk.dirs + {run.runId}, st.disk.states[run.runId := run], st.disk.logs),
                    CreatedMemory(st.memory, run))
  {
  }

  lemma FreeSlot(st: Store, run: StoredRun)
    requires RunsIndexed(st.disk.states, st.memory.runs) && SlotsIndexed(st.disk.states, st.memory.slots)
    requires CreateOutcome(st, run).Created?
    ensures run.idempotencyKey.Some? ==> SlotOf(run) !in st.memory.slots
  {
    assert run.idempotencyKey.Some? && SlotOf(run) in st.memory.slots ==>
             Lookup(st, st.memory.slots[SlotOf(run)]).Some?;
  }

  lemma CreateKeepsTexts(logs: map<Name, string>, acked: map<Name, seq<Entry>>, d: Name)
    requires TextsOk(logs, acked) && d !in acked
    ensures TextsOk(logs, acked[d := []])
  {
  }

  lemma AppendKeepsIndex(st: Store, acked: map<Name, seq<Entry>>, key: RunKey, e: Entry)
    requires IndexOk(st.disk.dirs, st.disk.states, st.memory, acked)
    requires key in st.memory.runs && e.number == st.memory.nextSeq[key]
    ensures IndexOk(st.disk.dirs, st.disk.states, st.memory.(nextSeq := st.memory.nextSeq[key := e.number + 1]),
                    acked[key.run := acked[key.run] + [e]])
  {
    assert forall other | other in st.memory.runs && other != key :: other.run != key.run;
    assert key.run in acked;
    AppendKeepsCounts(st.memory, acked, key, e);
  }

  lemma AppendKeepsCounts(m: Memory, acked: map<Name, seq<Entry>>, key: RunKey, e: Entry)
    requires Counted(m, acked) && key in m.runs && e.number == m.nextSeq[key]
    requires forall other | other in m.runs && other != key :: other.run != key.run
    ensures Counted(m.(nextSeq := m.nextSeq[key := e.number + 1]), acked[key.run := acked[key.run] + [e]])
  {
    var m', acked' := m.(nextSeq := m.nextSeq[key := e.number + 1]), acked[key.run := acked[key.run] + [e]];
    assert Numbered(acked'[key.run]);
    forall other | other in m'.runs ensures other.run in acked' && m'.nextSeq[other] == |acked'[other.run]| + 1 {
      assert other.run in acked && m.nextSeq[other] == |acked[other.run]| + 1;
    }
  }

  lemma AppendKeepsTexts(logs: map<Name, string>, acked: map<Name, seq<Entry>>, d: Name, e: Entry)
    requires TextsOk(logs, acked) && d in acked
    ensures TextsOk(logs[d := TextOf(logs, d) + Line(e)], acked[d := acked[d] + [e]])
  {
    LinesAppend(acked[d], e);
  }

  lemma CutReadsOne(logs: map<Name, string>, acked: map<Name, seq<Entry>>, d: Name, e: Entry, cut: nat, o: Name)
    requires TextsOk(logs, acked) && d in acked && o in acked && cut < |Encode(e)|
    ensures ReadLog(TextOf(CutLogs(logs, d, e, cut), o)) == Log(acked[o], TextOf(logs, o))
  {
    if o == d {
      CutLogReads(TextOf(logs, o), acked[o], e, cut);
    } else {
      ReadComplete(acked[o]);
    }
  }

  lemma ReadsAsPointwise(read: map<Name, Log>, acked: map<Name, seq<Entry>>, logs: map<Name, string>,
                         after: map<Name, string>)
    requires read.Keys == acked.Keys && logs.Keys == after.Keys <= acked.Keys
    requires forall o | o in acked :: read[o] == Log(acked[o], TextOf(after, o))
    ensures ReadsAs(read, acked) && RecoversTo(logs, read, after)
  {
  }

  /** Every log of the cut disk still reads as the acknowledged entries. */
  lemma CutReadsBack(disk: Disk, acked: map<Name, seq<Entry>>, d: Name, e: Entry, cut: nat)
    requires TextsOk(disk.logs, acked) && acked.Keys == disk.states.Keys && d in acked && cut < |Encode(e)|
    ensures var cutDisk := disk.(logs := CutLogs(disk.logs, d, e, cut));
            && ReadsAs(ReadBack(cutDisk), acked)
            && RecoversTo(cutDisk.logs, ReadBack(cutDisk), disk.logs[d := TextOf(disk.logs, d)])
  {
    var cutDisk := disk.(logs := CutLogs(disk.logs, d, e, cut));
    var after := disk.logs[d := TextOf(disk.logs, d)];
    var read := ReadBack(cutDisk);
    forall o | o in acked
      ensures read[o] == Log(acked[o], TextOf(after, o))
    {
      CutReadsOne(disk.logs, acked, d, e, cut, o);
    }
    ReadsAsPointwise(read, acked, cutDisk.logs, after);
  }

  lemma CutLogReads(text: string, entries: seq<Entry>, e: Entry, cut: nat)
    requires text == Lines(entries) && cut < |Encode(e)|
    ensures ReadLog(text + Line(e)[..cut]) == Log(entries, text)
  {
    assert Line(e)[..cut] == Encode(e)[..cut];
    CutInsideRecovers(entries, e, cut);
  }

  lemma TouchedTexts(logs: map<Name, string>, acked: map<Name, seq<Entry>>, d: Name)
    requires TextsOk(logs, acked) && d in acked
    ensures TextsOk(logs[d := TextOf(logs, d)], acked)
  {
  }

  /** What the process finds after stopping or crashing: the store as it was, but
      for an empty directory or an empty log file it may have begun. */
  lemma ReloadAfterCrash(st: Store, acked: map<Name, seq<Entry>>, op: Op)
    requires Inv(st, acked) && Stops(st, op)
    ensures var disk := CrashedDisk(st, op);
            && Loadable(disk) && Inv(Reload(disk), acked)
            && Reload(disk).memory == st.memory && Reload(disk).disk.states == st.disk.states
            && (op.Restart? ==> Reload(disk) == st)
  {
    var disk := CrashedDisk(st, op);
    if op.CrashInAppend? {
      CutReloads(st, acked, op);
    } else {
      TextsReadBack(disk, acked);
      ReloadIs(disk, st, acked);
    }
  }

  lemma CutReloads(st: Store, acked: map<Name, seq<Entry>>, op: Op)
    requires Inv(st, acked) && op.CrashInAppend? && CutInsideObject(st, op)
    ensures var disk := CrashedDisk(st, op);
            var logs := st.disk.logs[op.key.run := TextOf(st.disk.logs, op.key.run)];
            Loadable(disk) && TextsOk(logs, acked) && Reload(disk) == st.(disk := st.disk.(logs := logs))
  {
    assert st.memory.runs[op.key] == op.key.run && op.key.run in acked;
    CutIs(st, op);
    TouchedTexts(st.disk.logs, acked, op.key.run);
    CutReloadsAs(st, acked, op.key.run, Entry(st.memory.nextSeq[op.key], op.text), op.cut);
  }

  lemma CutIs(st: Store, op: Op)
    requires op.CrashInAppend? && CutInsideObject(st, op) && st.memory.runs[op.key] == op.key.run
    ensures CrashedDisk(st, op)
            == st.disk.(logs := CutLogs(st.disk.logs, op.key.run, Entry(st.memory.nextSeq[op.key], op.text), op.cut))
  {
  }

  lemma CutReloadsAs(st: Store, acked: map<Name, seq<Entry>>, d: Name, e: Entry, cut: nat)
    requires IndexOk(st.disk.dirs, st.disk.states, st.memory, acked) && TextsOk(st.disk.logs, acked)
    requires d in acked && cut < |Encode(e)|
    ensures var disk := st.disk.(logs := CutLogs(st.disk.logs, d, e, cut));
            Loadable(disk)
            && Reload(disk) == st.(disk := st.disk.(logs := st.disk.logs[d := TextOf(st.disk.logs, d)]))
  {
    CutReadsBack(st.disk, acked, d, e, cut);
    ReloadIs(st.disk.(logs := CutLogs(st.disk.logs, d, e, cut)),
             st.(disk := st.disk.(logs := st.disk.logs[d := TextOf(st.disk.logs, d)])), acked);
  }

  lemma StopsAndComesBack(st: Store, op: Op)
    requires Stops(st, op)
    ensures StoreAfter(st, op) == ComeBack(st, CrashedDisk(st, op))
  {
  }

  lemma ComeBackKeepsInv(st: Store, acked: map<Name, seq<Entry>>, op: Op)
    requires Inv(st, acked) && Stops(st, op)
    ensures Inv(ComeBack(st, CrashedDisk(st, op)), acked)
  {
    ReloadAfterCrash(st, acked, op);
  }

  /** A stopped process comes back by reading its files; a directory that a crashed create
      left behind is there from then on. */
  lemma StopsAndReloads(st: Store, acked: map<Name, seq<Entry>>, op: Op)
    requires Inv(st, acked) && Stops(st, op)
    ensures Loadable(CrashedDisk(st, op)) && StoreAfter(st, op) == Reload(CrashedDisk(st, op))
    ensures CrashedDisk(st, op).dirs == st.disk.dirs + (if op.CrashInCreate? then {op.runId} else {})
    ensures StoreAfter(st, op).disk.dirs == CrashedDisk(st, op).dirs
  {
    assert Loadable(CrashedDisk(st, op)) by { ReloadAfterCrash(st, acked, op); }
    StopsAndComesBack(st, op);
    CrashedDirs(st, op);
  }

  lemma CrashedDirs(st: Store, op: Op)
    requires Stops(st, op)
    ensures CrashedDisk(st, op).dirs == st.disk.dirs + (if op.CrashInCreate? then {op.runId} else {})
  {
  }

  lemma StopKeepsInv(st: Store, acked: map<Name, seq<Entry>>, op: Op)
    requires Inv(st, acked) && (op.Restart? || op.CrashInCreate? || op.CrashInAppend?)
    ensures Inv(StoreAfter(st, op), acked)
  {
    if Stops(st, op) {
      StopsAndComesBack(st, op);
      ComeBackKeepsInv(st, acked, op);
    }
  }

  lemma CallKeepsInv(s: System, op: Op)
    requires Inv(s.store, s.acked) && !op.Restart? && !op.CrashInCreate? && !op.CrashInAppend?
    ensures Inv(Do(s, op).store, Do(s, op).acked)
  {
    var st := s.store;
    if UpdatesOneRun(op) {
      if Lookup(st, op.key).Some? { UpdateKeepsInv(st, s.acked, op); }
    } else if op.CreateRun? {
      if CreateOutcome(st, op.run).Created? { CreatedKeepsInv(st, s.acked, op.run); }
    } else if op.Append? {
      if op.key in st.memory.runs { AppendedKeepsInv(st, s.acked, op.key, op.text); }
    } else {
      InterruptKeepsInv(st, s.acked, op.now);
    }
  }

  lemma StepKeepsInv(s: System, op: Op)
    requires Inv(s.store, s.acked)
    ensures Inv(Do(s, op).store, Do(s, op).acked)
  {
    if !op.Restart? && !op.CrashInCreate? && !op.CrashInAppend? {
      CallKeepsInv(s, op);
    } else {
      StopKeepsInv(s.store, s.acked, op);
    }
  }

  lemma CreatedKeepsInv(st: Store, acked: map<Name, seq<Entry>>, run: StoredRun)
    requires Inv(st, acked) && CreateOutcome(st, run).Created?
    ensures Inv(Create(st, run), acked[run.runId := []])
  {
    CreateKeepsIndex(st, acked, run);
    CreatedIs(st, run);
    CreateKeepsTexts(st.disk.logs, acked, run.runId);
  }

  lemma AppendedKeepsInv(st: Store, acked: map<Name, seq<Entry>>, key: RunKey, text: string)
    requires Inv(st, acked) && key in st.memory.runs
    ensures Inv(AppendLog(st, key, text), acked[key.run := acked[key.run] + [Entry(st.memory.nextSeq[key], text)]])
  {
    var e := Entry(st.memory.nextSeq[key], text);
    AppendKeepsIndex(st, acked, key, e);
    AppendKeepsTexts(st.disk.logs, acked, key.run, e);
  }

  ghost function Run(s: System, ops: seq<Op>): System
    decreases |ops|
  {
    if ops == [] then s else Run(Do(s, ops[0]), ops[1..])
  }

  /** The invariant holds after every history. */
  lemma {:induction false} RunKeepsInv(s: System, ops: seq<Op>)
    requires Inv(s.store, s.acked)
    ensures Inv(Run(s, ops).store, Run(s, ops).acked)
    decreases |ops|
  {
    if ops != [] {
      StepKeepsInv(s, ops[0]);
      RunKeepsInv(Do(s, ops[0]), ops[1..]);
    }
  }

  /** After every history the files can be loaded, and loading them gives exactly
      the live indexes: which runs exist, which slot names which run, and the next
      number of every log. */
  lemma ReloadRefinesMemory(ops: seq<Op>)
    ensures var st := Run(NEW_SYSTEM, ops).store;
            Loadable(st.disk) && Reload(st.disk) == st
  {
    var s := Run(NEW_SYSTEM, ops);
    RunKeepsInv(NEW_SYSTEM, ops);
    ReloadAfterCrash(s.store, s.acked, Restart);
  }

  // ---------------------------------------------------------------------
  // Appending after a cut

  function Appends(st: Store, key: RunKey, texts: seq<string>): Store
    decreases |texts|
  {
    if texts == [] then st else Appends(AppendLog(st, key, texts[0]), key, texts[1..])
  }

  function EntriesFrom(next: nat, texts: seq<string>): seq<Entry>
    decreases |texts|
  {
    if texts == [] then [] else [Entry(next, texts[0])] + EntriesFrom(next + 1, texts[1..])
  }

  /** The disk after a crash cut an append at any character. */
  function CutDisk(st: Store, key: RunKey, text: string, cut: nat): Disk
    requires key in st.memory.runs && key in st.memory.nextSeq
    requires cut <= |Line(Entry(st.memory.nextSeq[key], text))|
  {
    st.disk.(logs := CutLogs(st.disk.logs, st.memory.runs[key], Entry(st.memory.nextSeq[key], text), cut))
  }

  lemma AppendWrites(st: Store, key: RunKey, text: string)
    requires key in st.memory.runs && key in st.memory.nextSeq
    ensures var st', d := AppendLog(st, key, text), st.memory.runs[key];
            && st'.disk.states == st.disk.states && st'.memory.runs == st.memory.runs
            && key in st'.memory.nextSeq && st'.memory.nextSeq[key] == st.memory.nextSeq[key] + 1
            && TextOf(st'.disk.logs, d) == TextOf(st.disk.logs, d) + Line(Entry(st.memory.nextSeq[key], text))
            && forall o | o != d :: TextOf(st'.disk.logs, o) == TextOf(st.disk.logs, o)
  {
  }

  /** Appends write their lines to one log. */
  lemma {:induction false} AppendsWrite(st: Store, key: RunKey, texts: seq<string>)
    requires key in st.memory.runs && key in st.memory.nextSeq
    ensures var logs, d := Appends(st, key, texts).disk.logs, st.memory.runs[key];
            TextOf(logs, d) == TextOf(st.disk.logs, d) + Lines(EntriesFrom(st.memory.nextSeq[key], texts))
    decreases |texts|
  {
    var before := TextOf(st.disk.logs, st.memory.runs[key]);
    if texts == [] {
      NoLines(st.memory.nextSeq[key], before);
    } else {
      AppendWrites(st, key, texts[0]);
      AppendsWrite(AppendLog(st, key, texts[0]), key, texts[1..]);
      LinesFrom(st.memory.nextSeq[key], texts, before);
    }
  }

  lemma NoLines(next: nat, before: string)
    ensures before + Lines(EntriesFrom(next, [])) == before
  {
  }

  /** They touch nothing else on disk. */
  lemma {:induction false} AppendsTouchOneLog(st: Store, key: RunKey, texts: seq<string>)
    requires key in st.memory.runs && key in st.memory.nextSeq
    ensures Appends(st, key, texts).disk.states == st.disk.states
    ensures forall o | o != st.memory.runs[key] ::
              TextOf(Appends(st, key, texts).disk.logs, o) == TextOf(st.disk.logs, o)
    decreases |texts|
  {
    if texts != [] {
      AppendWrites(st, key, texts[0]);
      AppendsTouchOneLog(AppendLog(st, key, texts[0]), key, texts[1..]);
    }
  }

  lemma LinesFrom(next: nat, texts: seq<string>, before: string)
    requires texts != []
    ensures before + Lines(EntriesFrom(next, texts))
            == before + Line(Entry(next, texts[0])) + Lines(EntriesFrom(next + 1, texts[1..]))
  {
    var more := EntriesFrom(next + 1, texts[1..]);
    assert EntriesFrom(next, texts)[1..] == more;
    Regroup(before, Line(Entry(next, texts[0])), Lines(more));
  }

  lemma {:induction false} EntriesCount(next: nat, texts: seq<string>)
    ensures |EntriesFrom(next, texts)| == |texts|
    decreases |texts|
  {
    if texts != [] { EntriesCount(next + 1, texts[1..]); }
  }

  /** Every log but that of `d` can be read. */
  ghost predicate OthersRead(disk: Disk, d: Name) {
    forall o | o in disk.states && o != d :: ReadLog(TextOf(disk.logs, o)).Log?
  }

  /** When only one log is in question, it decides whether the disk loads. */
  lemma OneLogDecides(disk: Disk, d: Name)
    requires Distinct(disk.states) && d in disk.states && OthersRead(disk, d)
    ensures Loadable(disk) <==> ReadLog(TextOf(disk.logs, d)).Log?
  {
    assert ReadBack(disk).Keys == disk.states.Keys;
    assert d in ReadBack(disk) && ReadBack(disk)[d] == ReadLog(TextOf(disk.logs, d));
  }

  lemma AppendsDecide(st: Store, key: RunKey, texts: seq<string>)
    requires key in st.memory.runs && st.memory.runs[key] == key.run && key in st.memory.nextSeq
    requires Distinct(st.disk.states) && key.run in st.disk.states && OthersRead(st.disk, key.run)
    ensures Loadable(Appends(st, key, texts).disk)
            <==> ReadLog(TextOf(st.disk.logs, key.run) + Lines(EntriesFrom(st.memory.nextSeq[key], texts))).Log?
  {
    AppendsWrite(st, key, texts);
    AppendsTouchOneLog(st, key, texts);
    OneLogDecides(Appends(st, key, texts).disk, key.run);
  }

  lemma ReloadedText(disk: Disk, o: Name)
    requires Loadable(disk) && o in disk.states
    ensures ReadLog(TextOf(disk.logs, o)).Log?
    ensures TextOf(Reload(disk).disk.logs, o) == ReadLog(TextOf(disk.logs, o)).file
  {
    assert ReadBack(disk)[o] == ReadLog(TextOf(disk.logs, o));
  }

  lemma ReloadedKeys(disk: Disk, runs: map<RunKey, Name>, key: RunKey)
    requires Loadable(disk) && RunsIndexed(disk.states, runs) && key in runs
    ensures var m := Reload(disk).memory;
            key in m.runs && m.runs[key] == key.run && key in m.nextSeq
  {
    RunsRebuilt(disk.states, runs);
    assert key.run in disk.states && KeyOf(disk.states[key.run]) == key;
  }

  /** The cut log is read with what the crash left of its last entry. */
  lemma CutTexts(disk: Disk, acked: map<Name, seq<Entry>>, d: Name, e: Entry, cut: nat)
    requires TextsOk(disk.logs, acked) && acked.Keys == disk.states.Keys && d in acked && cut <= |Line(e)|
    ensures var cutDisk := disk.(logs := CutLogs(disk.logs, d, e, cut));
            && TextOf(cutDisk.logs, d) == Lines(acked[d]) + Line(e)[..cut]
            && OthersReadWhole(cutDisk, d)
  {
    var cutDisk := disk.(logs := CutLogs(disk.logs, d, e, cut));
    forall o | o in cutDisk.states && o != d
      ensures ReadLog(TextOf(cutDisk.logs, o)) == Log(acked[o], TextOf(cutDisk.logs, o))
    {
      ReadComplete(acked[o]);
    }
  }

  /** Reading every log but that of `d` leaves it as it is. */
  ghost predicate OthersReadWhole(disk: Disk, d: Name) {
    forall o | o in disk.states && o != d ::
      ReadLog(TextOf(disk.logs, o)).Log? && ReadLog(TextOf(disk.logs, o)).file == TextOf(disk.logs, o)
  }

  lemma ReloadedOthers(disk: Disk, d: Name)
    requires Loadable(disk) && OthersReadWhole(disk, d)
    ensures OthersRead(Reload(disk).disk, d)
  {
    forall o | o in disk.states && o != d
      ensures ReadLog(TextOf(Reload(disk).disk.logs, o)).Log?
    {
      ReloadedText(disk, o);
    }
  }

  /** The store comes back after a cut, and the cut log is as reading leaves it. */
  lemma CutComesBack(disk: Disk, acked: map<Name, seq<Entry>>, d: Name, e: Entry, cut: nat)
    requires Distinct(disk.states) && TextsOk(disk.logs, acked) && acked.Keys == disk.states.Keys
    requires d in acked && cut <= |Line(e)|
    ensures var cutDisk := disk.(logs := CutLogs(disk.logs, d, e, cut));
            && Loadable(cutDisk) && OthersRead(Reload(cutDisk).disk, d)
            && TextOf(Reload(cutDisk).disk.logs, d) == RecoveredFile(acked[d], e, cut)
  {
    var cutDisk := disk.(logs := CutLogs(disk.logs, d, e, cut));
    CutTexts(disk, acked, d, e, cut);
    CutReads(acked[d], e, cut);
    OneLogDecides(cutDisk, d);
    ReloadedText(cutDisk, d);
    ReloadedOthers(cutDisk, d);
  }

  /** After a crash in an append the store comes back, wherever the cut. When it is
      then appended to and stops again, it comes back once more exactly when the cut
      was not before the newline, or at most one entry was appended. A store that
      does not come back refuses every run in it. */
  lemma LoadableAfterCut(st: Store, acked: map<Name, seq<Entry>>, key: RunKey, text: string, cut: nat,
                         texts: seq<string>)
    requires Inv(st, acked) && key in st.memory.runs
    requires cut <= |Line(Entry(st.memory.nextSeq[key], text))|
    ensures Loadable(CutDisk(st, key, text, cut))
    ensures Loadable(Appends(Reload(CutDisk(st, key, text, cut)), key, texts).disk)
            <==> cut != |Encode(Entry(st.memory.nextSeq[key], text))| || |texts| <= 1
  {
    IndexedMeansDistinct(st.disk.states, st.memory.runs, st.memory.slots);
    ReloadsAfterCut(st.disk, st.memory.runs, acked, key, Entry(st.memory.nextSeq[key], text), cut, texts);
  }

  lemma ReloadsAfterCut(disk: Disk, runs: map<RunKey, Name>, acked: map<Name, seq<Entry>>, key: RunKey, e: Entry,
                        cut: nat, texts: seq<string>)
    requires Distinct(disk.states) && RunsIndexed(disk.states, runs) && key in runs && cut <= |Line(e)|
    requires TextsOk(disk.logs, acked) && acked.Keys == disk.states.Keys
    ensures var cutDisk := disk.(logs := CutLogs(disk.logs, key.run, e, cut));
            && Loadable(cutDisk)
            && (Loadable(Appends(Reload(cutDisk), key, texts).disk) <==> cut != |Encode(e)| || |texts| <= 1)
  {
    var cutDisk := disk.(logs := CutLogs(disk.logs, key.run, e, cut));
    CutComesBack(disk, acked, key.run, e, cut);
    var back := Reload(cutDisk);
    ReloadedKeys(cutDisk, runs, key);
    AppendsAfterComingBack(back, key, acked[key.run], e, cut, texts);
  }

  lemma AppendsAfterComingBack(back: Store, key: RunKey, entries: seq<Entry>, e: Entry, cut: nat, texts: seq<string>)
    requires key in back.memory.runs && back.memory.runs[key] == key.run && key in back.memory.nextSeq
    requires Distinct(back.disk.states) && key.run in back.disk.states && OthersRead(back.disk, key.run)
    requires cut <= |Line(e)| && TextOf(back.disk.logs, key.run) == RecoveredFile(entries, e, cut)
    ensures Loadable(Appends(back, key, texts).disk) <==> cut != |Encode(e)| || |texts| <= 1
  {
    AppendsDecide(back, key, texts);
    ReadsAfterCut(entries, e, cut, back.memory.nextSeq[key], texts);
  }

  lemma ReadsAfterCut(entries: seq<Entry>, e: Entry, cut: nat, next: nat, texts: seq<string>)
    requires cut <= |Line(e)|
    ensures ReadLog(RecoveredFile(entries, e, cut) + Lines(EntriesFrom(next, texts))).Log?
            <==> cut != |Encode(e)| || |texts| <= 1
  {
    EntriesCount(next, texts);
    AppendsAfterCut(entries, e, cut, EntriesFrom(next, texts));
  }

  // ---------------------------------------------------------------------
  // Idempotent creation

  /** The run a slot names, once there is one. */
  ghost predicate Names(st: Store, slot: Slot, runId: Name, fingerprint: Payload) {
    slot in st.memory.slots && st.memory.slots[slot].run == runId && runId in st.disk.states
    && st.disk.states[runId].fingerprint == fingerprint
  }

  lemma CreateKeepsNames(st: Store, run: StoredRun, slot: Slot, runId: Name, fingerprint: Payload)
    requires RunsIndexed(st.disk.states, st.memory.runs) && SlotsIndexed(st.disk.states, st.memory.slots)
    requires st.disk.states.Keys <= st.disk.dirs && Names(st, slot, runId, fingerprint)
    ensures Names(Create(st, run), slot, runId, fingerprint)
  {
    if CreateOutcome(st, run).Created? {
      FreeSlot(st, run);
      CreatedIs(st, run);
    }
  }

  lemma UpdateKeepsNames(st: Store, op: Op, slot: Slot, runId: Name, fingerprint: Payload)
    requires UpdatesOneRun(op) && Names(st, slot, runId, fingerprint)
    requires RunsIndexed(st.disk.states, st.memory.runs)
    ensures Names(AfterUpdate(st, op), slot, runId, fingerprint)
  {
    if Lookup(st, op.key).Some? { UpdateKeepsIdentity(st, op, Lookup(st, op.key).value); }
  }

  lemma InterruptKeepsNames(st: Store, now: Stamp, slot: Slot, runId: Name, fingerprint: Payload)
    requires Names(st, slot, runId, fingerprint)
    ensures Names(Interrupt(st, now), slot, runId, fingerprint)
  {
  }

  /** Stopping and coming back changes neither the runs nor their indexes. */
  lemma ComeBackIsSame(st: Store, acked: map<Name, seq<Entry>>, op: Op)
    requires Inv(st, acked) && Stops(st, op)
    ensures var st' := ComeBack(st, CrashedDisk(st, op));
            st'.memory == st.memory && st'.disk.states == st.disk.states
  {
    ReloadAfterCrash(st, acked, op);
  }

  lemma StopKeepsStates(st: Store, acked: map<Name, seq<Entry>>, op: Op)
    requires Inv(st, acked) && (op.Restart? || op.CrashInCreate? || op.CrashInAppend?)
    ensures StoreAfter(st, op).disk.states == st.disk.states
  {
    if Stops(st, op) {
      StopsAndComesBack(st, op);
      ComeBackIsSame(st, acked, op);
    }
  }

  /** After every step each stored run is still there, as the step promises. */
  lemma StepFollows(s: System, op: Op, d: Name)
    requires Inv(s.store, s.acked) && d in s.store.disk.states
    ensures d in Do(s, op).store.disk.states
    ensures Follows(op, s.store.disk.states[d], Do(s, op).store.disk.states[d])
  {
    if op.Restart? || op.CrashInCreate? || op.CrashInAppend? {
      StopKeepsStates(s.store, s.acked, op);
    } else {
      CallFollows(s.store, op, d);
    }
  }

  lemma CallAddsOnlyCreated(st: Store, op: Op, d: Name)
    requires st.disk.states.Keys <= st.disk.dirs && !op.Restart? && !op.CrashInCreate? && !op.CrashInAppend?
    ensures d in StoreAfter(st, op).disk.states && d !in st.disk.states
            <==> op.CreateRun? && CreateOutcome(st, op.run).Created? && d == op.run.runId
    ensures op.CreateRun? && CreateOutcome(st, op.run).Created? ==>
              Lookup(StoreAfter(st, op), KeyOf(op.run)) == Some(op.run)
  {
    if op.CreateRun? && CreateOutcome(st, op.run).Created? { CreatedIs(st, op.run); }
  }

  /** Only creating a run adds one, and that one as it was requested. */
  lemma StepAddsOnlyCreated(s: System, op: Op, d: Name)
    requires Inv(s.store, s.acked)
    ensures d in Do(s, op).store.disk.states && d !in s.store.disk.states
            <==> op.CreateRun? && CreateOutcome(s.store, op.run).Created? && d == op.run.runId
    ensures op.CreateRun? && CreateOutcome(s.store, op.run).Created? ==>
              Lookup(Do(s, op).store, KeyOf(op.run)) == Some(op.run)
  {
    if op.Restart? || op.CrashInCreate? || op.CrashInAppend? {
      StopKeepsStates(s.store, s.acked, op);
    } else {
      CallAddsOnlyCreated(s.store, op, d);
    }
  }

  lemma SameNames(st: Store, st': Store, slot: Slot, runId: Name, fingerprint: Payload)
    requires Names(st, slot, runId, fingerprint)
    requires st'.memory.slots == st.memory.slots && st'.disk.states == st.disk.states
    ensures Names(st', slot, runId, fingerprint)
  {
  }

  lemma StopKeepsNames(st: Store, acked: map<Name, seq<Entry>>, op: Op, slot: Slot, runId: Name, fingerprint: Payload)
    requires Inv(st, acked) && Names(st, slot, runId, fingerprint)
    requires op.Restart? || op.CrashInCreate? || op.CrashInAppend?
    ensures Names(StoreAfter(st, op), slot, runId, fingerprint)
  {
    if Stops(st, op) {
      ComeBackIsSame(st, acked, op);
      BackKeepsNames(st, op, slot, runId, fingerprint);
    }
  }

  lemma BackKeepsNames(st: Store, op: Op, slot: Slot, runId: Name, fingerprint: Payload)
    requires Stops(st, op) && Names(st, slot, runId, fingerprint)
    requires ComeBack(st, CrashedDisk(st, op)).memory == st.memory
    requires ComeBack(st, CrashedDisk(st, op)).disk.states == st.disk.states
    ensures Names(StoreAfter(st, op), slot, runId, fingerprint)
  {
    StopsAndComesBack(st, op);
    SameNames(st, ComeBack(st, CrashedDisk(st, op)), slot, runId, fingerprint);
  }

  lemma AppendKeepsNames(st: Store, key: RunKey, text: string, slot: Slot, runId: Name, fingerprint: Payload)
    requires Names(st, slot, runId, fingerprint)
    ensures Names(AppendLog(st, key, text), slot, runId, fingerprint)
  {
  }

  lemma CallKeepsNames(st: Store, op: Op, slot: Slot, runId: Name, fingerprint: Payload)
    requires Names(st, slot, runId, fingerprint) && (op.Append? || op.InterruptIncomplete?)
    ensures Names(StoreAfter(st, op), slot, runId, fingerprint)
  {
    match op
    case Append(key, text) => AppendKeepsNames(st, key, text, slot, runId, fingerprint);
    case InterruptIncomplete(now) => InterruptKeepsNames(st, now, slot, runId, fingerprint);
  }

  lemma StepKeepsNames(s: System, op: Op, slot: Slot, runId: Name, fingerprint: Payload)
    requires Inv(s.store, s.acked) && Names(s.store, slot, runId, fingerprint)
    ensures Names(Do(s, op).store, slot, runId, fingerprint)
  {
    if op.Restart? || op.CrashInCreate? || op.CrashInAppend? {
      StopKeepsNames(s.store, s.acked, op, slot, runId, fingerprint);
    } else if op.CreateRun? {
      CreateKeepsNames(s.store, op.run, slot, runId, fingerprint);
    } else if UpdatesOneRun(op) {
      UpdateKeepsNames(s.store, op, slot, runId, fingerprint);
    } else {
      CallKeepsNames(s.store, op, slot, runId, fingerprint);
    }
  }

  lemma {:induction false} RunKeepsNames(s: System, ops: seq<Op>, slot: Slot, runId: Name, fingerprint: Payload)
    requires Inv(s.store, s.acked) && Names(s.store, slot, runId, fingerprint)
    ensures Names(Run(s, ops).store, slot, runId, fingerprint)
    decreases |ops|
  {
    if ops != [] {
      StepKeepsInv(s, ops[0]);
      StepKeepsNames(s, ops[0], slot, runId, fingerprint);
      RunKeepsNames(Do(s, ops[0]), ops[1..], slot, runId, fingerprint);
    }
  }

  lemma NamedSlotAnswers(st: Store, acked: map<Name, seq<Entry>>, run: StoredRun, runId: Name, fingerprint: Payload)
    requires Inv(st, acked) && run.idempotencyKey.Some? && Names(st, SlotOf(run), runId, fingerprint)
    ensures CreateOutcome(st, run) == (if run.fingerprint == fingerprint then Replayed(st.disk.states[runId])
                                       else Conflict(st.disk.states[runId]))
    ensures st.disk.states[runId].runId == runId
  {
  }

  /** Once a request created a run under an idempotency key, every later request
      with that key, after any further history, gets that same run when its
      payload is the same and is refused when it is not; either way nothing
      changes. */
  lemma CreateIsIdempotent(before: seq<Op>, first: StoredRun, between: seq<Op>, later: StoredRun)
    requires first.idempotencyKey.Some? && later.idempotencyKey.Some? && SlotOf(first) == SlotOf(later)
    requires CreateOutcome(Run(NEW_SYSTEM, before).store, first).Created?
    ensures var s := Run(Do(Run(NEW_SYSTEM, before), CreateRun(first)), between);
            && first.runId in s.store.disk.states
            && var stored := s.store.disk.states[first.runId];
            && stored.runId == first.runId
            && CreateOutcome(s.store, later)
               == (if later.fingerprint == first.fingerprint then Replayed(stored) else Conflict(stored))
            && Do(s, CreateRun(later)) == s
  {
    var s0 := Run(NEW_SYSTEM, before);
    RunKeepsInv(NEW_SYSTEM, before);
    StepKeepsInv(s0, CreateRun(first));
    CreatedIsNamed(s0.store, first);
    RunAnswers(Do(s0, CreateRun(first)), between, later, first.runId, first.fingerprint);
  }

  lemma CreatedIsNamed(st: Store, run: StoredRun)
    requires run.idempotencyKey.Some? && CreateOutcome(st, run).Created?
    ensures Names(Create(st, run), SlotOf(run), run.runId, run.fingerprint)
  {
  }

  lemma CreateAgainChangesNothing(s: System, run: StoredRun)
    requires !CreateOutcome(s.store, run).Created?
    ensures Do(s, CreateRun(run)) == s
  {
  }

  lemma RunAnswers(s: System, ops: seq<Op>, later: StoredRun, runId: Name, fingerprint: Payload)
    requires Inv(s.store, s.acked) && later.idempotencyKey.Some? && Names(s.store, SlotOf(later), runId, fingerprint)
    ensures var s' := Run(s, ops);
            && runId in s'.store.disk.states && s'.store.disk.states[runId].runId == runId
            && var stored := s'.store.disk.states[runId];
            && CreateOutcome(s'.store, later)
               == (if later.fingerprint == fingerprint then Replayed(stored) else Conflict(stored))
            && Do(s', CreateRun(later)) == s'
  {
    RunKeepsNames(s, ops, SlotOf(later), runId, fingerprint);
    RunKeepsInv(s, ops);
    var s' := Run(s, ops);
    NamedSlotAnswers(s'.store, s'.acked, later, runId, fingerprint);
    CreateAgainChangesNothing(s', later);
  }
}

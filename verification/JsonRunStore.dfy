/**
 The run store as an object: three dictionaries over a directory of runs, updated
 in place by every call.
 */
module JsonRunStore {
  import opened Common
  import opened LogLines
  import opened RunStore

  // ---------------------------------------------------------------------
  // The indexes over the runs read so far

  ghost predicate RunsOver(part: map<Name, StoredRun>, runs: map<RunKey, Name>) {
    && (forall d | d in part :: KeyOf(part[d]) in runs && runs[KeyOf(part[d])] == d)
    && (forall key | key in runs :: runs[key] in part && KeyOf(part[runs[key]]) == key)
  }

  ghost predicate SlotsOver(part: map<Name, StoredRun>, runs: map<RunKey, Name>, slots: map<Slot, RunKey>) {
    && (forall d | d in part && part[d].idempotencyKey.Some? ::
          SlotOf(part[d]) in slots && slots[SlotOf(part[d])] == KeyOf(part[d]))
    && (forall slot | slot in slots ::
          slots[slot] in runs && runs[slots[slot]] in part
          && part[runs[slots[slot]]].idempotencyKey.Some? && SlotOf(part[runs[slots[slot]]]) == slot)
  }

  ghost predicate SequencesOver(read: map<Name, Log>, m: Memory) {
    && m.nextSeq.Keys == m.runs.Keys
    && (forall key | key in m.runs :: m.runs[key] in read && m.nextSeq[key] == NextSequence(read[m.runs[key]]))
  }

  function WithOneMore(m: Memory, d: Name, run: StoredRun, next: nat): Memory {
    Memory(m.runs[KeyOf(run) := d],
           if run.idempotencyKey.None? then m.slots else m.slots[SlotOf(run) := KeyOf(run)],
           m.nextSeq[KeyOf(run) := next])
  }

  lemma RunsOneMore(part: map<Name, StoredRun>, runs: map<RunKey, Name>, d: Name, run: StoredRun)
    requires RunsOver(part, runs) && d !in part && KeyOf(run) !in runs
    ensures RunsOver(part[d := run], runs[KeyOf(run) := d])
  {
  }

  lemma SlotsOneMore(part: map<Name, StoredRun>, m: Memory, d: Name, run: StoredRun)
    requires RunsOver(part, m.runs) && SlotsOver(part, m.runs, m.slots)
    requires d !in part && KeyOf(run) !in m.runs && (run.idempotencyKey.Some? ==> SlotOf(run) !in m.slots)
    ensures SlotsOver(part[d := run], m.runs[KeyOf(run) := d], WithOneMore(m, d, run, 1).slots)
  {
  }

  lemma SequencesOneMore(read: map<Name, Log>, m: Memory, d: Name, run: StoredRun)
    requires SequencesOver(read, m) && KeyOf(run) !in m.runs && d in read
    ensures SequencesOver(read, WithOneMore(m, d, run, NextSequence(read[d])))
  {
  }

  lemma OverMeansRuns(states: map<Name, StoredRun>, runs: map<RunKey, Name>)
    requires RunsOver(states, runs) && Distinct(states)
    ensures RebuiltRuns(states) == runs
  {
  }

  lemma OverMeansSlots(states: map<Name, StoredRun>, runs: map<RunKey, Name>, slots: map<Slot, RunKey>)
    requires SlotsOver(states, runs, slots) && Distinct(states)
    ensures RebuiltSlots(states) == slots
  {
    forall slot | slot in slots
      ensures slot in RebuiltSlots(states)
    {
      var d := runs[slots[slot]];
      assert d in states && states[d].idempotencyKey.Some? && SlotOf(states[d]) == slot;
    }
  }

  lemma OverMeansSequences(states: map<Name, StoredRun>, m: Memory, read: map<Name, Log>)
    requires RunsOver(states, m.runs) && SequencesOver(read, m) && Distinct(states) && states.Keys <= read.Keys
    ensures RebuiltSequences(states, read) == m.nextSeq
  {
    forall key | key in m.runs
      ensures key in RebuiltSequences(states, read)
    {
      assert m.runs[key] in states && KeyOf(states[m.runs[key]]) == key;
    }
  }

  lemma OverMeansDistinct(states: map<Name, StoredRun>, runs: map<RunKey, Name>, slots: map<Slot, RunKey>)
    requires RunsOver(states, runs) && SlotsOver(states, runs, slots)
    ensures Distinct(states)
  {
  }

  /** A second run with the same key or slot means the files cannot be loaded. */
  lemma ClashMeansNotDistinct(states: map<Name, StoredRun>, part: map<Name, StoredRun>, m: Memory, d: Name)
    requires RunsOver(part, m.runs) && SlotsOver(part, m.runs, m.slots) && d in states && d !in part
    requires forall e | e in part :: e in states && states[e] == part[e]
    requires KeyOf(states[d]) in m.runs || (states[d].idempotencyKey.Some? && SlotOf(states[d]) in m.slots)
    ensures !Distinct(states)
  {
    if KeyOf(states[d]) in m.runs {
      var e := m.runs[KeyOf(states[d])];
      assert e in states && KeyOf(states[e]) == KeyOf(states[d]);
      assert Clash(states, d, e);
    } else {
      var e := m.runs[m.slots[SlotOf(states[d])]];
      assert e in states && SlotOf(states[e]) == SlotOf(states[d]);
      assert Clash(states, d, e);
    }
  }

  // ---------------------------------------------------------------------
  // Recovering the logs

  /** The logs of the runs in `done` have been read. */
  ghost predicate RecoveredIn(logs: map<Name, string>, read: map<Name, Log>, done: set<Name>, now: map<Name, string>) {
    now.Keys == logs.Keys
    && forall d | d in logs ::
         now[d] == if d in done && d in read && read[d].Log? then read[d].file else logs[d]
  }

  lemma RecoveredOneMore(logs: map<Name, string>, read: map<Name, Log>, done: set<Name>, now: map<Name, string>,
                         d: Name)
    requires RecoveredIn(logs, read, done, now) && d in read && read[d].Log?
    ensures RecoveredIn(logs, read, done + {d}, if d in now then now[d := read[d].file] else now)
  {
  }

  lemma NotRecoveredYet(logs: map<Name, string>, read: map<Name, Log>, done: set<Name>, now: map<Name, string>, d: Name)
    requires RecoveredIn(logs, read, done, now) && d !in done
    ensures TextOf(now, d) == TextOf(logs, d)
  {
  }

  lemma RecoveredAll(logs: map<Name, string>, read: map<Name, Log>, now: map<Name, string>)
    requires RecoveredIn(logs, read, read.Keys, now)
    ensures now == RecoveredLogs(logs, read)
  {
  }

  ghost predicate IndexesOver(read: map<Name, Log>, part: map<Name, StoredRun>, m: Memory) {
    RunsOver(part, m.runs) && SlotsOver(part, m.runs, m.slots) && SequencesOver(read, m)
  }

  lemma IndexesOneMore(read: map<Name, Log>, part: map<Name, StoredRun>, m: Memory, d: Name, run: StoredRun)
    requires IndexesOver(read, part, m) && d !in part && d in read
    requires KeyOf(run) !in m.runs && (run.idempotencyKey.Some? ==> SlotOf(run) !in m.slots)
    ensures IndexesOver(read, part[d := run], WithOneMore(m, d, run, NextSequence(read[d])))
  {
    var m' := WithOneMore(m, d, run, NextSequence(read[d]));
    assert RunsOver(part[d := run], m'.runs) by { RunsOneMore(part, m.runs, d, run); }
    assert SlotsOver(part[d := run], m'.runs, m'.slots) by { SlotsOneMore(part, m, d, run); }
    assert SequencesOver(read, m') by { SequencesOneMore(read, m, d, run); }
  }

  /** The indexes over `part` are built and its logs recovered. */
  ghost predicate Loading(states: map<Name, StoredRun>, read: map<Name, Log>, part: map<Name, StoredRun>, m: Memory) {
    && part.Keys <= states.Keys && (forall d | d in part :: states[d] == part[d])
    && (forall d | d in part :: d in read && read[d].Log?)
    && IndexesOver(read, part, m)
  }

  lemma LoadingOneMore(states: map<Name, StoredRun>, read: map<Name, Log>, part: map<Name, StoredRun>, m: Memory,
                       d: Name)
    requires Loading(states, read, part, m) && d in states && d !in part && d in read && read[d].Log?
    requires KeyOf(states[d]) !in m.runs
    requires states[d].idempotencyKey.Some? ==> SlotOf(states[d]) !in m.slots
    ensures Loading(states, read, part[d := states[d]], WithOneMore(m, d, states[d], NextSequence(read[d])))
  {
    IndexesOneMore(read, part, m, d, states[d]);
  }

  ghost predicate SteadyLog(text: string, next: nat) {
    var log := ReadLog(text);
    log.Log? && log.file == text && NextSequence(log) == next
  }

  lemma CompleteIsSteady(entries: seq<Entry>)
    requires Numbered(entries)
    ensures SteadyLog(Lines(entries), |entries| + 1)
  {
    ReadComplete(entries);
  }

  class JsonRunStore {
    // the directory of runs
    var dirs: set<Name>
    var states: map<Name, StoredRun>
    var logs: map<Name, string>
    // the indexes
    var runs: map<RunKey, Name>
    var idempotency: map<Slot, RunKey>
    var nextLogSeq: map<RunKey, nat>

    ghost function Files(): Disk reads this {
      Disk(dirs, states, logs)
    }

    ghost function View(): Store reads this {
      Store(Files(), Memory(runs, idempotency, nextLogSeq))
    }

    /** What every call may rely on; `Inv` gives it for every history. */
    ghost predicate Valid() reads this {
      && (forall key | key in runs :: runs[key] in states)
      && (forall slot | slot in idempotency :: idempotency[slot] in runs)
      && nextLogSeq.Keys == runs.Keys
    }

    /** A process starting over a directory, before it has read anything. */
    constructor (root: Disk)
      ensures Files() == root && View().memory == Memory(map[], map[], map[]) && Valid()
    {
      dirs, states, logs := root.dirs, root.states, root.logs;
      runs, idempotency, nextLogSeq := map[], map[], map[];
    }

    ghost predicate Loads(disk: Disk, read: map<Name, Log>, part: map<Name, StoredRun>) reads this {
      && dirs == disk.dirs && states == disk.states
      && Loading(states, read, part, View().memory) && RecoveredIn(disk.logs, read, part.Keys, logs)
    }

    /** Reads every state file and log, and fails on a refused log or on two runs
        with one key or one slot. */
    method LoadIndexes() returns (ok: bool)
      requires View().memory == Memory(map[], map[], map[])
      modifies this
      ensures ok <==> Loadable(old(Files()))
      ensures ok ==> View() == Reload(old(Files())) && Valid()
    {
      ghost var disk, part := Files(), map[];
      var left := states.Keys;
      while left != {}
        invariant Loads(disk, ReadBack(disk), part) && left <= states.Keys && part.Keys == states.Keys - left
      {
        var d :| d in left;
        ok := LoadOne(d, disk, part);
        if !ok { return; }
        part := part[d := states[d]];
        left := left - {d};
      }
      ok := true;
      Finish(disk, part);
    }

    method LoadOne(d: Name, ghost disk: Disk, ghost part: map<Name, StoredRun>) returns (ok: bool)
      requires Loads(disk, ReadBack(disk), part) && d in states && d !in part
      modifies this
      ensures !ok ==> !Loadable(disk)
      ensures ok ==> d in states && Loads(disk, ReadBack(disk), part[d := states[d]])
    {
      var run := states[d];
      if KeyOf(run) in runs || (run.idempotencyKey.Some? && SlotOf(run) in idempotency) {
        ClashMeansNotDistinct(states, part, View().memory, d);
        return false;
      }
      NotRecoveredYet(disk.logs, ReadBack(disk), part.Keys, logs, d);
      var log := ReadLogs(TextOf(logs, d));
      if log.Corrupt? {
        assert ReadBack(disk)[d].Corrupt?;
        return false;
      }
      AddRun(d, log, disk, ReadBack(disk), part);
      ok := true;
    }

    method AddRun(d: Name, log: Log, ghost disk: Disk, ghost read: map<Name, Log>, ghost part: map<Name, StoredRun>)
      requires Loads(disk, read, part) && d in states && d !in part
      requires d in read && read[d] == log && log.Log?
      requires KeyOf(states[d]) !in runs
      requires states[d].idempotencyKey.Some? ==> SlotOf(states[d]) !in idempotency
      modifies this
      ensures d in states && Loads(disk, read, part[d := states[d]])
    {
      LoadingOneMore(states, read, part, View().memory, d);
      RecoveredOneMore(disk.logs, read, part.Keys, logs, d);
      assert part[d := states[d]].Keys == part.Keys + {d};
      if d in logs { logs := logs[d := log.file]; }
      Index(d, NextSequence(log));
    }

    method Index(d: Name, next: nat)
      requires d in states
      modifies this`runs, this`nextLogSeq, this`idempotency
      ensures View() == old(View()).(memory := WithOneMore(old(View()).memory, d, states[d], next))
    {
      var run := states[d];
      runs := runs[KeyOf(run) := d];
      nextLogSeq := nextLogSeq[KeyOf(run) := next];
      if run.idempotencyKey.Some? { idempotency := idempotency[SlotOf(run) := KeyOf(run)]; }
    }

    ghost method Finish(disk: Disk, part: map<Name, StoredRun>)
      requires Loads(disk, ReadBack(disk), part) && part.Keys == states.Keys
      ensures Loadable(disk) && View() == Reload(disk) && Valid()
    {
      assert part == states;
      OverMeansDistinct(states, runs, idempotency);
      OverMeansRuns(states, runs);
      OverMeansSlots(states, runs, idempotency);
      OverMeansSequences(states, View().memory, ReadBack(disk));
      RecoveredAll(disk.logs, ReadBack(disk), logs);
    }

    method Get(key: RunKey) returns (run: Option<StoredRun>)
      requires Valid()
      ensures run == Lookup(View(), key)
    {
      run := if key in runs then Some(states[runs[key]]) else None;
    }

    method CreateIdempotent(run: StoredRun) returns (result: CreateResult)
      requires Valid()
      modifies this
      ensures result == CreateOutcome(old(View()), run)
      ensures Valid() && View() == Create(old(View()), run)
      ensures result.Created? ==> states == old(states)[run.runId := run] && run.runId !in old(dirs)
      ensures !result.Created? ==> View() == old(View())
      ensures run.idempotencyKey.Some? && SlotOf(run) in old(idempotency) ==>
                var existing := old(states[runs[idempotency[SlotOf(run)]]]);
                result == if existing.fingerprint == run.fingerprint then Replayed(existing) else Conflict(existing)
      ensures run.idempotencyKey.None? || SlotOf(run) !in old(idempotency) ==>
                result == if run.runId in old(dirs) then DirectoryExists else Created
    {
      if run.idempotencyKey.Some? && SlotOf(run) in idempotency {
        var existing := states[runs[idempotency[SlotOf(run)]]];
        return if existing.fingerprint != run.fingerprint then Conflict(existing) else Replayed(existing);
      }
      if run.runId in dirs { return DirectoryExists; }
      dirs := dirs + {run.runId};
      states := states[run.runId := run];
      runs := runs[KeyOf(run) := run.runId];
      nextLogSeq := nextLogSeq[KeyOf(run) := 1];
      if run.idempotencyKey.Some? {
        idempotency := idempotency[SlotOf(run) := KeyOf(run)];
      }
      return Created;
    }

    /** A known run's state file holds the run returned; an unknown run is not found; and no
        other state file changes. */
    ghost predicate Rewritten(before: map<Name, StoredRun>, key: RunKey, updated: Option<StoredRun>) reads this {
      && (updated.Some? <==> key in runs)
      && states == if key in runs then before[runs[key] := updated.value] else before
    }

    /** Replaces the state file of a known run. */
    method WriteForRun(key: RunKey, run: StoredRun)
      requires Valid() && key in runs
      modifies this`states
      ensures Valid() && View() == WithRun(old(View()), key, run)
    {
      states := states[runs[key] := run];
    }

    method Begin(key: RunKey, now: Stamp) returns (updated: Option<StoredRun>)
      requires Valid()
      modifies this`states
      ensures Rewritten(old(states), key, updated)
      ensures updated.Some? ==> Begins(old(states)[runs[key]], now, updated.value)
      ensures Valid() && View() == AfterUpdate(old(View()), BeginRun(key, now))
      ensures updated == Lookup(View(), key)
    {
      var current := Get(key);
      if current.None? { return None; }
      var status := current.value.status;
      if status.Queued? {
        status := if current.value.operation.Provision? then Provisioning else Running;
      }
      updated := Some(current.value.(startedAt := Some(now), status := status));
      WriteForRun(key, updated.value);
    }

    method AppendLog(key: RunKey, text: string) returns (entry: Option<Entry>)
      requires Valid()
      modifies this`logs, this`nextLogSeq
      ensures Valid() && View() == RunStore.AppendLog(old(View()), key, text)
      ensures entry == if key in runs then Some(Entry(old(nextLogSeq)[key], text)) else None
      ensures key !in runs ==> logs == old(logs) && nextLogSeq == old(nextLogSeq)
      ensures key in runs ==>
                && TextOf(logs, runs[key]) == TextOf(old(logs), runs[key]) + Line(entry.value)
                && (forall d | d != runs[key] :: TextOf(logs, d) == TextOf(old(logs), d))
                && nextLogSeq == old(nextLogSeq)[key := old(nextLogSeq)[key] + 1]
    {
      if key !in runs { return None; }
      entry := Some(Entry(nextLogSeq[key], text));
      logs := logs[runs[key] := TextOf(logs, runs[key]) + Line(entry.value)];
      nextLogSeq := nextLogSeq[key := entry.value.number + 1];
    }

    method UpdateOutputs(key: RunKey, outputs: Payload) returns (updated: Option<StoredRun>)
      requires Valid()
      modifies this`states
      ensures Rewritten(old(states), key, updated)
      ensures updated.Some? ==> updated.value == old(states)[runs[key]].(outputs := outputs)
      ensures Valid() && View() == AfterUpdate(old(View()), Op.UpdateOutputs(key, outputs))
      ensures updated == Lookup(View(), key)
    {
      var current := Get(key);
      if current.None? { return None; }
      updated := Some(current.value.(outputs := outputs));
      WriteForRun(key, updated.value);
    }

    method RequestCancel(key: RunKey, now: Stamp) returns (updated: Option<StoredRun>)
      requires Valid()
      modifies this`states
      ensures Rewritten(old(states), key, updated)
      ensures updated.Some? ==> Cancels(old(states)[runs[key]], now, updated.value)
      ensures Valid() && View() == AfterUpdate(old(View()), Op.RequestCancel(key, now))
      ensures updated == Lookup(View(), key)
    {
      updated := Get(key);
      if updated.None? { return; }
      var run := updated.value;
      if run.cancelRequestedAt.None? { run := run.(cancelRequestedAt := Some(now)); }
      if Active(run.status) { run := run.(status := Canceling); }
      updated := Some(run);
      WriteForRun(key, run);
    }

    method IsCancelRequested(key: RunKey) returns (requested: bool)
      requires Valid()
      ensures requested <==> Lookup(View(), key).Some? && Lookup(View(), key).value.cancelRequestedAt.Some?
    {
      var current := Get(key);
      requested := current.Some? && current.value.cancelRequestedAt.Some?;
    }

    method Finalize(key: RunKey, status: Status, outputs: Payload, failure: Option<Failure>, now: Stamp)
      returns (updated: Option<StoredRun>)
      requires Valid()
      modifies this`states
      ensures Rewritten(old(states), key, updated)
      ensures updated.Some? ==> Settles(old(states)[runs[key]], status, outputs, failure, now, updated.value)
      ensures Valid() && View() == AfterUpdate(old(View()), Op.Finalize(key, status, outputs, failure, now))
      ensures updated == Lookup(View(), key)
    {
      var current := Get(key);
      if current.None? { return None; }
      var settled, why := status, failure;
      if current.value.cancelRequestedAt.Some? && !(status.Failed? || status.Succeeded?) {
        settled, why := Canceled, None;
      }
      updated := Some(current.value.(status := settled, outputs := outputs, failure := why,
                                     finishedAt := if Terminal(settled) then Some(now) else None));
      WriteForRun(key, updated.value);
    }

    /** Every log reads back unchanged and its next number is the indexed one;
        `InvMeansSteady` gives it for every history. */
    ghost predicate Steady() reads this {
      forall key {:trigger SteadyAt(key)} | key in runs :: SteadyAt(key)
    }

    ghost predicate SteadyAt(key: RunKey) reads this {
      key in runs && key in nextLogSeq && SteadyLog(TextOf(logs, runs[key]), nextLogSeq[key])
    }

    lemma InvMeansSteady(acked: map<Name, seq<Entry>>)
      requires Inv(View(), acked)
      ensures Valid() && Steady() && RunsOver(states, runs)
    {
      forall key | key in runs
        ensures SteadyAt(key)
      {
        CompleteIsSteady(acked[runs[key]]);
      }
    }

    /** Settles every run an earlier process left unfinished, and counts its log
        again. */
    method InterruptIncomplete(now: Stamp)
      requires Valid() && RunsOver(states, runs) && Steady()
      modifies this`states, this`nextLogSeq
      ensures Valid() && View() == Interrupt(old(View()), now)
      ensures states.Keys == old(states).Keys
      ensures forall d | d in states :: Interrupts(old(states)[d], now, states[d])
    {
      var left := runs.Keys;
      while left != {}
        invariant left <= runs.Keys && nextLogSeq == old(nextLogSeq) && states.Keys == old(states).Keys
        invariant forall d | d in states ::
                    states[d] == if KeyOf(old(states)[d]) in left then old(states)[d]
                                 else InterruptedRun(old(states)[d], now)
      {
        var key :| key in left;
        assert old(SteadyAt(key));
        InterruptOne(key, now);
        left := left - {key};
      }
    }

    method InterruptOne(key: RunKey, now: Stamp)
      requires key in runs && runs[key] in states && SteadyAt(key)
      modifies this`states, this`nextLogSeq
      ensures nextLogSeq == old(nextLogSeq)
      ensures states == old(states)[runs[key] := InterruptedRun(old(states)[runs[key]], now)]
    {
      var d := runs[key];
      if Active(states[d].status) {
        states := states[d := InterruptedRun(states[d], now)];
        var log := ReadLogs(TextOf(logs, d));
        nextLogSeq := nextLogSeq[key := NextSequence(log)];
      }
    }

    /** Entries after a cursor, at most `limit` of them. A log no reader accepts
        raises. */
    method ListLogs(key: RunKey, after: nat, limit: Option<nat>) returns (page: Option<seq<Entry>>)
      requires Valid()
      modifies this`logs
      ensures key !in runs ==> page == Some([]) && logs == old(logs)
      ensures key in runs ==>
                var log := ReadLog(TextOf(old(logs), runs[key]));
                && (log.Corrupt? ==> page.None? && logs == old(logs))
                && (log.Log? ==> page == Some(FirstOf(After(log.entries, after), limit))
                                 && TextOf(logs, runs[key]) == log.file
                                 && forall d | d != runs[key] :: TextOf(logs, d) == TextOf(old(logs), d))
      ensures Valid()
    {
      if key !in runs { return Some([]); }
      var log := ReadLogs(TextOf(logs, runs[key]));
      if log.Corrupt? { return None; }
      if runs[key] in logs { logs := logs[runs[key] := log.file]; }
      page := Some(FirstOf(After(log.entries, after), limit));
    }
  }

  function After(entries: seq<Entry>, cursor: nat): seq<Entry> {
    if entries == [] then []
    else (if entries[0].number > cursor then [entries[0]] else []) + After(entries[1..], cursor)
  }

  function FirstOf(entries: seq<Entry>, limit: Option<nat>): seq<Entry> {
    if limit.None? || |entries| <= limit.value then entries else entries[..limit.value]
  }
}

/**
 A client following one run's log by cursor, through the log page or the observe
 call, while the store goes on working, stopping and crashing.
 */
module LogCursor {
  import opened Common
  import opened LogLines
  import opened RunStore
  import opened JsonRunStore

  datatype LogPage = LogPage(entries: seq<Entry>, nextCursor: nat, hasMore: bool)

  function NextCursor(page: seq<Entry>, cursor: nat): nat {
    if page == [] then cursor else page[|page| - 1].number
  }

  /** One page of the log, asking for one entry more to know whether any remain. */
  function GetRunLogs(log: seq<Entry>, cursor: nat, limit: nat): LogPage {
    var remaining := FirstOf(After(log, cursor), Some(limit + 1));
    var page := FirstOf(remaining, Some(limit));
    LogPage(page, NextCursor(page, cursor), |remaining| > |page|)
  }

  /** What observe returns once it stops waiting: the entries there are by then. */
  function Observe(log: seq<Entry>, cursor: nat, limit: nat): (seq<Entry>, nat) {
    var available := FirstOf(After(log, cursor), Some(limit));
    (available, NextCursor(available, cursor))
  }

  ghost predicate NumberedFrom(entries: seq<Entry>, base: nat) {
    forall i | 0 <= i < |entries| :: entries[i].number == base + i + 1
  }

  lemma {:induction false} AfterIsSuffix(entries: seq<Entry>, base: nat, cursor: nat)
    requires NumberedFrom(entries, base) && base <= cursor <= base + |entries|
    ensures After(entries, cursor) == entries[cursor - base..]
  {
    if entries != [] {
      if cursor == base {
        AllAfter(entries, base, cursor);
      } else {
        AfterIsSuffix(entries[1..], base + 1, cursor);
      }
    }
  }

  lemma {:induction false} AllAfter(entries: seq<Entry>, base: nat, cursor: nat)
    requires NumberedFrom(entries, base) && cursor <= base
    ensures After(entries, cursor) == entries
  {
    if entries != [] {
      AllAfter(entries[1..], base + 1, cursor);
    }
  }

  /** A page is the next entries after the cursor, it moves the cursor past them,
      and it says there is more exactly when there is. */
  lemma PageIsNextSlice(log: seq<Entry>, cursor: nat, limit: nat)
    requires Numbered(log) && cursor <= |log|
    ensures var page := GetRunLogs(log, cursor, limit);
            && cursor <= page.nextCursor <= |log|
            && page.entries == log[cursor..page.nextCursor]
            && |page.entries| == (if limit <= |log| - cursor then limit else |log| - cursor)
            && (page.hasMore <==> page.nextCursor < |log|)
            && Observe(log, cursor, limit) == (page.entries, page.nextCursor)
  {
    AfterIsSuffix(log, 0, cursor);
    var rest := log[cursor..];
    var n := if limit <= |rest| then limit else |rest|;
    TakeTwice(rest, limit);
    SliceEnds(log, cursor, n);
  }

  lemma SliceEnds(log: seq<Entry>, cursor: nat, n: nat)
    requires Numbered(log) && cursor + n <= |log|
    ensures log[cursor..][..n] == log[cursor..cursor + n]
    ensures n > 0 ==> log[cursor..][..n][n - 1].number == cursor + n
  {
  }

  lemma TakeTwice(rest: seq<Entry>, limit: nat)
    ensures FirstOf(FirstOf(rest, Some(limit + 1)), Some(limit)) == FirstOf(rest, Some(limit))
    ensures FirstOf(rest, Some(limit)) == rest[..if limit <= |rest| then limit else |rest|]
    ensures |FirstOf(rest, Some(limit + 1))| == if limit < |rest| then limit + 1 else |rest|
  {
  }

  // ---------------------------------------------------------------------
  // Whole histories

  datatype Event = StoreDoes(op: Op) | GetPage(limit: nat) | Watch(limit: nat)

  datatype Client = Client(system: System, cursor: nat, got: seq<Entry>)

  /** The log file as a reader of the store sees it. */
  ghost function LogOnDisk(s: System, key: RunKey): seq<Entry> {
    var log := ReadLog(TextOf(s.store.disk.logs, key.run));
    if log.Log? then log.entries else []
  }

  ghost function React(c: Client, key: RunKey, event: Event): Client {
    match event
    case StoreDoes(op) => c.(system := Do(c.system, op))
    case GetPage(limit) =>
      var page := GetRunLogs(LogOnDisk(c.system, key), c.cursor, limit);
      c.(cursor := page.nextCursor, got := c.got + page.entries)
    case Watch(limit) =>
      var (entries, next) := Observe(LogOnDisk(c.system, key), c.cursor, limit);
      c.(cursor := next, got := c.got + entries)
  }

  ghost predicate ClientOk(c: Client, key: RunKey) {
    && Inv(c.system.store, c.system.acked) && key.run in c.system.acked
    && GotOk(c.got, c.cursor, c.system.acked[key.run])
  }

  predicate GotOk(got: seq<Entry>, cursor: nat, log: seq<Entry>) {
    cursor <= |log| && got == log[..cursor]
  }

  lemma GotStaysOk(got: seq<Entry>, cursor: nat, log: seq<Entry>, longer: seq<Entry>)
    requires GotOk(got, cursor, log) && log <= longer
    ensures GotOk(got, cursor, longer)
  {
  }

  lemma AckedOnlyGrows(s: System, op: Op, d: Name)
    requires Inv(s.store, s.acked) && d in s.acked
    ensures d in Do(s, op).acked && s.acked[d] <= Do(s, op).acked[d]
  {
    if op.CreateRun? && CreateOutcome(s.store, op.run).Created? { CreatedIsNew(s, op.run); }
    AckedGrows(s.store, s.acked, op, d);
  }

  lemma AckedGrows(st: Store, acked: map<Name, seq<Entry>>, op: Op, d: Name)
    requires d in acked && (op.CreateRun? && CreateOutcome(st, op.run).Created? ==> op.run.runId !in acked)
    ensures d in AckedAfter(st, acked, op) && acked[d] <= AckedAfter(st, acked, op)[d]
  {
  }

  lemma CreatedIsNew(s: System, run: StoredRun)
    requires Inv(s.store, s.acked) && CreateOutcome(s.store, run).Created?
    ensures run.runId !in s.acked
  {
    assert s.acked.Keys == s.store.disk.states.Keys <= s.store.disk.dirs;
  }

  lemma LogOnDiskIsAcked(s: System, key: RunKey)
    requires TextsOk(s.store.disk.logs, s.acked) && key.run in s.acked
    ensures LogOnDisk(s, key) == s.acked[key.run]
  {
    ReadComplete(s.acked[key.run]);
  }

  lemma NumberedAcked(s: System, d: Name)
    requires Inv(s.store, s.acked) && d in s.acked
    ensures Numbered(s.acked[d])
  {
  }

  lemma StoreStepKeepsOk(c: Client, key: RunKey, op: Op)
    requires ClientOk(c, key)
    ensures ClientOk(React(c, key, StoreDoes(op)), key)
  {
    StepKeepsInv(c.system, op);
    AckedOnlyGrows(c.system, op, key.run);
    GotStaysOk(c.got, c.cursor, c.system.acked[key.run], Do(c.system, op).acked[key.run]);
  }

  lemma ReadStepKeepsOk(c: Client, key: RunKey, event: Event)
    requires ClientOk(c, key) && !event.StoreDoes?
    ensures React(c, key, event).system == c.system
    ensures var log, c' := c.system.acked[key.run], React(c, key, event);
            c.cursor <= c'.cursor <= |log| && c'.got == log[..c'.cursor]
            && c'.cursor == GetRunLogs(log, c.cursor, event.limit).nextCursor
  {
    LogOnDiskIsAcked(c.system, key);
    NumberedAcked(c.system, key.run);
    PageExtends(c.system.acked[key.run], c.cursor, event.limit);
  }

  lemma PageExtends(log: seq<Entry>, cursor: nat, limit: nat)
    requires Numbered(log) && cursor <= |log|
    ensures var page := GetRunLogs(log, cursor, limit);
            && cursor <= page.nextCursor <= |log| && log[..cursor] + page.entries == log[..page.nextCursor]
            && Observe(log, cursor, limit) == (page.entries, page.nextCursor)
  {
    PageIsNextSlice(log, cursor, limit);
    var next := GetRunLogs(log, cursor, limit).nextCursor;
    assert log[..cursor] + log[cursor..next] == log[..next];
  }

  lemma ReactKeepsOk(c: Client, key: RunKey, event: Event)
    requires ClientOk(c, key)
    ensures ClientOk(React(c, key, event), key)
  {
    if event.StoreDoes? {
      StoreStepKeepsOk(c, key, event.op);
    } else {
      ReadStepKeepsOk(c, key, event);
    }
  }

  ghost function Follow(c: Client, key: RunKey, events: seq<Event>): Client
    decreases |events|
  {
    if events == [] then c else Follow(React(c, key, events[0]), key, events[1..])
  }

  lemma {:induction false} FollowOneMore(c: Client, key: RunKey, events: seq<Event>, event: Event)
    ensures Follow(c, key, events + [event]) == React(Follow(c, key, events), key, event)
    decreases |events|
  {
    if events == [] {
      assert [event][1..] == [] && [] + [event] == [event];
    } else {
      assert (events + [event])[1..] == events[1..] + [event];
      FollowOneMore(React(c, key, events[0]), key, events[1..], event);
    }
  }

  /** What the store was asked to do among these events. */
  function OpsOf(events: seq<Event>): seq<Op> {
    if events == [] then [] else (if events[0].StoreDoes? then [events[0].op] else []) + OpsOf(events[1..])
  }

  /** The store does all of it, and following changes nothing there. */
  lemma {:induction false} FollowingIsReading(c: Client, key: RunKey, events: seq<Event>)
    ensures Follow(c, key, events).system == Run(c.system, OpsOf(events))
    decreases |events|
  {
    if events != [] {
      FollowingIsReading(React(c, key, events[0]), key, events[1..]);
      if events[0].StoreDoes? {
        assert OpsOf(events)[1..] == OpsOf(events[1..]);
      } else {
        assert OpsOf(events) == OpsOf(events[1..]);
        assert React(c, key, events[0]).system == c.system;
      }
    }
  }

  /** What the client has stays the log up to its cursor. */
  lemma {:induction false} FollowKeepsOk(c: Client, key: RunKey, events: seq<Event>)
    requires ClientOk(c, key)
    ensures ClientOk(Follow(c, key, events), key)
    decreases |events|
  {
    if events != [] {
      ReactKeepsOk(c, key, events[0]);
      FollowKeepsOk(React(c, key, events[0]), key, events[1..]);
    }
  }

  /** Exactly once and in order: however appends, restarts and crashes interleave
      with requests of any size, what the client has is the log up to its cursor;
      and when a page says nothing remains it has the whole log. */
  lemma ReadsExactlyOnce(before: seq<Op>, key: RunKey, events: seq<Event>, limit: nat)
    requires key.run in Run(NEW_SYSTEM, before).acked
    ensures var c := Follow(Client(Run(NEW_SYSTEM, before), 0, []), key, events);
            && key.run in c.system.acked
            && var log := c.system.acked[key.run];
            && Numbered(log) && c.cursor <= |log| && c.got == log[..c.cursor]
            && (!GetRunLogs(LogOnDisk(c.system, key), c.cursor, limit).hasMore ==>
                  React(c, key, GetPage(limit)).got == log)
  {
    var c0 := Client(Run(NEW_SYSTEM, before), 0, []);
    RunKeepsInv(NEW_SYSTEM, before);
    FollowKeepsOk(c0, key, events);
    var c := Follow(c0, key, events);
    LastPageCompletes(c, key, limit);
  }

  lemma LastPageCompletes(c: Client, key: RunKey, limit: nat)
    requires ClientOk(c, key)
    ensures Numbered(c.system.acked[key.run])
    ensures !GetRunLogs(LogOnDisk(c.system, key), c.cursor, limit).hasMore ==>
              React(c, key, GetPage(limit)).got == c.system.acked[key.run]
  {
    LogOnDiskIsAcked(c.system, key);
    NumberedAcked(c.system, key.run);
    LastPageIsTheRest(c.system.acked[key.run], c.cursor, limit);
  }

  lemma LastPageIsTheRest(log: seq<Entry>, cursor: nat, limit: nat)
    requires Numbered(log) && cursor <= |log|
    ensures !GetRunLogs(log, cursor, limit).hasMore ==> log[..cursor] + GetRunLogs(log, cursor, limit).entries == log
  {
    PageExtends(log, cursor, limit);
    PageIsNextSlice(log, cursor, limit);
    assert log[..|log|] == log;
  }

  // ---------------------------------------------------------------------
  // The cut between an object and its newline

  /** A client that follows a log of one entry misses the second one for good, when
      a crash cut the first before its newline, the second was appended, the log
      was read, and the third was appended. */
  lemma CutAtNewlineLosesAnEntry(e: Entry, f: Entry, g: Entry)
    requires e.number == 1 && f.number == 2 && g.number == 3
    ensures var read := ReadLog(Encode(e) + Line(f));
            && ReadLog(Encode(e)) == Log([e], Encode(e)) && read == Log([], [])
            && ReadLog(read.file + Line(g)) == Log([g], Line(g)) && !Numbered([g])
  {
    CutBeforeNewlineReads([], e);
    assert Lines([]) + Encode(e) == Encode(e) && [] + [e] == [e];
    ReadJoined(e, f, []);
    assert Encode(e) + Line(f) + [] == Encode(e) + Line(f);
    ReadComplete([g]);
    assert Lines([g]) == Line(g) == [] + Line(g);
    assert [g][0].number != 1;
  }
}

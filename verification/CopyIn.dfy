/**
 Copying a file into a bench over one connection. The caller reads the file in
 chunks and keeps up to eight chunk requests in flight; the bench handles every
 request it received as an independent task, in any order; replies may be late
 or lost and the connection may drop at any point.

 A run is any list of steps, taken in any order by the caller and the bench. A
 step that is not enabled leaves the state as it is.
 */
module CopyIn {
  import opened Common
  import opened Transfers

  const COPY_CHUNK_BYTES: nat := 262144
  const COPY_IN_WINDOW: nat := 8

  /** The file to copy and the handle the bench minted for it. */
  datatype Job = Job(source: Bytes, id: TransferId, destination: string)

  /** The one sink call a copy is for. */
  function Whole(job: Job): Delivery {
    Delivery(job.id, job.destination, job.source)
  }

  datatype Chunk = Chunk(offset: nat, data: Bytes)
  datatype Reply = Done | Refused
  datatype Phase = Opening | Sending | Draining | Closing | Returned | Failed

  datatype Sys = Sys(
    phase: Phase,
    offset: nat,
    sent: seq<Chunk>,          // chunk requests issued so far; their index is their id
    inFlight: seq<nat>,        // the caller's queue of requests not drained yet
    closeSent: bool,
    openHandled: bool,         // the bench handled the open request
    answers: map<nat, Reply>,  // how the bench answered each chunk it handled
    closeAnswer: Option<Reply>,
    table: Table)
  {
    predicate Live() {
      phase != Returned && phase != Failed
    }
  }

  datatype Step =
    // the caller
    | Opened
    | SendChunk(size: nat)
    | EndOfFile
    | DrainOldest
    | SendClose
    | CloseAnswered
    | GiveUp
    // the bench
    | HandleOpen(path: TempPath)
    | HandleChunk(i: nat)
    | BotchChunk(i: nat, junk: Bytes)
    | HandleClose(closes: bool, sinkWorks: bool)
    | HandleAbort
    | DropConnection
    | OtherTransfer(op: Op)

  predicate CallersOwn(step: Step) {
    step.Opened? || step.SendChunk? || step.EndOfFile? || step.DrainOldest? || step.SendClose?
    || step.CloseAnswered? || step.GiveUp?
  }

  predicate Enabled(job: Job, s: Sys, step: Step) {
    match step
    case Opened => s.phase.Opening? && s.openHandled
    case SendChunk(size) =>
      s.phase.Sending? && |s.inFlight| < COPY_IN_WINDOW
      && 0 < size <= COPY_CHUNK_BYTES && s.offset + size <= |job.source|
    case EndOfFile => s.phase.Sending? && |s.inFlight| < COPY_IN_WINDOW && s.offset == |job.source|
    case DrainOldest =>
      (if s.phase.Sending? then |s.inFlight| >= COPY_IN_WINDOW else s.phase.Draining? && s.inFlight != [])
      && s.inFlight[0] in s.answers
    case SendClose => s.phase.Draining? && s.inFlight == []
    case CloseAnswered => s.phase.Closing? && s.closeAnswer.Some?
    case GiveUp => s.Live()
    case HandleOpen(path) => !s.openHandled && job.id !in s.table.transfers && path !in s.table.disk
    case HandleChunk(i) => i < |s.sent| && i !in s.answers
    case BotchChunk(i, _) => i < |s.sent| && i !in s.answers
    case HandleClose(_, _) => s.closeSent && s.closeAnswer.None?
    case HandleAbort => s.phase.Failed?
    case DropConnection => true
    case OtherTransfer(op) => !op.AbortAll? && op.id != job.id && FreshNames(s.table, op)
  }

  function Do(job: Job, s: Sys, step: Step): Sys
    requires s.table.Valid()
  {
    if !Enabled(job, s, step) then s else
    match step
    case Opened => s.(phase := Sending)
    case SendChunk(size) =>
      s.(sent := s.sent + [Chunk(s.offset, job.source[s.offset..s.offset + size])],
         inFlight := s.inFlight + [|s.sent|],
         offset := s.offset + size)
    case EndOfFile => s.(phase := Draining)
    case DrainOldest =>
      if s.answers[s.inFlight[0]].Done? then s.(inFlight := s.inFlight[1..])
      else s.(phase := Failed, inFlight := [])
    case SendClose => s.(phase := Closing, closeSent := true)
    case CloseAnswered => s.(phase := if s.closeAnswer.value.Done? then Returned else Failed)
    case GiveUp => s.(phase := Failed, inFlight := [])
    case HandleOpen(path) => s.(openHandled := true, table := Apply(s.table, Open(job.id, path, job.destination)))
    case HandleChunk(i) =>
      var op := Write(job.id, s.sent[i].offset, s.sent[i].data);
      s.(answers := s.answers[i := if Found(s.table, op) then Done else Refused], table := Apply(s.table, op))
    case BotchChunk(i, junk) =>
      s.(answers := s.answers[i := Refused],
         table := if job.id !in s.table.transfers then s.table
                  else s.table.(disk := s.table.disk[s.table.transfers[job.id].path := junk]))
    case HandleClose(closes, sinkWorks) =>
      var op := Deliver(job.id, closes);
      s.(closeAnswer := Some(if Found(s.table, op) && closes && sinkWorks then Done else Refused),
         table := Apply(s.table, op))
    case HandleAbort => s.(table := Apply(s.table, Abort(job.id)))
    case DropConnection => s.(table := Apply(s.table, AbortAll))
    case OtherTransfer(op) => s.(table := Apply(s.table, op))
  }

  ghost predicate Initial(job: Job, s: Sys) {
    && s == Sys(Opening, 0, [], [], false, false, map[], None, s.table)
    && s.table.Valid() && job.id !in s.table.transfers && RunsOf(s.table.sunk, job.id) == []
  }

  // ---------------------------------------------------------------------
  // The invariant

  predicate Tiles(job: Job, sent: seq<Chunk>, offset: nat) {
    && offset <= |job.source|
    && (if sent == [] then offset == 0 else
        var last := sent[|sent| - 1];
        && last.offset + |last.data| == offset
        && last.data != [] && last.data == job.source[last.offset..offset]
        && Tiles(job, sent[..|sent| - 1], last.offset))
  }

  lemma TilesCover(job: Job, sent: seq<Chunk>, offset: nat, k: nat)
    requires Tiles(job, sent, offset) && k < offset
    ensures exists i :: 0 <= i < |sent| && sent[i].offset <= k < sent[i].offset + |sent[i].data|
  {
    var last := sent[|sent| - 1];
    if last.offset <= k {
      assert last.offset <= k < last.offset + |last.data|;
    } else {
      TilesCover(job, sent[..|sent| - 1], last.offset, k);
      var i :| 0 <= i < |sent| - 1 && sent[i].offset <= k < sent[i].offset + |sent[i].data|;
    }
  }

  lemma TileIsSlice(job: Job, sent: seq<Chunk>, offset: nat, i: nat)
    requires Tiles(job, sent, offset) && i < |sent|
    ensures sent[i].data != [] && sent[i].offset + |sent[i].data| <= offset
    ensures sent[i].data == job.source[sent[i].offset..sent[i].offset + |sent[i].data|]
  {
    if i < |sent| - 1 {
      TileIsSlice(job, sent[..|sent| - 1], sent[|sent| - 1].offset, i);
    }
  }

  /** The chunk's bytes stand in the file where the source has them. */
  predicate Landed(job: Job, chunk: Chunk, file: Bytes) {
    chunk.offset + |chunk.data| <= |job.source|
    && chunk.offset + |chunk.data| <= |file|
    && file[chunk.offset..chunk.offset + |chunk.data|] == job.source[chunk.offset..chunk.offset + |chunk.data|]
  }

  ghost predicate AllDone(s: Sys) {
    forall i | i in s.answers :: s.answers[i].Done?
  }

  ghost predicate CallerOk(job: Job, s: Sys) {
    && Tiles(job, s.sent, s.offset)
    && |s.inFlight| <= COPY_IN_WINDOW && |s.inFlight| <= |s.sent|
    && (forall j | 0 <= j < |s.inFlight| :: s.inFlight[j] == |s.sent| - |s.inFlight| + j)
    && (!s.phase.Failed? ==> forall i | 0 <= i < |s.sent| - |s.inFlight| :: i in s.answers && s.answers[i].Done?)
    && (forall i | 0 <= i < |s.sent| - COPY_IN_WINDOW :: i in s.answers)
    && (s.phase.Draining? || s.closeSent ==> s.offset == |job.source|)
    && (s.phase.Closing? || s.phase.Returned? ==> s.closeSent)
    && (s.phase.Opening? || s.phase.Sending? || s.phase.Draining? ==> !s.closeSent)
    && (s.closeSent ==> s.inFlight == [] && forall i | 0 <= i < |s.sent| :: i in s.answers && s.answers[i].Done?)
    && (s.phase.Returned? ==> s.closeAnswer == Some(Done))
    && (s.phase.Opening? || !s.openHandled ==> s.sent == [])
    && (s.phase.Sending? || s.phase.Draining? || s.closeSent ==> s.openHandled)
  }

  ghost predicate BenchOk(job: Job, s: Sys) {
    && s.table.Valid()
    && (forall i | i in s.answers :: i < |s.sent|)
    && (!s.openHandled ==> job.id !in s.table.transfers)
    && (job.id in s.table.transfers ==> s.table.transfers[job.id].destination == job.destination)
    && (job.id in s.table.transfers && AllDone(s) ==>
          && |s.table.Content(job.id)| <= s.offset
          && forall i | i in s.answers :: Landed(job, s.sent[i], s.table.Content(job.id)))
    && (s.closeAnswer.None? ==> RunsOf(s.table.sunk, job.id) == [])
    && (s.closeAnswer.Some? ==>
          s.closeSent && job.id !in s.table.transfers && s.openHandled
          && (RunsOf(s.table.sunk, job.id) == [] || RunsOf(s.table.sunk, job.id) == [Whole(job)]))
    && (s.closeAnswer == Some(Done) ==> RunsOf(s.table.sunk, job.id) == [Whole(job)])
  }

  ghost predicate Inv(job: Job, s: Sys) {
    CallerOk(job, s) && BenchOk(job, s)
  }

  predicate SameCaller(s: Sys, s': Sys) {
    s'.phase == s.phase && s'.offset == s.offset && s'.sent == s.sent && s'.inFlight == s.inFlight
    && s'.closeSent == s.closeSent
  }

  lemma WriteLands(job: Job, chunk: Chunk, other: Chunk, file: Bytes)
    requires chunk.offset + |chunk.data| <= |job.source|
    requires chunk.data == job.source[chunk.offset..chunk.offset + |chunk.data|]
    requires other == chunk || Landed(job, other, file)
    requires chunk.data != []
    ensures Landed(job, other, WriteAt(file, chunk.offset, chunk.data))
  {
    var after := WriteAt(file, chunk.offset, chunk.data);
    var end := other.offset + |other.data|;
    forall k | other.offset <= k < end ensures k < |after| && after[k] == job.source[k] {
      if chunk.offset <= k < chunk.offset + |chunk.data| {
        assert chunk.data[k - chunk.offset] == job.source[k];
      } else {
        LandedAt(job, other, file, k);
      }
    }
    assert end <= |after|;
  }

  lemma LandedAt(job: Job, chunk: Chunk, file: Bytes, k: nat)
    requires Landed(job, chunk, file) && chunk.offset <= k < chunk.offset + |chunk.data|
    ensures k < |file| && k < |job.source| && file[k] == job.source[k]
  {
    var end := chunk.offset + |chunk.data|;
    assert file[chunk.offset..end][k - chunk.offset] == job.source[chunk.offset..end][k - chunk.offset];
  }

  /** The bench's part only depends on these. */
  lemma BenchStaysOk(job: Job, s: Sys, s': Sys)
    requires BenchOk(job, s) && s'.table == s.table && s'.answers == s.answers && s'.closeAnswer == s.closeAnswer
    requires s'.openHandled == s.openHandled && s.sent <= s'.sent && s.offset <= s'.offset
    requires s.closeSent ==> s'.closeSent
    ensures BenchOk(job, s')
  {
  }

  /** The caller's part only depends on these; the bench answers each request once. */
  lemma CallerStaysOk(job: Job, s: Sys, s': Sys)
    requires CallerOk(job, s) && SameCaller(s, s')
    requires forall i | i in s.answers :: i in s'.answers && s'.answers[i] == s.answers[i]
    requires s.openHandled ==> s'.openHandled
    requires s.closeAnswer.Some? ==> s'.closeAnswer == s.closeAnswer
    ensures CallerOk(job, s')
  {
  }

  lemma SendKeepsCaller(job: Job, s: Sys, size: nat)
    requires CallerOk(job, s) && s.table.Valid() && Enabled(job, s, SendChunk(size))
    ensures CallerOk(job, Do(job, s, SendChunk(size)))
  {
    assert (s.sent + [Chunk(s.offset, job.source[s.offset..s.offset + size])])[..|s.sent|] == s.sent;
  }

  lemma DrainKeepsCaller(job: Job, s: Sys)
    requires CallerOk(job, s) && s.table.Valid() && Enabled(job, s, DrainOldest)
    ensures CallerOk(job, Do(job, s, DrainOldest))
  {
  }

  lemma OwnStepKeepsCaller(job: Job, s: Sys, step: Step)
    requires CallerOk(job, s) && s.table.Valid() && Enabled(job, s, step)
    requires CallersOwn(step) && !step.SendChunk? && !step.DrainOldest?
    ensures CallerOk(job, Do(job, s, step))
  {
  }

  lemma CallerStepKeepsCaller(job: Job, s: Sys, step: Step)
    requires CallerOk(job, s) && s.table.Valid() && CallersOwn(step) && Enabled(job, s, step)
    ensures CallerOk(job, Do(job, s, step))
  {
    match step
    case SendChunk(size) => SendKeepsCaller(job, s, size);
    case DrainOldest => DrainKeepsCaller(job, s);
    case _ => OwnStepKeepsCaller(job, s, step);
  }

  lemma CallerStepKeepsInv(job: Job, s: Sys, step: Step)
    requires Inv(job, s) && CallersOwn(step) && Enabled(job, s, step)
    ensures Inv(job, Do(job, s, step))
  {
    CallerStepKeepsCaller(job, s, step);
    BenchStaysOk(job, s, Do(job, s, step));
  }

  lemma HandleChunkKeepsInv(job: Job, s: Sys, i: nat)
    requires Inv(job, s) && Enabled(job, s, HandleChunk(i))
    ensures Inv(job, Do(job, s, HandleChunk(i)))
  {
    CallerStaysOk(job, s, Do(job, s, HandleChunk(i)));
    TileIsSlice(job, s.sent, s.offset, i);
    HandleChunkKeepsBench(job, s, i);
  }

  lemma HandleChunkKeepsBench(job: Job, s: Sys, i: nat)
    requires BenchOk(job, s) && Enabled(job, s, HandleChunk(i)) && s.offset <= |job.source|
    requires s.sent[i].data != [] && s.sent[i].offset + |s.sent[i].data| <= s.offset
    requires s.sent[i].data == job.source[s.sent[i].offset..s.sent[i].offset + |s.sent[i].data|]
    ensures BenchOk(job, Do(job, s, HandleChunk(i)))
  {
    var s' := Do(job, s, HandleChunk(i));
    if job.id in s.table.transfers && AllDone(s') {
      assert AllDone(s) by {
        forall j | j in s.answers ensures s.answers[j].Done? { assert s'.answers[j] == s.answers[j]; }
      }
      forall j | j in s'.answers
        ensures Landed(job, s'.sent[j], s'.table.Content(job.id))
      {
        WriteLands(job, s.sent[i], s.sent[j], s.table.Content(job.id));
      }
    }
  }

  /** Once every chunk is acknowledged and every chunk has landed, the file is
      the source. */
  lemma LandedEverywhere(job: Job, sent: seq<Chunk>, file: Bytes)
    requires Tiles(job, sent, |job.source|) && |file| <= |job.source|
    requires forall i | 0 <= i < |sent| :: Landed(job, sent[i], file)
    ensures file == job.source
  {
    forall k | 0 <= k < |job.source|
      ensures k < |file| && file[k] == job.source[k]
    {
      TilesCover(job, sent, |job.source|, k);
      var i :| 0 <= i < |sent| && sent[i].offset <= k < sent[i].offset + |sent[i].data|;
      LandedAt(job, sent[i], file, k);
    }
  }

  lemma HandleCloseKeepsInv(job: Job, s: Sys, closes: bool, sinkWorks: bool)
    requires Inv(job, s) && Enabled(job, s, HandleClose(closes, sinkWorks))
    ensures Inv(job, Do(job, s, HandleClose(closes, sinkWorks)))
  {
    if job.id in s.table.transfers && closes {
      LandedEverywhere(job, s.sent, s.table.Content(job.id));
      RunsOfAppend(s.table.sunk,
        Delivery(job.id, s.table.transfers[job.id].destination, s.table.Content(job.id)), job.id);
    }
    CallerStaysOk(job, s, Do(job, s, HandleClose(closes, sinkWorks)));
  }

  lemma OtherTransferKeepsInv(job: Job, s: Sys, op: Op)
    requires Inv(job, s) && Enabled(job, s, OtherTransfer(op))
    ensures Inv(job, Do(job, s, OtherTransfer(op)))
  {
    OthersUntouched(s.table, op, job.id);
    CallerStaysOk(job, s, Do(job, s, OtherTransfer(op)));
  }

  lemma BotchKeepsInv(job: Job, s: Sys, i: nat, junk: Bytes)
    requires Inv(job, s) && Enabled(job, s, BotchChunk(i, junk))
    ensures Inv(job, Do(job, s, BotchChunk(i, junk)))
  {
    var s' := Do(job, s, BotchChunk(i, junk));
    assert s'.answers[i].Refused?;
    CallerStaysOk(job, s, s');
  }

  /** The transfer begins, or it goes away with whatever landed. */
  lemma TransferStepKeepsInv(job: Job, s: Sys, step: Step)
    requires Inv(job, s) && Enabled(job, s, step)
    requires step.HandleOpen? || step.HandleAbort? || step.DropConnection?
    ensures Inv(job, Do(job, s, step))
  {
    CallerStaysOk(job, s, Do(job, s, step));
  }

  lemma StepKeepsInv(job: Job, s: Sys, step: Step)
    requires Inv(job, s)
    ensures Inv(job, Do(job, s, step))
  {
    if Enabled(job, s, step) {
      match step
      case HandleChunk(i) => HandleChunkKeepsInv(job, s, i);
      case HandleClose(closes, sinkWorks) => HandleCloseKeepsInv(job, s, closes, sinkWorks);
      case OtherTransfer(op) => OtherTransferKeepsInv(job, s, op);
      case BotchChunk(i, junk) => BotchKeepsInv(job, s, i, junk);
      case HandleOpen(_) => TransferStepKeepsInv(job, s, step);
      case HandleAbort => TransferStepKeepsInv(job, s, step);
      case DropConnection => TransferStepKeepsInv(job, s, step);
      case _ => CallerStepKeepsInv(job, s, step);
    }
  }

  // ---------------------------------------------------------------------
  // Whole runs

  ghost function Run(job: Job, s: Sys, steps: seq<Step>): (r: Sys)
    requires Inv(job, s)
    ensures Inv(job, r)
    decreases |steps|
  {
    if steps == [] then s else
    StepKeepsInv(job, s, steps[0]);
    Run(job, Do(job, s, steps[0]), steps[1..])
  }

  /** Copy-in is exact. Whatever the interleaving, the losses and the failures:
      the caller holds at most eight requests, only the last eight chunks sent
      can still be waiting for the bench, the sink is never given anything but
      the whole source and never twice, it is not called before the close is
      sent, and when the copy returns it was called exactly once. */
  lemma CopyInIsExact(job: Job, s: Sys, steps: seq<Step>)
    requires Initial(job, s)
    ensures Inv(job, s)
    ensures var r := Run(job, s, steps);
            var runs := RunsOf(r.table.sunk, job.id);
            && |r.inFlight| <= COPY_IN_WINDOW == 8
            && (forall i | 0 <= i < |r.sent| - COPY_IN_WINDOW :: i in r.answers)
            && (runs == [] || runs == [Whole(job)])
            && (!r.closeSent ==> runs == [])
            && (r.phase.Returned? ==> runs == [Whole(job)])
  {
  }

  /** Only a temporary file that cannot be closed outlives its transfer. */
  predicate LosesFile(step: Step) {
    (step.HandleClose? && !step.closes) || (step.OtherTransfer? && step.op.Deliver? && !step.op.closes)
  }

  lemma StepLeaksNothing(job: Job, s: Sys, step: Step)
    requires s.table.Valid() && s.table.NoOrphans() && !LosesFile(step)
    ensures Do(job, s, step).table.NoOrphans()
  {
    if Enabled(job, s, step) {
      match step
      case HandleOpen(path) => OrphansOnlyFromAFailedClose(s.table, Open(job.id, path, job.destination));
      case HandleChunk(i) =>
        OrphansOnlyFromAFailedClose(s.table, Write(job.id, s.sent[i].offset, s.sent[i].data));
      case HandleClose(closes, _) => OrphansOnlyFromAFailedClose(s.table, Deliver(job.id, closes));
      case HandleAbort => OrphansOnlyFromAFailedClose(s.table, Abort(job.id));
      case DropConnection => OrphansOnlyFromAFailedClose(s.table, AbortAll);
      case OtherTransfer(op) => OrphansOnlyFromAFailedClose(s.table, op);
      case _ =>
    }
  }

  lemma {:induction false} FilesStayOwned(job: Job, s: Sys, steps: seq<Step>)
    requires Inv(job, s) && s.table.NoOrphans() && forall step | step in steps :: !LosesFile(step)
    ensures Run(job, s, steps).table.NoOrphans()
    decreases |steps|
  {
    if steps != [] {
      StepKeepsInv(job, s, steps[0]);
      StepLeaksNothing(job, s, steps[0]);
      FilesStayOwned(job, Do(job, s, steps[0]), steps[1..]);
    }
  }

  lemma DropClears(job: Job, s: Sys)
    requires s.table.Valid() && s.table.NoOrphans()
    ensures var dropped := Do(job, s, DropConnection).table;
            dropped.transfers == map[] && dropped.disk == map[] && dropped.sunk == s.table.sunk
  {
    AbortAllDrops(s.table);
  }

  /** Nothing leaks: in every run without a close that fails, each temporary file
      belongs to an open transfer, and a connection that drops leaves neither. */
  lemma NothingLeaks(job: Job, s: Sys, steps: seq<Step>)
    requires Inv(job, s) && s.table.NoOrphans() && forall step | step in steps :: !LosesFile(step)
    ensures Run(job, s, steps).table.NoOrphans()
    ensures var dropped := Do(job, Run(job, s, steps), DropConnection).table;
            dropped.transfers == map[] && dropped.disk == map[] && dropped.sunk == Run(job, s, steps).table.sunk
  {
    FilesStayOwned(job, s, steps);
    DropClears(job, Run(job, s, steps));
  }

  /** The bench answers a chunk well exactly when it has the transfer and could write; a
      botched write is refused and may leave anything in the file. It answers the close
      well exactly when it has the transfer, its file closes and the sink works. */
  lemma AnswersAreHonest(job: Job, s: Sys, i: nat, junk: Bytes, closes: bool, sinkWorks: bool)
    requires s.table.Valid()
    ensures Enabled(job, s, HandleChunk(i)) ==>
              var s' := Do(job, s, HandleChunk(i));
              i in s'.answers && (s'.answers[i].Done? <==> job.id in s.table.transfers)
    ensures Enabled(job, s, BotchChunk(i, junk)) ==>
              var s' := Do(job, s, BotchChunk(i, junk));
              && i in s'.answers && s'.answers[i].Refused?
              && (job.id in s.table.transfers ==> s'.table.Holds(job.id) && s'.table.Content(job.id) == junk)
    ensures Enabled(job, s, HandleClose(closes, sinkWorks)) ==>
              (Do(job, s, HandleClose(closes, sinkWorks)).closeAnswer == Some(Done)
               <==> job.id in s.table.transfers && closes && sinkWorks)
  {
  }

  /** Requests of other transfers on the connection go on as they would alone. */
  lemma OthersGoOn(job: Job, s: Sys, op: Op)
    requires s.table.Valid() && !op.AbortAll? && op.id != job.id && FreshNames(s.table, op)
    ensures Does(s.table, op, Do(job, s, OtherTransfer(op)).table)
  {
    ApplyDoes(s.table, op);
  }

  /** A copy that is given up, or refused a chunk, waits for nothing any more. */
  lemma FailingForgetsTheWindow(job: Job, s: Sys, step: Step)
    requires s.table.Valid() && (step.GiveUp? || step.DrainOldest?) && !s.phase.Failed?
    ensures Do(job, s, step).phase.Failed? ==> Do(job, s, step).inFlight == []
    ensures step.GiveUp? && s.Live() ==> Do(job, s, step).phase.Failed?
  {
  }

  /** A caller that gave the copy up sends an abort; once the bench handled it, the
      transfer and its file are gone and the sink was not called. */
  lemma AbortClears(job: Job, s: Sys)
    requires Inv(job, s) && s.phase.Failed?
    ensures var t := Do(job, s, HandleAbort).table;
            && job.id !in t.transfers && t.sunk == s.table.sunk
            && (job.id in s.table.transfers ==> s.table.transfers[job.id].path !in t.disk)
  {
    ApplyDoes(s.table, Abort(job.id));
  }

  lemma RunAppend(job: Job, s: Sys, steps: seq<Step>, step: Step)
    requires Inv(job, s)
    ensures Run(job, s, steps + [step]) == Do(job, Run(job, s, steps), step)
    decreases |steps|
  {
    if steps == [] {
      StepKeepsInv(job, s, step);
      assert ([step])[1..] == [] && Run(job, Do(job, s, step), []) == Do(job, s, step);
    } else {
      StepKeepsInv(job, s, steps[0]);
      assert (steps + [step])[1..] == steps[1..] + [step];
      RunAppend(job, Do(job, s, steps[0]), steps[1..], step);
    }
  }

  /** The bench holds the transfer and has acknowledged everything sent so far. */
  ghost predicate Healthy(job: Job, s: Sys) {
    && Inv(job, s) && job.id in s.table.transfers && !s.closeSent && AllDone(s)
    && forall i | 0 <= i < |s.sent| :: i in s.answers
  }

  lemma Extend(job: Job, s: Sys, step: Step, rest: seq<Step>) returns (steps: seq<Step>)
    requires Inv(job, s) && Inv(job, Do(job, s, step))
    ensures steps == [step] + rest && Run(job, s, steps) == Run(job, Do(job, s, step), rest)
  {
    steps := [step] + rest;
    assert steps[1..] == rest;
  }

  /** Healthy but for the newest chunk, which the bench has yet to handle. */
  ghost predicate AwaitsLast(job: Job, s: Sys) {
    && Inv(job, s) && job.id in s.table.transfers && !s.closeSent && AllDone(s)
    && |s.sent| > 0 && |s.sent| - 1 !in s.answers
    && forall i | 0 <= i < |s.sent| - 1 :: i in s.answers
  }

  lemma SendAwaitsLast(job: Job, s: Sys, size: nat)
    requires Healthy(job, s) && Enabled(job, s, SendChunk(size))
    ensures var s1 := Do(job, s, SendChunk(size)); AwaitsLast(job, s1) && |s1.sent| - 1 == |s.sent|
  {
    StepKeepsInv(job, s, SendChunk(size));
  }

  lemma LastIsAnswered(job: Job, s: Sys)
    requires s.table.Valid() && job.id in s.table.transfers && !s.closeSent && AllDone(s) && |s.sent| > 0
    requires |s.sent| - 1 !in s.answers && forall i | 0 <= i < |s.sent| - 1 :: i in s.answers
    ensures var s' := Do(job, s, HandleChunk(|s.sent| - 1));
            && job.id in s'.table.transfers && !s'.closeSent && AllDone(s')
            && forall i | 0 <= i < |s'.sent| :: i in s'.answers
  {
  }

  lemma HandleLastIsHealthy(job: Job, s: Sys)
    requires AwaitsLast(job, s)
    ensures Healthy(job, Do(job, s, HandleChunk(|s.sent| - 1)))
  {
    LastIsAnswered(job, s);
    StepKeepsInv(job, s, HandleChunk(|s.sent| - 1));
  }

  lemma OwnStaysHealthy(job: Job, s: Sys, step: Step)
    requires Healthy(job, s) && Enabled(job, s, step) && (step.DrainOldest? || step.EndOfFile?)
    ensures Healthy(job, Do(job, s, step))
  {
    StepKeepsInv(job, s, step);
  }

  lemma ClosedIsAnswered(job: Job, s: Sys)
    requires Inv(job, s) && s.phase.Closing? && s.closeAnswer.None? && job.id in s.table.transfers
    ensures var s' := Do(job, s, HandleClose(true, true));
            s'.phase.Closing? && s'.closeAnswer == Some(Done) && s'.table.Valid()
  {
  }

  lemma AnsweredReturns(job: Job, s: Sys)
    requires s.table.Valid() && s.phase.Closing? && s.closeAnswer == Some(Done)
    ensures Do(job, s, CloseAnswered).phase.Returned?
  {
  }

  lemma HandledCloseReturns(job: Job, s: Sys)
    requires Inv(job, s) && s.phase.Closing? && s.closeAnswer.None? && job.id in s.table.transfers
    ensures var s' := Do(job, s, HandleClose(true, true));
            Inv(job, s') && Inv(job, Do(job, s', CloseAnswered)) && Do(job, s', CloseAnswered).phase.Returned?
  {
    var s' := Do(job, s, HandleClose(true, true));
    ClosedIsAnswered(job, s);
    AnsweredReturns(job, s');
    StepKeepsInv(job, s, HandleClose(true, true));
    StepKeepsInv(job, s', CloseAnswered);
  }

  lemma CloseReturns(job: Job, s: Sys) returns (steps: seq<Step>)
    requires Healthy(job, s) && s.phase.Draining? && s.inFlight == []
    ensures Run(job, s, steps).phase.Returned?
  {
    var s1 := Do(job, s, SendClose);
    assert Inv(job, s1) && s1.phase.Closing? && s1.closeAnswer.None? && s1.table == s.table by {
      StepKeepsInv(job, s, SendClose);
    }
    HandledCloseReturns(job, s1);
    steps := Extend(job, Do(job, s1, HandleClose(true, true)), CloseAnswered, []);
    steps := Extend(job, s1, HandleClose(true, true), steps);
    steps := Extend(job, s, SendClose, steps);
  }

  /** One more chunk goes out and is handled. */
  lemma SentAndHandledMoves(job: Job, s: Sys, size: nat)
    requires s.table.Valid() && Enabled(job, s, SendChunk(size)) && Do(job, s, SendChunk(size)).table.Valid()
    ensures var s2 := Do(job, Do(job, s, SendChunk(size)), HandleChunk(|s.sent|));
            s2.phase == s.phase && s2.offset == s.offset + size
  {
  }

  lemma OwnMoves(job: Job, s: Sys, step: Step)
    requires Healthy(job, s) && Enabled(job, s, step) && (step.DrainOldest? || step.EndOfFile?)
    ensures var s' := Do(job, s, step);
            s'.offset == s.offset
            && if step.EndOfFile? then s'.phase.Draining? else s'.phase == s.phase && |s'.inFlight| == |s.inFlight| - 1
  {
  }

  /** From every healthy state there is a way to the end: the protocol cannot
      paint itself into a corner. */
  lemma {:induction false} CanReturn(job: Job, s: Sys) returns (steps: seq<Step>)
    requires Healthy(job, s) && (s.phase.Sending? || s.phase.Draining?)
    ensures Run(job, s, steps).phase.Returned?
    decreases s.phase.Sending?, |job.source| - s.offset, |s.inFlight|
  {
    if s.phase.Draining? && s.inFlight == [] {
      steps := CloseReturns(job, s);
    } else if s.phase.Draining? || |s.inFlight| == COPY_IN_WINDOW || s.offset == |job.source| {
      var next := if s.phase.Sending? && |s.inFlight| < COPY_IN_WINDOW then EndOfFile else DrainOldest;
      steps := CanReturnVia(job, s, next);
    } else {
      steps := CanReturnAfterSending(job, s, Min(COPY_CHUNK_BYTES, |job.source| - s.offset));
    }
  }

  lemma {:induction false} CanReturnVia(job: Job, s: Sys, next: Step) returns (steps: seq<Step>)
    requires Healthy(job, s) && Enabled(job, s, next) && (next.DrainOldest? || next.EndOfFile?)
    ensures Run(job, s, steps).phase.Returned?
    decreases s.phase.Sending?, |job.source| - s.offset, |s.inFlight|, 0
  {
    OwnStaysHealthy(job, s, next);
    OwnMoves(job, s, next);
    steps := CanReturn(job, Do(job, s, next));
    steps := Extend(job, s, next, steps);
  }

  lemma {:induction false} CanReturnAfterSending(job: Job, s: Sys, size: nat) returns (steps: seq<Step>)
    requires Healthy(job, s) && Enabled(job, s, SendChunk(size))
    ensures Run(job, s, steps).phase.Returned?
    decreases s.phase.Sending?, |job.source| - s.offset, |s.inFlight|, 0
  {
    var s1 := Do(job, s, SendChunk(size));
    SendAwaitsLast(job, s, size);
    HandleLastIsHealthy(job, s1);
    SentAndHandledMoves(job, s, size);
    steps := CanReturn(job, Do(job, s1, HandleChunk(|s.sent|)));
    steps := Extend(job, s1, HandleChunk(|s.sent|), steps);
    steps := Extend(job, s, SendChunk(size), steps);
  }

  // ---------------------------------------------------------------------
  // The caller's own code

  /** What happens around the caller while it waits: the bench's steps, and
      whether the socket still takes a request or brings the reply in time. */
  datatype Turn = Turn(bench: seq<Step>, works: bool)

  lemma BenchStepIsNotCallers(job: Job, s: Sys, step: Step)
    requires s.table.Valid() && !CallersOwn(step)
    ensures SameCaller(s, Do(job, s, step))
  {
  }

  /** What consuming a reply does to the caller. */
  lemma AwaitedStep(job: Job, s: Sys, step: Step)
    requires s.table.Valid() && Enabled(job, s, step)
    requires step.Opened? || step.CloseAnswered? || step.DrainOldest?
    ensures var s' := Do(job, s, step);
            && s'.closeSent == s.closeSent && s'.offset == s.offset && s'.sent == s.sent
            && (AllDone(s) && s.closeAnswer != Some(Refused) ==> !s'.phase.Failed?)
            && (!s'.phase.Failed? ==>
                  && (step.Opened? ==> s'.phase.Sending? && s'.inFlight == s.inFlight)
                  && (step.CloseAnswered? ==> s'.phase.Returned?)
                  && (step.DrainOldest? ==> s'.phase == s.phase && s'.inFlight == s.inFlight[1..]))
  {
  }

  /** The socket works, and in every turn the bench handles whatever it was sent and
      does nothing else; a file can be opened at `path`. */
  ghost predicate Attentive(job: Job, turn: Turn, path: TempPath) {
    && turn.works
    && (forall step | step in turn.bench :: step.HandleOpen? || step.HandleChunk? || step == HandleClose(true, true))
    && HandleOpen(path) in turn.bench && HandleClose(true, true) in turn.bench
    && forall i | 0 <= i < |job.source| :: HandleChunk(i) in turn.bench
  }

  ghost predicate Fair(job: Job, weather: nat -> Turn, path: TempPath) {
    forall n: nat {:trigger weather(n)} :: Attentive(job, weather(n), path)
  }

  /** Nothing went wrong so far. */
  ghost predicate Unharmed(s: Sys, id: TransferId, path: TempPath) {
    && AllDone(s) && s.closeAnswer != Some(Refused)
    && (!s.openHandled ==> path !in s.table.disk)
    && (s.openHandled && s.closeAnswer.None? ==> id in s.table.transfers)
  }

  /** What handling one step adds. */
  ghost predicate Handled(s: Sys, step: Step, path: TempPath) {
    && (step == HandleOpen(path) ==> s.openHandled)
    && (step.HandleChunk? && step.i < |s.sent| ==> step.i in s.answers)
    && (step.HandleClose? && s.closeSent ==> s.closeAnswer.Some?)
  }

  lemma AttentiveStep(job: Job, s: Sys, step: Step, path: TempPath)
    requires Inv(job, s) && Unharmed(s, job.id, path)
    requires step.HandleOpen? || step.HandleChunk? || step == HandleClose(true, true)
    ensures var s' := Do(job, s, step); Unharmed(s', job.id, path) && Handled(s', step, path)
    ensures forall before | Handled(s, before, path) :: Handled(Do(job, s, step), before, path)
  {
  }

  /** Every request sent so far was handled, and answered well. */
  ghost predicate CaughtUp(s: Sys) {
    s.openHandled && (forall i | 0 <= i < |s.sent| :: i in s.answers) && (s.closeSent ==> s.closeAnswer == Some(Done))
  }

  lemma {:induction false} ChunksAreFew(job: Job, sent: seq<Chunk>, offset: nat)
    requires Tiles(job, sent, offset)
    ensures |sent| <= offset
  {
    if sent != [] {
      ChunksAreFew(job, sent[..|sent| - 1], sent[|sent| - 1].offset);
    }
  }

  lemma TurnCatchesUp(job: Job, s: Sys, turn: Turn, path: TempPath)
    requires Inv(job, s) && Unharmed(s, job.id, path) && Attentive(job, turn, path)
    requires forall step | step in turn.bench :: Handled(s, step, path)
    ensures CaughtUp(s)
  {
    ChunksAreFew(job, s.sent, s.offset);
    forall i | 0 <= i < |s.sent| ensures i in s.answers { assert HandleChunk(i) in turn.bench; }
    assert Handled(s, HandleOpen(path), path) && Handled(s, HandleClose(true, true), path);
    assert s.closeAnswer.Some? ==> s.closeAnswer.value.Done?;
  }

  class CopyInCall {
    const job: Job
    const weather: nat -> Turn
    var sys: Sys
    var now: nat
    ghost const start: Sys
    ghost var trace: seq<Step>
    ghost const path: TempPath   // where the bench may open the file

    ghost predicate Valid() reads this {
      Inv(job, start) && sys == Run(job, start, trace)
    }

    /** Nothing went wrong and nothing will. */
    ghost predicate Going() reads this {
      Fair(job, weather, path) && Unharmed(sys, job.id, path)
    }

    constructor (job: Job, weather: nat -> Turn, table: Table, ghost path: TempPath)
      requires table.Valid() && job.id !in table.transfers && RunsOf(table.sunk, job.id) == []
      ensures Valid() && sys == start && Initial(job, sys) && this.job == job && sys.table == table
      ensures this.weather == weather && this.path == path
    {
      this.job, this.weather, now := job, weather, 0;
      var s := Sys(Opening, 0, [], [], false, false, map[], None, table);
      sys, start, trace, this.path := s, s, [], path;
    }

    method Take(step: Step)
      requires Valid()
      modifies this
      ensures Valid() && sys == Do(job, old(sys), step) && now == old(now)
    {
      RunAppend(job, start, trace, step);
      trace := trace + [step];
      sys := Do(job, sys, step);
    }

    method GiveUp()
      requires Valid() && sys.Live()
      modifies this
      ensures Valid() && sys.phase.Failed? && sys.closeSent == old(sys).closeSent
    {
      Take(Step.GiveUp);
    }

    /** What the schedule has the caller do is not the bench's. */
    method BenchTurn(step: Step)
      requires Valid()
      requires Going() ==> step.HandleOpen? || step.HandleChunk? || step == HandleClose(true, true)
      modifies this
      ensures Valid() && now == old(now) && SameCaller(old(sys), sys)
      ensures old(Going()) ==> Going() && Handled(sys, step, path)
      ensures old(Going()) ==> forall before {:trigger Handled(sys, before, path)} |
                Handled(old(sys), before, path) :: Handled(sys, before, path)
    {
      if CallersOwn(step) { return; }
      if Going() { AttentiveStep(job, sys, step, path); }
      BenchStepIsNotCallers(job, sys, step);
      Take(step);
    }

    method LetBenchWork(turn: Turn)
      requires Valid() && (Fair(job, weather, path) ==> Attentive(job, turn, path))
      modifies this
      ensures Valid() && now == old(now) && SameCaller(old(sys), sys)
      ensures old(Going()) ==> Going() && forall step | step in turn.bench :: Handled(sys, step, path)
    {
      for i := 0 to |turn.bench|
        invariant Valid() && now == old(now) && SameCaller(old(sys), sys)
        invariant old(Going()) ==> Going() && forall k | 0 <= k < i :: Handled(sys, turn.bench[k], path)
      {
        BenchTurn(turn.bench[i]);
      }
    }

    /** Blocks for one turn; the caller's own variables do not change meanwhile. */
    method Wait() returns (works: bool)
      requires Valid()
      modifies this
      ensures Valid() && now == old(now) + 1 && works == weather(old(now)).works
      ensures SameCaller(old(sys), sys)
      ensures old(Going()) ==> works && Going() && CaughtUp(sys)
    {
      var turn := weather(now);
      now := now + 1;
      LetBenchWork(turn);
      works := turn.works;
      if old(Going()) { TurnCatchesUp(job, sys, turn, path); }
    }

    /** Waits for the reply `step` consumes; gives the copy up when it does not come. */
    method Await(step: Step) returns (ok: bool)
      requires Valid() && sys.Live()
      requires step.Opened? || step.CloseAnswered? || step.DrainOldest?
      requires step.Opened? ==> sys.phase.Opening?
      requires step.CloseAnswered? ==> sys.phase.Closing?
      requires step.DrainOldest? ==>
                 sys.inFlight != []
                 && (sys.phase.Draining? || (sys.phase.Sending? && |sys.inFlight| == COPY_IN_WINDOW))
      modifies this
      ensures Valid() && ok == !sys.phase.Failed? && sys.closeSent == old(sys).closeSent
      ensures ok ==> sys.offset == old(sys).offset && sys.sent == old(sys).sent
      ensures ok && step.Opened? ==> sys.phase.Sending? && sys.inFlight == old(sys).inFlight
      ensures ok && step.CloseAnswered? ==> sys.phase.Returned?
      ensures ok && step.DrainOldest? ==> sys.phase == old(sys).phase && sys.inFlight == old(sys).inFlight[1..]
      ensures old(Going()) ==> ok && Going()
    {
      var arrives := Wait();
      if arrives && Enabled(job, sys, step) { Consume(step); } else { GiveUp(); }
      ok := !sys.phase.Failed?;
    }

    method Consume(step: Step)
      requires Valid() && Enabled(job, sys, step)
      requires step.Opened? || step.CloseAnswered? || step.DrainOldest?
      modifies this
      ensures Valid() && sys.closeSent == old(sys).closeSent
      ensures sys.offset == old(sys).offset && sys.sent == old(sys).sent
      ensures !sys.phase.Failed? ==>
                && (step.Opened? ==> sys.phase.Sending? && sys.inFlight == old(sys).inFlight)
                && (step.CloseAnswered? ==> sys.phase.Returned?)
                && (step.DrainOldest? ==> sys.phase == old(sys).phase && sys.inFlight == old(sys).inFlight[1..])
      ensures old(Going()) ==> !sys.phase.Failed? && Going()
    {
      AwaitedStep(job, sys, step);
      Take(step);
    }

    /** Reads and sends the whole file, draining the oldest reply whenever the
        window is full. */
    method SendChunks() returns (ok: bool)
      requires Valid() && sys.phase.Sending? && sys.inFlight == []
      modifies this
      ensures Valid() && sys.closeSent == old(sys).closeSent
      ensures ok ==> sys.phase.Sending? && sys.offset == |job.source| && |sys.inFlight| < COPY_IN_WINDOW
      ensures !ok ==> sys.phase.Failed?
      ensures old(Going()) ==> ok && Going()
    {
      while sys.offset < |job.source|
        invariant Valid() && sys.phase.Sending? && |sys.inFlight| < COPY_IN_WINDOW
        invariant sys.closeSent == old(sys).closeSent && sys.offset <= |job.source|
        invariant old(Going()) ==> Going()
        decreases |job.source| - sys.offset
      {
        ok := SendNext();
        if !ok { return; }
      }
      ok := true;
    }

    method SendNext() returns (ok: bool)
      requires Valid() && sys.phase.Sending? && |sys.inFlight| < COPY_IN_WINDOW
      requires sys.offset < |job.source|
      modifies this
      ensures Valid() && sys.closeSent == old(sys).closeSent
      ensures ok ==> sys.phase.Sending? && |sys.inFlight| < COPY_IN_WINDOW
                     && sys.offset == Min(old(sys).offset + COPY_CHUNK_BYTES, |job.source|)
      ensures !ok ==> sys.phase.Failed?
      ensures old(Going()) ==> ok && Going()
    {
      ok := Wait();
      if !ok { GiveUp(); return; }
      SendChunk(Min(COPY_CHUNK_BYTES, |job.source| - sys.offset));
      if |sys.inFlight| >= COPY_IN_WINDOW {
        ok := Await(DrainOldest);
      }
    }

    method SendChunk(size: nat)
      requires Valid() && Enabled(job, sys, Step.SendChunk(size))
      modifies this
      ensures Valid() && sys.closeSent == old(sys).closeSent && sys.phase == old(sys).phase
      ensures sys.offset == old(sys).offset + size && |sys.inFlight| == |old(sys).inFlight| + 1
      ensures old(Going()) ==> Going()
    {
      Take(Step.SendChunk(size));
    }

    method DrainAll() returns (ok: bool)
      requires Valid() && sys.phase.Draining?
      modifies this
      ensures Valid() && sys.closeSent == old(sys).closeSent
      ensures ok ==> sys.phase.Draining? && sys.inFlight == []
      ensures !ok ==> sys.phase.Failed?
      ensures old(Going()) ==> ok && Going()
    {
      ok := true;
      while sys.inFlight != []
        invariant Valid() && sys.phase.Draining? && sys.closeSent == old(sys).closeSent
        invariant old(Going()) ==> Going()
        decreases |sys.inFlight|
      {
        ok := Await(DrainOldest);
        if !ok { return; }
      }
      ok := true;
    }

    method Close() returns (ok: bool)
      requires Valid() && sys.phase.Draining? && sys.inFlight == []
      modifies this
      ensures Valid()
      ensures ok ==> sys.phase.Returned?
      ensures !ok ==> sys.phase.Failed?
      ensures old(Going()) ==> ok
    {
      ok := Wait();
      if !ok { GiveUp(); return; }
      SendClose();
      ok := Await(CloseAnswered);
    }

    method SendClose()
      requires Valid() && sys.phase.Draining? && sys.inFlight == []
      modifies this
      ensures Valid() && sys.phase.Closing? && (old(Going()) ==> Going())
    {
      Take(Step.SendClose);
    }

    method EndOfFile()
      requires Valid() && sys.phase.Sending? && sys.offset == |job.source| && |sys.inFlight| < COPY_IN_WINDOW
      modifies this
      ensures Valid() && sys.phase.Draining? && sys.closeSent == old(sys).closeSent
      ensures old(Going()) ==> Going()
    {
      Take(Step.EndOfFile);
    }

    method CopyIn() returns (ok: bool)
      requires Valid() && sys == start && Initial(job, sys)
      modifies this
      ensures Valid()
      ensures ok ==> sys.phase.Returned? && RunsOf(sys.table.sunk, job.id) == [Whole(job)]
      ensures !ok ==> sys.phase.Failed? && (!sys.closeSent ==> RunsOf(sys.table.sunk, job.id) == [])
      ensures path !in old(sys).table.disk && Fair(job, weather, path) ==> ok
    {
      ok := Transfer();
      CopyInIsExact(job, start, trace);
    }

    method Transfer() returns (ok: bool)
      requires Valid() && sys.phase.Opening? && sys.inFlight == []
      modifies this
      ensures Valid()
      ensures ok ==> sys.phase.Returned?
      ensures !ok ==> sys.phase.Failed?
      ensures old(Going()) ==> ok
    {
      ok := Await(Opened);
      if !ok { return; }
      ok := SendChunks();
      if !ok { return; }
      EndOfFile();
      ok := DrainAll();
      if !ok { return; }
      ok := Close();
    }
  }
}

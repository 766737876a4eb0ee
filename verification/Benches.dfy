/**
 Control plane and benches together: operations on different REEs interleave
 freely, assign requests travel and may be handled late, acknowledgements may be
 lost, bench processes come, die and are replaced under the same id, and the
 control plane itself may stop at any point and come back with nothing but its
 records.

 A run is any list of steps; a step that is not enabled changes nothing.
 */
module Benches {
  import opened Common
  import opened Allocation

  type ProcessId(==, !new) = nat

  /** One incarnation of a bench. Its assignment outlives it here, for reference. */
  datatype Process = Process(bench: BenchId, external: bool, alive: bool, assignment: Option<Request>)

  /** How far the operation holding a REE's lock has come. */
  datatype Stage =
    | Picked          // a bench was chosen, nothing is recorded yet
    | Made            // record requested
    | Marked          // record provisioning
    | Enrolled
    | Waiting         // record waiting for its workbench
    | MarkedReady     // record ready
    | AssignSent
    | Bound           // the bench acknowledged the assignment
    | Initialised
    | TearingDown           // about to drain the bench
    | Drained
    | MarkedDraining
    | MarkedReleased

  datatype Task = Task(request: Request, bench: BenchId, managed: bool, stage: Stage)

  datatype Answer = Answer(process: ProcessId, ok: bool)

  datatype Sys = Sys(
    ledger: Ledger,
    lives: map<AllocationId, seq<State>>,   // each record's states so far
    enrolled: set<AllocationId>,
    tasks: map<ReeId, Task>,
    used: set<AllocationId>,                // allocation ids minted so far
    processes: map<ProcessId, Process>,
    connected: map<BenchId, ProcessId>,     // who answers for a bench id
    populated: set<BenchId>,                // benches whose root is not empty
    mail: set<(Request, ProcessId)>,        // assign requests on their way
    answers: map<AllocationId, Answer>)

  const NOTHING: Sys := Sys(Ledger(map[], map[]), map[], {}, map[], {}, map[], map[], {}, {}, map[])

  datatype Step =
    // the control plane
    | StartProvision(request: Request, bench: BenchId)
    | StartReserve(request: Request, bench: BenchId)
    | StartTeardown(id: AllocationId)
    | Advance(ree: ReeId)
    | Fail(ree: ReeId, why: string)
    | Abandon(ree: ReeId)
    | RestartControlPlane
    // the benches
    | StartProcess(process: ProcessId, bench: BenchId, external: bool)
    | Connect(process: ProcessId)
    | Disconnect(bench: BenchId)
    | Die(process: ProcessId)
    | WipeRoot(bench: BenchId)
    | HandleAssign(request: Request, process: ProcessId)
    | LoseMail(request: Request, process: ProcessId)

  /** Some record that is neither released, failed nor lost names this bench. */
  predicate IsAllocated(l: Ledger, bench: BenchId) {
    exists id | id in l.allocations ::
      l.allocations[id].bench == bench
      && !l.allocations[id].state.Released? && !l.allocations[id].state.Failed? && !l.allocations[id].state.Lost?
  }

  /** The registry's pick: a connected external bench no record holds. It records
      nothing, so two reservations may pick the same one. */
  predicate CanReserve(s: Sys, bench: BenchId) {
    bench in s.connected && s.connected[bench] in s.processes && s.processes[s.connected[bench]].external
    && !IsAllocated(s.ledger, bench)
  }

  /** The state a task has brought its record to. */
  function Brought(stage: Stage): State
    requires !stage.Picked?
  {
    match stage
    case Made => Requested
    case Marked => Provisioning
    case Enrolled => Provisioning
    case Waiting => WaitingForWorkbench
    case MarkedReady => Ready
    case AssignSent => Ready
    case Bound => Ready
    case Initialised => Ready
    case _ => Draining
  }

  /** The stages whose failure is compensated. */
  predicate Compensated(t: Task) {
    t.stage.Waiting? || t.stage.MarkedReady? || t.stage.AssignSent? || t.stage.Bound? || t.stage.Initialised?
    || (t.managed && t.stage.Enrolled?)
  }

  function MoveTo(s: Sys, id: AllocationId, state: State, detail: Option<string>): Sys
    requires CanUpdate(s.ledger, id, state) && id in s.lives
  {
    s.(ledger := Updated(s.ledger, id, state, None, detail), lives := s.lives[id := s.lives[id] + [state]])
  }

  function At(s: Sys, ree: ReeId, stage: Stage): Sys
    requires ree in s.tasks
  {
    s.(tasks := s.tasks[ree := s.tasks[ree].(stage := stage)])
  }

  function Done(s: Sys, ree: ReeId): Sys {
    s.(tasks := s.tasks - {ree})
  }

  /** Moves the record and its operation, or drops the operation when the store
      refuses the move. */
  function Proceed(s: Sys, ree: ReeId, state: State, stage: Stage): Sys
    requires ree in s.tasks
  {
    var id := s.tasks[ree].request.id;
    if CanUpdate(s.ledger, id, state) && id in s.lives then At(MoveTo(s, id, state, None), ree, stage) else Done(s, ree)
  }

  predicate Reachable(s: Sys, bench: BenchId) {
    bench in s.connected && s.connected[bench] in s.processes && s.processes[s.connected[bench]].alive
  }

  /** Draining ends the process that answers for the bench, whichever it is. */
  function Stopped(s: Sys, bench: BenchId): Sys {
    if Reachable(s, bench)
    then s.(processes := s.processes[s.connected[bench] := s.processes[s.connected[bench]].(alive := false)]) else s
  }

  /** The next effect of the operation on this REE, in the manager's order. */
  function Progress(s: Sys, ree: ReeId): Sys
    requires ree in s.tasks
  {
    var t := s.tasks[ree];
    var id := t.request.id;
    match t.stage
    case Picked =>
      if CanCreate(s.ledger, t.request)
      then At(s.(ledger := Created(s.ledger, t.request, t.bench, t.managed), lives := s.lives[id := [Requested]]),
              ree, Made)
      else Done(s, ree)
    case Made =>
      if t.managed then Proceed(s, ree, Provisioning, Marked) else Proceed(s, ree, WaitingForWorkbench, Waiting)
    case Marked => At(s.(enrolled := s.enrolled + {id}), ree, Enrolled)
    case Enrolled => Proceed(s, ree, WaitingForWorkbench, Waiting)
    case Waiting => if !t.managed || t.bench in s.connected then Proceed(s, ree, Ready, MarkedReady) else s
    case MarkedReady =>
      if Reachable(s, t.bench)
      then At(s.(mail := s.mail + {(t.request, s.connected[t.bench])}), ree, AssignSent) else s
    case AssignSent => if id in s.answers && s.answers[id].ok then At(s, ree, Bound) else s
    case Bound =>
      if Reachable(s, t.bench) && s.processes[s.connected[t.bench]].assignment.Some?
      then At(s.(populated := s.populated + {t.bench}), ree, Initialised) else s
    case Initialised =>
      if CanUpdate(s.ledger, id, Assigned) && id in s.lives
      then Done(MoveTo(s, id, Assigned, None), ree) else Done(s, ree)
    case TearingDown => At(Stopped(s, t.bench), ree, Drained)
    case Drained => Proceed(s, ree, Draining, MarkedDraining)
    case MarkedDraining =>
      Proceed(Discarded(s, ree), ree, Released, MarkedReleased)
    case MarkedReleased => Done(s.(ledger := Unplaced(s.ledger, ree)), ree)
  }

  /** A managed bench's enrollment is withdrawn. */
  function Discarded(s: Sys, ree: ReeId): Sys
    requires ree in s.tasks
  {
    if s.tasks[ree].managed then s.(enrolled := s.enrolled - {s.tasks[ree].request.id}) else s
  }

  /** The handlers around a failing provision or reservation. */
  function Compensate(s: Sys, ree: ReeId, why: string): Sys
    requires ree in s.tasks
  {
    var t := s.tasks[ree];
    var id := t.request.id;
    if CanUpdate(s.ledger, id, Failed) && id in s.lives && !s.ledger.allocations[id].state.Failed?
    then Done(MoveTo(Discarded(s, ree), id, Failed, Some(why)), ree) else Done(Discarded(s, ree), ree)
  }

  predicate Enabled(s: Sys, step: Step) {
    match step
    case StartProvision(request, bench) =>
      request.ree !in s.tasks && request.id !in s.used
    case StartReserve(request, bench) =>
      request.ree !in s.tasks && request.id !in s.used && CanReserve(s, bench)
    case StartTeardown(id) => id in s.ledger.allocations && s.ledger.allocations[id].request.ree !in s.tasks
    case Advance(ree) => ree in s.tasks
    case Fail(ree, _) => ree in s.tasks && Compensated(s.tasks[ree])
    case Abandon(ree) => ree in s.tasks
    case RestartControlPlane => true
    case StartProcess(process, _, _) => process !in s.processes
    case Connect(process) => process in s.processes && s.processes[process].alive
    case Disconnect(bench) => bench in s.connected
    case Die(process) => process in s.processes
    case WipeRoot(_) => true
    case HandleAssign(request, process) =>
      (request, process) in s.mail && process in s.processes && s.processes[process].alive
    case LoseMail(_, _) => true
  }

  function Do(s: Sys, step: Step): Sys {
    if !Enabled(s, step) then s else
    match step
    case StartProvision(request, bench) =>
      s.(used := s.used + {request.id}, tasks := s.tasks[request.ree := Task(request, bench, true, Picked)])
    case StartReserve(request, bench) =>
      s.(used := s.used + {request.id}, tasks := s.tasks[request.ree := Task(request, bench, false, Picked)])
    case StartTeardown(id) =>
      var r := s.ledger.allocations[id];
      s.(tasks := s.tasks[r.request.ree := Task(r.request, r.bench, r.managed, TearingDown)])
    case Advance(ree) => Progress(s, ree)
    case Fail(ree, why) => Compensate(s, ree, why)
    case Abandon(ree) => Done(s, ree)
    case RestartControlPlane => s.(tasks := map[], enrolled := {}, connected := map[])
    case StartProcess(process, bench, external) =>
      s.(processes := s.processes[process := Process(bench, external, true, None)])
    case Connect(process) => s.(connected := s.connected[s.processes[process].bench := process])
    case Disconnect(bench) => s.(connected := s.connected - {bench})
    case Die(process) => s.(processes := s.processes[process := s.processes[process].(alive := false)])
    case WipeRoot(bench) => s.(populated := s.populated - {bench})
    case HandleAssign(request, process) =>
      var p := s.processes[process];
      var ok := Accepts(p.assignment, p.bench !in s.populated, request);
      s.(mail := s.mail - {(request, process)},
         processes := if ok then s.processes[process := p.(assignment := Some(request))] else s.processes,
         answers := s.answers[request.id := Answer(process, ok)])
    case LoseMail(request, process) => s.(mail := s.mail - {(request, process)})
  }

  /** A reservation picks exactly a bench that answers through an external process and
      that only released, failed or lost records name. */
  lemma ReservesAnIdleBench(s: Sys, request: Request, bench: BenchId)
    ensures Enabled(s, StartReserve(request, bench)) <==>
              && request.ree !in s.tasks && request.id !in s.used
              && bench in s.connected && s.connected[bench] in s.processes && s.processes[s.connected[bench]].external
              && forall id | id in s.ledger.allocations && s.ledger.allocations[id].bench == bench ::
                   var state := s.ledger.allocations[id].state; state.Released? || state.Failed? || state.Lost?
  {
  }

  /** Whatever the state, the control plane may stop and keep nothing but its records, and
      an operation may end half-way. */
  lemma ControlMayStop(s: Sys, ree: ReeId)
    ensures Do(s, RestartControlPlane) == s.(tasks := map[], enrolled := {}, connected := map[])
    ensures ree !in Do(s, Abandon(ree)).tasks && Do(s, Abandon(ree)).ledger == s.ledger
  {
  }

  /** A bench may drop off, die, lose its root or its mail. */
  lemma BenchMayFail(s: Sys, bench: BenchId, process: ProcessId, request: Request)
    ensures Do(s, Disconnect(bench)).connected == s.connected - {bench}
    ensures bench !in Do(s, WipeRoot(bench)).populated && (request, process) !in Do(s, LoseMail(request, process)).mail
    ensures process in s.processes ==> !Do(s, Die(process)).processes[process].alive
  {
  }

  /** A process answers a request at most once for each time it was sent, and only while
      it lives; a dead one cannot connect either. */
  lemma OnlyTheLivingAnswer(s: Sys, request: Request, process: ProcessId)
    ensures (request, process) !in Do(s, HandleAssign(request, process)).mail || Dead(s, process)
    ensures Dead(s, process) ==> Do(s, HandleAssign(request, process)) == s && Do(s, Connect(process)) == s
    ensures (request, process) in s.mail && !Dead(s, process) ==>
              var s' := Do(s, HandleAssign(request, process));
              && request.id in s'.answers && s'.answers[request.id].process == process
              && (s'.answers[request.id].ok <==>
                    s.processes[process].assignment == Some(request)
                    || (s.processes[process].assignment.None? && s.processes[process].bench !in s.populated))
              && (s'.answers[request.id].ok ==> s'.processes[process].assignment == Some(request))
              && (!s'.answers[request.id].ok ==> s'.processes == s.processes)
  {
  }

  predicate Dead(s: Sys, process: ProcessId) {
    process !in s.processes || !s.processes[process].alive
  }

  // ---------------------------------------------------------------------
  // The invariant, part by part: what leaves a part's components alone keeps the part

  /** What a record says for good. */
  datatype Booking = Booking(request: Request, bench: BenchId)

  type Books = map<AllocationId, Booking>

  function BooksOf(l: Ledger): Books {
    map id | id in l.allocations :: Booking(l.allocations[id].request, l.allocations[id].bench)
  }

  predicate Acked(answers: map<AllocationId, Answer>, id: AllocationId) {
    id in answers && answers[id].ok
  }

  ghost predicate RecordOk(r: Record, id: AllocationId, lives: map<AllocationId, seq<State>>, used: set<AllocationId>,
                           answers: map<AllocationId, Answer>)
  {
    && r.request.id == id && id in used
    && id in lives && Life(lives[id]) && lives[id][|lives[id]| - 1] == r.state
    && (r.state.Assigned? ==> Acked(answers, id))
  }

  ghost predicate RecordsOk(l: Ledger, lives: map<AllocationId, seq<State>>, used: set<AllocationId>,
                            answers: map<AllocationId, Answer>)
  {
    && OneLivePerRee(l)
    && forall id {:trigger RecordOk(l.allocations[id], id, lives, used, answers)} | id in l.allocations ::
         RecordOk(l.allocations[id], id, lives, used, answers)
  }

  ghost predicate AnswerOk(books: Books, processes: map<ProcessId, Process>, a: Answer, id: AllocationId) {
    && id in books
    && (a.ok ==>
          a.process in processes && processes[a.process].assignment == Some(books[id].request)
          && processes[a.process].bench == books[id].bench)
  }

  ghost predicate MailOk(books: Books, processes: map<ProcessId, Process>, answers: map<AllocationId, Answer>,
                         request: Request, process: ProcessId)
  {
    && request.id in books && books[request.id].request == request
    && process in processes && processes[process].bench == books[request.id].bench
    && request.id !in answers
  }

  ghost predicate WireOk(books: Books, processes: map<ProcessId, Process>, mail: set<(Request, ProcessId)>,
                         answers: map<AllocationId, Answer>)
  {
    && (forall id {:trigger AnswerOk(books, processes, answers[id], id)} | id in answers ::
          AnswerOk(books, processes, answers[id], id))
    && (forall m {:trigger MailOk(books, processes, answers, m.0, m.1)} | m in mail ::
          MailOk(books, processes, answers, m.0, m.1))
    && (forall m, n | m in mail && n in mail && m.0.id == n.0.id :: m == n)
  }

  /** What a process holds was recorded for its own bench. */
  ghost predicate HolderOk(books: Books, p: Process) {
    p.assignment.Some? ==>
      p.assignment.value.id in books && books[p.assignment.value.id] == Booking(p.assignment.value, p.bench)
  }

  ghost predicate HoldersOk(books: Books, processes: map<ProcessId, Process>) {
    forall p {:trigger HolderOk(books, processes[p])} | p in processes :: HolderOk(books, processes[p])
  }

  ghost predicate ConnectedOk(processes: map<ProcessId, Process>, connected: map<BenchId, ProcessId>) {
    forall bench | bench in connected :: connected[bench] in processes && processes[connected[bench]].bench == bench
  }

  /** No assign request for this allocation was sent. */
  ghost predicate Unsent(mail: set<(Request, ProcessId)>, answers: map<AllocationId, Answer>, id: AllocationId) {
    id !in answers && forall m | m in mail :: m.0.id != id
  }

  predicate BeforeSending(stage: Stage) {
    stage.Picked? || stage.Made? || stage.Marked? || stage.Enrolled? || stage.Waiting? || stage.MarkedReady?
  }

  /** The operation's record is its own, and as far as the operation brought it. */
  predicate KeepsUp(l: Ledger, ree: ReeId, t: Task) {
    var id := t.request.id;
    if t.stage.Picked? then id !in l.allocations else
    && id in l.allocations
    && l.allocations[id].request == t.request && l.allocations[id].bench == t.bench
    && l.allocations[id].managed == t.managed
    && (if t.stage.TearingDown? || t.stage.Drained? then true
        else if t.stage.MarkedReleased? then
          l.allocations[id].state.Released? && ree in l.placements && l.placements[ree] == id
        else l.allocations[id].state == Brought(t.stage))
  }

  ghost predicate TaskOk(l: Ledger, used: set<AllocationId>, mail: set<(Request, ProcessId)>,
                         answers: map<AllocationId, Answer>, ree: ReeId, t: Task)
  {
    && t.request.ree == ree && t.request.id in used && KeepsUp(l, ree, t)
    && (BeforeSending(t.stage) ==> Unsent(mail, answers, t.request.id))
    && (t.stage.Bound? || t.stage.Initialised? ==> Acked(answers, t.request.id))
  }

  ghost predicate TasksOk(l: Ledger, used: set<AllocationId>, mail: set<(Request, ProcessId)>,
                          answers: map<AllocationId, Answer>, tasks: map<ReeId, Task>)
  {
    && (forall ree {:trigger TaskOk(l, used, mail, answers, ree, tasks[ree])} | ree in tasks ::
          TaskOk(l, used, mail, answers, ree, tasks[ree]))
    && (forall ree, other | ree in tasks && other in tasks && ree != other ::
          tasks[ree].request.id != tasks[other].request.id)
  }

  ghost predicate Inv(s: Sys) {
    && RecordsOk(s.ledger, s.lives, s.used, s.answers)
    && WireOk(BooksOf(s.ledger), s.processes, s.mail, s.answers)
    && HoldersOk(BooksOf(s.ledger), s.processes)
    && ConnectedOk(s.processes, s.connected)
    && TasksOk(s.ledger, s.used, s.mail, s.answers, s.tasks)
  }

  // ---------------------------------------------------------------------
  // What each kind of change keeps

  lemma DropTask(l: Ledger, used: set<AllocationId>, mail: set<(Request, ProcessId)>,
                 answers: map<AllocationId, Answer>, tasks: map<ReeId, Task>, ree: ReeId)
    requires TasksOk(l, used, mail, answers, tasks)
    ensures TasksOk(l, used, mail, answers, tasks - {ree})
  {
  }

  lemma SetTask(l: Ledger, used: set<AllocationId>, mail: set<(Request, ProcessId)>,
                answers: map<AllocationId, Answer>, tasks: map<ReeId, Task>, ree: ReeId, t: Task)
    requires TasksOk(l, used, mail, answers, tasks - {ree}) && TaskOk(l, used, mail, answers, ree, t)
    requires forall other | other in tasks && other != ree :: tasks[other].request.id != t.request.id
    ensures TasksOk(l, used, mail, answers, tasks[ree := t])
  {
    var tasks' := tasks[ree := t];
    assert forall other | other in tasks' && other != ree ::
        other in tasks - {ree} && tasks'[other] == (tasks - {ree})[other];
  }

  lemma LifeGoesOn(path: seq<State>, state: State)
    requires Life(path) && Legal(path[|path| - 1], state)
    ensures Life(path + [state])
  {
  }

  lemma UpdateKeepsRecords(l: Ledger, lives: map<AllocationId, seq<State>>, used: set<AllocationId>,
                           answers: map<AllocationId, Answer>, id: AllocationId, state: State, detail: Option<string>)
    requires RecordsOk(l, lives, used, answers) && CanUpdate(l, id, state) && id in lives
    requires state.Assigned? ==> Acked(answers, id)
    ensures RecordsOk(Updated(l, id, state, None, detail), lives[id := lives[id] + [state]], used, answers)
  {
    assert RecordOk(l.allocations[id], id, lives, used, answers);
    LifeGoesOn(lives[id], state);
    var l', lives' := Updated(l, id, state, None, detail), lives[id := lives[id] + [state]];
    forall other | other in l'.allocations ensures RecordOk(l'.allocations[other], other, lives', used, answers) {
      assert RecordOk(l.allocations[other], other, lives, used, answers);
    }
  }

  lemma UpdateKeepsBooks(l: Ledger, id: AllocationId, state: State, detail: Option<string>)
    requires CanUpdate(l, id, state)
    ensures BooksOf(Updated(l, id, state, None, detail)) == BooksOf(l)
  {
  }

  lemma UpdateKeepsTasks(l: Ledger, used: set<AllocationId>, mail: set<(Request, ProcessId)>,
                         answers: map<AllocationId, Answer>, tasks: map<ReeId, Task>,
                         ree: ReeId, state: State, detail: Option<string>)
    requires TasksOk(l, used, mail, answers, tasks) && ree in tasks && CanUpdate(l, tasks[ree].request.id, state)
    ensures TasksOk(Updated(l, tasks[ree].request.id, state, None, detail), used, mail, answers, tasks - {ree})
  {
    var l' := Updated(l, tasks[ree].request.id, state, None, detail);
    forall other | other in tasks - {ree} ensures TaskOk(l', used, mail, answers, other, tasks[other]) {
      assert TaskOk(l, used, mail, answers, other, tasks[other]);
    }
  }

  lemma MoveKeepsRest(s: Sys, ree: ReeId, state: State, detail: Option<string>)
    requires Inv(s) && ree in s.tasks && CanUpdate(s.ledger, s.tasks[ree].request.id, state)
    requires s.tasks[ree].request.id in s.lives && (state.Assigned? ==> Acked(s.answers, s.tasks[ree].request.id))
    ensures Inv(Done(MoveTo(s, s.tasks[ree].request.id, state, detail), ree))
  {
    var id := s.tasks[ree].request.id;
    UpdateKeepsRecords(s.ledger, s.lives, s.used, s.answers, id, state, detail);
    UpdateKeepsBooks(s.ledger, id, state, detail);
    UpdateKeepsTasks(s.ledger, s.used, s.mail, s.answers, s.tasks, ree, state, detail);
  }

  lemma DoneKeepsInv(s: Sys, ree: ReeId)
    requires Inv(s)
    ensures Inv(Done(s, ree))
  {
    DropTask(s.ledger, s.used, s.mail, s.answers, s.tasks, ree);
  }

  /** The operation whose task was set aside goes on in a stage that fits. */
  lemma ResumeKeepsInv(s: Sys, ree: ReeId, t: Task)
    requires Inv(Done(s, ree)) && TaskOk(s.ledger, s.used, s.mail, s.answers, ree, t)
    requires forall other | other in s.tasks && other != ree :: s.tasks[other].request.id != t.request.id
    ensures Inv(s.(tasks := s.tasks[ree := t]))
  {
    SetTask(s.ledger, s.used, s.mail, s.answers, s.tasks, ree, t);
  }

  lemma TaskIsOk(s: Sys, ree: ReeId)
    requires Inv(s) && ree in s.tasks
    ensures TaskOk(s.ledger, s.used, s.mail, s.answers, ree, s.tasks[ree])
    ensures forall other | other in s.tasks && other != ree :: s.tasks[other].request.id != s.tasks[ree].request.id
  {
  }

  lemma StageKeepsInv(s: Sys, ree: ReeId, stage: Stage)
    requires Inv(s) && ree in s.tasks
    requires TaskOk(s.ledger, s.used, s.mail, s.answers, ree, s.tasks[ree].(stage := stage))
    ensures Inv(At(s, ree, stage))
  {
    DoneKeepsInv(s, ree);
    TaskIsOk(s, ree);
    ResumeKeepsInv(s, ree, s.tasks[ree].(stage := stage));
  }

  lemma ProceedKeepsInv(s: Sys, ree: ReeId, state: State, stage: Stage)
    requires Inv(s) && ree in s.tasks && !s.tasks[ree].stage.Picked?
    requires stage.Marked? || stage.Waiting? || stage.MarkedReady? || stage.MarkedDraining? || stage.MarkedReleased?
    requires state == if stage.MarkedReleased? then Released else Brought(stage)
    requires BeforeSending(stage) ==> BeforeSending(s.tasks[ree].stage)
    requires stage.MarkedReleased? ==> s.tasks[ree].stage.MarkedDraining?
    ensures Inv(Proceed(s, ree, state, stage))
  {
    var id := s.tasks[ree].request.id;
    if CanUpdate(s.ledger, id, state) && id in s.lives {
      TaskIsOk(s, ree);
      MoveKeepsRest(s, ree, state, None);
      if stage.MarkedReleased? { PlacedWhileDraining(s, ree); }
      ResumeKeepsInv(MoveTo(s, id, state, None), ree, s.tasks[ree].(stage := stage));
    } else {
      DoneKeepsInv(s, ree);
    }
  }

  lemma PlacedWhileDraining(s: Sys, ree: ReeId)
    requires Inv(s) && ree in s.tasks && s.tasks[ree].stage.MarkedDraining?
    ensures ree in s.ledger.placements && s.ledger.placements[ree] == s.tasks[ree].request.id
  {
    TaskIsOk(s, ree);
  }

  // ---------------------------------------------------------------------
  // The steps of an operation

  /** A new record's books only add to what was there. */
  lemma WireGrows(books: Books, more: Books, processes: map<ProcessId, Process>, mail: set<(Request, ProcessId)>,
                  answers: map<AllocationId, Answer>)
    requires WireOk(books, processes, mail, answers) && HoldersOk(books, processes)
    requires forall id | id in books :: id in more && more[id] == books[id]
    ensures WireOk(more, processes, mail, answers) && HoldersOk(more, processes)
  {
    forall id | id in answers ensures AnswerOk(more, processes, answers[id], id) {
      assert AnswerOk(books, processes, answers[id], id);
    }
    forall m | m in mail ensures MailOk(more, processes, answers, m.0, m.1) {
      assert MailOk(books, processes, answers, m.0, m.1);
    }
    forall p | p in processes ensures HolderOk(more, processes[p]) { assert HolderOk(books, processes[p]); }
  }

  lemma CreateKeepsRecords(l: Ledger, lives: map<AllocationId, seq<State>>, used: set<AllocationId>,
                           answers: map<AllocationId, Answer>, request: Request, bench: BenchId, managed: bool)
    requires RecordsOk(l, lives, used, answers) && CanCreate(l, request) && request.id in used
    ensures RecordsOk(Created(l, request, bench, managed), lives[request.id := [Requested]], used, answers)
  {
    var l', lives' := Created(l, request, bench, managed), lives[request.id := [Requested]];
    forall id | id in l'.allocations ensures RecordOk(l'.allocations[id], id, lives', used, answers) {
      if id != request.id { assert RecordOk(l.allocations[id], id, lives, used, answers); }
    }
  }

  lemma CreateKeepsTasks(l: Ledger, used: set<AllocationId>, mail: set<(Request, ProcessId)>,
                         answers: map<AllocationId, Answer>, tasks: map<ReeId, Task>, ree: ReeId)
    requires TasksOk(l, used, mail, answers, tasks) && ree in tasks && CanCreate(l, tasks[ree].request)
    requires tasks[ree].request.ree == ree
    ensures TasksOk(Created(l, tasks[ree].request, tasks[ree].bench, tasks[ree].managed), used, mail, answers,
                    tasks - {ree})
  {
    var l' := Created(l, tasks[ree].request, tasks[ree].bench, tasks[ree].managed);
    forall other | other in tasks - {ree} ensures TaskOk(l', used, mail, answers, other, tasks[other]) {
      assert TaskOk(l, used, mail, answers, other, tasks[other]);
    }
  }

  lemma CreateKeepsInv(s: Sys, ree: ReeId)
    requires Inv(s) && ree in s.tasks && s.tasks[ree].stage.Picked? && CanCreate(s.ledger, s.tasks[ree].request)
    ensures Inv(Progress(s, ree))
  {
    var t := s.tasks[ree];
    TaskIsOk(s, ree);
    var l' := Created(s.ledger, t.request, t.bench, t.managed);
    CreateKeepsRecords(s.ledger, s.lives, s.used, s.answers, t.request, t.bench, t.managed);
    WireGrows(BooksOf(s.ledger), BooksOf(l'), s.processes, s.mail, s.answers);
    CreateKeepsTasks(s.ledger, s.used, s.mail, s.answers, s.tasks, ree);
    ResumeKeepsInv(s.(ledger := l', lives := s.lives[t.request.id := [Requested]]), ree, t.(stage := Made));
  }

  lemma SendKeepsWire(books: Books, processes: map<ProcessId, Process>, mail: set<(Request, ProcessId)>,
                      answers: map<AllocationId, Answer>, request: Request, process: ProcessId)
    requires WireOk(books, processes, mail, answers) && MailOk(books, processes, answers, request, process)
    requires Unsent(mail, answers, request.id)
    ensures WireOk(books, processes, mail + {(request, process)}, answers)
  {
  }

  lemma SendKeepsTasks(l: Ledger, used: set<AllocationId>, mail: set<(Request, ProcessId)>,
                       answers: map<AllocationId, Answer>, tasks: map<ReeId, Task>, ree: ReeId, process: ProcessId)
    requires TasksOk(l, used, mail, answers, tasks) && ree in tasks
    ensures TasksOk(l, used, mail + {(tasks[ree].request, process)}, answers, tasks - {ree})
  {
    forall other | other in tasks - {ree}
      ensures TaskOk(l, used, mail + {(tasks[ree].request, process)}, answers, other, tasks[other])
    {
      assert TaskOk(l, used, mail, answers, other, tasks[other]);
    }
  }

  lemma SendIs(s: Sys, ree: ReeId)
    requires ree in s.tasks && s.tasks[ree].stage.MarkedReady? && Reachable(s, s.tasks[ree].bench)
    ensures var t := s.tasks[ree];
            Progress(s, ree) == s.(mail := s.mail + {(t.request, s.connected[t.bench])},
                                   tasks := s.tasks[ree := t.(stage := AssignSent)])
  {
  }

  lemma SendKeepsInv(s: Sys, ree: ReeId)
    requires Inv(s) && ree in s.tasks && s.tasks[ree].stage.MarkedReady? && Reachable(s, s.tasks[ree].bench)
    ensures Inv(Progress(s, ree))
  {
    SendIs(s, ree);
    MailingKeepsInv(s, ree, s.connected[s.tasks[ree].bench]);
  }

  lemma MailingKeepsInv(s: Sys, ree: ReeId, process: ProcessId)
    requires Inv(s) && ree in s.tasks && s.tasks[ree].stage.MarkedReady?
    requires process in s.processes && s.processes[process].bench == s.tasks[ree].bench
    ensures Inv(s.(mail := s.mail + {(s.tasks[ree].request, process)},
                   tasks := s.tasks[ree := s.tasks[ree].(stage := AssignSent)]))
  {
    var t := s.tasks[ree];
    TaskIsOk(s, ree);
    SendKeepsWire(BooksOf(s.ledger), s.processes, s.mail, s.answers, t.request, process);
    SendKeepsTasks(s.ledger, s.used, s.mail, s.answers, s.tasks, ree, process);
    ResumeKeepsInv(s.(mail := s.mail + {(t.request, process)}), ree, t.(stage := AssignSent));
  }

  lemma UnplacedKeepsTasks(l: Ledger, used: set<AllocationId>, mail: set<(Request, ProcessId)>,
                           answers: map<AllocationId, Answer>, tasks: map<ReeId, Task>, ree: ReeId)
    requires TasksOk(l, used, mail, answers, tasks)
    ensures TasksOk(Unplaced(l, ree), used, mail, answers, tasks - {ree})
  {
    forall other | other in tasks - {ree} ensures TaskOk(Unplaced(l, ree), used, mail, answers, other, tasks[other]) {
      assert TaskOk(l, used, mail, answers, other, tasks[other]);
    }
  }

  lemma RemovePlacementKeepsInv(s: Sys, ree: ReeId)
    requires Inv(s) && ree in s.tasks && s.tasks[ree].stage.MarkedReleased?
    ensures Inv(Progress(s, ree))
  {
    TaskIsOk(s, ree);
    UnplacedKeepsTasks(s.ledger, s.used, s.mail, s.answers, s.tasks, ree);
    assert BooksOf(Unplaced(s.ledger, ree)) == BooksOf(s.ledger);
  }

  lemma BoundKeepsInv(s: Sys, ree: ReeId)
    requires Inv(s) && ree in s.tasks && s.tasks[ree].stage.AssignSent?
    ensures Inv(Progress(s, ree))
  {
    TaskIsOk(s, ree);
    if Acked(s.answers, s.tasks[ree].request.id) { StageKeepsInv(s, ree, Bound); }
  }

  lemma InitialisedKeepsInv(s: Sys, ree: ReeId)
    requires Inv(s) && ree in s.tasks && s.tasks[ree].stage.Bound?
    ensures Inv(Progress(s, ree))
  {
    var bench := s.tasks[ree].bench;
    if Reachable(s, bench) && s.processes[s.connected[bench]].assignment.Some? {
      TaskIsOk(s, ree);
      StageKeepsInv(s.(populated := s.populated + {bench}), ree, Initialised);
    }
  }

  lemma EnrollKeepsInv(s: Sys, ree: ReeId)
    requires Inv(s) && ree in s.tasks && s.tasks[ree].stage.Marked?
    ensures Inv(Progress(s, ree))
  {
    TaskIsOk(s, ree);
    StageKeepsInv(s.(enrolled := s.enrolled + {s.tasks[ree].request.id}), ree, Enrolled);
  }

  lemma EarlyKeepsInv(s: Sys, ree: ReeId)
    requires Inv(s) && ree in s.tasks
    requires s.tasks[ree].stage.Made? || s.tasks[ree].stage.Enrolled? || s.tasks[ree].stage.Waiting?
    ensures Inv(Progress(s, ree))
  {
    var t := s.tasks[ree];
    if t.stage.Made? && t.managed {
      ProceedKeepsInv(s, ree, Provisioning, Marked);
    } else if t.stage.Waiting? {
      if !t.managed || t.bench in s.connected { ProceedKeepsInv(s, ree, Ready, MarkedReady); }
    } else {
      ProceedKeepsInv(s, ree, WaitingForWorkbench, Waiting);
    }
  }

  lemma ReleaseKeepsInv(s: Sys, ree: ReeId)
    requires Inv(s) && ree in s.tasks && s.tasks[ree].stage.MarkedDraining?
    ensures Inv(Progress(s, ree))
  {
    DiscardKeepsInv(s, ree);
    ProceedKeepsInv(Discarded(s, ree), ree, Released, MarkedReleased);
  }

  lemma DiscardKeepsInv(s: Sys, ree: ReeId)
    requires Inv(s) && ree in s.tasks
    ensures Inv(Discarded(s, ree)) && Discarded(s, ree).tasks == s.tasks
    ensures Discarded(s, ree).ledger == s.ledger && Discarded(s, ree).lives == s.lives
  {
  }

  lemma DrainIs(s: Sys, ree: ReeId)
    requires ree in s.tasks && s.tasks[ree].stage.TearingDown?
    ensures Progress(s, ree) == At(Stopped(s, s.tasks[ree].bench), ree, Drained)
  {
  }

  lemma DrainKeepsInv(s: Sys, ree: ReeId)
    requires Inv(s) && ree in s.tasks && s.tasks[ree].stage.TearingDown?
    ensures Inv(Progress(s, ree))
  {
    DrainIs(s, ree);
    DrainedIsOk(s, ree);
    StopKeepsInv(s, s.tasks[ree].bench);
    StageKeepsInv(Stopped(s, s.tasks[ree].bench), ree, Drained);
  }

  lemma DrainedIsOk(s: Sys, ree: ReeId)
    requires Inv(s) && ree in s.tasks && s.tasks[ree].stage.TearingDown?
    ensures var s' := Stopped(s, s.tasks[ree].bench);
            && s'.tasks == s.tasks
            && TaskOk(s'.ledger, s'.used, s'.mail, s'.answers, ree, s.tasks[ree].(stage := Drained))
  {
    TaskIsOk(s, ree);
  }

  lemma AssignedKeepsInv(s: Sys, ree: ReeId)
    requires Inv(s) && ree in s.tasks && s.tasks[ree].stage.Initialised?
    ensures Inv(Progress(s, ree))
  {
    TaskIsOk(s, ree);
    if CanUpdate(s.ledger, s.tasks[ree].request.id, Assigned) && s.tasks[ree].request.id in s.lives {
      MoveKeepsRest(s, ree, Assigned, None);
    } else {
      DoneKeepsInv(s, ree);
    }
  }

  lemma ProgressKeepsInv(s: Sys, ree: ReeId)
    requires Inv(s) && ree in s.tasks
    ensures Inv(Progress(s, ree))
  {
    var t := s.tasks[ree];
    match t.stage
    case Picked => if CanCreate(s.ledger, t.request) { CreateKeepsInv(s, ree); } else { DoneKeepsInv(s, ree); }
    case Marked => EnrollKeepsInv(s, ree);
    case MarkedReady => if Reachable(s, t.bench) { SendKeepsInv(s, ree); }
    case AssignSent => BoundKeepsInv(s, ree);
    case Bound => InitialisedKeepsInv(s, ree);
    case Initialised => AssignedKeepsInv(s, ree);
    case TearingDown => DrainKeepsInv(s, ree);
    case Drained => ProceedKeepsInv(s, ree, Draining, MarkedDraining);
    case MarkedDraining => ReleaseKeepsInv(s, ree);
    case MarkedReleased => RemovePlacementKeepsInv(s, ree);
    case _ => EarlyKeepsInv(s, ree);
  }

  // ---------------------------------------------------------------------
  // Compensation

  lemma CompensableIsLive(s: Sys, ree: ReeId)
    requires Inv(s) && ree in s.tasks && Compensated(s.tasks[ree])
    ensures var id := s.tasks[ree].request.id;
            && id in s.lives && CanUpdate(s.ledger, id, Failed) && !s.ledger.allocations[id].state.Failed?
            && ree in s.ledger.placements && s.ledger.placements[ree] == id
  {
    TaskIsOk(s, ree);
    var id := s.tasks[ree].request.id;
    assert RecordOk(s.ledger.allocations[id], id, s.lives, s.used, s.answers);
  }

  /** A failing provision or reservation can always be recorded: the move to
      FAILED is legal, the enrollment is gone, the REE's placement still names the
      record, and the operation is over. */
  lemma CompensationIsLegal(s: Sys, ree: ReeId, why: string)
    requires Inv(s) && ree in s.tasks && Compensated(s.tasks[ree])
    ensures var t := s.tasks[ree];
            var s' := Compensate(s, ree, why);
            && CanUpdate(s.ledger, t.request.id, Failed)
            && s'.ledger == Updated(s.ledger, t.request.id, Failed, None, Some(why))
            && (t.managed ==> t.request.id !in s'.enrolled)
            && ree in s'.ledger.placements && s'.ledger.placements[ree] == t.request.id
            && ree !in s'.tasks
  {
    CompensableIsLive(s, ree);
  }

  lemma FailKeepsInv(s: Sys, ree: ReeId, why: string)
    requires Inv(s) && ree in s.tasks && Compensated(s.tasks[ree])
    ensures Inv(Compensate(s, ree, why))
  {
    CompensableIsLive(s, ree);
    DiscardKeepsInv(s, ree);
    MoveKeepsRest(Discarded(s, ree), ree, Failed, Some(why));
  }

  // ---------------------------------------------------------------------
  // Operations begin, and the control plane stops

  lemma FreshIsUnsent(s: Sys, id: AllocationId)
    requires Inv(s) && id !in s.used
    ensures id !in s.ledger.allocations && Unsent(s.mail, s.answers, id)
  {
    assert forall other | other in s.ledger.allocations ::
        RecordOk(s.ledger.allocations[other], other, s.lives, s.used, s.answers);
    assert forall other | other in s.answers :: AnswerOk(BooksOf(s.ledger), s.processes, s.answers[other], other);
    assert forall m | m in s.mail :: MailOk(BooksOf(s.ledger), s.processes, s.answers, m.0, m.1);
  }

  lemma MoreUsed(l: Ledger, lives: map<AllocationId, seq<State>>, used: set<AllocationId>,
                 mail: set<(Request, ProcessId)>, answers: map<AllocationId, Answer>, tasks: map<ReeId, Task>,
                 id: AllocationId)
    requires RecordsOk(l, lives, used, answers) && TasksOk(l, used, mail, answers, tasks)
    ensures RecordsOk(l, lives, used + {id}, answers) && TasksOk(l, used + {id}, mail, answers, tasks)
  {
    forall other | other in l.allocations ensures RecordOk(l.allocations[other], other, lives, used + {id}, answers) {
      assert RecordOk(l.allocations[other], other, lives, used, answers);
    }
    forall ree | ree in tasks ensures TaskOk(l, used + {id}, mail, answers, ree, tasks[ree]) {
      assert TaskOk(l, used, mail, answers, ree, tasks[ree]);
    }
  }

  lemma StartKeepsInv(s: Sys, request: Request, bench: BenchId, managed: bool)
    requires Inv(s) && request.ree !in s.tasks && request.id !in s.used
    ensures Inv(s.(used := s.used + {request.id},
                   tasks := s.tasks[request.ree := Task(request, bench, managed, Picked)]))
  {
    FreshIsUnsent(s, request.id);
    assert forall other | other in s.tasks :: TaskOk(s.ledger, s.used, s.mail, s.answers, other, s.tasks[other]);
    MoreUsed(s.ledger, s.lives, s.used, s.mail, s.answers, s.tasks, request.id);
    assert s.tasks - {request.ree} == s.tasks;
    ResumeKeepsInv(s.(used := s.used + {request.id}), request.ree, Task(request, bench, managed, Picked));
  }

  lemma StartTeardownKeepsInv(s: Sys, id: AllocationId)
    requires Inv(s) && Enabled(s, StartTeardown(id))
    ensures Inv(Do(s, StartTeardown(id)))
  {
    var r := s.ledger.allocations[id];
    assert RecordOk(r, id, s.lives, s.used, s.answers);
    assert forall other | other in s.tasks :: TaskOk(s.ledger, s.used, s.mail, s.answers, other, s.tasks[other]);
    assert s.tasks - {r.request.ree} == s.tasks;
    ResumeKeepsInv(s, r.request.ree, Task(r.request, r.bench, r.managed, TearingDown));
  }

  // ---------------------------------------------------------------------
  // The benches

  /** What a process holds, and whose bench it is, stays. */
  ghost predicate SameHolding(processes: map<ProcessId, Process>, after: map<ProcessId, Process>) {
    && (forall p | p in processes ::
          p in after && after[p].bench == processes[p].bench && after[p].assignment == processes[p].assignment)
    && (forall p | p in after && p !in processes :: after[p].assignment.None?)
  }

  lemma SameHoldingKeepsWire(books: Books, processes: map<ProcessId, Process>, after: map<ProcessId, Process>,
                             mail: set<(Request, ProcessId)>, answers: map<AllocationId, Answer>)
    requires WireOk(books, processes, mail, answers) && HoldersOk(books, processes) && SameHolding(processes, after)
    ensures WireOk(books, after, mail, answers) && HoldersOk(books, after)
  {
    forall id | id in answers ensures AnswerOk(books, after, answers[id], id) {
      assert AnswerOk(books, processes, answers[id], id);
    }
    forall m | m in mail ensures MailOk(books, after, answers, m.0, m.1) {
      assert MailOk(books, processes, answers, m.0, m.1);
    }
    forall p | p in after ensures HolderOk(books, after[p]) {
      if p in processes { assert HolderOk(books, processes[p]); }
    }
  }

  lemma ProcessesKeepInv(s: Sys, after: map<ProcessId, Process>)
    requires Inv(s) && SameHolding(s.processes, after)
    ensures Inv(s.(processes := after))
  {
    SameHoldingKeepsWire(BooksOf(s.ledger), s.processes, after, s.mail, s.answers);
  }

  lemma StopKeepsInv(s: Sys, bench: BenchId)
    requires Inv(s)
    ensures Inv(Stopped(s, bench))
  {
    if Reachable(s, bench) { ProcessesKeepInv(s, Stopped(s, bench).processes); }
  }

  lemma LoseMailKeepsInv(s: Sys, m: (Request, ProcessId))
    requires Inv(s)
    ensures Inv(s.(mail := s.mail - {m}))
  {
    forall ree | ree in s.tasks ensures TaskOk(s.ledger, s.used, s.mail - {m}, s.answers, ree, s.tasks[ree]) {
      assert TaskOk(s.ledger, s.used, s.mail, s.answers, ree, s.tasks[ree]);
    }
  }

  lemma AnswerKeepsRecords(l: Ledger, lives: map<AllocationId, seq<State>>, used: set<AllocationId>,
                           answers: map<AllocationId, Answer>, id: AllocationId, a: Answer)
    requires RecordsOk(l, lives, used, answers) && id !in answers
    ensures RecordsOk(l, lives, used, answers[id := a])
  {
    forall other | other in l.allocations ensures RecordOk(l.allocations[other], other, lives, used, answers[id := a]) {
      assert RecordOk(l.allocations[other], other, lives, used, answers);
    }
  }

  lemma AnswerKeepsTasks(l: Ledger, used: set<AllocationId>, mail: set<(Request, ProcessId)>,
                         answers: map<AllocationId, Answer>, tasks: map<ReeId, Task>,
                         m: (Request, ProcessId), a: Answer)
    requires TasksOk(l, used, mail, answers, tasks) && m in mail && m.0.id !in answers
    ensures TasksOk(l, used, mail - {m}, answers[m.0.id := a], tasks)
  {
    forall ree | ree in tasks ensures TaskOk(l, used, mail - {m}, answers[m.0.id := a], ree, tasks[ree]) {
      assert TaskOk(l, used, mail, answers, ree, tasks[ree]);
    }
  }

  /** The single-assignment rule: what a process holds is never overwritten, so an
      earlier acknowledgement stays true. */
  lemma HandleAssignKeepsWire(books: Books, processes: map<ProcessId, Process>, mail: set<(Request, ProcessId)>,
                              answers: map<AllocationId, Answer>, request: Request, process: ProcessId, ok: bool)
    requires WireOk(books, processes, mail, answers) && HoldersOk(books, processes)
    requires (request, process) in mail && process in processes
    requires ok ==> processes[process].assignment.None? || processes[process].assignment == Some(request)
    ensures var after := if ok then processes[process := processes[process].(assignment := Some(request))]
                         else processes;
            && WireOk(books, after, mail - {(request, process)}, answers[request.id := Answer(process, ok)])
            && HoldersOk(books, after)
  {
    assert MailOk(books, processes, answers, request, process);
    var after := if ok then processes[process := processes[process].(assignment := Some(request))] else processes;
    var answers' := answers[request.id := Answer(process, ok)];
    forall id | id in answers' ensures AnswerOk(books, after, answers'[id], id) {
      if id != request.id { assert AnswerOk(books, processes, answers[id], id); }
    }
    forall m | m in mail - {(request, process)} ensures MailOk(books, after, answers', m.0, m.1) {
      assert m != (request, process) && m in mail && MailOk(books, processes, answers, m.0, m.1);
    }
    forall p | p in after ensures HolderOk(books, after[p]) { assert HolderOk(books, processes[p]); }
  }

  lemma HandleAssignIs(s: Sys, request: Request, process: ProcessId)
    requires Enabled(s, HandleAssign(request, process))
    ensures var p := s.processes[process];
            var ok := Accepts(p.assignment, p.bench !in s.populated, request);
            && (ok ==> p.assignment.None? || p.assignment == Some(request))
            && Do(s, HandleAssign(request, process))
               == s.(mail := s.mail - {(request, process)}, answers := s.answers[request.id := Answer(process, ok)],
                     processes := if ok then s.processes[process := p.(assignment := Some(request))] else s.processes)
  {
  }

  lemma HandleAssignKeepsInv(s: Sys, request: Request, process: ProcessId)
    requires Inv(s) && Enabled(s, HandleAssign(request, process))
    ensures Inv(Do(s, HandleAssign(request, process)))
  {
    var ok := Accepts(s.processes[process].assignment, s.processes[process].bench !in s.populated, request);
    HandleAssignIs(s, request, process);
    AnsweringKeepsInv(s, request, process, ok);
  }

  lemma AnsweringKeepsInv(s: Sys, request: Request, process: ProcessId, ok: bool)
    requires Inv(s) && (request, process) in s.mail && process in s.processes
    requires ok ==> s.processes[process].assignment.None? || s.processes[process].assignment == Some(request)
    ensures Inv(s.(mail := s.mail - {(request, process)}, answers := s.answers[request.id := Answer(process, ok)],
                   processes := if ok then s.processes[process := s.processes[process].(assignment := Some(request))]
                                else s.processes))
  {
    var m := (request, process);
    assert MailOk(BooksOf(s.ledger), s.processes, s.answers, m.0, m.1);
    AnswerKeepsRecords(s.ledger, s.lives, s.used, s.answers, request.id, Answer(process, ok));
    AnswerKeepsTasks(s.ledger, s.used, s.mail, s.answers, s.tasks, m, Answer(process, ok));
    HandleAssignKeepsWire(BooksOf(s.ledger), s.processes, s.mail, s.answers, request, process, ok);
  }

  lemma WorldKeepsInv(s: Sys, step: Step)
    requires Inv(s) && Enabled(s, step)
    requires step.RestartControlPlane? || step.StartProcess? || step.Connect? || step.Disconnect? || step.Die?
             || step.WipeRoot?
    ensures Inv(Do(s, step))
  {
    if step.StartProcess? || step.Die? { ProcessesKeepInv(s, Do(s, step).processes); }
  }

  lemma StepKeepsInv(s: Sys, step: Step)
    requires Inv(s)
    ensures Inv(Do(s, step))
  {
    if !Enabled(s, step) { return; }
    match step
    case StartProvision(request, bench) => StartKeepsInv(s, request, bench, true);
    case StartReserve(request, bench) => StartKeepsInv(s, request, bench, false);
    case StartTeardown(id) => StartTeardownKeepsInv(s, id);
    case Advance(ree) => ProgressKeepsInv(s, ree);
    case Fail(ree, why) => FailKeepsInv(s, ree, why);
    case Abandon(ree) => DoneKeepsInv(s, ree);
    case HandleAssign(request, process) => HandleAssignKeepsInv(s, request, process);
    case LoseMail(request, process) => LoseMailKeepsInv(s, (request, process));
    case _ => WorldKeepsInv(s, step);
  }

  // ---------------------------------------------------------------------
  // Whole runs

  function Run(s: Sys, steps: seq<Step>): Sys {
    if steps == [] then s else Do(Run(s, steps[..|steps| - 1]), steps[|steps| - 1])
  }

  lemma {:induction false} RunKeepsInv(steps: seq<Step>)
    ensures Inv(Run(NOTHING, steps))
  {
    if steps != [] {
      RunKeepsInv(steps[..|steps| - 1]);
      StepKeepsInv(Run(NOTHING, steps[..|steps| - 1]), steps[|steps| - 1]);
    }
  }

  predicate IsAssigned(s: Sys, id: AllocationId) {
    id in s.ledger.allocations && s.ledger.allocations[id].state.Assigned?
  }

  /** In every run: an assigned record's bench process holds exactly its request. */
  lemma AssignedIsHeld(steps: seq<Step>, a: AllocationId)
    requires IsAssigned(Run(NOTHING, steps), a)
    ensures HoldsFor(Run(NOTHING, steps), a)
  {
    var s := Run(NOTHING, steps);
    RunKeepsInv(steps);
    assert RecordOk(s.ledger.allocations[a], a, s.lives, s.used, s.answers);
    assert AnswerOk(BooksOf(s.ledger), s.processes, s.answers[a], a);
  }

  /** The process that acknowledged this allocation is one of its record's bench and
      holds its request. */
  ghost predicate HoldsFor(s: Sys, a: AllocationId) {
    && a in s.ledger.allocations && a in s.answers && s.answers[a].process in s.processes
    && var p := s.processes[s.answers[a].process];
    && p.assignment == Some(s.ledger.allocations[a].request) && p.bench == s.ledger.allocations[a].bench
    && s.ledger.allocations[a].request.id == a
  }

  /** So no two assigned records share a process. */
  lemma NoTwoShareAProcess(steps: seq<Step>, a: AllocationId, b: AllocationId)
    requires var s := Run(NOTHING, steps); IsAssigned(s, a) && IsAssigned(s, b) && a != b
    ensures var s := Run(NOTHING, steps);
            HoldsFor(s, a) && HoldsFor(s, b) && s.answers[a].process != s.answers[b].process
  {
    AssignedIsHeld(steps, a);
    AssignedIsHeld(steps, b);
  }

  /** A process of this bench has taken an assignment for this record. */
  predicate Took(s: Sys, p: ProcessId, bench: BenchId, a: AllocationId) {
    p in s.processes && s.processes[p].bench == bench
    && a in s.ledger.allocations && s.processes[p].assignment == Some(s.ledger.allocations[a].request)
  }

  /** In every run: two assigned records name one bench exactly when two different
      processes of one bench took their assignments. */
  lemma BenchIsShared(steps: seq<Step>, a: AllocationId, b: AllocationId)
    requires var s := Run(NOTHING, steps); IsAssigned(s, a) && IsAssigned(s, b) && a != b
    ensures var s := Run(NOTHING, steps);
            s.ledger.allocations[a].bench == s.ledger.allocations[b].bench
            <==> exists p, q, bench :: p != q && Took(s, p, bench, a) && Took(s, q, bench, b)
  {
    var s := Run(NOTHING, steps);
    NoTwoShareAProcess(steps, a, b);
    RunKeepsInv(steps);
    var bench := s.ledger.allocations[a].bench;
    if bench == s.ledger.allocations[b].bench {
      assert Took(s, s.answers[a].process, bench, a) && Took(s, s.answers[b].process, bench, b);
    }
    forall p, q, at | p != q && Took(s, p, at, a) && Took(s, q, at, b)
      ensures bench == s.ledger.allocations[b].bench
    {
      assert HolderOk(BooksOf(s.ledger), s.processes[p]) && HolderOk(BooksOf(s.ledger), s.processes[q]);
    }
  }

  /** So a bench serves at most one assigned record while at most one of its processes
      ever took an assignment, however many reservations picked it. */
  lemma BenchesAreExclusive(steps: seq<Step>, a: AllocationId, b: AllocationId)
    requires var s := Run(NOTHING, steps); IsAssigned(s, a) && IsAssigned(s, b) && a != b
    requires var s := Run(NOTHING, steps);
             forall p, q | p in s.processes && q in s.processes
               && s.processes[p].bench == s.processes[q].bench == s.ledger.allocations[a].bench
               && s.processes[p].assignment.Some? && s.processes[q].assignment.Some? :: p == q
    ensures var s := Run(NOTHING, steps); s.ledger.allocations[a].bench != s.ledger.allocations[b].bench
  {
    NoTwoShareAProcess(steps, a, b);
  }

  /** The bench of this assigned record is still there to serve it. */
  predicate Serves(s: Sys, a: AllocationId) {
    a in s.answers && s.answers[a].process in s.processes && s.processes[s.answers[a].process].alive
  }

  /** Draining checks nothing, so a teardown, even of an allocation released long ago,
      ends whatever answers for the bench its record names. What it takes from another
      assigned record is its process, exactly when that one answers for the bench. */
  lemma DrainTakes(steps: seq<Step>, ree: ReeId, a: AllocationId)
    requires var s := Run(NOTHING, steps);
             ree in s.tasks && s.tasks[ree].stage.TearingDown? && IsAssigned(s, a) && Serves(s, a)
    ensures var s, bench := Run(NOTHING, steps), Run(NOTHING, steps).tasks[ree].bench;
            var s' := Do(s, Advance(ree));
            && IsAssigned(s', a)
            && (!Serves(s', a) <==> bench in s.connected && s.connected[bench] == s.answers[a].process)
            && (!Serves(s', a) ==> s.ledger.allocations[a].bench == bench)
  {
    var s := Run(NOTHING, steps);
    AssignedIsHeld(steps, a);
    RunKeepsInv(steps);
    DrainIs(s, ree);
  }

  /** In every run: a REE has at most one live allocation, the one its placement
      names, and an assigned one was waiting for its workbench and then ready. */
  lemma OneLiveAllocation(steps: seq<Step>, id: AllocationId)
    requires id in Run(NOTHING, steps).ledger.allocations
    ensures var s := Run(NOTHING, steps);
            var r := s.ledger.allocations[id];
            && r.request.id == id
            && (!r.state.Released? ==> r.request.ree in s.ledger.placements && s.ledger.placements[r.request.ree] == id)
            && id in s.lives
            && (r.state.Assigned? ==>
                  exists i, j :: 0 < i < j < |s.lives[id]| - 1
                                 && s.lives[id][i] == WaitingForWorkbench && s.lives[id][j] == Ready)
  {
    var s := Run(NOTHING, steps);
    RunKeepsInv(steps);
    assert RecordOk(s.ledger.allocations[id], id, s.lives, s.used, s.answers);
    if s.ledger.allocations[id].state.Assigned? {
      AssignedWasWaitingThenReady(s.lives[id]);
    }
  }
}

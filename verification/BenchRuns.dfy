/**
 Two runs of the control plane and its benches that end where one might not expect:
 two assigned records on one bench id, and a bench stopped under an assigned record
 by the teardown of an allocation released before.
 */
module BenchRuns {
  import opened Common
  import opened Allocation
  import opened Benches

  ghost predicate Reached(s: Sys) {
    exists steps :: Run(NOTHING, steps) == s
  }

  lemma ReachStep(s: Sys, step: Step)
    requires Reached(s)
    ensures Reached(Do(s, step))
  {
    var steps :| Run(NOTHING, steps) == s;
    assert (steps + [step])[..|steps|] == steps;
    assert Run(NOTHING, steps + [step]) == Do(s, step);
  }

  lemma NothingIsReached()
    ensures Reached(NOTHING)
  {
    assert Run(NOTHING, []) == NOTHING;
  }

  const FIRST := Request(1, 1, "", "")
  const SECOND := Request(2, 2, "", "")

  /** An external reservation of bench 0 at this stage. */
  function On(request: Request, stage: Stage): Task {
    Task(request, 0, false, stage)
  }

  /** The record of an external reservation of bench 0. */
  predicate IsRecorded(s: Sys, request: Request, state: State) {
    && request.id in s.lives && request.id in s.ledger.allocations
    && s.ledger.allocations[request.id] == Record(request, state, 0, false, "", "")
  }

  /** The operation has brought its record this far. */
  predicate Stands(s: Sys, request: Request, stage: Stage, state: State) {
    request.ree in s.tasks && s.tasks[request.ree] == On(request, stage) && IsRecorded(s, request, state)
  }

  /** Nothing changed about the other reservation. */
  predicate SameFor(s: Sys, s': Sys, other: Request) {
    && (other.ree in s'.tasks <==> other.ree in s.tasks)
    && (other.ree in s.tasks ==> s'.tasks[other.ree] == s.tasks[other.ree])
    && (other.id in s'.lives <==> other.id in s.lives)
    && (other.id in s'.ledger.allocations <==> other.id in s.ledger.allocations)
    && (other.id in s.ledger.allocations ==> s'.ledger.allocations[other.id] == s.ledger.allocations[other.id])
    && (other.ree in s'.ledger.placements <==> other.ree in s.ledger.placements)
  }

  predicate SameWorld(s: Sys, s': Sys) {
    && s'.processes == s.processes && s'.connected == s.connected && s'.populated == s.populated
    && s'.mail == s.mail && s'.answers == s.answers && s'.used == s.used
  }

  predicate Apart(request: Request, other: Request) {
    request.ree != other.ree && request.id != other.id
  }

  // ---------------------------------------------------------------------
  // The steps of a reservation

  /** A new process answers for the bench. */
  lemma Arrives(s: Sys, process: ProcessId) returns (s': Sys)
    requires Reached(s) && process !in s.processes
    ensures Reached(s')
    ensures s' == s.(processes := s.processes[process := Process(0, true, true, None)],
                     connected := s.connected[0 := process])
  {
    ReachStep(s, StartProcess(process, 0, true));
    s' := Do(s, StartProcess(process, 0, true));
    ReachStep(s', Connect(process));
    s' := Do(s', Connect(process));
  }

  lemma Picks(s: Sys, request: Request) returns (s': Sys)
    requires Reached(s) && CanReserve(s, 0) && request.ree !in s.tasks && request.id !in s.used
    ensures Reached(s')
    ensures s' == s.(used := s.used + {request.id}, tasks := s.tasks[request.ree := On(request, Picked)])
  {
    ReachStep(s, StartReserve(request, 0));
    s' := Do(s, StartReserve(request, 0));
  }

  lemma Makes(s: Sys, request: Request, other: Request) returns (s': Sys)
    requires Reached(s) && request.ree in s.tasks && s.tasks[request.ree] == On(request, Picked)
    requires CanCreate(s.ledger, request) && Apart(request, other)
    ensures Reached(s') && SameWorld(s, s') && SameFor(s, s', other) && Stands(s', request, Made, Requested)
  {
    ReachStep(s, Advance(request.ree));
    s' := Do(s, Advance(request.ree));
  }

  lemma Waits(s: Sys, request: Request, other: Request) returns (s': Sys)
    requires Reached(s) && Stands(s, request, Made, Requested) && Apart(request, other)
    ensures Reached(s') && SameWorld(s, s') && SameFor(s, s', other)
    ensures Stands(s', request, Waiting, WaitingForWorkbench)
  {
    ReachStep(s, Advance(request.ree));
    s' := Do(s, Advance(request.ree));
  }

  lemma IsReady(s: Sys, request: Request, other: Request) returns (s': Sys)
    requires Reached(s) && Stands(s, request, Waiting, WaitingForWorkbench) && Apart(request, other)
    ensures Reached(s') && SameWorld(s, s') && SameFor(s, s', other)
    ensures Stands(s', request, MarkedReady, Ready)
  {
    ReachStep(s, Advance(request.ree));
    s' := Do(s, Advance(request.ree));
  }

  lemma Sends(s: Sys, request: Request, process: ProcessId, other: Request) returns (s': Sys)
    requires Reached(s) && Apart(request, other) && Stands(s, request, MarkedReady, Ready)
    requires s.connected == map[0 := process] && process in s.processes && s.processes[process].alive && s.mail == {}
    ensures Reached(s') && SameWorld(s, s'.(mail := {})) && SameFor(s, s', other)
    ensures Stands(s', request, AssignSent, Ready) && s'.mail == {(request, process)}
  {
    ReachStep(s, Advance(request.ree));
    s' := Do(s, Advance(request.ree));
  }

  lemma Handles(s: Sys, request: Request, process: ProcessId) returns (s': Sys)
    requires Reached(s) && s.mail == {(request, process)} && s.populated == {}
    requires process in s.processes && s.processes[process] == Process(0, true, true, None)
    ensures Reached(s')
    ensures s' == s.(mail := {}, processes := s.processes[process := Process(0, true, true, Some(request))],
                     answers := s.answers[request.id := Answer(process, true)])
  {
    ReachStep(s, HandleAssign(request, process));
    s' := Do(s, HandleAssign(request, process));
    assert s.mail - {(request, process)} == {};
  }

  /** The assignment is sent to the process behind the bench id, handled and acknowledged. */
  lemma Binds(s: Sys, request: Request, process: ProcessId, other: Request) returns (s': Sys)
    requires Reached(s) && Apart(request, other) && Stands(s, request, MarkedReady, Ready)
    requires s.connected == map[0 := process] && process in s.processes && s.mail == {} && s.populated == {}
    requires s.processes[process] == Process(0, true, true, None) && request.id !in s.answers
    ensures Reached(s') && Stands(s', request, Bound, Ready) && SameFor(s, s', other)
    ensures s'.connected == s.connected && s'.populated == {} && s'.mail == {}
    ensures s'.processes == s.processes[process := Process(0, true, true, Some(request))]
    ensures s'.answers == s.answers[request.id := Answer(process, true)]
  {
    var sent := Sends(s, request, process, other);
    var handled := Handles(sent, request, process);
    s' := Acknowledges(handled, request, process, other);
  }

  lemma Acknowledges(s: Sys, request: Request, process: ProcessId, other: Request) returns (s': Sys)
    requires Reached(s) && Apart(request, other) && Stands(s, request, AssignSent, Ready)
    requires request.id in s.answers && s.answers[request.id].ok
    ensures Reached(s') && SameWorld(s, s') && SameFor(s, s', other) && Stands(s', request, Bound, Ready)
  {
    ReachStep(s, Advance(request.ree));
    s' := Do(s, Advance(request.ree));
  }

  /** Initialising only asks that whatever answers for the bench be bound to something. */
  lemma Initialises(s: Sys, request: Request, other: Request) returns (s': Sys)
    requires Reached(s) && Apart(request, other) && Stands(s, request, Bound, Ready) && Reachable(s, 0)
    requires s.processes[s.connected[0]].assignment.Some?
    ensures Reached(s') && SameWorld(s, s'.(populated := s.populated)) && SameFor(s, s', other)
    ensures Stands(s', request, Initialised, Ready)
  {
    ReachStep(s, Advance(request.ree));
    s' := Do(s, Advance(request.ree));
  }

  lemma IsAssignedNow(s: Sys, request: Request, other: Request) returns (s': Sys)
    requires Reached(s) && Apart(request, other) && Stands(s, request, Initialised, Ready)
    ensures Reached(s') && SameWorld(s, s') && SameFor(s, s', other)
    ensures IsRecorded(s', request, Assigned)
  {
    ReachStep(s, Advance(request.ree));
    s' := Do(s, Advance(request.ree));
    assert s' == Done(MoveTo(s, request.id, Assigned, None), request.ree);
  }

  lemma Assigns(s: Sys, request: Request, other: Request) returns (s': Sys)
    requires Reached(s) && Apart(request, other) && Stands(s, request, Bound, Ready) && Reachable(s, 0)
    requires s.processes[s.connected[0]].assignment.Some?
    ensures Reached(s') && SameWorld(s, s'.(populated := s.populated)) && SameFor(s, s', other)
    ensures IsRecorded(s', request, Assigned)
  {
    s' := Initialises(s, request, other);
    s' := IsAssignedNow(s', request, other);
  }

  // ---------------------------------------------------------------------
  // Why it is the process, and not the bench id, that is exclusive

  /** Two reservations pick the same idle bench. */
  lemma TwoReservations() returns (s: Sys)
    ensures Reached(s) && s.tasks == map[1 := On(FIRST, Picked), 2 := On(SECOND, Picked)]
    ensures s.ledger == Ledger(map[], map[]) && s.connected == map[0 := 0]
    ensures s.processes == map[0 := Process(0, true, true, None)]
    ensures s.populated == {} && s.mail == {} && s.answers == map[]
  {
    NothingIsReached();
    s := Arrives(NOTHING, 0);
    s := Picks(s, FIRST);
    s := Picks(s, SECOND);
  }

  lemma BothMade(s: Sys) returns (s': Sys)
    requires Reached(s) && s.tasks == map[1 := On(FIRST, Picked), 2 := On(SECOND, Picked)]
    requires s.ledger == Ledger(map[], map[])
    ensures Reached(s') && SameWorld(s, s') && Stands(s', FIRST, Made, Requested) && Stands(s', SECOND, Made, Requested)
  {
    s' := Makes(s, FIRST, SECOND);
    s' := Makes(s', SECOND, FIRST);
  }

  lemma BothReady(s: Sys) returns (s': Sys)
    requires Reached(s) && Stands(s, FIRST, Made, Requested) && Stands(s, SECOND, Made, Requested)
    ensures Reached(s') && SameWorld(s, s')
    ensures Stands(s', FIRST, MarkedReady, Ready) && Stands(s', SECOND, MarkedReady, Ready)
  {
    s' := Waits(s, FIRST, SECOND);
    s' := IsReady(s', FIRST, SECOND);
    s' := Waits(s', SECOND, FIRST);
    s' := IsReady(s', SECOND, FIRST);
  }

  /** The bench's process dies and a new one answers for the bench. */
  lemma Replaced(s: Sys) returns (s': Sys)
    requires Reached(s) && s.processes == map[0 := Process(0, true, true, Some(FIRST))] && s.connected == map[0 := 0]
    ensures Reached(s') && s'.connected == map[0 := 1]
    ensures s'.processes == map[0 := Process(0, true, false, Some(FIRST)), 1 := Process(0, true, true, None)]
    ensures s' == s.(processes := s'.processes, connected := s'.connected)
  {
    ReachStep(s, Die(0));
    s' := Do(s, Die(0));
    assert s'.processes == map[0 := Process(0, true, false, Some(FIRST))];
    s' := Arrives(s', 1);
  }

  /** Two reservations pick one bench; its process acknowledges the first and dies
      before initialising it; its successor takes the second, and initialising the
      first lands there too. Both records end up assigned to one bench id. */
  lemma AReplacedProcessIsShared() returns (s: Sys)
    ensures Reached(s) && IsAssigned(s, 1) && IsAssigned(s, 2)
    ensures s.ledger.allocations[1].bench == s.ledger.allocations[2].bench
  {
    s := TwoReservations();
    s := BothMade(s);
    s := BothReady(s);
    s := Binds(s, FIRST, 0, SECOND);
    s := Replaced(s);
    s := Binds(s, SECOND, 1, FIRST);
    s := Assigns(s, FIRST, SECOND);
    s := Assigns(s, SECOND, FIRST);
  }

  // ---------------------------------------------------------------------
  // A released allocation is torn down once more

  /** There is no record but the first, and no placement but of its REE. */
  predicate OnlyFirst(s: Sys) {
    s.ledger.allocations.Keys == {1} && s.ledger.placements.Keys <= {1}
  }

  /** The first reservation is recorded and given up, and its teardown begins. */
  lemma OneIsGivenUp() returns (s: Sys)
    ensures Reached(s) && s.tasks == map[1 := On(FIRST, TearingDown)] && IsRecorded(s, FIRST, Requested)
    ensures OnlyFirst(s) && s.used == {1} && s.connected == map[0 := 0]
    ensures s.processes == map[0 := Process(0, true, true, None)]
    ensures s.populated == {} && s.mail == {} && s.answers == map[]
  {
    NothingIsReached();
    s := Arrives(NOTHING, 0);
    s := Picks(s, FIRST);
    s := MadeAndGivenUp(s);
    ReachStep(s, StartTeardown(1));
    s := Do(s, StartTeardown(1));
  }

  lemma MadeAndGivenUp(s: Sys) returns (s': Sys)
    requires Reached(s) && s.tasks == map[1 := On(FIRST, Picked)] && s.ledger == Ledger(map[], map[])
    ensures Reached(s') && SameWorld(s, s') && s'.tasks == map[] && IsRecorded(s', FIRST, Requested)
    ensures OnlyFirst(s')
  {
    ReachStep(s, Advance(1));
    s' := Do(s, Advance(1));
    ReachStep(s', Abandon(1));
    s' := Do(s', Abandon(1));
  }

  /** It ends as a teardown does: the bench stopped and the record released. */
  lemma OneIsReleased(s: Sys) returns (s': Sys)
    requires Reached(s) && s.tasks == map[1 := On(FIRST, TearingDown)] && IsRecorded(s, FIRST, Requested)
    requires OnlyFirst(s) && s.connected == map[0 := 0]
    requires s.processes == map[0 := Process(0, true, true, None)]
    ensures Reached(s') && s'.tasks == map[] && IsRecorded(s', FIRST, Released)
    ensures OnlyFirst(s')
    ensures SameWorld(s, s'.(processes := s.processes))
    ensures s'.processes == map[0 := Process(0, true, false, None)]
  {
    s' := IsDrained(s);
    s' := StartsDraining(s');
    s' := IsReleased(s');
    s' := IsUnplaced(s');
  }

  lemma IsDrained(s: Sys) returns (s': Sys)
    requires Reached(s) && s.tasks == map[1 := On(FIRST, TearingDown)] && s.connected == map[0 := 0]
    requires s.processes == map[0 := Process(0, true, true, None)]
    ensures Reached(s')
    ensures s' == s.(tasks := map[1 := On(FIRST, Drained)], processes := map[0 := Process(0, true, false, None)])
  {
    ReachStep(s, Advance(1));
    s' := Do(s, Advance(1));
  }

  lemma IsUnplaced(s: Sys) returns (s': Sys)
    requires Reached(s) && s.tasks == map[1 := On(FIRST, MarkedReleased)] && OnlyFirst(s)
    ensures Reached(s') && SameWorld(s, s') && s'.tasks == map[] && OnlyFirst(s')
    ensures s'.ledger.allocations == s.ledger.allocations && s'.lives == s.lives
  {
    ReachStep(s, Advance(1));
    s' := Do(s, Advance(1));
  }

  lemma StartsDraining(s: Sys) returns (s': Sys)
    requires Reached(s) && s.tasks == map[1 := On(FIRST, Drained)] && IsRecorded(s, FIRST, Requested) && OnlyFirst(s)
    ensures Reached(s') && SameWorld(s, s') && s'.tasks == map[1 := On(FIRST, MarkedDraining)]
    ensures IsRecorded(s', FIRST, Draining) && OnlyFirst(s')
  {
    ReachStep(s, Advance(1));
    s' := Do(s, Advance(1));
    assert s' == At(MoveTo(s, 1, Draining, None), 1, MarkedDraining);
  }

  lemma IsReleased(s: Sys) returns (s': Sys)
    requires Reached(s) && s.tasks == map[1 := On(FIRST, MarkedDraining)] && IsRecorded(s, FIRST, Draining)
    requires OnlyFirst(s)
    ensures Reached(s') && SameWorld(s, s') && s'.tasks == map[1 := On(FIRST, MarkedReleased)]
    ensures IsRecorded(s', FIRST, Released) && OnlyFirst(s')
  {
    ReachStep(s, Advance(1));
    s' := Do(s, Advance(1));
    assert s' == At(MoveTo(s, 1, Released, None), 1, MarkedReleased);
  }

  /** The bench comes back and serves another allocation. */
  lemma TheBenchServesAnother() returns (s: Sys)
    ensures Reached(s) && 1 !in s.tasks && IsRecorded(s, FIRST, Released) && IsRecorded(s, SECOND, Assigned)
    ensures s.connected == map[0 := 1] && 2 in s.answers && s.answers[2].process == 1
    ensures 1 in s.processes && s.processes[1] == Process(0, true, true, Some(SECOND))
  {
    s := OneIsGivenUp();
    s := OneIsReleased(s);
    s := Arrives(s, 1);
    s := AnotherPicks(s);
    s := Makes(s, SECOND, FIRST);
    s := Waits(s, SECOND, FIRST);
    s := IsReady(s, SECOND, FIRST);
    s := Binds(s, SECOND, 1, FIRST);
    s := Assigns(s, SECOND, FIRST);
  }

  lemma AnotherPicks(s: Sys) returns (s': Sys)
    requires Reached(s) && s.tasks == map[] && IsRecorded(s, FIRST, Released) && OnlyFirst(s)
    requires s.connected == map[0 := 1] && 1 in s.processes && s.processes[1] == Process(0, true, true, None)
    requires s.used == {1}
    ensures Reached(s') && s'.tasks == map[2 := On(SECOND, Picked)] && s'.ledger == s.ledger
    ensures SameWorld(s, s'.(used := s.used)) && s'.lives == s.lives
  {
    s' := Picks(s, SECOND);
  }

  /** The stale teardown stops the bench under an assigned record; only then is it
      refused. */
  lemma AStaleTeardownStopsABench() returns (s: Sys)
    ensures Reached(s) && IsRecorded(s, FIRST, Released) && IsAssigned(s, 2) && Serves(s, 2)
    ensures 1 in s.tasks && s.tasks[1].stage.TearingDown?
    ensures var s' := Do(s, Advance(1));
            IsAssigned(s', 2) && !Serves(s', 2) && Do(s', Advance(1)) == Done(s', 1)
  {
    s := TheBenchServesAnother();
    s := IsTornDownAgain(s);
    IsRefused(s);
  }

  lemma IsTornDownAgain(s: Sys) returns (s': Sys)
    requires Reached(s) && 1 !in s.tasks && IsRecorded(s, FIRST, Released)
    ensures Reached(s') && s' == s.(tasks := s.tasks[1 := On(FIRST, TearingDown)])
  {
    ReachStep(s, StartTeardown(1));
    s' := Do(s, StartTeardown(1));
  }

  lemma IsRefused(s: Sys)
    requires 1 in s.tasks && s.tasks[1] == On(FIRST, TearingDown) && IsRecorded(s, FIRST, Released)
    requires IsRecorded(s, SECOND, Assigned)
    requires s.connected == map[0 := 1] && 2 in s.answers && s.answers[2].process == 1
    requires 1 in s.processes && s.processes[1].alive
    ensures var s' := Do(s, Advance(1));
            IsAssigned(s', 2) && !Serves(s', 2) && Do(s', Advance(1)) == Done(s', 1)
  {
  }
}

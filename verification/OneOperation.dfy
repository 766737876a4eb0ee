/**
 One operation from its start to its end while nothing else happens: the step system
 leaves behind what the manager's own methods promise.
 */
module OneOperation {
  import opened Common
  import opened Allocation
  import opened Benches

  function Steps(s: Sys, steps: seq<Step>): Sys
    decreases |steps|
  {
    if steps == [] then s else Steps(Do(s, steps[0]), steps[1..])
  }

  lemma {:induction false} Then(s: Sys, before: seq<Step>, step: Step) returns (steps: seq<Step>)
    ensures steps == before + [step] && Steps(s, steps) == Do(Steps(s, before), step)
    decreases |before|
  {
    steps := before + [step];
    if before == [] {
      assert steps[1..] == [];
    } else {
      var rest := Then(Do(s, before[0]), before[1..], step);
      assert steps[1..] == rest;
    }
  }

  lemma SetTwice<K, V>(m: map<K, V>, k: K, a: V, b: V)
    ensures m[k := a][k := b] == m[k := b]
  {
  }

  lemma SetAndDrop<K, V>(m: map<K, V>, k: K, a: V)
    requires k !in m
    ensures m[k := a] - {k} == m
  {
  }

  /** Where the record of a managed operation stands in a world that is else `s`. */
  function On(s: Sys, request: Request, bench: BenchId, state: State, life: seq<State>): Sys {
    s.(ledger := Ledger(s.ledger.allocations[request.id := Record(request, state, bench, true, "", "")],
                        s.ledger.placements[request.ree := request.id]),
       lives := s.lives[request.id := life], used := s.used + {request.id})
  }

  function Busy(s: Sys, request: Request, bench: BenchId, stage: Stage): Sys {
    s.(tasks := s.tasks[request.ree := Task(request, bench, true, stage)])
  }

  function Mid(s: Sys, request: Request, bench: BenchId, stage: Stage, state: State, life: seq<State>): Sys {
    Busy(On(s, request, bench, state, life), request, bench, stage)
  }

  // ---------------------------------------------------------------------
  // A provision

  /** An operation may start on this REE, with an id nobody used. */
  ghost predicate Startable(s: Sys, request: Request) {
    Inv(s) && request.ree !in s.tasks && request.id !in s.used && request.ree !in s.ledger.placements
  }

  /** A live process that serves nobody answers for the bench, whose root is empty. */
  ghost predicate Waits(s: Sys, bench: BenchId, p: ProcessId) {
    && bench in s.connected && s.connected[bench] == p && p in s.processes && s.processes[p].alive
    && s.processes[p].bench == bench && s.processes[p].assignment.None? && bench !in s.populated
  }

  lemma IsMade(s: Sys, request: Request, bench: BenchId)
    requires Startable(s, request)
    ensures Do(Do(s, StartProvision(request, bench)), Advance(request.ree))
            == Mid(s, request, bench, Made, Requested, [Requested])
  {
    KnownIsUsed(s);
  }

  /** What is recorded, answered or on its way carries an id that was minted. */
  lemma KnownIsUsed(s: Sys)
    requires Inv(s)
    ensures s.ledger.allocations.Keys <= s.used && s.answers.Keys <= s.ledger.allocations.Keys
    ensures forall m | m in s.mail :: m.0.id in s.ledger.allocations
  {
    var books := BooksOf(s.ledger);
    forall id | id in s.ledger.allocations ensures id in s.used {
      assert RecordOk(s.ledger.allocations[id], id, s.lives, s.used, s.answers);
    }
    forall id | id in s.answers ensures id in s.ledger.allocations {
      assert AnswerOk(books, s.processes, s.answers[id], id);
    }
    forall m | m in s.mail ensures m.0.id in s.ledger.allocations {
      assert MailOk(books, s.processes, s.answers, m.0, m.1);
    }
  }

  /** The record moves on, and the operation with it. */
  lemma Moves(s: Sys, request: Request, bench: BenchId, from: Stage, state: State, life: seq<State>, to: Stage,
              next: State)
    requires Legal(state, next)
    ensures Proceed(Mid(s, request, bench, from, state, life), request.ree, next, to)
            == Mid(s, request, bench, to, next, life + [next])
  {
    var m := Mid(s, request, bench, from, state, life);
    RecordMoves(m.ledger, request, bench, state, next);
    SetTwice(s.ledger.allocations, request.id, Record(request, state, bench, true, "", ""),
             Record(request, next, bench, true, "", ""));
    SetTwice(s.lives, request.id, life, life + [next]);
    SetTwice(s.tasks, request.ree, Task(request, bench, true, from), Task(request, bench, true, to));
    assert Proceed(m, request.ree, next, to) == At(MoveTo(m, request.id, next, None), request.ree, to);
  }

  lemma RecordMoves(l: Ledger, request: Request, bench: BenchId, state: State, next: State)
    requires request.id in l.allocations && l.allocations[request.id] == Record(request, state, bench, true, "", "")
    requires Legal(state, next)
    ensures CanUpdate(l, request.id, next)
    ensures Updated(l, request.id, next, None, None)
            == l.(allocations := l.allocations[request.id := Record(request, next, bench, true, "", "")])
  {
  }

  lemma IsMarked(s: Sys, request: Request, bench: BenchId)
    ensures Do(Mid(s, request, bench, Made, Requested, [Requested]), Advance(request.ree))
            == Mid(s, request, bench, Marked, Provisioning, [Requested, Provisioning])
  {
    Moves(s, request, bench, Made, Requested, [Requested], Marked, Provisioning);
    assert [Requested] + [Provisioning] == [Requested, Provisioning];
  }

  lemma IsEnrolled(s: Sys, request: Request, bench: BenchId, life: seq<State>)
    ensures Do(Mid(s, request, bench, Marked, Provisioning, life), Advance(request.ree))
            == Mid(s.(enrolled := s.enrolled + {request.id}), request, bench, Enrolled, Provisioning, life)
  {
    SetTwice(s.tasks, request.ree, Task(request, bench, true, Marked), Task(request, bench, true, Enrolled));
  }

  lemma IsReady(s: Sys, request: Request, bench: BenchId, life: seq<State>)
    requires bench in s.connected
    ensures var go := Advance(request.ree);
            Do(Do(Mid(s, request, bench, Enrolled, Provisioning, life), go), go)
            == Mid(s, request, bench, MarkedReady, Ready, life + [WaitingForWorkbench] + [Ready])
  {
    Moves(s, request, bench, Enrolled, Provisioning, life, Waiting, WaitingForWorkbench);
    Moves(s, request, bench, Waiting, WaitingForWorkbench, life + [WaitingForWorkbench], MarkedReady, Ready);
  }

  /** The request goes out to the process that answers for the bench. */
  lemma IsSent(s: Sys, request: Request, bench: BenchId, p: ProcessId, life: seq<State>)
    requires Waits(s, bench, p)
    ensures Do(Mid(s, request, bench, MarkedReady, Ready, life), Advance(request.ree))
            == Mid(s.(mail := s.mail + {(request, p)}), request, bench, AssignSent, Ready, life)
  {
  }

  /** The process takes the assignment. */
  lemma IsTaken(s: Sys, request: Request, bench: BenchId, p: ProcessId, life: seq<State>)
    requires Waits(s, bench, p) && (request, p) !in s.mail
    ensures Do(Mid(s.(mail := s.mail + {(request, p)}), request, bench, AssignSent, Ready, life),
               HandleAssign(request, p))
            == Mid(Taken(s, request, p), request, bench, AssignSent, Ready, life)
  {
    assert s.mail + {(request, p)} - {(request, p)} == s.mail;
  }

  /** The manager learns of it. */
  lemma IsBound(s: Sys, request: Request, bench: BenchId, life: seq<State>)
    requires request.id in s.answers && s.answers[request.id].ok
    ensures Do(Mid(s, request, bench, AssignSent, Ready, life), Advance(request.ree))
            == Mid(s, request, bench, Bound, Ready, life)
  {
  }

  /** The process holds the request and said so. */
  function Taken(s: Sys, request: Request, p: ProcessId): Sys
    requires p in s.processes
  {
    s.(processes := s.processes[p := s.processes[p].(assignment := Some(request))],
       answers := s.answers[request.id := Answer(p, true)])
  }

  lemma IsInitialised(s: Sys, request: Request, bench: BenchId, life: seq<State>)
    requires Reachable(s, bench) && s.processes[s.connected[bench]].assignment.Some?
    ensures Do(Mid(s, request, bench, Bound, Ready, life), Advance(request.ree))
            == Mid(s.(populated := s.populated + {bench}), request, bench, Initialised, Ready, life)
  {
  }

  lemma IsAssigned(s: Sys, request: Request, bench: BenchId, life: seq<State>)
    requires request.ree !in s.tasks
    ensures Do(Mid(s, request, bench, Initialised, Ready, life), Advance(request.ree))
            == On(s, request, bench, Assigned, life + [Assigned])
  {
    var m := Mid(s, request, bench, Initialised, Ready, life);
    RecordMoves(m.ledger, request, bench, Ready, Assigned);
    SetTwice(s.ledger.allocations, request.id, Record(request, Ready, bench, true, "", ""),
             Record(request, Assigned, bench, true, "", ""));
    SetTwice(s.lives, request.id, life, life + [Assigned]);
    SetAndDrop(s.tasks, request.ree, Task(request, bench, true, Initialised));
    assert Do(m, Advance(request.ree)) == Done(MoveTo(m, request.id, Assigned, None), request.ree);
  }

  const PROVISION: seq<State> := [Requested, Provisioning, WaitingForWorkbench, Ready, Assigned]

  /** The world after a provision nothing disturbed. */
  function Provisioned(s: Sys, request: Request, bench: BenchId, p: ProcessId): Sys
    requires p in s.processes
  {
    On(Taken(s, request, p).(enrolled := s.enrolled + {request.id}, populated := s.populated + {bench}),
       request, bench, Assigned, PROVISION)
  }

  lemma UpToEnrolled(s: Sys, request: Request, bench: BenchId) returns (steps: seq<Step>)
    requires Startable(s, request)
    ensures Steps(s, steps) == Mid(s.(enrolled := s.enrolled + {request.id}), request, bench, Enrolled, Provisioning,
                                   [Requested, Provisioning])
  {
    var go := Advance(request.ree);
    steps := Then(s, [], StartProvision(request, bench));
    steps := Then(s, steps, go);
    IsMade(s, request, bench);
    steps := Then(s, steps, go);
    IsMarked(s, request, bench);
    steps := Then(s, steps, go);
    IsEnrolled(s, request, bench, [Requested, Provisioning]);
  }

  lemma UpToReady(s: Sys, request: Request, bench: BenchId) returns (steps: seq<Step>)
    requires Startable(s, request) && bench in s.connected
    ensures Steps(s, steps) == Mid(s.(enrolled := s.enrolled + {request.id}), request, bench, MarkedReady, Ready,
                                   [Requested, Provisioning, WaitingForWorkbench, Ready])
  {
    var go := Advance(request.ree);
    steps := UpToEnrolled(s, request, bench);
    steps := Then(s, steps, go);
    steps := Then(s, steps, go);
    IsReady(s.(enrolled := s.enrolled + {request.id}), request, bench, [Requested, Provisioning]);
    assert [Requested, Provisioning] + [WaitingForWorkbench] + [Ready]
      == [Requested, Provisioning, WaitingForWorkbench, Ready];
  }

  lemma UpToBound(s: Sys, request: Request, bench: BenchId, p: ProcessId) returns (steps: seq<Step>)
    requires Startable(s, request) && Waits(s, bench, p)
    ensures Steps(s, steps) == Mid(Taken(s.(enrolled := s.enrolled + {request.id}), request, p), request, bench, Bound,
                                   Ready, [Requested, Provisioning, WaitingForWorkbench, Ready])
  {
    var go, enrolled := Advance(request.ree), s.(enrolled := s.enrolled + {request.id});
    var life := [Requested, Provisioning, WaitingForWorkbench, Ready];
    KnownIsUsed(s);
    steps := UpToReady(s, request, bench);
    steps := Then(s, steps, go);
    IsSent(enrolled, request, bench, p, life);
    steps := Then(s, steps, HandleAssign(request, p));
    IsTaken(enrolled, request, bench, p, life);
    steps := Then(s, steps, go);
    IsBound(Taken(enrolled, request, p), request, bench, life);
  }

  /** A provision nothing disturbs ends as `WorkbenchManager.Provision` says: assigned,
      placed and enrolled, its bench holding the request, and nothing else changed. */
  lemma ProvisionSucceeds(s: Sys, request: Request, bench: BenchId, p: ProcessId) returns (steps: seq<Step>)
    requires Startable(s, request) && Waits(s, bench, p)
    ensures Steps(s, steps) == Provisioned(s, request, bench, p)
  {
    var go, taken := Advance(request.ree), Taken(s.(enrolled := s.enrolled + {request.id}), request, p);
    var life := [Requested, Provisioning, WaitingForWorkbench, Ready];
    steps := UpToBound(s, request, bench, p);
    steps := Then(s, steps, go);
    IsInitialised(taken, request, bench, life);
    steps := Then(s, steps, go);
    IsAssigned(taken.(populated := s.populated + {bench}), request, bench, life);
    assert life + [Assigned] == PROVISION;
  }

  /** The record failed for this reason, and its enrollment is gone. */
  function Failing(s: Sys, request: Request, bench: BenchId, life: seq<State>, why: string): Sys {
    s.(ledger := Ledger(s.ledger.allocations[request.id := Record(request, Failed, bench, true, "", why)],
                        s.ledger.placements[request.ree := request.id]),
       lives := s.lives[request.id := life], used := s.used + {request.id}, enrolled := s.enrolled - {request.id})
  }

  lemma RecordFails(l: Ledger, request: Request, bench: BenchId, state: State, why: string)
    requires request.id in l.allocations && l.allocations[request.id] == Record(request, state, bench, true, "", "")
    requires Follows(state, Failed)
    ensures CanUpdate(l, request.id, Failed)
    ensures Updated(l, request.id, Failed, None, Some(why))
            == l.(allocations := l.allocations[request.id := Record(request, Failed, bench, true, "", why)])
  {
  }

  /** A failure at any time between enrolling and being assigned ends as
      `WorkbenchManager.Compensate` says: the record failed with the reason, the
      enrollment withdrawn, the operation over. */
  lemma FailureIsCompensated(s: Sys, request: Request, bench: BenchId, stage: Stage, state: State, life: seq<State>,
                             why: string)
    requires stage.Enrolled? || stage.Waiting? || stage.MarkedReady? || stage.AssignSent? || stage.Bound?
             || stage.Initialised?
    requires Follows(state, Failed) && request.ree !in s.tasks
    ensures Do(Mid(s, request, bench, stage, state, life), Fail(request.ree, why))
            == Failing(s, request, bench, life + [Failed], why)
  {
    var m := Mid(s, request, bench, stage, state, life);
    RecordFails(m.ledger, request, bench, state, why);
    SetTwice(s.ledger.allocations, request.id, Record(request, state, bench, true, "", ""),
             Record(request, Failed, bench, true, "", why));
    SetTwice(s.lives, request.id, life, life + [Failed]);
    SetAndDrop(s.tasks, request.ree, Task(request, bench, true, stage));
    assert Do(m, Fail(request.ree, why))
      == Done(MoveTo(Discarded(m, request.ree), request.id, Failed, Some(why)), request.ree);
  }

  // ---------------------------------------------------------------------
  // A teardown

  lemma StartsTeardown(s: Sys, request: Request, bench: BenchId, state: State, life: seq<State>)
    requires request.ree !in s.tasks
    ensures Do(On(s, request, bench, state, life), StartTeardown(request.id))
            == Mid(s, request, bench, TearingDown, state, life)
  {
  }

  lemma Drains(s: Sys, request: Request, bench: BenchId, state: State, life: seq<State>)
    ensures Do(Mid(s, request, bench, TearingDown, state, life), Advance(request.ree))
            == Mid(Stopped(s, bench), request, bench, Drained, state, life)
  {
    var m := Mid(s, request, bench, TearingDown, state, life);
    SetTwice(s.tasks, request.ree, Task(request, bench, true, TearingDown), Task(request, bench, true, Drained));
    assert Stopped(m, bench) == Mid(Stopped(s, bench), request, bench, TearingDown, state, life);
  }

  lemma IsReleased(s: Sys, request: Request, bench: BenchId, life: seq<State>)
    ensures Do(Mid(s, request, bench, MarkedDraining, Draining, life), Advance(request.ree))
            == Mid(s.(enrolled := s.enrolled - {request.id}), request, bench, MarkedReleased, Released,
                   life + [Released])
  {
    Moves(s.(enrolled := s.enrolled - {request.id}), request, bench, MarkedDraining, Draining, life, MarkedReleased,
          Released);
  }

  /** What is left once the placement is gone. */
  function Forgotten(s: Sys, request: Request): Sys {
    s.(ledger := s.ledger.(placements := s.ledger.placements - {request.ree}))
  }

  lemma IsForgotten(s: Sys, request: Request, bench: BenchId, life: seq<State>)
    requires request.ree !in s.tasks
    ensures Do(Mid(s, request, bench, MarkedReleased, Released, life), Advance(request.ree))
            == Forgotten(On(s, request, bench, Released, life), request)
  {
    SetAndDrop(s.tasks, request.ree, Task(request, bench, true, MarkedReleased));
  }

  lemma UpToDraining(s: Sys, request: Request, bench: BenchId, state: State, life: seq<State>)
    returns (steps: seq<Step>)
    requires request.ree !in s.tasks && Follows(state, Draining)
    ensures Steps(On(s, request, bench, state, life), steps)
            == Mid(Stopped(s, bench), request, bench, MarkedDraining, Draining, life + [Draining])
  {
    var go, start := Advance(request.ree), On(s, request, bench, state, life);
    steps := Then(start, [], StartTeardown(request.id));
    StartsTeardown(s, request, bench, state, life);
    steps := Then(start, steps, go);
    Drains(s, request, bench, state, life);
    steps := Then(start, steps, go);
    Moves(Stopped(s, bench), request, bench, Drained, state, life, MarkedDraining, Draining);
  }

  /** A teardown nothing disturbs ends as `WorkbenchManager.Teardown` says: the process
      that answers for the bench is stopped, the record released, the enrollment and the
      placement gone. */
  lemma TeardownSucceeds(s: Sys, request: Request, bench: BenchId, state: State, life: seq<State>)
    returns (steps: seq<Step>)
    requires request.ree !in s.tasks && Follows(state, Draining)
    ensures var gone := Stopped(s, bench).(enrolled := s.enrolled - {request.id});
            Steps(On(s, request, bench, state, life), steps)
            == Forgotten(On(gone, request, bench, Released, life + [Draining] + [Released]), request)
  {
    var go, start, stopped := Advance(request.ree), On(s, request, bench, state, life), Stopped(s, bench);
    steps := UpToDraining(s, request, bench, state, life);
    steps := Then(start, steps, go);
    IsReleased(stopped, request, bench, life + [Draining]);
    steps := Then(start, steps, go);
    IsForgotten(stopped.(enrolled := s.enrolled - {request.id}), request, bench, life + [Draining] + [Released]);
  }
}
